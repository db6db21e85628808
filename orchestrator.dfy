/** The older orchestrator: for one council, find the committee pages, then for each committee
    its meetings, for each meeting with an agenda its triage and, when relevant, the analysis of
    the joined extract; each committee that has meetings gets one call of the result sink with
    all its schemes. The phases run inline over the older reply type; the triage here returns on
    the first verdict. Every generator call is numbered across the whole council. */
module Orchestrator {
  import opened Wrappers
  import opened Text
  import opened JsonValues
  import opened PhaseResponses
  import Prompts
  import Phase
  import Triage
  import ItemMap
  import FindCommitteePages

  const DefaultMaxIterations: int := 5
  const DefaultMaxPhase3Iterations: int := 10

  datatype CouncilConfig = CouncilConfig(name: string, siteUrl: string, committees: seq<string>,
                                         dateFrom: Option<string>, dateTo: Option<string>)

  /** The phase 3 prompt builder, given the agenda URL, the page, the carried reason and the items. */
  type TriagePromptBuilder = (string, string, Option<string>, seq<TriagedItem>) -> Prompts.Prompt

  /** What the orchestrator works with: the page fetcher, the generator's parsed replies by call
      number, the phase 3 prompt builder and its two iteration limits. */
  datatype Env = Env(fetch: string -> Option<Phase.Page>, replies: nat -> Option<PhaseResponse>,
                     build3: TriagePromptBuilder, maxIterations: int, maxPhase3Iterations: int)

  /** One call of `resultProcessor.process`. */
  datatype SinkCall = SinkCall(council: string, committee: string, schemes: seq<Scheme>)

  // ---------------------------------------------------------------- parseResponse

  /** `parseResponse`: the same fence stripping as the phases, then decode-or-nothing into the
      older reply type. */
  function ParseResponse(raw: string, tokenize: string -> Option<Json>): (r: Option<PhaseResponse>)
    ensures r.Some? <==> tokenize(Phase.Cleanup(raw)).Some? && DecodeResponse(tokenize(Phase.Cleanup(raw)).value).Some?
    ensures r.Some? ==> r == DecodeResponse(tokenize(Phase.Cleanup(raw)).value)
  {
    match tokenize(Phase.Cleanup(raw))
    case None => None
    case Some(j) => DecodeResponse(j)
  }

  /** A reply fenced as a JSON code block is read from its trimmed body, as in the phases. */
  lemma FencedReplyParses(body: string, tokenize: string -> Option<Json>)
    requires body == [] || body[0] != '`'
    ensures ParseResponse("```json" + body + "```", tokenize)
         == (match tokenize(Trim(body)) case None => None case Some(j) => DecodeResponse(j))
  {
    Phase.CleanupFencedJson(body);
  }

  // ---------------------------------------------------------------- the inline phases

  function FetchUrls(r: PhaseResponse): Option<seq<string>> {
    if r.Fetch? then Some(r.urls) else None
  }

  function OrchestratorProtocol(): Phase.Protocol<PhaseResponse> {
    Phase.Protocol(ResolveUrls, FetchUrls)
  }

  /** `findCommitteePages`' `extractResult`. */
  function ExtractCommittees(r: PhaseResponse): (m: Option<map<string, string>>)
    ensures m.Some? <==> r.CommitteePagesFound?
  {
    if r.CommitteePagesFound? then Some(FindCommitteePages.Associate(r.committees)) else None
  }

  /** `findMeetings`' `extractResult`. */
  function ExtractMeetings(r: PhaseResponse): (m: Option<seq<Meeting>>)
    ensures m.Some? <==> r.MeetingsFound?
    ensures m.Some? ==> m.value == r.meetings
  {
    if r.MeetingsFound? then Some(r.meetings) else None
  }

  function CommitteeSetup(env: Env, names: seq<string>): Phase.Setup<PhaseResponse, map<string, string>> {
    Phase.Setup(env.fetch, env.replies, OrchestratorProtocol(), (text: string) => Prompts.Phase1Prompt(names, text), ExtractCommittees)
  }

  function MeetingsSetup(env: Env, committee: string, dateFrom: string, dateTo: string): Phase.Setup<PhaseResponse, seq<Meeting>> {
    Phase.Setup(env.fetch, env.replies, OrchestratorProtocol(),
                (text: string) => Prompts.Phase2Prompt(committee, dateFrom, dateTo, text), ExtractMeetings)
  }

  /** How `triageAgenda` reads a resolved reply. */
  function ReadReply(r: PhaseResponse): (reading: Triage.Reading)
    ensures reading.Verdict? <==> r.AgendaTriaged?
    ensures reading.MoreDocuments? <==> r.AgendaFetch?
    ensures reading.Verdict? ==> reading.items == r.items
    ensures reading.MoreDocuments? ==> reading == Triage.MoreDocuments(r.urls, r.reason, r.items)
  {
    match r
    case AgendaTriaged(_, items) => Triage.Verdict(items)
    case AgendaFetch(urls, reason, items) => Triage.MoreDocuments(urls, reason, items)
    case _ => Triage.Unexpected
  }

  /** `triageAgenda` is the triage loop without draining: the first verdict ends it. */
  function TriageSetupFor(env: Env, agendaUrl: string): Triage.TriageSetup<PhaseResponse> {
    Triage.TriageSetup(env.fetch, env.replies, Triage.TriageProtocol(ResolveUrls, ReadReply),
                       (text: string, reason: Option<string>, items: seq<TriagedItem>) => env.build3(agendaUrl, text, reason, items),
                       false)
  }

  function FinishTriage(out: Option<Triage.Outcome<PhaseResponse>>): (r: Option<PhaseResponse>)
    ensures r.Some? ==> r.value.AgendaTriaged?
    ensures r.Some? <==> out.Some? && (out.value.Answered? ==> out.value.response.AgendaTriaged?)
    ensures r.Some? ==> r.value.items == out.value.items
    ensures r.Some? && out.value.Exhausted? ==> r.value == AgendaTriaged(true, out.value.items)
    ensures r.Some? && out.value.Answered? ==> r.value.relevant == out.value.response.relevant
  {
    match out
    case None => None
    case Some(Answered(response, items)) =>
      if response.AgendaTriaged? then Some(AgendaTriaged(response.relevant, items)) else None
    case Some(Exhausted(items)) => Some(AgendaTriaged(true, items))
  }

  function TriageRunFor(env: Env, agendaUrl: string, calls: nat): Triage.TriageRun<PhaseResponse> {
    Triage.Tri(TriageSetupFor(env, agendaUrl), [agendaUrl], Phase.Budget(env.maxPhase3Iterations), calls, [], None)
  }

  /** The prompt of `analyzeExtract`'s call: the extract is the whole user text. */
  function AnalysisPrompt(extract: string): (p: Prompts.Prompt)
    ensures p.user == extract
  {
    Prompts.Phase4Prompt(extract)
  }

  /** `analyzeExtract`: the reply to the one call `call`, made with `AnalysisPrompt(extract)`;
      only the meeting date and the committee are stamped on the schemes. */
  function AnalyzeExtract(env: Env, extract: string, committee: string, meeting: Meeting, call: nat): (r: Option<seq<Scheme>>)
    ensures r.Some? <==> env.replies(call).Some? && env.replies(call).value.AgendaAnalyzed?
    ensures r.Some? ==>
      var schemes := env.replies(call).value.schemes;
      && |r.value| == |schemes|
      && forall i :: 0 <= i < |schemes| ==>
           r.value[i] == Scheme(schemes[i].title, schemes[i].topic, schemes[i].summary, meeting.date, committee)
  {
    match env.replies(call)
    case None => None
    case Some(response) =>
      if response.AgendaAnalyzed? then
        Some(seq(|response.schemes|, i requires 0 <= i < |response.schemes| =>
          response.schemes[i].(meetingDate := meeting.date, committeeName := committee)))
      else None
  }

  // ---------------------------------------------------------------- processCouncil, as values

  /** What a stretch of `processCouncil` produces, and the number of generator calls made by the
      end of it. */
  datatype Progress<T> = Progress(out: seq<T>, calls: nat)

  /** The schemes one meeting contributes. */
  function MeetingStep(env: Env, committee: string, meeting: Meeting, calls: nat): Progress<Scheme>
  {
    if meeting.agendaUrl.None? then Progress([], calls)
    else
      var run := TriageRunFor(env, meeting.agendaUrl.value, calls);
      AfterTriage(env, committee, meeting, FinishTriage(run.outcome), calls + Phase.CallCount(run.visits))
  }

  /** The rest of a meeting once its agenda is triaged, `next` being the number of the next call. */
  function AfterTriage(env: Env, committee: string, meeting: Meeting, triage: Option<PhaseResponse>, next: nat): Progress<Scheme>
  {
    if triage.None? || !triage.value.AgendaTriaged? || !triage.value.relevant || triage.value.items == [] then Progress([], next)
    else Progress(AnalyzeExtract(env, Prompts.ItemsText(triage.value.items), committee, meeting, next).GetOr([]), next + 1)
  }

  function MeetingsSchemes(env: Env, committee: string, meetings: seq<Meeting>, calls: nat): Progress<Scheme>
    decreases |meetings|
  {
    if meetings == [] then Progress([], calls)
    else
      var first := MeetingStep(env, committee, meetings[0], calls);
      var rest := MeetingsSchemes(env, committee, meetings[1..], first.calls);
      Progress(first.out + rest.out, rest.calls)
  }

  /** The sink call one committee makes, if any. */
  function CommitteeStep(env: Env, council: CouncilConfig, urls: map<string, string>, dateFrom: string, dateTo: string,
                         committee: string, calls: nat): Progress<SinkCall>
  {
    if committee !in urls then Progress([], calls)
    else
      var run := Phase.Nav(MeetingsSetup(env, committee, dateFrom, dateTo), [urls[committee]], Phase.Budget(env.maxIterations), calls);
      var next := calls + Phase.CallCount(run.visits);
      if run.result.None? || run.result.value == [] then Progress([], next)
      else
        var all := MeetingsSchemes(env, committee, run.result.value, next);
        Progress([SinkCall(council.name, committee, all.out)], all.calls)
  }

  function CommitteesSinks(env: Env, council: CouncilConfig, urls: map<string, string>, dateFrom: string, dateTo: string,
                           committees: seq<string>, calls: nat): Progress<SinkCall>
    decreases |committees|
  {
    if committees == [] then Progress([], calls)
    else
      var first := CommitteeStep(env, council, urls, dateFrom, dateTo, committees[0], calls);
      var rest := CommitteesSinks(env, council, urls, dateFrom, dateTo, committees[1..], first.calls);
      Progress(first.out + rest.out, rest.calls)
  }

  function CommitteesRun(env: Env, council: CouncilConfig, calls: nat): Phase.Run<map<string, string>> {
    Phase.Nav(CommitteeSetup(env, council.committees), [council.siteUrl], Phase.Budget(env.maxIterations), calls)
  }

  /** The sink calls of `processCouncil`; `today` and `inThreeMonths` are the default dates. */
  function CouncilSinks(env: Env, council: CouncilConfig, today: string, inThreeMonths: string, calls: nat): Progress<SinkCall>
  {
    var run := CommitteesRun(env, council, calls);
    var next := calls + Phase.CallCount(run.visits);
    if run.result.None? then Progress([], next)
    else CommitteesSinks(env, council, run.result.value, council.dateFrom.GetOr(today), council.dateTo.GetOr(inThreeMonths),
                         council.committees, next)
  }

  // ---------------------------------------------------------------- processCouncil, the loops

  /** `triageAgenda`, with the number of generator calls it made. */
  method TriageAgenda(env: Env, agendaUrl: string, calls: nat) returns (triage: Option<PhaseResponse>, used: nat)
    ensures triage == FinishTriage(TriageRunFor(env, agendaUrl, calls).outcome)
    ensures used == Phase.CallCount(TriageRunFor(env, agendaUrl, calls).visits)
  {
    var outcome, visits := Triage.TriageLoop(TriageSetupFor(env, agendaUrl), agendaUrl, env.maxPhase3Iterations, calls);
    triage := FinishTriage(outcome);
    used := Phase.CallCount(visits);
  }

  /** One iteration of the meeting loop of `processCouncil`: the schemes of one meeting, where
      each `continue` of the loop is a return with none. */
  method ProcessMeeting(env: Env, committee: string, meeting: Meeting, firstCall: nat)
    returns (schemes: seq<Scheme>, calls: nat)
    ensures Progress(schemes, calls) == MeetingStep(env, committee, meeting, firstCall)
  {
    schemes, calls := [], firstCall;
    if meeting.agendaUrl.None? {
      return;
    }
    var triage, used := TriageAgenda(env, meeting.agendaUrl.value, calls);
    calls := calls + used;
    if triage.None? || !triage.value.relevant || triage.value.items == [] {
      return;
    }
    var extract := Prompts.ItemsText(triage.value.items);
    var analysed := AnalyzeExtract(env, extract, committee, meeting, calls);
    calls := calls + 1;
    if analysed.Some? {
      schemes := analysed.value;
    }
  }

  /** The meeting loop of `processCouncil` for one committee: the schemes of all its meetings,
      in meeting order. */
  method ProcessMeetings(env: Env, committee: string, meetings: seq<Meeting>, firstCall: nat)
    returns (allSchemes: seq<Scheme>, calls: nat)
    ensures Progress(allSchemes, calls) == MeetingsSchemes(env, committee, meetings, firstCall)
  {
    allSchemes := [];
    calls := firstCall;
    ghost var whole := MeetingsSchemes(env, committee, meetings, calls);
    for m := 0 to |meetings|
      invariant whole.out == allSchemes + MeetingsSchemes(env, committee, meetings[m..], calls).out
      invariant whole.calls == MeetingsSchemes(env, committee, meetings[m..], calls).calls
    {
      MeetingsCons(env, committee, meetings, m, calls);
      var schemes, next := ProcessMeeting(env, committee, meetings[m], calls);
      Assoc(allSchemes, schemes, MeetingsSchemes(env, committee, meetings[m + 1..], next).out);
      allSchemes := allSchemes + schemes;
      calls := next;
    }
    assert meetings[|meetings|..] == [];
  }

  /** The meetings from the m-th on: the m-th, then those after it. */
  lemma MeetingsCons(env: Env, committee: string, meetings: seq<Meeting>, m: nat, calls: nat)
    requires m < |meetings|
    ensures var step := MeetingStep(env, committee, meetings[m], calls);
      var rest := MeetingsSchemes(env, committee, meetings[m + 1..], step.calls);
      MeetingsSchemes(env, committee, meetings[m..], calls) == Progress(step.out + rest.out, rest.calls)
  {
    assert meetings[m..][1..] == meetings[m + 1..];
  }

  /** One iteration of the committee loop of `processCouncil`: the sink call it makes, if any. */
  method ProcessCommittee(env: Env, council: CouncilConfig, urls: map<string, string>, dateFrom: string, dateTo: string,
                          committee: string, firstCall: nat)
    returns (made: seq<SinkCall>, calls: nat)
    ensures Progress(made, calls) == CommitteeStep(env, council, urls, dateFrom, dateTo, committee, firstCall)
  {
    made, calls := [], firstCall;
    if committee !in urls {
      return;
    }
    var meetings, visits := Phase.NavigationLoop(MeetingsSetup(env, committee, dateFrom, dateTo), urls[committee], env.maxIterations, calls);
    calls := calls + Phase.CallCount(visits);
    if meetings.None? || meetings.value == [] {
      return;
    }
    var allSchemes;
    allSchemes, calls := ProcessMeetings(env, committee, meetings.value, calls);
    made := [SinkCall(council.name, committee, allSchemes)];
  }

  /** `processCouncil`. */
  method ProcessCouncil(env: Env, council: CouncilConfig, today: string, inThreeMonths: string, firstCall: nat)
    returns (sinks: seq<SinkCall>, calls: nat)
    ensures Progress(sinks, calls) == CouncilSinks(env, council, today, inThreeMonths, firstCall)
  {
    var dateFrom := council.dateFrom.GetOr(today);
    var dateTo := council.dateTo.GetOr(inThreeMonths);
    var committeeUrls, visits := Phase.NavigationLoop(CommitteeSetup(env, council.committees), council.siteUrl, env.maxIterations, firstCall);
    calls := firstCall + Phase.CallCount(visits);
    sinks := [];
    if committeeUrls.None? {
      return;
    }
    sinks, calls := ProcessCommittees(env, council, committeeUrls.value, dateFrom, dateTo, calls);
  }

  /** The committee loop of `processCouncil`: the sink calls of all configured committees, in
      configuration order. */
  method ProcessCommittees(env: Env, council: CouncilConfig, urls: map<string, string>, dateFrom: string, dateTo: string,
                           firstCall: nat)
    returns (sinks: seq<SinkCall>, calls: nat)
    ensures Progress(sinks, calls) == CommitteesSinks(env, council, urls, dateFrom, dateTo, council.committees, firstCall)
  {
    sinks := [];
    calls := firstCall;
    ghost var whole := CommitteesSinks(env, council, urls, dateFrom, dateTo, council.committees, calls);
    for c := 0 to |council.committees|
      invariant whole.out == sinks + CommitteesSinks(env, council, urls, dateFrom, dateTo, council.committees[c..], calls).out
      invariant whole.calls == CommitteesSinks(env, council, urls, dateFrom, dateTo, council.committees[c..], calls).calls
    {
      CommitteesCons(env, council, urls, dateFrom, dateTo, council.committees, c, calls);
      var made, next := ProcessCommittee(env, council, urls, dateFrom, dateTo, council.committees[c], calls);
      Assoc(sinks, made, CommitteesSinks(env, council, urls, dateFrom, dateTo, council.committees[c + 1..], next).out);
      sinks := sinks + made;
      calls := next;
    }
    assert council.committees[|council.committees|..] == [];
  }

  /** The committees from the c-th on: the c-th, then those after it. */
  lemma CommitteesCons(env: Env, council: CouncilConfig, urls: map<string, string>, dateFrom: string, dateTo: string,
                       committees: seq<string>, c: nat, calls: nat)
    requires c < |committees|
    ensures var step := CommitteeStep(env, council, urls, dateFrom, dateTo, committees[c], calls);
      var rest := CommitteesSinks(env, council, urls, dateFrom, dateTo, committees[c + 1..], step.calls);
      CommitteesSinks(env, council, urls, dateFrom, dateTo, committees[c..], calls) == Progress(step.out + rest.out, rest.calls)
  {
    assert committees[c..][1..] == committees[c + 1..];
  }

  // ---------------------------------------------------------------- properties

  /** The triage of this file returns on the first verdict, whatever is still queued: the
      verdict's flag, with the accumulator merged with its items. */
  lemma TriageStopsAtFirstVerdict(env: Env, agendaUrl: string, queue: seq<string>, budget: nat, calls: nat,
                                  acc: seq<TriagedItem>, reason: Option<string>)
    requires budget > 0 && queue != [] && env.fetch(queue[0]).Some? && env.replies(calls).Some?
    requires ResolveUrls(env.replies(calls).value, Phase.Resolver(env.fetch(queue[0]).value)).AgendaTriaged?
    ensures var verdict := ResolveUrls(env.replies(calls).value, Phase.Resolver(env.fetch(queue[0]).value));
      var run := Triage.Tri(TriageSetupFor(env, agendaUrl), queue, budget, calls, acc, reason);
      && FinishTriage(run.outcome) == Some(AgendaTriaged(verdict.relevant, ItemMap.Merge(acc, verdict.items)))
      && |run.visits| == 1
  {
    var s := TriageSetupFor(env, agendaUrl);
    Triage.TriVerdictReturns(s, queue, budget, calls, acc, reason);
    Triage.TriFetched(s, queue, budget, calls, acc, reason);
  }

  /** A triage result is a verdict whose items have one entry per title; one made up from the
      accumulator when the loop runs out is relevant and has items; and the triage makes at most
      `maxPhase3Iterations` generator calls. */
  lemma TriageResult(env: Env, agendaUrl: string, calls: nat)
    ensures var run := TriageRunFor(env, agendaUrl, calls);
      var t := FinishTriage(run.outcome);
      && Phase.CallCount(run.visits) <= Phase.Budget(env.maxPhase3Iterations)
      && (t.Some? ==> t.value.AgendaTriaged? && ItemMap.UniqueTitles(t.value.items))
      && (t.Some? && run.outcome.value.Exhausted? ==> t.value.relevant && t.value.items != [])
  {
    var s := TriageSetupFor(env, agendaUrl);
    Triage.TriBounds(s, [agendaUrl], Phase.Budget(env.maxPhase3Iterations), calls, [], None);
    Triage.TriItems(s, [agendaUrl], Phase.Budget(env.maxPhase3Iterations), calls, [], None);
  }

  /** A meeting contributes schemes only when it has an agenda URL whose triage is a relevant
      verdict with items; they are then the schemes of the one analysis call that follows the
      triage, stamped with the meeting's date and the committee. At most one call more than
      the triage's is made. */
  lemma MeetingStepFacts(env: Env, committee: string, meeting: Meeting, calls: nat)
    ensures var step := MeetingStep(env, committee, meeting, calls);
      && calls <= step.calls <= calls + Phase.Budget(env.maxPhase3Iterations) + 1
      && (forall sc :: sc in step.out ==> sc.committeeName == committee && sc.meetingDate == meeting.date)
    ensures var step := MeetingStep(env, committee, meeting, calls);
      step.out != [] ==>
        && meeting.agendaUrl.Some?
        && var run := TriageRunFor(env, meeting.agendaUrl.value, calls);
           var t := FinishTriage(run.outcome);
           && t.Some? && t.value.relevant && t.value.items != []
           && step.calls == calls + Phase.CallCount(run.visits) + 1
           && Some(step.out) == AnalyzeExtract(env, Prompts.ItemsText(t.value.items), committee, meeting, step.calls - 1)
  {
    if meeting.agendaUrl.Some? {
      TriageResult(env, meeting.agendaUrl.value, calls);
    }
  }

  /** One meeting makes at most one triage and one analysis. */
  lemma MeetingStepCalls(env: Env, committee: string, meeting: Meeting, calls: nat)
    ensures var step := MeetingStep(env, committee, meeting, calls);
      calls <= step.calls <= calls + Phase.Budget(env.maxPhase3Iterations) + 1
  {
    MeetingStepFacts(env, committee, meeting, calls);
  }

  /** The meetings of a committee make at most one triage and one analysis each. */
  lemma {:induction false} MeetingsSchemesCalls(env: Env, committee: string, meetings: seq<Meeting>, calls: nat)
    ensures var all := MeetingsSchemes(env, committee, meetings, calls);
      calls <= all.calls <= calls + |meetings| * (Phase.Budget(env.maxPhase3Iterations) + 1)
    decreases |meetings|
  {
    if meetings != [] {
      var k := Phase.Budget(env.maxPhase3Iterations) + 1;
      var first := MeetingStep(env, committee, meetings[0], calls);
      var rest := MeetingsSchemes(env, committee, meetings[1..], first.calls);
      var n := |meetings[1..]|;
      assert calls <= first.calls <= calls + k by { MeetingStepCalls(env, committee, meetings[0], calls); }
      assert first.calls <= rest.calls <= first.calls + n * k by {
        MeetingsSchemesCalls(env, committee, meetings[1..], first.calls);
      }
      assert |meetings| * k == n * k + k by { assert |meetings| == n + 1; }
      assert MeetingsSchemes(env, committee, meetings, calls).calls == rest.calls;
    }
  }

  /** Every scheme of a committee carries the committee's name and the date of one of its
      meetings. */
  lemma {:induction false} MeetingsSchemesOwners(env: Env, committee: string, meetings: seq<Meeting>, calls: nat)
    ensures forall sc :: sc in MeetingsSchemes(env, committee, meetings, calls).out ==>
      sc.committeeName == committee && exists i :: 0 <= i < |meetings| && sc.meetingDate == meetings[i].date
    decreases |meetings|
  {
    if meetings != [] {
      var first := MeetingStep(env, committee, meetings[0], calls);
      MeetingStepFacts(env, committee, meetings[0], calls);
      MeetingsSchemesOwners(env, committee, meetings[1..], first.calls);
      var rest := MeetingsSchemes(env, committee, meetings[1..], first.calls);
      assert MeetingsSchemes(env, committee, meetings, calls).out == first.out + rest.out;
      forall sc | sc in first.out + rest.out
        ensures sc.committeeName == committee && exists i :: 0 <= i < |meetings| && sc.meetingDate == meetings[i].date
      {
        if sc in first.out {
          assert sc.meetingDate == meetings[0].date;
        } else {
          var j :| 0 <= j < |meetings[1..]| && sc.meetingDate == meetings[1..][j].date;
          assert sc.meetingDate == meetings[j + 1].date;
        }
      }
    }
  }

  /** A committee gets a sink call exactly when it is in the map and its meetings are found and
      not empty; it is then one call, with the schemes of all its meetings, even when there are
      none. */
  lemma CommitteeStepFacts(env: Env, council: CouncilConfig, urls: map<string, string>, dateFrom: string, dateTo: string,
                           committee: string, calls: nat)
    ensures var step := CommitteeStep(env, council, urls, dateFrom, dateTo, committee, calls);
      step.out != [] <==>
        && committee in urls
        && var run := Phase.Nav(MeetingsSetup(env, committee, dateFrom, dateTo), [urls[committee]], Phase.Budget(env.maxIterations), calls);
           run.result.Some? && run.result.value != []
    ensures var step := CommitteeStep(env, council, urls, dateFrom, dateTo, committee, calls);
      step.out != [] ==>
        var run := Phase.Nav(MeetingsSetup(env, committee, dateFrom, dateTo), [urls[committee]], Phase.Budget(env.maxIterations), calls);
        step.out == [SinkCall(council.name, committee,
                              MeetingsSchemes(env, committee, run.result.value, calls + Phase.CallCount(run.visits)).out)]
    ensures calls <= CommitteeStep(env, council, urls, dateFrom, dateTo, committee, calls).calls
  {
    var step := CommitteeStep(env, council, urls, dateFrom, dateTo, committee, calls);
    if committee !in urls {
      assert step == Progress([], calls);
    } else {
      var run := Phase.Nav(MeetingsSetup(env, committee, dateFrom, dateTo), [urls[committee]], Phase.Budget(env.maxIterations), calls);
      var next := calls + Phase.CallCount(run.visits);
      if run.result.None? || run.result.value == [] {
        assert step == Progress([], next);
      } else {
        var all := MeetingsSchemes(env, committee, run.result.value, next);
        assert next <= all.calls by { MeetingsSchemesCalls(env, committee, run.result.value, next); }
        assert step == Progress([SinkCall(council.name, committee, all.out)], all.calls);
      }
    }
  }

  /** The sink call of one committee, if any, is for the council and that committee, which the
      map holds, and carries only that committee's schemes. */
  lemma CommitteeStepSinks(env: Env, council: CouncilConfig, urls: map<string, string>, dateFrom: string, dateTo: string,
                           committee: string, calls: nat)
    ensures var step := CommitteeStep(env, council, urls, dateFrom, dateTo, committee, calls);
      && |step.out| <= 1
      && forall sink :: sink in step.out ==>
           && sink.council == council.name && sink.committee == committee && committee in urls
           && forall sc :: sc in sink.schemes ==> sc.committeeName == committee
  {
    var step := CommitteeStep(env, council, urls, dateFrom, dateTo, committee, calls);
    if committee in urls {
      var run := Phase.Nav(MeetingsSetup(env, committee, dateFrom, dateTo), [urls[committee]], Phase.Budget(env.maxIterations), calls);
      var next := calls + Phase.CallCount(run.visits);
      if run.result.Some? && run.result.value != [] {
        var all := MeetingsSchemes(env, committee, run.result.value, next);
        MeetingsSchemesOwners(env, committee, run.result.value, next);
        assert step.out == [SinkCall(council.name, committee, all.out)];
      }
    }
  }

  /** The sink calls of a committee list: at most one per committee, each for the council, for a
      committee of the list that is in the map, with schemes of that committee only. */
  lemma {:induction false} CommitteesSinksFacts(env: Env, council: CouncilConfig, urls: map<string, string>,
                                                dateFrom: string, dateTo: string, committees: seq<string>, calls: nat)
    ensures var all := CommitteesSinks(env, council, urls, dateFrom, dateTo, committees, calls);
      && |all.out| <= |committees|
      && forall sink :: sink in all.out ==>
           && sink.council == council.name && sink.committee in committees && sink.committee in urls
           && forall sc :: sc in sink.schemes ==> sc.committeeName == sink.committee
    decreases |committees|
  {
    if committees != [] {
      var first := CommitteeStep(env, council, urls, dateFrom, dateTo, committees[0], calls);
      var rest := CommitteesSinks(env, council, urls, dateFrom, dateTo, committees[1..], first.calls);
      CommitteeStepSinks(env, council, urls, dateFrom, dateTo, committees[0], calls);
      CommitteesSinksFacts(env, council, urls, dateFrom, dateTo, committees[1..], first.calls);
      assert CommitteesSinks(env, council, urls, dateFrom, dateTo, committees, calls).out == first.out + rest.out;
      forall sink | sink in first.out + rest.out
        ensures sink.committee in committees
      {
        if sink !in first.out {
          assert sink.committee in committees[1..];
        }
      }
    }
  }

  /** `processCouncil`: nothing reaches the sink when the committee lookup fails; otherwise at
      most one sink call per configured committee, each for the council and a committee the
      lookup found, with only that committee's schemes. */
  lemma CouncilSinksFacts(env: Env, council: CouncilConfig, today: string, inThreeMonths: string, calls: nat)
    ensures CommitteesRun(env, council, calls).result.None? ==> CouncilSinks(env, council, today, inThreeMonths, calls).out == []
    ensures var sinks := CouncilSinks(env, council, today, inThreeMonths, calls).out;
      && |sinks| <= |council.committees|
      && forall sink :: sink in sinks ==>
           && sink.council == council.name && sink.committee in council.committees
           && sink.committee in CommitteesRun(env, council, calls).result.value
           && forall sc :: sc in sink.schemes ==> sc.committeeName == sink.committee
  {
    var run := CommitteesRun(env, council, calls);
    if run.result.Some? {
      CommitteesSinksFacts(env, council, run.result.value, council.dateFrom.GetOr(today), council.dateTo.GetOr(inThreeMonths),
                           council.committees, calls + Phase.CallCount(run.visits));
    }
  }
}
