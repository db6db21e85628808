/** Phase 3: triage an agenda. The triage loop with the phase replies: `agenda_triaged` is a
    verdict, `agenda_item_fetch` a request for more documents, anything else (a plain `fetch`
    included) unexpected. A verdict waits until the queue is empty. */
module TriageAgenda {
  import opened Wrappers
  import opened Responses
  import opened Prompts
  import opened ItemMap
  import opened Phase
  import opened Triage

  datatype TriageAgendaInput = TriageAgendaInput(agendaUrl: string, committeeName: string, meetingDate: string)

  /** How the phase reads a resolved reply. */
  function ReadReply(r: LlmResponse): (reading: Reading)
    ensures reading.Verdict? <==> r.AgendaTriaged?
    ensures reading.MoreDocuments? <==> r.AgendaFetch?
    ensures reading.Verdict? ==> reading.items == r.items
    ensures reading.MoreDocuments? ==> reading == MoreDocuments(r.urls, r.reason, r.items)
  {
    match r
    case AgendaTriaged(_, items, _) => Verdict(items)
    case AgendaFetch(urls, reason, items) => MoreDocuments(urls, reason, items)
    case _ => Unexpected
  }

  /** The phase 3 prompt builder, given the committee, the meeting date, the page, the carried
      reason and the accumulated items. */
  type PromptBuilder = (string, string, string, Option<string>, seq<TriagedItem>) -> Prompt

  function AgendaSetup(fetch: string -> Option<Page>, replies: nat -> Option<LlmResponse>, build: PromptBuilder,
                       input: TriageAgendaInput): TriageSetup<LlmResponse>
  {
    TriageSetup(fetch, replies, TriageProtocol(ResolveUrls, ReadReply),
                (text: string, reason: Option<string>, items: seq<TriagedItem>) =>
                  build(input.committeeName, input.meetingDate, text, reason, items),
                true)
  }

  /** What `execute` returns for the way the loop ended: the verdict with the accumulator as its
      items, or the accumulator alone as a relevant verdict. */
  function Finish(out: Option<Outcome<LlmResponse>>): (r: Option<LlmResponse>)
    ensures r.Some? ==> r.value.AgendaTriaged?
    ensures r.Some? <==> out.Some? && (out.value.Answered? ==> out.value.response.AgendaTriaged?)
    ensures r.Some? ==> r.value.items == out.value.items
    ensures r.Some? && out.value.Exhausted? ==> r.value == AgendaTriaged(true, out.value.items, None)
    ensures r.Some? && out.value.Answered? ==>
              r.value.relevant == out.value.response.relevant && r.value.summary == out.value.response.summary
  {
    match out
    case None => None
    case Some(Answered(response, items)) =>
      if response.AgendaTriaged? then Some(AgendaTriaged(response.relevant, items, response.summary)) else None
    case Some(Exhausted(items)) => Some(AgendaTriaged(true, items, None))
  }

  /** `execute`. */
  method Execute(fetch: string -> Option<Page>, replies: nat -> Option<LlmResponse>, build: PromptBuilder,
                 input: TriageAgendaInput, maxIterations: int, firstCall: nat)
    returns (result: Option<LlmResponse>, visits: seq<Visit>)
    ensures var run := Tri(AgendaSetup(fetch, replies, build, input), [input.agendaUrl], Budget(maxIterations), firstCall, [], None);
      result == Finish(run.outcome) && visits == run.visits
  {
    var outcome;
    outcome, visits := TriageLoop(AgendaSetup(fetch, replies, build, input), input.agendaUrl, maxIterations, firstCall);
    result := Finish(outcome);
  }

  // ---------------------------------------------------------------- properties

  /** What the phase returns is a verdict whose items are a map keyed by title; when the loop ran
      out rather than answering, it is relevant and has at least one item. The generator is
      called at most once per iteration. */
  lemma TriageResult(fetch: string -> Option<Page>, replies: nat -> Option<LlmResponse>, build: PromptBuilder,
                     input: TriageAgendaInput, budget: nat, calls: nat)
    ensures var run := Tri(AgendaSetup(fetch, replies, build, input), [input.agendaUrl], budget, calls, [], None);
      && CallCount(run.visits) <= |run.visits| <= budget
      && (Finish(run.outcome).Some? <==> run.outcome.Some?)
      && (run.outcome.Some? ==> UniqueTitles(Finish(run.outcome).value.items))
      && (run.outcome.Some? && run.outcome.value.Exhausted? ==>
            Finish(run.outcome).value.relevant && Finish(run.outcome).value.items != [])
  {
    var s := AgendaSetup(fetch, replies, build, input);
    TriBounds(s, [input.agendaUrl], budget, calls, [], None);
    TriItems(s, [input.agendaUrl], budget, calls, [], None);
    TriAnsweredIsVerdict(s, [input.agendaUrl], budget, calls, [], None);
  }

  /** After a document request, the next page's prompt is built from the request's reason and
      the items merged so far. */
  lemma ReasonReachesNextPrompt(fetch: string -> Option<Page>, replies: nat -> Option<LlmResponse>, build: PromptBuilder,
                                input: TriageAgendaInput, budget: nat, calls: nat)
    requires budget >= 2 && fetch(input.agendaUrl).Some? && replies(calls).Some? && replies(calls).value.AgendaFetch?
    requires var r := replies(calls).value; r.urls != [] && fetch(ResolveUrls(r, Resolver(fetch(input.agendaUrl).value)).urls[0]).Some?
    ensures var r := ResolveUrls(replies(calls).value, Resolver(fetch(input.agendaUrl).value));
      var visits := Tri(AgendaSetup(fetch, replies, build, input), [input.agendaUrl], budget, calls, [], None).visits;
      && |visits| >= 2
      && visits[1].url == r.urls[0]
      && visits[1].prompt == Some(build(input.committeeName, input.meetingDate, fetch(r.urls[0]).value.text,
                                        Some(r.reason), Merge([], r.items)))
  {
    TriReasonCarried(AgendaSetup(fetch, replies, build, input), input.agendaUrl, budget, calls, [], None);
  }

  /** A plain `fetch` reply to the first page is rejected: the phase returns nothing. */
  lemma PlainFetchRejected(fetch: string -> Option<Page>, replies: nat -> Option<LlmResponse>, build: PromptBuilder,
                           input: TriageAgendaInput, budget: nat, calls: nat)
    requires budget >= 1 && fetch(input.agendaUrl).Some? && replies(calls).Some? && replies(calls).value.Fetch?
    ensures Finish(Tri(AgendaSetup(fetch, replies, build, input), [input.agendaUrl], budget, calls, [], None).outcome).None?
  {
    TriRejects(AgendaSetup(fetch, replies, build, input), [input.agendaUrl], budget, calls, [], None);
  }

  // ---------------------------------------------------------------- scenarios

  function Pages(urls: seq<string>, texts: seq<string>): string -> Option<Page>
    requires |urls| == |texts|
  {
    (u: string) => if u in urls then Some(Page(texts[IndexOf(urls, u)], map[])) else None
  }

  function IndexOf(urls: seq<string>, u: string): (k: nat)
    requires u in urls
    ensures k < |urls| && urls[k] == u
  {
    if urls[0] == u then 0 else 1 + IndexOf(urls[1..], u)
  }

  /** A request for a report with a brief extract, then a verdict with a longer extract of the
      same item: one item, with the later extract. */
  lemma NewerExtractWins(build: PromptBuilder, agenda: string, report: string, t1: string, t2: string)
    requires agenda != report
    ensures var fetch := Pages([agenda, report], [t1, t2]);
      var replies := (k: nat) => if k == 0 then Some(AgendaFetch([report], "Need report", [TriagedItem("Cycle Lane", "Brief extract")]))
                                 else Some(AgendaTriaged(true, [TriagedItem("Cycle Lane", "Updated detailed extract from report")], None));
      var input := TriageAgendaInput(agenda, "Transport Committee", "2025-01-15");
      Finish(Tri(AgendaSetup(fetch, replies, build, input), [agenda], 3, 0, [], None).outcome)
      == Some(AgendaTriaged(true, [TriagedItem("Cycle Lane", "Updated detailed extract from report")], None))
  {
    var fetch := Pages([agenda, report], [t1, t2]);
    var replies := (k: nat) => if k == 0 then Some(AgendaFetch([report], "Need report", [TriagedItem("Cycle Lane", "Brief extract")]))
                               else Some(AgendaTriaged(true, [TriagedItem("Cycle Lane", "Updated detailed extract from report")], None));
    var input := TriageAgendaInput(agenda, "Transport Committee", "2025-01-15");
    var s := AgendaSetup(fetch, replies, build, input);
    var brief := [TriagedItem("Cycle Lane", "Brief extract")];
    var updated := [TriagedItem("Cycle Lane", "Updated detailed extract from report")];
    assert fetch(agenda) == Some(Page(t1, map[]));
    assert fetch(report) == Some(Page(t2, map[]));
    TriFetched(s, [agenda], 3, 0, [], None);
    assert ResolveUrls(replies(0).value, Resolver(fetch(agenda).value)).urls == [report];
    TriMoreDocuments(s, agenda, fetch(agenda).value, [], 3, 0, [], None);
    assert [] + [report] == [report];
    assert Merge([], brief) == brief;
    TriFetched(s, [report], 2, 1, brief, Some("Need report"));
    MergeOverSingle(brief[0], updated[0]);
  }

  /** A generator that keeps asking for the agenda again, with the same item, runs out of
      iterations: the accumulated item comes back as a relevant verdict. */
  lemma AccumulatedOnExhaustion(build: PromptBuilder, agenda: string, t1: string)
    ensures var fetch := Pages([agenda], [t1]);
      var replies := (k: nat) => Some(AgendaFetch([agenda], "Need more", [TriagedItem("Cycle Lane", "Some extract")]));
      var input := TriageAgendaInput(agenda, "Transport Committee", "2025-01-15");
      Finish(Tri(AgendaSetup(fetch, replies, build, input), [agenda], 2, 0, [], None).outcome)
      == Some(AgendaTriaged(true, [TriagedItem("Cycle Lane", "Some extract")], None))
  {
    var fetch := Pages([agenda], [t1]);
    var item := [TriagedItem("Cycle Lane", "Some extract")];
    var replies := (k: nat) => Some(AgendaFetch([agenda], "Need more", item));
    var input := TriageAgendaInput(agenda, "Transport Committee", "2025-01-15");
    var s := AgendaSetup(fetch, replies, build, input);
    assert fetch(agenda) == Some(Page(t1, map[]));
    assert ResolveUrls(replies(0).value, Resolver(fetch(agenda).value)).urls == [agenda];
    assert ResolveUrls(replies(1).value, Resolver(fetch(agenda).value)).urls == [agenda];
    TriFetched(s, [agenda], 2, 0, [], None);
    TriMoreDocuments(s, agenda, fetch(agenda).value, [], 2, 0, [], None);
    assert [] + [agenda] == [agenda];
    assert Merge([], item) == item;
    TriFetched(s, [agenda], 1, 1, item, Some("Need more"));
    TriMoreDocuments(s, agenda, fetch(agenda).value, [], 1, 1, item, Some("Need more"));
    assert Merge(item, item) == item;
  }

  /** The first iteration of the next scenario: the agenda asks for two reports. */
  lemma EarlyVerdictFirst(s: TriageSetup<LlmResponse>, agenda: string, r1: string, r2: string, why: string,
                          p0: Page, tf: TriagedItem)
    requires s.protocol == TriageProtocol(ResolveUrls, ReadReply)
    requires s.fetch(agenda) == Some(p0) && p0.tokenToUrl == map[]
    requires s.replies(0) == Some(AgendaFetch([r1, r2], why, [tf]))
    ensures Tri(s, [agenda], 5, 0, [], None)
         == Later(Visit(agenda, Some(s.buildPrompt(p0.text, None, [])), [r1, r2]), Tri(s, [r1, r2], 4, 1, [tf], Some(why)))
  {
    assert ResolveUrls(s.replies(0).value, Resolver(p0)).urls == [r1, r2];
    TriFetched(s, [agenda], 5, 0, [], None);
    TriMoreDocuments(s, agenda, p0, [], 5, 0, [], None);
    assert [] + [r1, r2] == [r1, r2];
    assert Merge([], [tf]) == [tf];
  }

  /** The second iteration: a verdict on the first report, with the second still queued. */
  lemma EarlyVerdictSecond(s: TriageSetup<LlmResponse>, r1: string, r2: string, why: string,
                           p1: Page, tf: TriagedItem, cl: TriagedItem)
    requires s.protocol == TriageProtocol(ResolveUrls, ReadReply) && s.drain
    requires s.fetch(r1) == Some(p1)
    requires s.replies(1) == Some(AgendaTriaged(true, [cl], None))
    ensures Tri(s, [r1, r2], 4, 1, [tf], Some(why))
         == Later(Visit(r1, Some(s.buildPrompt(p1.text, Some(why), [tf])), []), Tri(s, [r2], 3, 2, Merge([tf], [cl]), Some(why)))
  {
    TriFetched(s, [r1, r2], 4, 1, [tf], Some(why));
    assert [r1, r2][1..] == [r2];
    TriVerdictGoesOn(s, r1, p1, [r2], 4, 1, [tf], Some(why));
  }

  /** The last iteration: a verdict with nothing left in the queue ends the run. */
  lemma EarlyVerdictLast(s: TriageSetup<LlmResponse>, r2: string, why: string, p2: Page,
                         acc: seq<TriagedItem>, br: TriagedItem)
    requires s.protocol == TriageProtocol(ResolveUrls, ReadReply)
    requires s.fetch(r2) == Some(p2)
    requires s.replies(2) == Some(AgendaTriaged(true, [br], None))
    ensures Tri(s, [r2], 3, 2, acc, Some(why))
         == TriageRun(Some(Answered(AgendaTriaged(true, [br], None), Merge(acc, [br]))),
                      [Visit(r2, Some(s.buildPrompt(p2.text, Some(why), acc)), [])])
  {
    TriFetched(s, [r2], 3, 2, acc, Some(why));
  }

  /** The run of the next scenario, over any generator and fetcher that behave as it needs. */
  lemma EarlyVerdictRun(s: TriageSetup<LlmResponse>, agenda: string, r1: string, r2: string, why: string,
                        p0: Page, p1: Page, p2: Page, tf: TriagedItem, cl: TriagedItem, br: TriagedItem)
    requires s.protocol == TriageProtocol(ResolveUrls, ReadReply) && s.drain
    requires s.fetch(agenda) == Some(p0) && s.fetch(r1) == Some(p1) && s.fetch(r2) == Some(p2)
    requires p0.tokenToUrl == map[]
    requires s.replies(0) == Some(AgendaFetch([r1, r2], why, [tf]))
    requires s.replies(1) == Some(AgendaTriaged(true, [cl], None))
    requires s.replies(2) == Some(AgendaTriaged(true, [br], None))
    ensures var run := Tri(s, [agenda], 5, 0, [], None);
      && run.outcome == Some(Answered(AgendaTriaged(true, [br], None), Merge(Merge([tf], [cl]), [br])))
      && run.visits == [Visit(agenda, Some(s.buildPrompt(p0.text, None, [])), [r1, r2]),
                        Visit(r1, Some(s.buildPrompt(p1.text, Some(why), [tf])), []),
                        Visit(r2, Some(s.buildPrompt(p2.text, Some(why), Merge([tf], [cl]))), [])]
  {
    EarlyVerdictFirst(s, agenda, r1, r2, why, p0, tf);
    EarlyVerdictSecond(s, r1, r2, why, p1, tf, cl);
    EarlyVerdictLast(s, r2, why, p2, Merge([tf], [cl]), br);
  }

  lemma ThreeTitlesMerge(a: TriagedItem, b: TriagedItem, c: TriagedItem)
    requires a.title != b.title && a.title != c.title && b.title != c.title
    ensures Merge(Merge([a], [b]), [c]) == [a, b, c]
  {
    assert Merge([a], [b]) == Put([a], b) == [a] + Put([], b);
    assert Merge([a, b], [c]) == Put([a, b], c) == [a] + Put([b], c);
  }

  /** Three visits that each sent a prompt count three calls. */
  lemma ThreeCalls(v0: Visit, v1: Visit, v2: Visit)
    requires v0.prompt.Some? && v1.prompt.Some? && v2.prompt.Some?
    ensures CallCount([v0, v1, v2]) == 3
  {
    assert [v0, v1, v2] == [v0] + ([v1] + ([v2] + []));
    CallCountCons(v2, []);
    CallCountCons(v1, [v2]);
    assert [v1] + ([v2] + []) == [v1, v2];
    CallCountCons(v0, [v1, v2]);
  }

  /** The next scenario over any three items with distinct titles. */
  lemma EarlyVerdictItems(fetch: string -> Option<Page>, replies: nat -> Option<LlmResponse>, build: PromptBuilder,
                          input: TriageAgendaInput, r1: string, r2: string, why: string,
                          p0: Page, p1: Page, p2: Page, tf: TriagedItem, cl: TriagedItem, br: TriagedItem)
    requires fetch(input.agendaUrl) == Some(p0) && fetch(r1) == Some(p1) && fetch(r2) == Some(p2)
    requires p0.tokenToUrl == map[]
    requires replies(0) == Some(AgendaFetch([r1, r2], why, [tf]))
    requires replies(1) == Some(AgendaTriaged(true, [cl], None))
    requires replies(2) == Some(AgendaTriaged(true, [br], None))
    requires tf.title != cl.title && tf.title != br.title && cl.title != br.title
    ensures var run := Tri(AgendaSetup(fetch, replies, build, input), [input.agendaUrl], 5, 0, [], None);
      && CallCount(run.visits) == 3
      && Finish(run.outcome) == Some(AgendaTriaged(true, [tf, cl, br], None))
  {
    var s := AgendaSetup(fetch, replies, build, input);
    EarlyVerdictRun(s, input.agendaUrl, r1, r2, why, p0, p1, p2, tf, cl, br);
    ThreeTitlesMerge(tf, cl, br);
    var run := Tri(s, [input.agendaUrl], 5, 0, [], None);
    ThreeCalls(run.visits[0], run.visits[1], run.visits[2]);
  }

  /** A verdict on the first of two requested reports does not end the run: the second report is
      triaged too, three calls in all, and the items of all three replies come back in the order
      they were first given. */
  lemma EarlyVerdictContinues(fetch: string -> Option<Page>, replies: nat -> Option<LlmResponse>, build: PromptBuilder,
                              r1: string, r2: string, p0: Page, p1: Page, p2: Page)
    requires fetch("https://council.example.com/agenda/1") == Some(p0) && fetch(r1) == Some(p1) && fetch(r2) == Some(p2)
    requires p0.tokenToUrl == map[]
    requires replies(0) == Some(AgendaFetch([r1, r2], "Fetching reports", [TriagedItem("Traffic Filter", "Extract about traffic filter")]))
    requires replies(1) == Some(AgendaTriaged(true, [TriagedItem("Cycle Lane", "Extract about cycle lane")], None))
    requires replies(2) == Some(AgendaTriaged(true, [TriagedItem("Bus Route", "Extract about bus route")], None))
    ensures var input := TriageAgendaInput("https://council.example.com/agenda/1", "Transport Committee", "2025-01-15");
      var run := Tri(AgendaSetup(fetch, replies, build, input), [input.agendaUrl], 5, 0, [], None);
      && CallCount(run.visits) == 3
      && Finish(run.outcome) == Some(AgendaTriaged(true, [TriagedItem("Traffic Filter", "Extract about traffic filter"),
                                                         TriagedItem("Cycle Lane", "Extract about cycle lane"),
                                                         TriagedItem("Bus Route", "Extract about bus route")], None))
  {
    var tf := TriagedItem("Traffic Filter", "Extract about traffic filter");
    var cl := TriagedItem("Cycle Lane", "Extract about cycle lane");
    var br := TriagedItem("Bus Route", "Extract about bus route");
    var input := TriageAgendaInput("https://council.example.com/agenda/1", "Transport Committee", "2025-01-15");
    assert tf.title[0] != cl.title[0] && tf.title[0] != br.title[0] && cl.title[0] != br.title[0];
    EarlyVerdictItems(fetch, replies, build, input, r1, r2, "Fetching reports", p0, p1, p2, tf, cl, br);
  }

  /** A plain `fetch` reply to the agenda: nothing is returned. */
  lemma PlainFetchScenario(build: PromptBuilder, agenda: string, meetings: string, t0: string)
    ensures var fetch := Pages([agenda], [t0]);
      var replies := (k: nat) => Some(Fetch([meetings], "Going back to meetings"));
      var input := TriageAgendaInput(agenda, "Transport Committee", "2025-01-15");
      Finish(Tri(AgendaSetup(fetch, replies, build, input), [agenda], 3, 0, [], None).outcome).None?
  {
    var fetch := Pages([agenda], [t0]);
    var replies := (k: nat) => Some(Fetch([meetings], "Going back to meetings"));
    var input := TriageAgendaInput(agenda, "Transport Committee", "2025-01-15");
    assert fetch(agenda).Some?;
    PlainFetchRejected(fetch, replies, build, input, 3, 0);
  }
}
