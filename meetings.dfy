/** Phase 2: find the meetings of one committee in a date range. The result is the meeting
    list of the first `meetings_found` reply, as given (no local date filtering), with each
    meeting URL resolved against the registry of the page it answered. */
module FindMeetings {
  import opened Wrappers
  import opened Responses
  import opened Prompts
  import opened Registry
  import opened Phase

  datatype FindMeetingsInput = FindMeetingsInput(committeeUrl: string, committeeName: string, dateFrom: string, dateTo: string)

  /** The `extractResult` of this phase. */
  function ExtractMeetings(r: LlmResponse): (m: Option<seq<Meeting>>)
    ensures m.Some? <==> r.MeetingsFound?
    ensures m.Some? ==> m.value == r.meetings
  {
    if r.MeetingsFound? then Some(r.meetings) else None
  }

  function MeetingsSetup(fetch: string -> Option<Page>, replies: nat -> Option<LlmResponse>, input: FindMeetingsInput)
    : Setup<LlmResponse, seq<Meeting>>
  {
    Setup(fetch, replies, LlmProtocol(),
          (text: string) => Phase2Prompt(input.committeeName, input.dateFrom, input.dateTo, text),
          ExtractMeetings)
  }

  /** `execute`. */
  method Execute(fetch: string -> Option<Page>, replies: nat -> Option<LlmResponse>, input: FindMeetingsInput,
                 maxIterations: int, firstCall: nat)
    returns (result: Option<seq<Meeting>>, visits: seq<Visit>)
    ensures Run(result, visits) == Nav(MeetingsSetup(fetch, replies, input), [input.committeeUrl], Budget(maxIterations), firstCall)
  {
    result, visits := NavigationLoop(MeetingsSetup(fetch, replies, input), input.committeeUrl, maxIterations, firstCall);
  }

  // ---------------------------------------------------------------- properties

  /** The meetings of a reply as the phase returns them: the same meetings in the same order,
      date and title kept, an absent URL still absent and a present one resolved. */
  ghost predicate FromMeetingList(ms: seq<Meeting>, reply: LlmResponse, page: Page)
  {
    && reply.MeetingsFound?
    && |ms| == |reply.meetings|
    && forall i :: 0 <= i < |ms| ==>
         && ms[i].date == reply.meetings[i].date
         && ms[i].title == reply.meetings[i].title
         && (reply.meetings[i].meetingUrl.None? ==> ms[i].meetingUrl.None?)
         && (reply.meetings[i].meetingUrl.Some? ==>
               ms[i].meetingUrl == Some(ResolveIn(page.tokenToUrl, reply.meetings[i].meetingUrl.value)))
  }

  lemma ExtractResolvedMeetings(reply: LlmResponse, page: Page)
    requires ExtractMeetings(ResolveUrls(reply, Resolver(page))).Some?
    ensures FromMeetingList(ExtractMeetings(ResolveUrls(reply, Resolver(page))).value, reply, page)
  {
  }

  /** A result is the meeting list of the last reply of the run, read as above. */
  lemma MeetingsResult(fetch: string -> Option<Page>, replies: nat -> Option<LlmResponse>, input: FindMeetingsInput,
                       queue: seq<string>, budget: nat, calls: nat)
    ensures var s := MeetingsSetup(fetch, replies, input);
      var run := Nav(s, queue, budget, calls);
      run.result.Some? ==> LastReplyGaveResult(s, run, calls)
    ensures var s := MeetingsSetup(fetch, replies, input);
      var run := Nav(s, queue, budget, calls);
      run.result.Some? ==> FromMeetingList(run.result.value, LastReply(s, run, calls), LastPage(s, run, calls))
  {
    var s := MeetingsSetup(fetch, replies, input);
    var run := Nav(s, queue, budget, calls);
    NavResult(s, queue, budget, calls);
    if run.result.Some? {
      ExtractResolvedMeetings(LastReply(s, run, calls), LastPage(s, run, calls));
    }
  }

  /** Every prompt of the run carries the committee name and the date range, before the page. */
  lemma MeetingPrompts(fetch: string -> Option<Page>, replies: nat -> Option<LlmResponse>, input: FindMeetingsInput,
                       queue: seq<string>, budget: nat, calls: nat)
    ensures var visits := Nav(MeetingsSetup(fetch, replies, input), queue, budget, calls).visits;
      forall i :: 0 <= i < |visits| && visits[i].prompt.Some? ==>
        fetch(visits[i].url).Some?
        && visits[i].prompt.value == Phase2Prompt(input.committeeName, input.dateFrom, input.dateTo, fetch(visits[i].url).value.text)
  {
    NavPrompts(MeetingsSetup(fetch, replies, input), queue, budget, calls);
  }

  /** An empty meeting list is a result: the run stops at once with no meetings. */
  lemma EmptyMeetingsIsResult(fetch: string -> Option<Page>, replies: nat -> Option<LlmResponse>, input: FindMeetingsInput,
                              budget: nat, calls: nat)
    requires budget >= 1 && fetch(input.committeeUrl).Some? && replies(calls) == Some(MeetingsFound([]))
    ensures var run := Nav(MeetingsSetup(fetch, replies, input), [input.committeeUrl], budget, calls);
      run.result == Some([]) && |run.visits| == 1
  {
    var s := MeetingsSetup(fetch, replies, input);
    NavFetched(s, [input.committeeUrl], budget, calls);
    assert ResolveUrls(MeetingsFound([]), Resolver(fetch(input.committeeUrl).value)).meetings == [];
  }

  /** A meeting given without a URL and one given as a token of the page come back as such: the
      first still without URL, the second with the URL registered for the token. */
  lemma MeetingUrlsScenario(committeeUrl: string, text: string, agendaUrl: string)
    ensures var input := FindMeetingsInput(committeeUrl, "Planning", "2024-01-01", "2024-12-31");
      var fetch := (u: string) => if u == committeeUrl then Some(Page(text, map[Token(1) := agendaUrl])) else None;
      var replies := (k: nat) => if k == 0 then Some(MeetingsFound([Meeting("2024-03-01", "March", Some(Token(1))),
                                                                     Meeting("2024-04-01", "April", None)])) else None;
      Nav(MeetingsSetup(fetch, replies, input), [committeeUrl], 5, 0).result
      == Some([Meeting("2024-03-01", "March", Some(agendaUrl)), Meeting("2024-04-01", "April", None)])
  {
    var input := FindMeetingsInput(committeeUrl, "Planning", "2024-01-01", "2024-12-31");
    var fetch := (u: string) => if u == committeeUrl then Some(Page(text, map[Token(1) := agendaUrl])) else None;
    var reply := MeetingsFound([Meeting("2024-03-01", "March", Some(Token(1))), Meeting("2024-04-01", "April", None)]);
    var replies := (k: nat) => if k == 0 then Some(reply) else None;
    var s := MeetingsSetup(fetch, replies, input);
    NavFetched(s, [committeeUrl], 5, 0);
    var resolved := ResolveUrls(reply, Resolver(fetch(committeeUrl).value));
    assert resolved.meetings == [Meeting("2024-03-01", "March", Some(agendaUrl)), Meeting("2024-04-01", "April", None)];
  }
}
