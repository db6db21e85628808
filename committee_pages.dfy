/** Phase 1: find the page of each committee. One navigation run for all the committee names;
    the result is the committee list of the first `committee_pages_found` reply, as a map from
    name to (resolved) URL. */
module FindCommitteePages {
  import opened Wrappers
  import opened Responses
  import opened Prompts
  import opened Registry
  import opened Phase

  datatype FindCommitteePagesInput = FindCommitteePagesInput(startUrl: string, committeeNames: seq<string>)

  /** `associate { it.name to it.url }`: later pairs overwrite earlier ones with the same name. */
  function Associate(cs: seq<CommitteeUrl>): map<string, string>
  {
    if cs == [] then map[]
    else Associate(cs[..|cs| - 1])[cs[|cs| - 1].name := cs[|cs| - 1].url]
  }

  /** The URL of the last committee of this name, if any. */
  function LastUrlFor(cs: seq<CommitteeUrl>, name: string): Option<string>
  {
    if cs == [] then None
    else if cs[|cs| - 1].name == name then Some(cs[|cs| - 1].url)
    else LastUrlFor(cs[..|cs| - 1], name)
  }

  /** The map has exactly the names of the list, each with the URL its last occurrence gives. */
  lemma {:induction false} AssociateLookup(cs: seq<CommitteeUrl>, name: string)
    ensures name in Associate(cs) <==> (exists i :: 0 <= i < |cs| && cs[i].name == name)
    ensures name in Associate(cs) <==> LastUrlFor(cs, name).Some?
    ensures name in Associate(cs) ==> Associate(cs)[name] == LastUrlFor(cs, name).value
    decreases |cs|
  {
    if cs != [] {
      var init := cs[..|cs| - 1];
      AssociateLookup(init, name);
      if exists i :: 0 <= i < |init| && init[i].name == name {
        var i :| 0 <= i < |init| && init[i].name == name;
        assert cs[i].name == name;
      }
      if exists i :: 0 <= i < |cs| && cs[i].name == name {
        var i :| 0 <= i < |cs| && cs[i].name == name;
        if i < |init| {
          assert init[i].name == name;
        }
      }
    }
  }

  /** The `extractResult` of this phase. */
  function ExtractCommittees(r: LlmResponse): (m: Option<map<string, string>>)
    ensures m.Some? <==> r.CommitteePagesFound?
  {
    if r.CommitteePagesFound? then Some(Associate(r.committees)) else None
  }

  function CommitteeSetup(fetch: string -> Option<Page>, replies: nat -> Option<LlmResponse>, names: seq<string>)
    : Setup<LlmResponse, map<string, string>>
  {
    Setup(fetch, replies, LlmProtocol(), (text: string) => Phase1Prompt(names, text), ExtractCommittees)
  }

  /** `execute`. */
  method Execute(fetch: string -> Option<Page>, replies: nat -> Option<LlmResponse>, input: FindCommitteePagesInput,
                 maxIterations: int, firstCall: nat)
    returns (result: Option<map<string, string>>, visits: seq<Visit>)
    ensures Run(result, visits) == Nav(CommitteeSetup(fetch, replies, input.committeeNames), [input.startUrl], Budget(maxIterations), firstCall)
  {
    result, visits := NavigationLoop(CommitteeSetup(fetch, replies, input.committeeNames), input.startUrl, maxIterations, firstCall);
  }

  // ---------------------------------------------------------------- properties

  /** What the phase makes of a committee list answering a page: exactly the names in the list,
      each mapped to the URL of its last occurrence, resolved against the page's registry. */
  ghost predicate FromCommitteeList(m: map<string, string>, reply: LlmResponse, page: Page)
  {
    && reply.CommitteePagesFound?
    && forall name ::
         && (name in m <==> exists i :: 0 <= i < |reply.committees| && reply.committees[i].name == name)
         && (name in m ==> LastUrlFor(reply.committees, name).Some?
                           && m[name] == ResolveIn(page.tokenToUrl, LastUrlFor(reply.committees, name).value))
  }

  lemma ExtractResolved(reply: LlmResponse, page: Page)
    requires ExtractCommittees(ResolveUrls(reply, Resolver(page))).Some?
    ensures FromCommitteeList(ExtractCommittees(ResolveUrls(reply, Resolver(page))).value, reply, page)
  {
    var resolved := ResolveUrls(reply, Resolver(page));
    var m := Associate(resolved.committees);
    forall name
      ensures name in m <==> exists i :: 0 <= i < |reply.committees| && reply.committees[i].name == name
      ensures name in m ==> LastUrlFor(reply.committees, name).Some?
                            && m[name] == ResolveIn(page.tokenToUrl, LastUrlFor(reply.committees, name).value)
    {
      AssociateLookup(resolved.committees, name);
      ResolvedLastUrl(reply.committees, resolved.committees, page, name);
      if exists i :: 0 <= i < |resolved.committees| && resolved.committees[i].name == name {
        var i :| 0 <= i < |resolved.committees| && resolved.committees[i].name == name;
        assert reply.committees[i].name == name;
      }
      if exists i :: 0 <= i < |reply.committees| && reply.committees[i].name == name {
        var i :| 0 <= i < |reply.committees| && reply.committees[i].name == name;
        assert resolved.committees[i].name == name;
      }
    }
  }

  /** A result comes from the last reply of the run, a committee list, read as above. */
  lemma CommitteesResult(fetch: string -> Option<Page>, replies: nat -> Option<LlmResponse>, names: seq<string>,
                         queue: seq<string>, budget: nat, calls: nat)
    ensures var s := CommitteeSetup(fetch, replies, names);
      var run := Nav(s, queue, budget, calls);
      run.result.Some? ==> LastReplyGaveResult(s, run, calls)
    ensures var s := CommitteeSetup(fetch, replies, names);
      var run := Nav(s, queue, budget, calls);
      run.result.Some? ==> FromCommitteeList(run.result.value, LastReply(s, run, calls), LastPage(s, run, calls))
  {
    var s := CommitteeSetup(fetch, replies, names);
    var run := Nav(s, queue, budget, calls);
    NavResult(s, queue, budget, calls);
    if run.result.Some? {
      ExtractResolved(LastReply(s, run, calls), LastPage(s, run, calls));
    }
  }

  /** Resolving the URLs keeps the names, so the last occurrence of a name is the same one. */
  lemma {:induction false} ResolvedLastUrl(cs: seq<CommitteeUrl>, rs: seq<CommitteeUrl>, page: Page, name: string)
    requires |rs| == |cs|
    requires forall i :: 0 <= i < |cs| ==> rs[i] == CommitteeUrl(cs[i].name, ResolveIn(page.tokenToUrl, cs[i].url))
    ensures LastUrlFor(rs, name).Some? <==> LastUrlFor(cs, name).Some?
    ensures LastUrlFor(rs, name).Some? ==> LastUrlFor(rs, name).value == ResolveIn(page.tokenToUrl, LastUrlFor(cs, name).value)
    decreases |cs|
  {
    if cs != [] {
      ResolvedLastUrl(cs[..|cs| - 1], rs[..|rs| - 1], page, name);
    }
  }

  /** Every prompt of the run names all the committees, before the page just fetched. */
  lemma CommitteePrompts(fetch: string -> Option<Page>, replies: nat -> Option<LlmResponse>, names: seq<string>,
                         queue: seq<string>, budget: nat, calls: nat)
    ensures var visits := Nav(CommitteeSetup(fetch, replies, names), queue, budget, calls).visits;
      forall i :: 0 <= i < |visits| && visits[i].prompt.Some? ==>
        fetch(visits[i].url).Some? && visits[i].prompt.value == Phase1Prompt(names, fetch(visits[i].url).value.text)
  {
    NavPrompts(CommitteeSetup(fetch, replies, names), queue, budget, calls);
  }

  /** An empty committee list is a result: the run stops there with the empty map. */
  lemma EmptyListIsResult(fetch: string -> Option<Page>, replies: nat -> Option<LlmResponse>, names: seq<string>,
                          startUrl: string, budget: nat, calls: nat)
    requires budget >= 1 && fetch(startUrl).Some? && replies(calls) == Some(CommitteePagesFound([]))
    ensures Nav(CommitteeSetup(fetch, replies, names), [startUrl], budget, calls)
         == Run(Some(map[]), [Visit(startUrl, Some(Phase1Prompt(names, fetch(startUrl).value.text)), [])])
  {
    var s := CommitteeSetup(fetch, replies, names);
    NavFetched(s, [startUrl], budget, calls);
    assert ResolveUrls(CommitteePagesFound([]), Resolver(fetch(startUrl).value)).committees == [];
  }

  /** A reply that is neither a committee list nor a plain fetch request ends the run with nothing. */
  lemma OtherReplyStops(fetch: string -> Option<Page>, replies: nat -> Option<LlmResponse>, names: seq<string>,
                        startUrl: string, budget: nat, calls: nat)
    requires budget >= 1 && fetch(startUrl).Some? && replies(calls).Some?
    requires !replies(calls).value.CommitteePagesFound? && !replies(calls).value.Fetch?
    ensures Nav(CommitteeSetup(fetch, replies, names), [startUrl], budget, calls).result.None?
  {
    NavFetched(CommitteeSetup(fetch, replies, names), [startUrl], budget, calls);
  }

  /** A committee URL given as a token of the page comes back as the URL registered for it. */
  lemma TokenResolvedScenario(siteUrl: string, text: string, committeesUrl: string)
    ensures var fetch := (u: string) => if u == siteUrl then Some(Page(text, map[Token(1) := committeesUrl])) else None;
      var replies := (k: nat) => if k == 0 then Some(CommitteePagesFound([CommitteeUrl("Planning", Token(1))])) else None;
      Nav(CommitteeSetup(fetch, replies, ["Planning"]), [siteUrl], 3, 0).result == Some(map["Planning" := committeesUrl])
  {
    var fetch := (u: string) => if u == siteUrl then Some(Page(text, map[Token(1) := committeesUrl])) else None;
    var replies := (k: nat) => if k == 0 then Some(CommitteePagesFound([CommitteeUrl("Planning", Token(1))])) else None;
    var s := CommitteeSetup(fetch, replies, ["Planning"]);
    NavFetched(s, [siteUrl], 3, 0);
    var resolved := ResolveUrls(CommitteePagesFound([CommitteeUrl("Planning", Token(1))]), Resolver(fetch(siteUrl).value));
    assert resolved.committees == [CommitteeUrl("Planning", committeesUrl)];
    assert Associate(resolved.committees) == map["Planning" := committeesUrl];
  }
}
