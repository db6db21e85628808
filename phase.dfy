/** What every crawling phase shares: turning a raw reply into a response (fence stripping, then
    decode-or-nothing) and the bounded breadth-first navigation loop.

    The page fetcher is a function from URL to an optional page; the generator is the sequence
    of its parsed replies, `replies(k)` being the reply to the k-th call (`None` when
    `parseResponse` gives null). */
module Phase {
  import opened Wrappers
  import opened Text
  import opened JsonValues
  import opened Responses
  import opened Prompts
  import opened Registry

  const DefaultMaxIterations: int := 5
  const DefaultTriageMaxIterations: int := 5

  // ---------------------------------------------------------------- parseResponse

  /** Drop a leading "```json", then a leading "```", then a trailing "```", then trim. */
  function Cleanup(raw: string): string
  {
    Trim(RemoveSuffix(RemovePrefix(RemovePrefix(raw, "```json"), "```"), "```"))
  }

  /** `parseResponse`: any failure to read the cleaned text as a reply gives `None`. The JSON
      text is read by `tokenize`. */
  function ParseResponse(raw: string, tokenize: string -> Option<Json>): (r: Option<LlmResponse>)
    ensures r.Some? <==> tokenize(Cleanup(raw)).Some? && DecodeResponse(tokenize(Cleanup(raw)).value).Some?
    ensures r.Some? ==> r == DecodeResponse(tokenize(Cleanup(raw)).value)
  {
    match tokenize(Cleanup(raw))
    case None => None
    case Some(j) => DecodeResponse(j)
  }

  /** A reply fenced as a JSON code block comes out as its trimmed body. */
  lemma CleanupFencedJson(body: string)
    requires body == [] || body[0] != '`'
    ensures Cleanup("```json" + body + "```") == Trim(body)
  {
    var raw := "```json" + body + "```";
    assert StartsWith(raw, "```json") && raw[|"```json"|..] == body + "```";
    var a := body + "```";
    if body == [] {
      assert StartsWith(a, "```") && a[3..] == [];
    } else {
      assert a[0] == body[0];
      assert !StartsWith(a, "```");
    }
    var b := RemovePrefix(a, "```");
    assert b == [] || b == a;
    if b == a {
      assert a[|a| - 3..] == "```" && a[..|a| - 3] == body;
    }
  }

  /** Text with no fences and no surrounding whitespace is left as it is. */
  lemma CleanupPlain(raw: string)
    requires !StartsWith(raw, "```") && !EndsWith(raw, "```") && Trim(raw) == raw
    ensures Cleanup(raw) == raw
  {
    NoLongerFence(raw);
    assert RemovePrefix(raw, "```json") == raw;
    assert RemovePrefix(raw, "```") == raw;
    assert RemoveSuffix(raw, "```") == raw;
  }

  lemma NoLongerFence(raw: string)
    requires !StartsWith(raw, "```")
    ensures !StartsWith(raw, "```json")
  {
    var fence := "```";
    var json := "```json";
    assert json == fence + "json";
    if StartsWith(raw, json) {
      StartsWithLonger(raw, fence, "json");
    }
  }

  // ---------------------------------------------------------------- navigationLoop

  /** What `fetchAndExtract` yields: the page text and the token table of its registry. */
  datatype Page = Page(text: string, tokenToUrl: map<string, string>)

  /** The page registry's `resolve`. */
  function Resolver(page: Page): string -> string
  {
    (u: string) => ResolveIn(page.tokenToUrl, u)
  }

  /** How the loop treats a response type: how to resolve its URL tokens, and the URLs of a
      plain fetch request (`None` for every other variant). */
  datatype Protocol<!Resp> = Protocol(resolve: (Resp, string -> string) -> Resp, fetchUrls: Resp -> Option<seq<string>>)

  /** The inputs of one run of the loop. */
  datatype Setup<!Resp, !R> = Setup(
    fetch: string -> Option<Page>,
    replies: nat -> Option<Resp>,
    protocol: Protocol<Resp>,
    buildPrompt: string -> Prompt,
    extract: Resp -> Option<R>)

  /** One iteration: the URL taken from the queue, the prompt sent for it (none when the fetch
      failed) and the URLs it appended to the queue. */
  datatype Visit = Visit(url: string, prompt: Option<Prompt>, enqueued: seq<string>)

  datatype Run<R> = Run(result: Option<R>, visits: seq<Visit>)

  function Then<R>(v: Visit, run: Run<R>): Run<R> {
    Run(run.result, [v] + run.visits)
  }

  function Prefixed<R>(vs: seq<Visit>, run: Run<R>): Run<R> {
    Run(run.result, vs + run.visits)
  }

  /** The number of generator calls in a run. */
  function CallCount(visits: seq<Visit>): nat
  {
    if visits == [] then 0 else (if visits[0].prompt.Some? then 1 else 0) + CallCount(visits[1..])
  }

  function Urls(visits: seq<Visit>): (r: seq<string>)
    ensures |r| == |visits| && forall i :: 0 <= i < |visits| ==> r[i] == visits[i].url
  {
    seq(|visits|, i requires 0 <= i < |visits| => visits[i].url)
  }

  /** Everything the visits appended to the queue, in order. */
  function AllEnqueued(visits: seq<Visit>): seq<string>
  {
    if visits == [] then [] else visits[0].enqueued + AllEnqueued(visits[1..])
  }

  /** The number of iterations `for (iteration in 1..maxIterations)` allows. */
  function Budget(maxIterations: int): nat {
    if maxIterations > 0 then maxIterations else 0
  }

  /** The loop from a given queue, with `budget` iterations left and `calls` generator calls made. */
  function Nav<Resp, R>(s: Setup<Resp, R>, queue: seq<string>, budget: nat, calls: nat): Run<R>
    decreases budget, 1
  {
    if budget == 0 || queue == [] then Run(None, [])
    else
      match s.fetch(queue[0])
      case None => Then(Visit(queue[0], None, []), Nav(s, queue[1..], budget - 1, calls))
      case Some(page) => Answer(s, queue[0], page, queue[1..], budget, calls)
  }

  /** The rest of an iteration whose fetch succeeded: prompt, generate, parse, resolve, then
      return the result, follow a fetch request, or give up. */
  function Answer<Resp, R>(s: Setup<Resp, R>, url: string, page: Page, rest: seq<string>, budget: nat, calls: nat): Run<R>
    requires budget >= 1
    decreases budget, 0
  {
    var prompt := s.buildPrompt(page.text);
    match s.replies(calls)
    case None => Run(None, [Visit(url, Some(prompt), [])])
    case Some(reply) =>
      var response := s.protocol.resolve(reply, Resolver(page));
      match s.extract(response)
      case Some(r) => Run(Some(r), [Visit(url, Some(prompt), [])])
      case None =>
        match s.protocol.fetchUrls(response)
        case None => Run(None, [Visit(url, Some(prompt), [])])
        case Some(more) => Then(Visit(url, Some(prompt), more), Nav(s, rest + more, budget - 1, calls + 1))
  }

  lemma {:induction false} CallCountAppend(vs: seq<Visit>, v: Visit)
    ensures CallCount(vs + [v]) == CallCount(vs) + (if v.prompt.Some? then 1 else 0)
    decreases |vs|
  {
    if vs != [] {
      assert (vs + [v])[1..] == vs[1..] + [v];
      CallCountAppend(vs[1..], v);
    }
  }

  /** `navigationLoop`: a queue seeded with the start URL and at most `maxIterations` iterations;
      a failed fetch skips to the next URL; a reply that does not parse, or is neither a result
      nor a plain fetch, ends the run with nothing; a result ends it at once; a fetch request
      appends its (resolved) URLs to the back of the queue. `firstCall` is the number of
      generator calls made before this run. */
  method NavigationLoop<Resp, R>(s: Setup<Resp, R>, startUrl: string, maxIterations: int, firstCall: nat)
    returns (result: Option<R>, visits: seq<Visit>)
    ensures Run(result, visits) == Nav(s, [startUrl], Budget(maxIterations), firstCall)
  {
    var urlQueue := [startUrl];
    visits := [];
    var calls := firstCall;
    var iteration := 1;
    ghost var budget := Budget(maxIterations);
    ghost var whole := Nav(s, [startUrl], budget, firstCall);
    ghost var left := budget;
    while iteration <= maxIterations
      invariant 1 <= iteration && left == budget - (iteration - 1) >= 0
      invariant iteration <= maxIterations + 1 || budget == 0
      invariant calls == firstCall + CallCount(visits)
      invariant whole == Prefixed(visits, Nav(s, urlQueue, left, calls))
      decreases maxIterations + 1 - iteration
    {
      if urlQueue == [] {
        break;
      }
      var step := NavVisit(s, urlQueue, left, calls);
      CallCountAppend(visits, step.visit);
      if step.Stopped? {
        assert whole == Run(step.result, visits + [step.visit]);
        visits := visits + [step.visit];
        return step.result, visits;
      }
      PrefixedThen(visits, step.visit, Nav(s, step.queue, left - 1, step.calls));
      visits := visits + [step.visit];
      urlQueue, calls := step.queue, step.calls;
      left := left - 1;
      iteration := iteration + 1;
    }
    assert Nav(s, urlQueue, left, calls) == Run(None, []);
    assert visits + [] == visits;
    result := None;
  }

  /** What one iteration leads to: the run stops with this visit, or it goes on with the queue
      and the call count the visit leaves behind. */
  datatype Iteration<R> =
    | Stopped(visit: Visit, result: Option<R>)
    | Continued(visit: Visit, queue: seq<string>, calls: nat)

  /** One iteration of `navigationLoop`: the first queued URL is fetched, and answered when it
      could be. */
  method NavVisit<Resp, R>(s: Setup<Resp, R>, queue: seq<string>, ghost budget: nat, calls: nat) returns (step: Iteration<R>)
    requires budget >= 1 && queue != []
    ensures step.Stopped? ==> Nav(s, queue, budget, calls) == Run(step.result, [step.visit])
    ensures step.Continued? ==> step.calls == calls + (if step.visit.prompt.Some? then 1 else 0)
    ensures step.Continued? ==> Nav(s, queue, budget, calls) == Then(step.visit, Nav(s, step.queue, budget - 1, step.calls))
  {
    var url := queue[0];
    var conversion := s.fetch(url);
    if conversion.None? {
      NavFetchFailed(s, queue, budget, calls);
      return Continued(Visit(url, None, []), queue[1..], calls);
    }
    var page := conversion.value;
    NavFetched(s, queue, budget, calls);
    step := NavAnswer(s, url, page, queue[1..], budget, calls);
  }

  /** The rest of an iteration whose fetch succeeded: one prompt, one reply, and what is made
      of it. */
  method NavAnswer<Resp, R>(s: Setup<Resp, R>, url: string, page: Page, rest: seq<string>, ghost budget: nat, calls: nat)
    returns (step: Iteration<R>)
    requires budget >= 1
    ensures step.visit.prompt.Some?
    ensures step.Stopped? ==> Answer(s, url, page, rest, budget, calls) == Run(step.result, [step.visit])
    ensures step.Continued? ==> step.calls == calls + 1
    ensures step.Continued? ==> Answer(s, url, page, rest, budget, calls) == Then(step.visit, Nav(s, step.queue, budget - 1, step.calls))
  {
    var prompt := s.buildPrompt(page.text);
    var reply := s.replies(calls);
    if reply.None? {
      return Stopped(Visit(url, Some(prompt), []), None);
    }
    var response := s.protocol.resolve(reply.value, Resolver(page));
    var extracted := s.extract(response);
    if extracted.Some? {
      return Stopped(Visit(url, Some(prompt), []), extracted);
    }
    var more := s.protocol.fetchUrls(response);
    if more.None? {
      return Stopped(Visit(url, Some(prompt), []), None);
    }
    AnswerFollows(s, url, page, rest, budget, calls);
    return Continued(Visit(url, Some(prompt), more.value), rest + more.value, calls + 1);
  }

  lemma PrefixedThen<R>(vs: seq<Visit>, v: Visit, run: Run<R>)
    ensures Prefixed(vs, Then(v, run)) == Prefixed(vs + [v], run)
  {
    assert vs + ([v] + run.visits) == (vs + [v]) + run.visits;
  }

  lemma NavFetchFailed<Resp, R>(s: Setup<Resp, R>, queue: seq<string>, budget: nat, calls: nat)
    requires budget > 0 && queue != [] && s.fetch(queue[0]).None?
    ensures Nav(s, queue, budget, calls) == Then(Visit(queue[0], None, []), Nav(s, queue[1..], budget - 1, calls))
  {
  }

  lemma NavFetched<Resp, R>(s: Setup<Resp, R>, queue: seq<string>, budget: nat, calls: nat)
    requires budget > 0 && queue != [] && s.fetch(queue[0]).Some?
    ensures Nav(s, queue, budget, calls) == Answer(s, queue[0], s.fetch(queue[0]).value, queue[1..], budget, calls)
  {
  }

  lemma AnswerFollows<Resp, R>(s: Setup<Resp, R>, url: string, page: Page, rest: seq<string>, budget: nat, calls: nat)
    requires budget >= 1 && s.replies(calls).Some?
    requires s.extract(s.protocol.resolve(s.replies(calls).value, Resolver(page))).None?
    requires s.protocol.fetchUrls(s.protocol.resolve(s.replies(calls).value, Resolver(page))).Some?
    ensures var more := s.protocol.fetchUrls(s.protocol.resolve(s.replies(calls).value, Resolver(page))).value;
      Answer(s, url, page, rest, budget, calls)
      == Then(Visit(url, Some(s.buildPrompt(page.text)), more), Nav(s, rest + more, budget - 1, calls + 1))
  {
  }

  // ---------------------------------------------------------------- properties of the loop

  /** One iteration: the first visit is of the head of the queue, and it was prompted iff the
      fetch succeeded; either the run stops there, having appended nothing, or it goes on from
      the rest of the queue followed by what the visit appended, one call further on if it was
      prompted. */
  lemma NavStep<Resp, R>(s: Setup<Resp, R>, queue: seq<string>, budget: nat, calls: nat) returns (v: Visit, final: bool)
    requires budget > 0 && queue != []
    ensures v.url == queue[0]
    ensures v.prompt.Some? <==> s.fetch(queue[0]).Some?
    ensures final ==> Nav(s, queue, budget, calls).visits == [v] && v.enqueued == [] && v.prompt.Some?
    ensures !final ==> Nav(s, queue, budget, calls)
                       == Then(v, Nav(s, queue[1..] + v.enqueued, budget - 1, calls + (if v.prompt.Some? then 1 else 0)))
  {
    match s.fetch(queue[0])
    case None =>
      v, final := Visit(queue[0], None, []), false;
      assert queue[1..] + [] == queue[1..];
    case Some(page) =>
      var prompt := s.buildPrompt(page.text);
      v, final := Visit(queue[0], Some(prompt), []), true;
      if s.replies(calls).Some? {
        var response := s.protocol.resolve(s.replies(calls).value, Resolver(page));
        if s.extract(response).None? && s.protocol.fetchUrls(response).Some? {
          v, final := Visit(queue[0], Some(prompt), s.protocol.fetchUrls(response).value), false;
        }
      }
  }

  lemma CallCountCons(v: Visit, vs: seq<Visit>)
    ensures CallCount([v] + vs) == (if v.prompt.Some? then 1 else 0) + CallCount(vs)
  {
    assert ([v] + vs)[1..] == vs;
  }

  /** Every prompt sent is the phase's prompt for the text of the page just fetched. */
  lemma {:induction false} NavPrompts<Resp, R>(s: Setup<Resp, R>, queue: seq<string>, budget: nat, calls: nat)
    ensures var visits := Nav(s, queue, budget, calls).visits;
      forall i :: 0 <= i < |visits| && visits[i].prompt.Some? ==>
        s.fetch(visits[i].url).Some? && visits[i].prompt.value == s.buildPrompt(s.fetch(visits[i].url).value.text)
    decreases budget
  {
    if budget > 0 && queue != [] {
      var v, final := NavStep(s, queue, budget, calls);
      var visits := Nav(s, queue, budget, calls).visits;
      if v.prompt.Some? {
        NavFetched(s, queue, budget, calls);
      }
      if !final {
        NavPrompts(s, queue[1..] + v.enqueued, budget - 1, calls + (if v.prompt.Some? then 1 else 0));
        assert forall i :: 1 <= i < |visits| ==> visits[i] == Nav(s, queue[1..] + v.enqueued, budget - 1, calls + (if v.prompt.Some? then 1 else 0)).visits[i - 1];
      }
    }
  }

  /** At most one fetch per iteration and at most one generator call per fetch. */
  lemma {:induction false} NavBounds<Resp, R>(s: Setup<Resp, R>, queue: seq<string>, budget: nat, calls: nat)
    ensures CallCount(Nav(s, queue, budget, calls).visits) <= |Nav(s, queue, budget, calls).visits| <= budget
    decreases budget
  {
    if budget > 0 && queue != [] {
      var v, final := NavStep(s, queue, budget, calls);
      if !final {
        var tail := Nav(s, queue[1..] + v.enqueued, budget - 1, calls + (if v.prompt.Some? then 1 else 0));
        NavBounds(s, queue[1..] + v.enqueued, budget - 1, calls + (if v.prompt.Some? then 1 else 0));
        CallCountCons(v, tail.visits);
      } else {
        CallCountCons(v, []);
      }
    }
  }

  lemma PrefixCons(x: string, a: seq<string>, b: seq<string>)
    requires a <= b
    ensures [x] + a <= [x] + b
  {
    assert ([x] + b)[..|[x] + a|] == [x] + b[..|a|];
  }

  lemma AllEnqueuedCons(v: Visit, vs: seq<Visit>)
    ensures AllEnqueued([v] + vs) == v.enqueued + AllEnqueued(vs)
  {
    assert ([v] + vs)[1..] == vs;
  }

  lemma UrlsCons(v: Visit, vs: seq<Visit>)
    ensures Urls([v] + vs) == [v.url] + Urls(vs)
  {
  }

  lemma SeqAssoc(queue: seq<string>, e: seq<string>, rest: seq<string>)
    requires queue != []
    ensures queue + (e + rest) == [queue[0]] + ((queue[1..] + e) + rest)
  {
    assert queue == [queue[0]] + queue[1..];
  }

  /** FIFO order: the URLs are fetched in the order they entered the queue, the initial queue
      first and then every appended batch in turn. */
  lemma {:induction false} NavFifo<Resp, R>(s: Setup<Resp, R>, queue: seq<string>, budget: nat, calls: nat)
    ensures Urls(Nav(s, queue, budget, calls).visits) <= queue + AllEnqueued(Nav(s, queue, budget, calls).visits)
    decreases budget
  {
    if budget > 0 && queue != [] {
      var v, final := NavStep(s, queue, budget, calls);
      var visits := Nav(s, queue, budget, calls).visits;
      if !final {
        var q := queue[1..] + v.enqueued;
        var next := calls + (if v.prompt.Some? then 1 else 0);
        var tail := Nav(s, q, budget - 1, next).visits;
        assert visits == [v] + tail;
        assert Urls(tail) <= q + AllEnqueued(tail) by { NavFifo(s, q, budget - 1, next); }
        assert Urls(visits) == [queue[0]] + Urls(tail) by { UrlsCons(v, tail); }
        assert queue + AllEnqueued(visits) == [queue[0]] + (q + AllEnqueued(tail)) by {
          AllEnqueuedCons(v, tail);
          SeqAssoc(queue, v.enqueued, AllEnqueued(tail));
        }
        PrefixCons(queue[0], Urls(tail), q + AllEnqueued(tail));
      } else {
        assert Urls(visits) == [queue[0]];
      }
    }
  }

  /** When every fetch fails, nothing is returned and the generator is never called. */
  lemma {:induction false} NavAllFetchesFail<Resp, R>(s: Setup<Resp, R>, queue: seq<string>, budget: nat, calls: nat)
    requires forall u :: s.fetch(u).None?
    ensures Nav(s, queue, budget, calls).result.None?
    ensures CallCount(Nav(s, queue, budget, calls).visits) == 0
    ensures |Nav(s, queue, budget, calls).visits| == if |queue| < budget then |queue| else budget
    decreases budget
  {
    if budget > 0 && queue != [] {
      NavAllFetchesFail(s, queue[1..], budget - 1, calls);
      CallCountCons(Visit(queue[0], None, []), Nav(s, queue[1..], budget - 1, calls).visits);
    }
  }

  /** The generator answers a page by asking for at least one more URL. */
  predicate KeepsFetching<Resp, R>(s: Setup<Resp, R>, reply: Resp, page: Page)
  {
    var response := s.protocol.resolve(reply, Resolver(page));
    && s.extract(response).None?
    && s.protocol.fetchUrls(response).Some?
    && |s.protocol.fetchUrls(response).value| >= 1
  }

  /** A generator that keeps asking for more pages never yields a result: the loop spends its
      whole budget, one call per iteration, and returns nothing. */
  lemma {:induction false} NavEndlessFetch<Resp, R>(s: Setup<Resp, R>, queue: seq<string>, budget: nat, calls: nat)
    requires queue != []
    requires forall u :: s.fetch(u).Some?
    requires forall k :: s.replies(k).Some?
    requires forall reply, page :: KeepsFetching(s, reply, page)
    ensures Nav(s, queue, budget, calls).result.None?
    ensures |Nav(s, queue, budget, calls).visits| == budget
    ensures CallCount(Nav(s, queue, budget, calls).visits) == budget
    decreases budget
  {
    if budget > 0 {
      var page := s.fetch(queue[0]).value;
      var reply := s.replies(calls).value;
      assert KeepsFetching(s, reply, page);
      var more := s.protocol.fetchUrls(s.protocol.resolve(reply, Resolver(page))).value;
      NavFetched(s, queue, budget, calls);
      AnswerFollows(s, queue[0], page, queue[1..], budget, calls);
      var tail := Nav(s, queue[1..] + more, budget - 1, calls + 1);
      NavEndlessFetch(s, queue[1..] + more, budget - 1, calls + 1);
      CallCountCons(Visit(queue[0], Some(s.buildPrompt(page.text)), more), tail.visits);
    }
  }

  /** What the loop returns is what `extractResult` made of the last reply, resolved against
      the registry of the page it answered, that reply being the last call of the run; the last
      visit appended nothing. */
  ghost predicate LastReplyGaveResult<Resp, R>(s: Setup<Resp, R>, run: Run<R>, calls: nat)
  {
    var n := |run.visits|;
    && n >= 1
    && CallCount(run.visits) >= 1
    && run.visits[n - 1].prompt.Some? && run.visits[n - 1].enqueued == []
    && s.fetch(run.visits[n - 1].url).Some?
    && s.replies(calls + CallCount(run.visits) - 1).Some?
    && run.result == s.extract(s.protocol.resolve(s.replies(calls + CallCount(run.visits) - 1).value,
                                                  Resolver(s.fetch(run.visits[n - 1].url).value)))
  }

  /** The reply that gave a run its result, and the page it answered. */
  function LastReply<Resp, R>(s: Setup<Resp, R>, run: Run<R>, calls: nat): Resp
    requires LastReplyGaveResult(s, run, calls)
  {
    s.replies(calls + CallCount(run.visits) - 1).value
  }

  function LastPage<Resp, R>(s: Setup<Resp, R>, run: Run<R>, calls: nat): Page
    requires LastReplyGaveResult(s, run, calls)
  {
    s.fetch(run.visits[|run.visits| - 1].url).value
  }

  /** A visit before a run that ended on its last reply: the whole still ends on that reply,
      counted from the calls before the visit. */
  lemma LastReplyThen<Resp, R>(s: Setup<Resp, R>, v: Visit, tail: Run<R>, calls: nat)
    requires LastReplyGaveResult(s, tail, calls + (if v.prompt.Some? then 1 else 0))
    ensures LastReplyGaveResult(s, Then(v, tail), calls)
  {
    var run := Then(v, tail);
    CallCountCons(v, tail.visits);
    assert run.visits[|run.visits| - 1] == tail.visits[|tail.visits| - 1];
  }

  lemma {:induction false} NavResult<Resp, R>(s: Setup<Resp, R>, queue: seq<string>, budget: nat, calls: nat)
    ensures Nav(s, queue, budget, calls).result.Some? ==> LastReplyGaveResult(s, Nav(s, queue, budget, calls), calls)
    decreases budget
  {
    var run := Nav(s, queue, budget, calls);
    if budget > 0 && queue != [] && run.result.Some? {
      var v, final := NavStep(s, queue, budget, calls);
      if !final {
        var next := calls + (if v.prompt.Some? then 1 else 0);
        var tail := Nav(s, queue[1..] + v.enqueued, budget - 1, next);
        NavResult(s, queue[1..] + v.enqueued, budget - 1, next);
        LastReplyThen(s, v, tail, calls);
      } else {
        var page := s.fetch(queue[0]).value;
        NavFetched(s, queue, budget, calls);
        CallCountCons(v, []);
      }
    }
  }

  // ---------------------------------------------------------------- the phase protocol

  function FetchUrls(r: LlmResponse): Option<seq<string>> {
    if r.Fetch? then Some(r.urls) else None
  }

  /** The phases' response type: `resolveUrls` and the `Fetch` variant. */
  function LlmProtocol(): Protocol<LlmResponse> {
    Protocol(ResolveUrls, FetchUrls)
  }

  /** How the fetch URLs of a reply enter the queue: every token resolved against the page it
      answered, absolute URLs unchanged. */
  lemma EnqueuedAreResolved(reply: LlmResponse, page: Page)
    requires reply.Fetch?
    ensures var more := LlmProtocol().fetchUrls(LlmProtocol().resolve(reply, Resolver(page)));
      && more.Some? && |more.value| == |reply.urls|
      && forall i :: 0 <= i < |reply.urls| ==> more.value[i] == ResolveIn(page.tokenToUrl, reply.urls[i])
  {
  }
}
