/** The agenda triage loop: a queue seeded with the agenda URL, the accumulator of items keyed
    by title, and the reason of the last document request, carried into the next prompt.
    A verdict merges its items and, when nothing is left in the queue (or, in the older
    orchestrator, at once), returns the verdict with the whole accumulator; a document request
    merges its items, records its reason and appends its URLs; anything else ends the run with
    nothing. A run that ends otherwise returns the accumulator as a relevant verdict, or nothing
    when it is empty. */
module Triage {
  import opened Wrappers
  import opened Responses
  import opened Prompts
  import opened ItemMap
  import opened Phase

  /** What the loop makes of a (resolved) reply. */
  datatype Reading =
    | Verdict(items: seq<TriagedItem>)
    | MoreDocuments(urls: seq<string>, reason: string, items: seq<TriagedItem>)
    | Unexpected

  datatype TriageProtocol<!Resp> = TriageProtocol(resolve: (Resp, string -> string) -> Resp, read: Resp -> Reading)

  /** The inputs of one run. `drain` says whether a verdict waits for the queue to empty. */
  datatype TriageSetup<!Resp> = TriageSetup(
    fetch: string -> Option<Page>,
    replies: nat -> Option<Resp>,
    protocol: TriageProtocol<Resp>,
    buildPrompt: (string, Option<string>, seq<TriagedItem>) -> Prompt,
    drain: bool)

  /** How a run ends with something: a verdict, given with the accumulated items that replace
      its own, or the accumulator alone once the loop has run out. */
  datatype Outcome<Resp> = Answered(response: Resp, items: seq<TriagedItem>) | Exhausted(items: seq<TriagedItem>)

  datatype TriageRun<Resp> = TriageRun(outcome: Option<Outcome<Resp>>, visits: seq<Visit>)

  function Later<Resp>(v: Visit, run: TriageRun<Resp>): TriageRun<Resp> {
    TriageRun(run.outcome, [v] + run.visits)
  }

  function After<Resp>(vs: seq<Visit>, run: TriageRun<Resp>): TriageRun<Resp> {
    TriageRun(run.outcome, vs + run.visits)
  }

  /** The end of a run that did not return from inside the loop. */
  function Leftover<Resp>(acc: seq<TriagedItem>): Option<Outcome<Resp>> {
    if acc != [] then Some(Exhausted(acc)) else None
  }

  function Tri<Resp>(s: TriageSetup<Resp>, queue: seq<string>, budget: nat, calls: nat,
                     acc: seq<TriagedItem>, reason: Option<string>): TriageRun<Resp>
    decreases budget, 1
  {
    if budget == 0 || queue == [] then TriageRun(Leftover(acc), [])
    else
      match s.fetch(queue[0])
      case None => Later(Visit(queue[0], None, []), Tri(s, queue[1..], budget - 1, calls, acc, reason))
      case Some(page) => TriAnswer(s, queue[0], page, queue[1..], budget, calls, acc, reason)
  }

  function TriAnswer<Resp>(s: TriageSetup<Resp>, url: string, page: Page, rest: seq<string>, budget: nat, calls: nat,
                           acc: seq<TriagedItem>, reason: Option<string>): TriageRun<Resp>
    requires budget >= 1
    decreases budget, 0
  {
    var prompt := s.buildPrompt(page.text, reason, acc);
    match s.replies(calls)
    case None => TriageRun(None, [Visit(url, Some(prompt), [])])
    case Some(reply) =>
      var response := s.protocol.resolve(reply, Resolver(page));
      match s.protocol.read(response)
      case Verdict(items) =>
        if !s.drain || rest == [] then TriageRun(Some(Answered(response, Merge(acc, items))), [Visit(url, Some(prompt), [])])
        else Later(Visit(url, Some(prompt), []), Tri(s, rest, budget - 1, calls + 1, Merge(acc, items), reason))
      case MoreDocuments(urls, why, items) =>
        Later(Visit(url, Some(prompt), urls), Tri(s, rest + urls, budget - 1, calls + 1, Merge(acc, items), Some(why)))
      case Unexpected => TriageRun(None, [Visit(url, Some(prompt), [])])
  }

  // ---------------------------------------------------------------- the loop

  /** `execute` of the triage phase (and `triageAgenda` of the older orchestrator). */
  method TriageLoop<Resp>(s: TriageSetup<Resp>, agendaUrl: string, maxIterations: int, firstCall: nat)
    returns (outcome: Option<Outcome<Resp>>, visits: seq<Visit>)
    ensures TriageRun(outcome, visits) == Tri(s, [agendaUrl], Budget(maxIterations), firstCall, [], None)
  {
    var urlQueue := [agendaUrl];
    var accumulatedItems: seq<TriagedItem> := [];
    var fetchReason: Option<string> := None;
    visits := [];
    var calls := firstCall;
    var iteration := 1;
    ghost var budget := Budget(maxIterations);
    ghost var whole := Tri(s, [agendaUrl], budget, firstCall, [], None);
    ghost var left := budget;
    while iteration <= maxIterations
      invariant 1 <= iteration && left == budget - (iteration - 1) >= 0
      invariant iteration <= maxIterations + 1 || budget == 0
      invariant whole == After(visits, Tri(s, urlQueue, left, calls, accumulatedItems, fetchReason))
      decreases maxIterations + 1 - iteration
    {
      if urlQueue == [] {
        break;
      }
      var step := VisitStep(s, urlQueue, left, calls, accumulatedItems, fetchReason);
      if step.Stop? {
        assert whole == TriageRun(step.outcome, visits + [step.visit]);
        visits := visits + [step.visit];
        return step.outcome, visits;
      }
      AfterLater(visits, step.visit, Tri(s, step.queue, left - 1, step.calls, step.acc, step.reason));
      visits := visits + [step.visit];
      urlQueue, calls, accumulatedItems, fetchReason := step.queue, step.calls, step.acc, step.reason;
      left := left - 1;
      iteration := iteration + 1;
    }
    assert Tri(s, urlQueue, left, calls, accumulatedItems, fetchReason) == TriageRun(Leftover(accumulatedItems), []);
    assert visits + [] == visits;
    outcome := if accumulatedItems != [] then Some(Exhausted(accumulatedItems)) else None;
  }

  /** What one fetched page leads to: the run stops with this visit, or it goes on with the
      queue, accumulator and reason the reply leaves behind. */
  datatype Step<Resp> =
    | Stop(visit: Visit, outcome: Option<Outcome<Resp>>)
    | Go(visit: Visit, queue: seq<string>, calls: nat, acc: seq<TriagedItem>, reason: Option<string>)

  /** One iteration of the loop: the first queued URL is fetched, and answered when it could be. */
  method VisitStep<Resp>(s: TriageSetup<Resp>, queue: seq<string>, ghost budget: nat, calls: nat,
                         acc: seq<TriagedItem>, reason: Option<string>)
    returns (step: Step<Resp>)
    requires budget >= 1 && queue != []
    ensures step.Stop? ==> Tri(s, queue, budget, calls, acc, reason) == TriageRun(step.outcome, [step.visit])
    ensures step.Go? ==> Tri(s, queue, budget, calls, acc, reason)
                         == Later(step.visit, Tri(s, step.queue, budget - 1, step.calls, step.acc, step.reason))
  {
    var conversion := s.fetch(queue[0]);
    if conversion.None? {
      TriFetchFailed(s, queue, budget, calls, acc, reason);
      return Go(Visit(queue[0], None, []), queue[1..], calls, acc, reason);
    }
    TriFetched(s, queue, budget, calls, acc, reason);
    step := AnswerStep(s, queue[0], conversion.value, queue[1..], budget, calls, acc, reason);
  }

  /** The body of the loop once the page is fetched: one prompt, one reply, and what is made
      of it. */
  method AnswerStep<Resp>(s: TriageSetup<Resp>, url: string, page: Page, rest: seq<string>, ghost budget: nat, calls: nat,
                          acc: seq<TriagedItem>, reason: Option<string>)
    returns (step: Step<Resp>)
    requires budget >= 1
    ensures step.Stop? ==> TriAnswer(s, url, page, rest, budget, calls, acc, reason) == TriageRun(step.outcome, [step.visit])
    ensures step.Go? ==> TriAnswer(s, url, page, rest, budget, calls, acc, reason)
                         == Later(step.visit, Tri(s, step.queue, budget - 1, step.calls, step.acc, step.reason))
  {
    var prompt := s.buildPrompt(page.text, reason, acc);
    var reply := s.replies(calls);
    if reply.None? {
      return Stop(Visit(url, Some(prompt), []), None);
    }
    var response := s.protocol.resolve(reply.value, Resolver(page));
    var reading := s.protocol.read(response);
    if reading.Verdict? {
      var merged := AssociateByTitle(acc, reading.items);
      if !s.drain || rest == [] {
        return Stop(Visit(url, Some(prompt), []), Some(Answered(response, merged)));
      }
      return Go(Visit(url, Some(prompt), []), rest, calls + 1, merged, reason);
    } else if reading.MoreDocuments? {
      var merged := AssociateByTitle(acc, reading.items);
      return Go(Visit(url, Some(prompt), reading.urls), rest + reading.urls, calls + 1, merged, Some(reading.reason));
    } else {
      return Stop(Visit(url, Some(prompt), []), None);
    }
  }

  lemma AfterLater<Resp>(vs: seq<Visit>, v: Visit, run: TriageRun<Resp>)
    ensures After(vs, Later(v, run)) == After(vs + [v], run)
  {
    assert vs + ([v] + run.visits) == (vs + [v]) + run.visits;
  }

  lemma TriFetchFailed<Resp>(s: TriageSetup<Resp>, queue: seq<string>, budget: nat, calls: nat, acc: seq<TriagedItem>, reason: Option<string>)
    requires budget > 0 && queue != [] && s.fetch(queue[0]).None?
    ensures Tri(s, queue, budget, calls, acc, reason)
         == Later(Visit(queue[0], None, []), Tri(s, queue[1..], budget - 1, calls, acc, reason))
  {
  }

  lemma TriFetched<Resp>(s: TriageSetup<Resp>, queue: seq<string>, budget: nat, calls: nat, acc: seq<TriagedItem>, reason: Option<string>)
    requires budget > 0 && queue != [] && s.fetch(queue[0]).Some?
    ensures Tri(s, queue, budget, calls, acc, reason)
         == TriAnswer(s, queue[0], s.fetch(queue[0]).value, queue[1..], budget, calls, acc, reason)
  {
  }

  /** The reply to this page, resolved against its registry, and what the loop read in it. */
  function ReadingOf<Resp>(s: TriageSetup<Resp>, page: Page, calls: nat): Option<Reading>
  {
    match s.replies(calls)
    case None => None
    case Some(reply) => Some(s.protocol.read(s.protocol.resolve(reply, Resolver(page))))
  }

  /** With draining on and URLs still queued, a verdict merges its items and the loop goes on. */
  lemma TriVerdictGoesOn<Resp>(s: TriageSetup<Resp>, url: string, page: Page, rest: seq<string>, budget: nat, calls: nat,
                               acc: seq<TriagedItem>, reason: Option<string>)
    requires budget >= 1 && s.drain && rest != []
    requires ReadingOf(s, page, calls).Some? && ReadingOf(s, page, calls).value.Verdict?
    ensures TriAnswer(s, url, page, rest, budget, calls, acc, reason)
         == Later(Visit(url, Some(s.buildPrompt(page.text, reason, acc)), []),
                  Tri(s, rest, budget - 1, calls + 1, Merge(acc, ReadingOf(s, page, calls).value.items), reason))
  {
  }

  /** A document request merges its items, becomes the carried reason and queues its URLs. */
  lemma TriMoreDocuments<Resp>(s: TriageSetup<Resp>, url: string, page: Page, rest: seq<string>, budget: nat, calls: nat,
                               acc: seq<TriagedItem>, reason: Option<string>)
    requires budget >= 1
    requires ReadingOf(s, page, calls).Some? && ReadingOf(s, page, calls).value.MoreDocuments?
    ensures var r := ReadingOf(s, page, calls).value;
      TriAnswer(s, url, page, rest, budget, calls, acc, reason)
      == Later(Visit(url, Some(s.buildPrompt(page.text, reason, acc)), r.urls),
               Tri(s, rest + r.urls, budget - 1, calls + 1, Merge(acc, r.items), Some(r.reason)))
  {
  }

  // ---------------------------------------------------------------- properties

  /** One iteration, as for the navigation loop: either the run stops at the first visit, or it
      goes on from the rest of the queue followed by what the visit appended, with the
      accumulator and the reason it left behind. */
  lemma TriStep<Resp>(s: TriageSetup<Resp>, queue: seq<string>, budget: nat, calls: nat, acc: seq<TriagedItem>, reason: Option<string>)
    returns (v: Visit, final: bool, acc': seq<TriagedItem>, reason': Option<string>)
    requires budget > 0 && queue != []
    ensures v.url == queue[0]
    ensures v.prompt.Some? <==> s.fetch(queue[0]).Some?
    ensures v.prompt.Some? ==> v.prompt.value == s.buildPrompt(s.fetch(queue[0]).value.text, reason, acc)
    ensures final ==> Tri(s, queue, budget, calls, acc, reason).visits == [v] && v.enqueued == [] && v.prompt.Some?
    ensures !final ==> Tri(s, queue, budget, calls, acc, reason)
                       == Later(v, Tri(s, queue[1..] + v.enqueued, budget - 1, calls + (if v.prompt.Some? then 1 else 0), acc', reason'))
    ensures Titles(acc) <= Titles(acc') && (UniqueTitles(acc) ==> UniqueTitles(acc'))
    ensures final ==> (Tri(s, queue, budget, calls, acc, reason).outcome.Some? ==>
                       Tri(s, queue, budget, calls, acc, reason).outcome.value.Answered?
                       && Tri(s, queue, budget, calls, acc, reason).outcome.value.items == acc'
                       && s.protocol.read(Tri(s, queue, budget, calls, acc, reason).outcome.value.response).Verdict?)
  {
    acc', reason' := acc, reason;
    match s.fetch(queue[0])
    case None =>
      v, final := Visit(queue[0], None, []), false;
      assert queue[1..] + [] == queue[1..];
    case Some(page) =>
      var prompt := s.buildPrompt(page.text, reason, acc);
      v, final := Visit(queue[0], Some(prompt), []), true;
      if s.replies(calls).Some? {
        var response := s.protocol.resolve(s.replies(calls).value, Resolver(page));
        match s.protocol.read(response)
        case Verdict(items) =>
          acc' := Merge(acc, items);
          MergeGrows(acc, items);
          if s.drain && queue[1..] != [] {
            final := false;
            assert queue[1..] + [] == queue[1..];
          }
        case MoreDocuments(urls, why, items) =>
          acc', reason' := Merge(acc, items), Some(why);
          MergeGrows(acc, items);
          v, final := Visit(queue[0], Some(prompt), urls), false;
        case Unexpected =>
      }
  }

  /** Merging only ever adds to the accumulator, and keeps it a map. */
  lemma MergeGrows(acc: seq<TriagedItem>, items: seq<TriagedItem>)
    ensures Titles(acc) <= Titles(Merge(acc, items))
    ensures UniqueTitles(acc) ==> UniqueTitles(Merge(acc, items))
  {
    MergeKeepsOrder(acc, items);
    if UniqueTitles(acc) {
      MergeUnique(acc, items);
    }
  }

  /** At most one generator call per iteration, and none for a failed fetch. */
  lemma {:induction false} TriBounds<Resp>(s: TriageSetup<Resp>, queue: seq<string>, budget: nat, calls: nat,
                                           acc: seq<TriagedItem>, reason: Option<string>)
    ensures CallCount(Tri(s, queue, budget, calls, acc, reason).visits) <= |Tri(s, queue, budget, calls, acc, reason).visits| <= budget
    decreases budget
  {
    if budget > 0 && queue != [] {
      var v, final, acc', reason' := TriStep(s, queue, budget, calls, acc, reason);
      if !final {
        var tail := Tri(s, queue[1..] + v.enqueued, budget - 1, calls + (if v.prompt.Some? then 1 else 0), acc', reason');
        TriBounds(s, queue[1..] + v.enqueued, budget - 1, calls + (if v.prompt.Some? then 1 else 0), acc', reason');
        CallCountCons(v, tail.visits);
      } else {
        CallCountCons(v, []);
      }
    }
  }

  /** Whatever a run returns carries the accumulator it ended with: its items hold every title
      accumulated before, first in the order they were accumulated, at most once each; an
      exhausted run returns a non-empty accumulator. */
  lemma {:induction false} TriItems<Resp>(s: TriageSetup<Resp>, queue: seq<string>, budget: nat, calls: nat,
                                          acc: seq<TriagedItem>, reason: Option<string>)
    requires UniqueTitles(acc)
    ensures var out := Tri(s, queue, budget, calls, acc, reason).outcome;
      out.Some? ==> && Titles(acc) <= Titles(out.value.items)
                    && UniqueTitles(out.value.items)
                    && (out.value.Exhausted? ==> out.value.items != [])
    decreases budget
  {
    if budget > 0 && queue != [] {
      var v, final, acc', reason' := TriStep(s, queue, budget, calls, acc, reason);
      if !final {
        TriItems(s, queue[1..] + v.enqueued, budget - 1, calls + (if v.prompt.Some? then 1 else 0), acc', reason');
      }
    }
  }

  /** A run answers only with a reply the loop read as a verdict. */
  lemma {:induction false} TriAnsweredIsVerdict<Resp>(s: TriageSetup<Resp>, queue: seq<string>, budget: nat, calls: nat,
                                                      acc: seq<TriagedItem>, reason: Option<string>)
    ensures var out := Tri(s, queue, budget, calls, acc, reason).outcome;
      out.Some? && out.value.Answered? ==> s.protocol.read(out.value.response).Verdict?
    decreases budget
  {
    if budget > 0 && queue != [] {
      var v, final, acc', reason' := TriStep(s, queue, budget, calls, acc, reason);
      if !final {
        TriAnsweredIsVerdict(s, queue[1..] + v.enqueued, budget - 1, calls + (if v.prompt.Some? then 1 else 0), acc', reason');
      }
    }
  }

  /** A run that stops for lack of URLs or of budget returns the accumulator as it is, or nothing
      when it is empty. */
  lemma TriExhausted<Resp>(s: TriageSetup<Resp>, queue: seq<string>, budget: nat, calls: nat,
                           acc: seq<TriagedItem>, reason: Option<string>)
    requires budget == 0 || queue == []
    ensures Tri(s, queue, budget, calls, acc, reason).outcome == (if acc == [] then None else Some(Exhausted(acc)))
    ensures Tri(s, queue, budget, calls, acc, reason).visits == []
  {
  }

  /** A verdict for the last queued URL (or any verdict, when not draining) returns that verdict
      with the accumulator merged with its items. */
  lemma TriVerdictReturns<Resp>(s: TriageSetup<Resp>, queue: seq<string>, budget: nat, calls: nat,
                                acc: seq<TriagedItem>, reason: Option<string>)
    requires budget > 0 && queue != [] && s.fetch(queue[0]).Some?
    requires !s.drain || |queue| == 1
    requires var r := ReadingOf(s, s.fetch(queue[0]).value, calls); r.Some? && r.value.Verdict?
    ensures var page := s.fetch(queue[0]).value;
      Tri(s, queue, budget, calls, acc, reason).outcome
      == Some(Answered(s.protocol.resolve(s.replies(calls).value, Resolver(page)),
                       Merge(acc, ReadingOf(s, page, calls).value.items)))
  {
    TriFetched(s, queue, budget, calls, acc, reason);
  }

  /** An unexpected reply, or one that did not parse, ends the run with nothing whatever has
      been accumulated. */
  lemma TriRejects<Resp>(s: TriageSetup<Resp>, queue: seq<string>, budget: nat, calls: nat,
                         acc: seq<TriagedItem>, reason: Option<string>)
    requires budget > 0 && queue != [] && s.fetch(queue[0]).Some?
    requires var r := ReadingOf(s, s.fetch(queue[0]).value, calls); r.None? || r.value.Unexpected?
    ensures Tri(s, queue, budget, calls, acc, reason).outcome.None?
    ensures |Tri(s, queue, budget, calls, acc, reason).visits| == 1
  {
    TriFetched(s, queue, budget, calls, acc, reason);
  }

  /** The reason of a document request reaches the next prompt, with the merged items: when the
      requested page is the next one fetched, its prompt is built from them. */
  lemma TriReasonCarried<Resp>(s: TriageSetup<Resp>, url: string, budget: nat, calls: nat,
                               acc: seq<TriagedItem>, reason: Option<string>)
    requires budget >= 2 && s.fetch(url).Some?
    requires var r := ReadingOf(s, s.fetch(url).value, calls);
      r.Some? && r.value.MoreDocuments? && r.value.urls != [] && s.fetch(r.value.urls[0]).Some?
    ensures var r := ReadingOf(s, s.fetch(url).value, calls).value;
      var visits := Tri(s, [url], budget, calls, acc, reason).visits;
      && |visits| >= 2
      && visits[1].url == r.urls[0]
      && visits[1].prompt == Some(s.buildPrompt(s.fetch(r.urls[0]).value.text, Some(r.reason), Merge(acc, r.items)))
  {
    var page := s.fetch(url).value;
    var r := ReadingOf(s, page, calls).value;
    var tail := Tri(s, r.urls, budget - 1, calls + 1, Merge(acc, r.items), Some(r.reason));
    var whole := Tri(s, [url], budget, calls, acc, reason);
    assert whole == Later(Visit(url, Some(s.buildPrompt(page.text, reason, acc)), r.urls), tail) by {
      TriFetched(s, [url], budget, calls, acc, reason);
      TriMoreDocuments(s, url, page, [], budget, calls, acc, reason);
      assert [url][1..] + r.urls == r.urls;
    }
    TriFirstVisit(s, r.urls, budget - 1, calls + 1, Merge(acc, r.items), Some(r.reason));
    assert whole.visits[1] == tail.visits[0];
  }

  /** The first visit of a run whose first page is fetched carries the prompt built from it. */
  lemma TriFirstVisit<Resp>(s: TriageSetup<Resp>, queue: seq<string>, budget: nat, calls: nat,
                            acc: seq<TriagedItem>, reason: Option<string>)
    requires budget > 0 && queue != [] && s.fetch(queue[0]).Some?
    ensures var visits := Tri(s, queue, budget, calls, acc, reason).visits;
      && |visits| >= 1 && visits[0].url == queue[0]
      && visits[0].prompt == Some(s.buildPrompt(s.fetch(queue[0]).value.text, reason, acc))
  {
    var v, final, acc', reason' := TriStep(s, queue, budget, calls, acc, reason);
  }
}
