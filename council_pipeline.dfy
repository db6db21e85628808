/** `CouncilPipeline`: the breadth-first crawl of one council's pages and the run over all
    councils. The scraper and the analyser are oracles; an exception either of them throws is
    their answering None. */
module CouncilPipeline {
  import opened Wrappers
  import opened Decisions
  import opened Bluesky
  import Analyzer
  import JsonValues
  import Text

  /** `fetchPage` and `analyzePage`; None where the call throws. */
  datatype Services = Services(
    fetchPage: string -> Option<string>,
    analyzePage: (Council, string, string) -> Option<AnalysisResult>)

  /** What the `try` block yields for one URL: the analysis, or None when it throws. */
  function Analyse(s: Services, council: Council, url: string): Option<AnalysisResult> {
    match s.fetchPage(url)
    case None => None
    case Some(content) => s.analyzePage(council, content, url)
  }

  /** `filter { it !in visited }`. */
  function Unvisited(urls: seq<string>, visited: set<string>): (r: seq<string>)
    ensures forall i :: 0 <= i < |r| ==> r[i] !in visited && r[i] in urls
    ensures forall u :: u in urls && u !in visited ==> u in r
  {
    if urls == [] then []
    else Unvisited(urls[..|urls| - 1], visited) + (if urls[|urls| - 1] in visited then [] else [urls[|urls| - 1]])
  }

  // ---------------------------------------------------------------- the crawl, as a function

  /** The loop's variables, plus the URLs taken past the `visited` check (`processed`) and those
      analysed successfully (`analysed`), both in order. */
  datatype Crawl = Crawl(
    toVisit: seq<string>,
    visited: set<string>,
    depth: int,
    decisions: seq<Decision>,
    processed: seq<string>,
    analysed: seq<string>)

  /** The state before the loop: only the meetings page queued. */
  function Start(council: Council): Crawl {
    Crawl([council.meetingsUrl], {}, 0, [], [], [])
  }

  /** One iteration of the `while` loop. */
  function Step(s: Services, council: Council, c: Crawl): (r: Crawl)
    requires c.toVisit != []
    ensures (r.depth == c.depth && |r.toVisit| == |c.toVisit| - 1) || r.depth == c.depth + 1
  {
    var url := c.toVisit[0];
    var rest := c.toVisit[1..];
    if url in c.visited then c.(toVisit := rest)
    else
      var visited := c.visited + {url};
      match Analyse(s, council, url)
      case None => Crawl(rest, visited, c.depth, c.decisions, c.processed + [url], c.analysed)
      case Some(result) =>
        Crawl(rest + Unvisited(result.followUpUrls, visited), visited, c.depth + 1,
              c.decisions + result.decisions, c.processed + [url], c.analysed + [url])
  }

  /** The loop: it runs while the queue is not empty and fewer pages than `maxDepth` have been
      analysed. It ends because every iteration either analyses one more page or shortens the
      queue without changing the depth. */
  function Run(s: Services, council: Council, maxDepth: int, c: Crawl): (r: Crawl)
    ensures r.toVisit == [] || r.depth >= maxDepth
    decreases maxDepth - c.depth, |c.toVisit|
  {
    if c.toVisit != [] && c.depth < maxDepth then Run(s, council, maxDepth, Step(s, council, c)) else c
  }

  /** `processCouncil`'s result. */
  function CouncilDecisions(s: Services, council: Council, maxDepth: int): seq<Decision> {
    Run(s, council, maxDepth, Start(council)).decisions
  }

  // ---------------------------------------------------------------- what the crawl keeps

  /** The decisions of the given pages, in that order. */
  function Collected(s: Services, council: Council, urls: seq<string>): seq<Decision>
    requires forall i :: 0 <= i < |urls| ==> Analyse(s, council, urls[i]).Some?
  {
    if urls == [] then []
    else Collected(s, council, urls[..|urls| - 1]) + Analyse(s, council, urls[|urls| - 1]).value.decisions
  }

  predicate Distinct(urls: seq<string>) {
    forall i, j :: 0 <= i < j < |urls| ==> urls[i] != urls[j]
  }

  /** The facts the loop keeps: each processed URL is processed once and is exactly what
      `visited` holds; the depth counts the successful pages; the decisions are theirs, in visit
      order. */
  ghost predicate Good(s: Services, council: Council, c: Crawl) {
    && Distinct(c.processed)
    && (forall u :: u in c.visited <==> u in c.processed)
    && Distinct(c.analysed)
    && (forall i :: 0 <= i < |c.analysed| ==> c.analysed[i] in c.processed && Analyse(s, council, c.analysed[i]).Some?)
    && c.depth == |c.analysed|
    && c.decisions == Collected(s, council, c.analysed)
  }

  lemma StartGood(s: Services, council: Council)
    ensures Good(s, council, Start(council))
  {
  }

  lemma StepGood(s: Services, council: Council, c: Crawl)
    requires Good(s, council, c) && c.toVisit != []
    ensures Good(s, council, Step(s, council, c))
  {
    var url := c.toVisit[0];
    if url !in c.visited {
      var r := Step(s, council, c);
      assert r.processed == c.processed + [url];
      match Analyse(s, council, url)
      case None =>
      case Some(result) =>
        assert r.analysed == c.analysed + [url];
        assert r.analysed[..|r.analysed| - 1] == c.analysed;
    }
  }

  lemma {:induction false} RunGood(s: Services, council: Council, maxDepth: int, c: Crawl)
    requires Good(s, council, c)
    ensures Good(s, council, Run(s, council, maxDepth, c))
    decreases maxDepth - c.depth, |c.toVisit|
  {
    if c.toVisit != [] && c.depth < maxDepth {
      StepGood(s, council, c);
      RunGood(s, council, maxDepth, Step(s, council, c));
    }
  }

  lemma {:induction false} RunDepth(s: Services, council: Council, maxDepth: int, c: Crawl)
    requires c.depth <= maxDepth
    ensures c.depth <= Run(s, council, maxDepth, c).depth <= maxDepth
    decreases maxDepth - c.depth, |c.toVisit|
  {
    if c.toVisit != [] && c.depth < maxDepth {
      RunDepth(s, council, maxDepth, Step(s, council, c));
    }
  }

  /** Over a whole crawl of a council: no page is fetched twice, at most `maxDepth` pages are
      analysed successfully, and the decisions are those pages' decisions in visit order. */
  lemma CrawlFacts(s: Services, council: Council, maxDepth: int)
    ensures var r := Run(s, council, maxDepth, Start(council));
            && Distinct(r.processed)
            && Distinct(r.analysed)
            && (maxDepth >= 0 ==> |r.analysed| <= maxDepth)
            && (maxDepth <= 0 ==> r.processed == [] && r.decisions == [])
            && (forall i :: 0 <= i < |r.analysed| ==> r.analysed[i] in r.processed && Analyse(s, council, r.analysed[i]).Some?)
            && r.decisions == Collected(s, council, r.analysed)
  {
    StartGood(s, council);
    RunGood(s, council, maxDepth, Start(council));
    if maxDepth >= 0 {
      RunDepth(s, council, maxDepth, Start(council));
    }
  }

  /** A page whose fetch or analysis throws only pops the queue and marks the URL visited: the
      depth, the queue's rest and the decisions stay as they were. */
  lemma FailureChangesNothing(s: Services, council: Council, c: Crawl)
    requires c.toVisit != [] && c.toVisit[0] !in c.visited && Analyse(s, council, c.toVisit[0]).None?
    ensures var r := Step(s, council, c);
            r.depth == c.depth && r.toVisit == c.toVisit[1..] && r.decisions == c.decisions
            && r.visited == c.visited + {c.toVisit[0]}
  {
  }

  /** A successful page keeps the queue first in, first out: its unvisited follow-ups join the
      back, none of them visited, while the page itself is now visited. */
  lemma SuccessQueuesUnvisited(s: Services, council: Council, c: Crawl)
    requires c.toVisit != [] && c.toVisit[0] !in c.visited && Analyse(s, council, c.toVisit[0]).Some?
    ensures var r := Step(s, council, c);
            var added := r.toVisit[|c.toVisit| - 1..];
            && r.toVisit[..|c.toVisit| - 1] == c.toVisit[1..]
            && (forall i :: 0 <= i < |added| ==> added[i] !in r.visited && added[i] in Analyse(s, council, c.toVisit[0]).value.followUpUrls)
            && (forall u :: u in Analyse(s, council, c.toVisit[0]).value.followUpUrls && u !in r.visited ==> u in added)
            && c.toVisit[0] in r.visited
  {
    var r := Step(s, council, c);
    var added := Unvisited(Analyse(s, council, c.toVisit[0]).value.followUpUrls, c.visited + {c.toVisit[0]});
    assert r.toVisit == c.toVisit[1..] + added;
    assert r.toVisit[|c.toVisit| - 1..] == added;
  }

  /** With the analyser of `DefaultLlmAnalyzer`, every decision of a crawl names the council and
      one of the pages it analysed. */
  lemma {:induction false} DefaultAnalyzerStamps(s: Services, council: Council, urls: seq<string>,
                                                 complete: (Council, string, string) -> Option<Option<JsonValues.Json>>)
    requires forall c, content, u :: s.analyzePage(c, content, u) == Analyzer.AnalyzePage(complete, c, content, u)
    requires forall i :: 0 <= i < |urls| ==> Analyse(s, council, urls[i]).Some?
    ensures forall i :: 0 <= i < |Collected(s, council, urls)| ==>
              Collected(s, council, urls)[i].councilId == council.id && Collected(s, council, urls)[i].meetingUrl in urls
    decreases |urls|
  {
    if urls != [] {
      var init := urls[..|urls| - 1];
      var last := urls[|urls| - 1];
      DefaultAnalyzerStamps(s, council, init, complete);
      var content := s.fetchPage(last).value;
      match complete(council, content, last)
      case None =>
      case Some(parsed) =>
        var result := Analyzer.ParseResponse(council, parsed, last);
        assert Analyse(s, council, last).value == result;
        var ds := Collected(s, council, urls);
        var head := Collected(s, council, init);
        forall i | 0 <= i < |ds| ensures ds[i].councilId == council.id && ds[i].meetingUrl in urls {
          if i < |head| {
            assert ds[i] == head[i];
            assert head[i].meetingUrl in init;
            assert forall u :: u in init ==> u in urls;
          } else {
            assert ds[i] == result.decisions[i - |head|];
          }
        }
    }
  }

  // ---------------------------------------------------------------- the crawl, as a loop

  /** `processCouncil`. */
  method ProcessCouncil(s: Services, council: Council, maxDepth: int) returns (allDecisions: seq<Decision>)
    ensures allDecisions == CouncilDecisions(s, council, maxDepth)
  {
    allDecisions := [];
    var visited: set<string> := {};
    var toVisit: seq<string> := [council.meetingsUrl];
    var depth := 0;
    ghost var processed: seq<string> := [];
    ghost var analysed: seq<string> := [];
    while toVisit != [] && depth < maxDepth
      invariant Run(s, council, maxDepth, Crawl(toVisit, visited, depth, allDecisions, processed, analysed))
                == Run(s, council, maxDepth, Start(council))
      decreases maxDepth - depth, |toVisit|
    {
      ghost var before := Crawl(toVisit, visited, depth, allDecisions, processed, analysed);
      var url := toVisit[0];
      toVisit := toVisit[1..];
      if url in visited {
        continue;
      }
      visited := visited + {url};
      processed := processed + [url];
      var page := s.fetchPage(url);
      if page.Some? {
        var result := s.analyzePage(council, page.value, url);
        if result.Some? {
          allDecisions := allDecisions + result.value.decisions;
          toVisit := Enqueue(toVisit, result.value.followUpUrls, visited);
          depth := depth + 1;
          analysed := analysed + [url];
        }
      }
      assert Crawl(toVisit, visited, depth, allDecisions, processed, analysed) == Step(s, council, before);
    }
  }

  /** `followUpUrls.filter { it !in visited }.forEach { toVisit.add(it) }`. */
  method Enqueue(toVisit: seq<string>, followUps: seq<string>, visited: set<string>) returns (queue: seq<string>)
    ensures queue == toVisit + Unvisited(followUps, visited)
  {
    queue := toVisit;
    for i := 0 to |followUps|
      invariant queue == toVisit + Unvisited(followUps[..i], visited)
    {
      assert followUps[..i + 1][..i] == followUps[..i];
      if followUps[i] !in visited {
        queue := queue + [followUps[i]];
      }
    }
    assert followUps[..|followUps|] == followUps;
  }

  // ---------------------------------------------------------------- all councils

  /** The decision lists handed to `publishAll`: one per council whose crawl found any, in
      council order. */
  function Published(s: Services, councils: seq<Council>, maxDepth: int): seq<seq<Decision>> {
    if councils == [] then []
    else
      var ds := CouncilDecisions(s, councils[|councils| - 1], maxDepth);
      Published(s, councils[..|councils| - 1], maxDepth) + (if ds != [] then [ds] else [])
  }

  /** The posts made for a sequence of `publishAll` calls that all succeed. */
  function AllPosts(lists: seq<seq<Decision>>, minScore: int): seq<Post> {
    if lists == [] then []
    else AllPosts(lists[..|lists| - 1], minScore) + Posts(Relevant(lists[|lists| - 1], minScore))
  }

  /** One more council adds its decisions to what is published, when it has any. */
  lemma PublishedSnoc(s: Services, councils: seq<Council>, i: nat, maxDepth: int)
    requires i < |councils|
    ensures var ds := CouncilDecisions(s, councils[i], maxDepth);
      Published(s, councils[..i + 1], maxDepth) == Published(s, councils[..i], maxDepth) + (if ds != [] then [ds] else [])
  {
    assert councils[..i + 1][..i] == councils[..i];
  }

  /** One more successful `publishAll` adds the posts of its relevant decisions. */
  lemma AllPostsSnoc(lists: seq<seq<Decision>>, list: seq<Decision>, minScore: int)
    ensures AllPosts(lists + [list], minScore) == AllPosts(lists, minScore) + Posts(Relevant(list, minScore))
  {
    assert (lists + [list])[..|lists|] == lists;
  }

  /** Councils are independent: the lists published for two runs of councils in a row are
      those of each run, one after the other, and none of them is empty. */
  lemma {:induction false} PublishedConcat(s: Services, a: seq<Council>, b: seq<Council>, maxDepth: int)
    ensures Published(s, a + b, maxDepth) == Published(s, a, maxDepth) + Published(s, b, maxDepth)
    decreases |b|
  {
    if b == [] {
      assert a + b == a;
    } else {
      assert (a + b)[..|a + b| - 1] == a + b[..|b| - 1];
      PublishedConcat(s, a, b[..|b| - 1], maxDepth);
    }
  }

  lemma {:induction false} PublishedNonEmpty(s: Services, councils: seq<Council>, maxDepth: int)
    ensures forall i :: 0 <= i < |Published(s, councils, maxDepth)| ==> Published(s, councils, maxDepth)[i] != []
    decreases |councils|
  {
    if councils != [] {
      PublishedNonEmpty(s, councils[..|councils| - 1], maxDepth);
    }
  }

  /** `processAllCouncils`: every council is crawled; `publishAll` is called for the non-empty
      results only, and a failed publish does not stop the councils after it. `published` is the
      sequence of lists handed to `publishAll`. */
  method ProcessAllCouncils(s: Services, councils: seq<Council>, maxDepth: int, publisher: Publisher)
    returns (published: seq<seq<Decision>>)
    modifies publisher
    ensures published == Published(s, councils, maxDepth)
    ensures publisher.CanPost() == old(publisher.CanPost())
    ensures publisher.accessToken
         == (if AllPosts(published, publisher.minRelevanceScore) == [] || old(publisher.accessToken).Some?
             then old(publisher.accessToken) else publisher.session)
    ensures publisher.posts == old(publisher.posts)
              + (if old(publisher.CanPost()) then AllPosts(published, publisher.minRelevanceScore) else [])
  {
    ghost var canPost := publisher.CanPost();
    ghost var token := publisher.accessToken;
    ghost var before := publisher.posts;
    published := [];
    for i := 0 to |councils|
      invariant published == Published(s, councils[..i], maxDepth)
      invariant publisher.CanPost() == canPost
      invariant publisher.accessToken
             == (if AllPosts(published, publisher.minRelevanceScore) == [] || token.Some? then token else publisher.session)
      invariant publisher.posts == before + (if canPost then AllPosts(published, publisher.minRelevanceScore) else [])
    {
      PublishedSnoc(s, councils, i, maxDepth);
      ghost var ds := CouncilDecisions(s, councils[i], maxDepth);
      ghost var prior := published;
      ghost var held := publisher.accessToken;
      ghost var more := if ds != [] then Posts(Relevant(ds, publisher.minRelevanceScore)) else [];
      AllPostsSnoc(published, ds, publisher.minRelevanceScore);
      published := ProcessOneCouncil(s, councils[i], maxDepth, publisher, published, before);
      if ds != [] {
        assert published == prior + [ds];
      } else {
        assert published == prior && AllPosts(prior, publisher.minRelevanceScore) + more == AllPosts(prior, publisher.minRelevanceScore);
      }
      TokenStep(token, held, publisher.accessToken, publisher.session, AllPosts(prior, publisher.minRelevanceScore), more);
    }
    assert councils[..|councils|] == councils;
  }

  /** The token after two publishing steps: it is first taken once something is posted. */
  lemma TokenStep(first: Option<string>, middle: Option<string>, last: Option<string>, session: Option<string>,
                  a: seq<Post>, b: seq<Post>)
    requires middle == (if a == [] || first.Some? then first else session)
    requires last == (if b == [] || middle.Some? then middle else session)
    ensures last == (if a + b == [] || first.Some? then first else session)
  {
    assert a + b == [] <==> a == [] && b == [] by {
      assert |a + b| == |a| + |b|;
    }
  }

  /** One iteration of `processAllCouncils`: crawl the council and publish what it found. */
  method ProcessOneCouncil(s: Services, council: Council, maxDepth: int, publisher: Publisher,
                           published: seq<seq<Decision>>, ghost before: seq<Post>)
    returns (published': seq<seq<Decision>>)
    modifies publisher
    requires publisher.posts == before + (if publisher.CanPost() then AllPosts(published, publisher.minRelevanceScore) else [])
    ensures var ds := CouncilDecisions(s, council, maxDepth);
      published' == published + (if ds != [] then [ds] else [])
    ensures publisher.CanPost() == old(publisher.CanPost())
    ensures var ds := CouncilDecisions(s, council, maxDepth);
      publisher.accessToken
         == (if ds == [] || Relevant(ds, publisher.minRelevanceScore) == [] || old(publisher.accessToken).Some?
             then old(publisher.accessToken) else publisher.session)
    ensures publisher.posts == before + (if publisher.CanPost() then AllPosts(published', publisher.minRelevanceScore) else [])
  {
    var decisions := ProcessCouncil(s, council, maxDepth);
    published' := PublishFound(publisher, published, decisions, before);
  }

  /** The publishing half of an iteration: `publishAll` is called only when the crawl found
      decisions; a failed publish is caught and the loop goes on. */
  method PublishFound(publisher: Publisher, published: seq<seq<Decision>>, decisions: seq<Decision>,
                      ghost before: seq<Post>)
    returns (published': seq<seq<Decision>>)
    modifies publisher
    requires publisher.posts == before + (if publisher.CanPost() then AllPosts(published, publisher.minRelevanceScore) else [])
    ensures published' == published + (if decisions != [] then [decisions] else [])
    ensures publisher.CanPost() == old(publisher.CanPost())
    ensures publisher.accessToken
         == (if decisions == [] || Relevant(decisions, publisher.minRelevanceScore) == [] || old(publisher.accessToken).Some?
             then old(publisher.accessToken) else publisher.session)
    ensures publisher.posts == before + (if publisher.CanPost() then AllPosts(published', publisher.minRelevanceScore) else [])
  {
    published' := published;
    if decisions != [] {
      ghost var all := AllPosts(published, publisher.minRelevanceScore);
      ghost var more := Posts(Relevant(decisions, publisher.minRelevanceScore));
      var ok := publisher.PublishAll(decisions);
      AllPostsSnoc(published, decisions, publisher.minRelevanceScore);
      Text.Assoc(before, all, more);
      published' := published + [decisions];
    }
  }
}
