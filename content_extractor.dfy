/** `ContentExtractor`: after parsing, five selector queries each remove the elements they
    match, each with its whole subtree: the invisible tags, the `hidden` attribute, a style
    declaring `display: none` or `visibility: hidden`, and `aria-hidden="true"`. */
module ContentExtractor {
  import opened Text
  import opened Dom

  /** The five queries of `removeInvisibleElements`, in the order they run. */
  datatype Rule = InvisibleTag | HiddenAttribute | DisplayNone | VisibilityHidden | AriaHidden

  const AllRules: set<Rule> := {InvisibleTag, HiddenAttribute, DisplayNone, VisibilityHidden, AriaHidden}

  const InvisibleTags: set<string> := {"script", "style", "noscript", "template", "meta", "link"}

  /** Java's regex `\s`. */
  predicate IsRegexSpace(c: char) {
    c == ' ' || c == '\t' || c == '\n' || c == '\U{000B}' || c == '\U{000C}' || c == '\r'
  }

  /** The first index at or after `i` that is not a regex space. */
  function SkipSpaces(s: string, i: nat): (j: nat)
    requires i <= |s|
    ensures i <= j <= |s| && (j < |s| ==> !IsRegexSpace(s[j]))
    ensures forall k :: i <= k < j ==> IsRegexSpace(s[k])
    decreases |s| - i
  {
    if i < |s| && IsRegexSpace(s[i]) then SkipSpaces(s, i + 1) else i
  }

  /** `(?i)prop\s*:\s*value` matches at index `i` (ASCII case-insensitively, as Java's `(?i)`
      does without the Unicode flag). The spaces are skipped greedily, which loses no match as
      neither ':' nor the first letter of the value is a space. */
  predicate DeclarationAt(s: string, i: nat, prop: string, value: string)
    requires i <= |s|
  {
    && i + |prop| <= |s| && EqualsIgnoreCaseAscii(s[i..i + |prop|], prop)
    && var j := SkipSpaces(s, i + |prop|);
       && j < |s| && s[j] == ':'
       && var k := SkipSpaces(s, j + 1);
          k + |value| <= |s| && EqualsIgnoreCaseAscii(s[k..k + |value|], value)
  }

  /** `Matcher.find()` of that pattern: a match somewhere in `s`. */
  predicate Declares(s: string, prop: string, value: string) {
    exists i :: 0 <= i <= |s| && DeclarationAt(s, i, prop, value)
  }

  /** Whether the element is one of those a query selects. */
  predicate Matches(rule: Rule, n: Node)
  {
    && n.Element?
    && match rule
       case InvisibleTag => n.tag in InvisibleTags
       case HiddenAttribute => "hidden" in n.attrs
       case DisplayNone => "style" in n.attrs && Declares(n.attrs["style"], "display", "none")
       case VisibilityHidden => "style" in n.attrs && Declares(n.attrs["style"], "visibility", "hidden")
       case AriaHidden => "aria-hidden" in n.attrs && EqualsIgnoreCaseAscii(JavaTrim(n.attrs["aria-hidden"]), "true")
  }

  predicate MatchedBy(n: Node, rules: set<Rule>) {
    exists rule :: rule in rules && Matches(rule, n)
  }

  /** `select(...).remove()` for the queries `rules`: every matching element goes, with its
      subtree; everything else stays in place. */
  function Prune(cs: seq<Node>, rules: set<Rule>): seq<Node>
  {
    if cs == [] then []
    else if MatchedBy(cs[0], rules) then Prune(cs[1..], rules)
    else if cs[0].Element? then [PruneNode(cs[0], rules)] + Prune(cs[1..], rules)
    else [cs[0]] + Prune(cs[1..], rules)
  }

  /** A kept element: the same tag and attributes, its children pruned. */
  function PruneNode(n: Node, rules: set<Rule>): (r: Node)
    requires n.Element?
    ensures r.Element? && r.tag == n.tag && r.attrs == n.attrs
  {
    Element(n.tag, n.attrs, Prune(n.children, rules))
  }

  // ---------------------------------------------------------------- the document

  /** The parsed document, whose nodes the queries remove in place. */
  class Document {
    var children: seq<Node>

    constructor(parsed: seq<Node>)
      ensures children == parsed
    {
      children := parsed;
    }

    /** One `select(...).remove()`. */
    method RemoveMatching(rule: Rule)
      modifies this
      ensures children == Prune(old(children), {rule})
    {
      children := Prune(children, {rule});
    }
  }

  /** `removeInvisibleElements`: the five queries one after the other, which is one pruning by
      all of them. */
  method RemoveInvisibleElements(document: Document)
    modifies document
    ensures document.children == Prune(old(document.children), AllRules)
  {
    ghost var original := document.children;
    document.RemoveMatching(InvisibleTag);
    document.RemoveMatching(HiddenAttribute);
    PruneCompose(original, {InvisibleTag}, {HiddenAttribute});
    assert {InvisibleTag} + {HiddenAttribute} == {InvisibleTag, HiddenAttribute};
    document.RemoveMatching(DisplayNone);
    PruneCompose(original, {InvisibleTag, HiddenAttribute}, {DisplayNone});
    assert {InvisibleTag, HiddenAttribute} + {DisplayNone} == {InvisibleTag, HiddenAttribute, DisplayNone};
    document.RemoveMatching(VisibilityHidden);
    PruneCompose(original, {InvisibleTag, HiddenAttribute, DisplayNone}, {VisibilityHidden});
    assert {InvisibleTag, HiddenAttribute, DisplayNone} + {VisibilityHidden}
        == {InvisibleTag, HiddenAttribute, DisplayNone, VisibilityHidden};
    document.RemoveMatching(AriaHidden);
    PruneCompose(original, {InvisibleTag, HiddenAttribute, DisplayNone, VisibilityHidden}, {AriaHidden});
    assert {InvisibleTag, HiddenAttribute, DisplayNone, VisibilityHidden} + {AriaHidden} == AllRules;
  }

  /** `extract`, from the parsed tree: a new document with the invisible elements removed. */
  method Extract(parsed: seq<Node>) returns (document: Document)
    ensures fresh(document)
    ensures document.children == Prune(parsed, AllRules)
  {
    document := new Document(parsed);
    RemoveInvisibleElements(document);
  }

  // ---------------------------------------------------------------- properties

  lemma MatchedByUnion(n: Node, r1: set<Rule>, r2: set<Rule>)
    ensures MatchedBy(n, r1 + r2) <==> MatchedBy(n, r1) || MatchedBy(n, r2)
  {
    if MatchedBy(n, r1 + r2) {
      var rule :| rule in r1 + r2 && Matches(rule, n);
    }
  }

  /** Removing by one set of queries and then by another is removing by both at once. */
  lemma {:induction false} PruneCompose(cs: seq<Node>, r1: set<Rule>, r2: set<Rule>)
    ensures Prune(Prune(cs, r1), r2) == Prune(cs, r1 + r2)
  {
    if cs != [] {
      MatchedByUnion(cs[0], r1, r2);
      PruneCompose(cs[1..], r1, r2);
      var once := Prune(cs, r1);
      if !MatchedBy(cs[0], r1) {
        if cs[0].Element? {
          PruneCompose(cs[0].children, r1, r2);
          assert once[0] == PruneNode(cs[0], r1) && once[1..] == Prune(cs[1..], r1);
        } else {
          assert once[0] == cs[0] && once[1..] == Prune(cs[1..], r1);
        }
      }
    }
  }

  /** An element found by a query survives when neither it nor any ancestor is matched. */
  predicate Survives(f: Found, rules: set<Rule>) {
    && !MatchedBy(f.node, rules)
    && forall i :: 0 <= i < |f.ancestors| ==> !MatchedBy(f.ancestors[i].node, rules)
  }

  /** The elements that survive, in document order, with their children pruned. */
  function Survivors(fs: seq<Found>, rules: set<Rule>): seq<Node>
  {
    if fs == [] then []
    else (if fs[0].node.Element? && Survives(fs[0], rules) then [PruneNode(fs[0].node, rules)] else [])
         + Survivors(fs[1..], rules)
  }

  lemma {:induction false} SurvivorsAppend(a: seq<Found>, b: seq<Found>, rules: set<Rule>)
    ensures Survivors(a + b, rules) == Survivors(a, rules) + Survivors(b, rules)
  {
    if a == [] {
      assert a + b == b;
    } else {
      assert (a + b)[0] == a[0] && (a + b)[1..] == a[1..] + b;
      SurvivorsAppend(a[1..], b, rules);
    }
  }

  /** Below a matched ancestor nothing survives. */
  lemma {:induction false} NoneSurvive(cs: seq<Node>, ancestors: seq<Anc>, seen: bool, k: nat, rules: set<Rule>)
    requires k < |ancestors| && MatchedBy(ancestors[k].node, rules)
    ensures Survivors(Descendants(cs, ancestors, seen), rules) == []
  {
    var fs := Descendants(cs, ancestors, seen);
    NoneSurviveFound(fs, ancestors, k, rules);
  }

  lemma {:induction false} NoneSurviveFound(fs: seq<Found>, ancestors: seq<Anc>, k: nat, rules: set<Rule>)
    requires k < |ancestors| && MatchedBy(ancestors[k].node, rules)
    requires forall i :: 0 <= i < |fs| ==> |ancestors| <= |fs[i].ancestors| && fs[i].ancestors[..|ancestors|] == ancestors
    ensures Survivors(fs, rules) == []
  {
    if fs != [] {
      assert fs[0].ancestors[k] == fs[0].ancestors[..|ancestors|][k];
      NoneSurviveFound(fs[1..], ancestors, k, rules);
    }
  }

  /** What removal leaves is exactly the elements with no matched ancestor and not matched
      themselves, in their document order, each keeping its tag and attributes: everything
      under a removed element goes with it, and nothing else is lost or reordered. */
  lemma {:induction false} PruneKeepsSurvivors(cs: seq<Node>, ancestors: seq<Anc>, seen: bool, rules: set<Rule>)
    requires forall i :: 0 <= i < |ancestors| ==> !MatchedBy(ancestors[i].node, rules)
    ensures Elements(Prune(cs, rules)) == Survivors(Descendants(cs, ancestors, seen), rules)
  {
    if cs != [] {
      var out := Prune(cs, rules);
      PruneKeepsSurvivors(cs[1..], ancestors, seen, rules);
      PruneKeepsSurvivors(cs[1..], ancestors, true, rules);
      if cs[0].Element? {
        var inner := ancestors + [Anc(cs[0], !seen)];
        var here := [Found(cs[0], !seen, ancestors)];
        var below := Descendants(cs[0].children, inner, false);
        var after := Descendants(cs[1..], ancestors, true);
        SurvivorsAppend(here + below, after, rules);
        SurvivorsAppend(here, below, rules);
        if MatchedBy(cs[0], rules) {
          NoneSurvive(cs[0].children, inner, false, |ancestors|, rules);
        } else {
          PruneKeepsSurvivors(cs[0].children, inner, false, rules);
          assert out[0] == PruneNode(cs[0], rules) && out[1..] == Prune(cs[1..], rules);
        }
      } else {
        assert out[0] == cs[0] && out[1..] == Prune(cs[1..], rules);
      }
    }
  }

  /** No element left after `extract` is matched by any of the five queries. */
  lemma {:induction false} NothingMatchedRemains(cs: seq<Node>, rules: set<Rule>)
    ensures forall e :: e in Elements(Prune(cs, rules)) ==> !MatchedBy(e, rules)
  {
    if cs != [] {
      NothingMatchedRemains(cs[1..], rules);
      var out := Prune(cs, rules);
      if !MatchedBy(cs[0], rules) {
        if cs[0].Element? {
          NothingMatchedRemains(cs[0].children, rules);
          assert out[0] == PruneNode(cs[0], rules) && out[1..] == Prune(cs[1..], rules);
          assert !MatchedBy(out[0], rules) by {
            if MatchedBy(out[0], rules) {
              var rule :| rule in rules && Matches(rule, out[0]);
              assert Matches(rule, cs[0]);
            }
          }
        } else {
          assert out[0] == cs[0] && out[1..] == Prune(cs[1..], rules);
        }
      }
    }
  }

  /** A tree in which nothing matches is left exactly as it is, and only such a tree. */
  lemma {:induction false} PruneUnchangedIff(cs: seq<Node>, rules: set<Rule>)
    ensures Prune(cs, rules) == cs <==> forall e :: e in Elements(cs) ==> !MatchedBy(e, rules)
  {
    NothingMatchedRemains(cs, rules);
    if forall e :: e in Elements(cs) ==> !MatchedBy(e, rules) {
      PruneNothingMatched(cs, rules);
    }
  }

  lemma {:induction false} PruneNothingMatched(cs: seq<Node>, rules: set<Rule>)
    requires forall e :: e in Elements(cs) ==> !MatchedBy(e, rules)
    ensures Prune(cs, rules) == cs
  {
    if cs != [] {
      PruneNothingMatched(cs[1..], rules);
      if cs[0].Element? {
        assert cs[0] in Elements(cs);
        PruneNothingMatched(cs[0].children, rules);
      }
    }
  }

  /** The style rules as the queries read them: spacing around ':' and letter case do not
      matter, and the declaration may sit anywhere in the attribute. */
  lemma StyleRuleFound()
    ensures Declares("color: red; DISPLAY :  None", "display", "none")
  {
    var s := "color: red; DISPLAY :  None";
    assert s[12..19] == "DISPLAY";
    assert SkipSpaces(s, 19) == 20;
    assert SkipSpaces(s, 21) == 23;
    assert s[23..27] == "None";
    assert DeclarationAt(s, 12, "display", "none");
  }
}
