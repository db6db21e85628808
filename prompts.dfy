/** The prompts sent to the language model. The fixed system texts are represented by what
    they tell the model (the reply types they describe, the property naming a meeting's URL,
    the topic lists they interpolate); the user texts are assembled exactly. */
module Prompts {
  import opened Wrappers
  import opened Text
  import opened Responses

  const Topics: seq<string> := ["cycle lanes", "traffic filters", "LTN/low traffic neighbourhoods", "public realm improvements", "school streets"]
  const ExcludedTopics: seq<string> := ["highway maintenance"]

  /** The system text of each phase. Phases 3 and 4 interpolate the topic lists joined by ", ". */
  datatype Instructions =
    | Phase1Instructions
    | Phase2Instructions
    | Phase3Instructions(topics: string, excluded: string)
    | Phase4Instructions(topics: string, excluded: string)

  datatype Prompt = Prompt(system: Instructions, user: string)

  /** The "type" values each system text tells the model to answer with. */
  function InstructedReplyTypes(ins: Instructions): seq<string>
  {
    match ins
    case Phase1Instructions => ["fetch", "committee_pages_found"]
    case Phase2Instructions => ["fetch", "meetings_found"]
    case Phase3Instructions(_, _) => ["fetch", "agenda_fetch", "agenda_triaged"]
    case Phase4Instructions(_, _) => ["agenda_analyzed"]
  }

  /** The property the phase 2 system text names for a meeting's link. */
  const InstructedMeetingUrlKey: string := "agendaUrl"

  // ---------------------------------------------------------------- phase 1

  function CommitteeLine(name: string): string {
    "- " + name
  }

  function CommitteeLines(names: seq<string>): (r: seq<string>)
    ensures |r| == |names| && forall i :: 0 <= i < |names| ==> r[i] == CommitteeLine(names[i])
  {
    seq(|names|, i requires 0 <= i < |names| => CommitteeLine(names[i]))
  }

  /** `buildPhase1Prompt`: the committee names as a dash list, a blank line, then the page. */
  function Phase1Prompt(committeeNames: seq<string>, pageContent: string): (p: Prompt)
    ensures p.system == Phase1Instructions
    ensures StartsWith(p.user, "Committees:\n") && EndsWith(p.user, "\n\n" + pageContent)
  {
    var user := "Committees:\n" + JoinWith(CommitteeLines(committeeNames), "\n") + "\n\n" + pageContent;
    assert user[|user| - |"\n\n" + pageContent|..] == "\n\n" + pageContent;
    Prompt(Phase1Instructions, user)
  }

  /** Read line by line, the phase 1 user text gives back the heading, one "- name" line per
      committee in order, a blank line, and then the lines of the page. */
  lemma Phase1Lines(committeeNames: seq<string>, pageContent: string)
    requires |committeeNames| >= 1
    requires forall i :: 0 <= i < |committeeNames| ==> Excludes(committeeNames[i], '\n')
    ensures SplitChar(Phase1Prompt(committeeNames, pageContent).user, '\n')
         == ["Committees:"] + CommitteeLines(committeeNames) + [""] + SplitChar(pageContent, '\n')
  {
    var lines := CommitteeLines(committeeNames);
    var list := JoinWith(lines, "\n");
    assert SplitChar(list, '\n') == lines by {
      forall k | 0 <= k < |lines| ensures Excludes(lines[k], '\n') {
        assert lines[k] == "- " + committeeNames[k];
      }
      SplitJoin(lines, '\n');
    }
    assert Phase1Prompt(committeeNames, pageContent).user == "Committees:" + ['\n'] + (list + ['\n'] + (['\n'] + pageContent));
    HeadListPage("Committees:", list, pageContent);
  }

  /** A line, a block of lines, a blank line and a page, split at line breaks. */
  lemma HeadListPage(head: string, list: string, page: string)
    requires Excludes(head, '\n')
    ensures SplitChar(head + ['\n'] + (list + ['\n'] + (['\n'] + page)), '\n')
         == [head] + SplitChar(list, '\n') + [""] + SplitChar(page, '\n')
  {
    var rest1 := list + ['\n'] + (['\n'] + page);
    var l, p := SplitChar(list, '\n'), SplitChar(page, '\n');
    assert SplitChar(rest1, '\n') == l + ([""] + p) by { ListPage(list, page); }
    assert SplitChar(head + ['\n'] + rest1, '\n') == [head] + (l + ([""] + p)) by { SplitCharCons(head, '\n', rest1); }
    Assoc(l, [""], p);
    Assoc([head], l + [""], p);
    Assoc([head], l, [""]);
  }

  /** A block of lines, a blank line and a page, split at line breaks. */
  lemma ListPage(list: string, page: string)
    ensures SplitChar(list + ['\n'] + (['\n'] + page), '\n') == SplitChar(list, '\n') + ([""] + SplitChar(page, '\n'))
  {
    SplitCharAppend(list, '\n', ['\n'] + page);
    SplitCharLead('\n', page);
  }

  /** Two lines, a blank line and a page, split at line breaks. */
  lemma TwoLinesPage(first: string, second: string, page: string)
    requires Excludes(first, '\n') && Excludes(second, '\n')
    ensures SplitChar(first + ['\n'] + (second + ['\n'] + (['\n'] + page)), '\n')
         == [first, second, ""] + SplitChar(page, '\n')
  {
    var rest2 := ['\n'] + page;
    var rest1 := second + ['\n'] + rest2;
    SplitCharCons(first, '\n', rest1);
    SplitCharCons(second, '\n', rest2);
    SplitCharLead('\n', page);
  }

  // ---------------------------------------------------------------- phase 2

  /** `buildPhase2Prompt`: committee, date range, a blank line, then the page. */
  function Phase2Prompt(committeeName: string, dateFrom: string, dateTo: string, pageContent: string): (p: Prompt)
    ensures p.system == Phase2Instructions
    ensures EndsWith(p.user, "\n\n" + pageContent)
  {
    var user := "Committee: " + committeeName + "\nDate range: " + dateFrom + " to " + dateTo + "\n\n" + pageContent;
    assert user[|user| - |"\n\n" + pageContent|..] == "\n\n" + pageContent;
    Prompt(Phase2Instructions, user)
  }

  /** Read line by line, the phase 2 user text gives back the committee line, the date range
      line, a blank line and then the lines of the page. */
  lemma Phase2Lines(committeeName: string, dateFrom: string, dateTo: string, pageContent: string)
    requires Excludes(committeeName, '\n') && Excludes(dateFrom, '\n') && Excludes(dateTo, '\n')
    ensures SplitChar(Phase2Prompt(committeeName, dateFrom, dateTo, pageContent).user, '\n')
         == ["Committee: " + committeeName, "Date range: " + dateFrom + " to " + dateTo, ""] + SplitChar(pageContent, '\n')
  {
    var first := "Committee: " + committeeName;
    var second := "Date range: " + dateFrom + " to " + dateTo;
    assert Excludes(first, '\n') by { ExcludesConcat("Committee: ", committeeName, '\n'); }
    assert Excludes(second, '\n') by {
      ExcludesConcat("Date range: ", dateFrom, '\n');
      ExcludesConcat("Date range: " + dateFrom, " to ", '\n');
      ExcludesConcat("Date range: " + dateFrom + " to ", dateTo, '\n');
    }
    assert "\nDate range: " == ['\n'] + "Date range: ";
    assert "\n\n" == ['\n', '\n'];
    JoinShape(first, "Date range: ", dateFrom, " to ", dateTo, pageContent, '\n');
    TwoLinesPage(first, second, pageContent);
  }

  /** Where the line breaks of the phase 2 prompt fall. */
  lemma JoinShape(x: string, y: string, f: string, c: string, t: string, p: string, n: char)
    ensures x + ([n] + y) + f + c + t + [n, n] + p == x + [n] + (y + f + c + t + [n] + ([n] + p))
  {
  }

  // ---------------------------------------------------------------- phase 3

  /** One item as the prompts and the final extract show it. */
  function ItemBlock(item: TriagedItem): string {
    "## " + item.title + "\n" + item.extract
  }

  function ItemBlocks(items: seq<TriagedItem>): (r: seq<string>)
    ensures |r| == |items| && forall i :: 0 <= i < |items| ==> r[i] == ItemBlock(items[i])
  {
    seq(|items|, i requires 0 <= i < |items| => ItemBlock(items[i]))
  }

  /** The items joined by a blank line, in their order. */
  function ItemsText(items: seq<TriagedItem>): string {
    JoinWith(ItemBlocks(items), "\n\n")
  }

  const PartSeparator: string := "\n\n---\n\n"

  function ReasonPart(reason: string): string {
    "You previously requested this page because: " + reason
  }

  function ItemsPart(items: seq<TriagedItem>): string {
    "Items analyzed so far:\n" + ItemsText(items)
  }

  /** The parts of the phase 3 user text, in order. */
  function Phase3Parts(pageContent: string, fetchReason: Option<string>, items: seq<TriagedItem>): seq<string>
  {
    (if fetchReason.Some? then [ReasonPart(fetchReason.value)] else [])
    + (if |items| > 0 then [ItemsPart(items)] else [])
    + [pageContent]
  }

  function Phase3Instructed(): Instructions {
    Phase3Instructions(JoinWith(Topics, ", "), JoinWith(ExcludedTopics, ", "))
  }

  /** The phase 3 user text as a value: its parts joined by a horizontal rule. */
  function Phase3User(pageContent: string, fetchReason: Option<string>, items: seq<TriagedItem>): string {
    JoinWith(Phase3Parts(pageContent, fetchReason, items), PartSeparator)
  }

  /** `buildPhase3Prompt`: collects the optional reason part, the optional items part and the
      page into a list, then joins it. */
  method BuildPhase3Prompt(pageContent: string, fetchReason: Option<string>, items: seq<TriagedItem>) returns (p: Prompt)
    ensures p.system == Phase3Instructed()
    ensures p.user == Phase3User(pageContent, fetchReason, items)
  {
    var userParts: seq<string> := [];
    if fetchReason.Some? {
      userParts := userParts + [ReasonPart(fetchReason.value)];
    }
    if |items| > 0 {
      userParts := userParts + [ItemsPart(items)];
    }
    userParts := userParts + [pageContent];
    assert userParts == Phase3Parts(pageContent, fetchReason, items);
    p := Prompt(Phase3Instructed(), JoinWith(userParts, PartSeparator));
  }

  /** The reason part is present iff a reason is carried, the items part iff there are items,
      the page is always last, and nothing else is added. */
  lemma Phase3PartsShape(pageContent: string, fetchReason: Option<string>, items: seq<TriagedItem>)
    ensures var parts := Phase3Parts(pageContent, fetchReason, items);
      && |parts| == 1 + (if fetchReason.Some? then 1 else 0) + (if |items| > 0 then 1 else 0)
      && parts[|parts| - 1] == pageContent
      && (fetchReason.Some? <==> ReasonPart(fetchReason.GetOr("")) in parts[..|parts| - 1])
      && (fetchReason.Some? ==> parts[0] == ReasonPart(fetchReason.value))
      && (|items| > 0 <==> ItemsPart(items) in parts[..|parts| - 1])
      && (|items| > 0 ==> parts[|parts| - 2] == ItemsPart(items))
  {
    var parts := Phase3Parts(pageContent, fetchReason, items);
    var init := parts[..|parts| - 1];
    PartsDiffer(fetchReason.GetOr(""), items);
    if fetchReason.None? {
      assert forall k :: 0 <= k < |init| ==> init[k] == ItemsPart(items);
    }
    if |items| == 0 {
      assert forall k :: 0 <= k < |init| ==> init[k] == ReasonPart(fetchReason.GetOr(""));
    }
  }

  /** The reason part and the items part are told apart by their first character. */
  lemma PartsDiffer(reason: string, items: seq<TriagedItem>)
    ensures ReasonPart(reason) != ItemsPart(items)
  {
    var r := "You previously requested this page because: ";
    var i := "Items analyzed so far:\n";
    assert r[0] == 'Y' && i[0] == 'I';
    assert ReasonPart(reason)[0] == r[0];
    assert ItemsPart(items)[0] == i[0];
  }

  /** With neither a reason nor items, the phase 3 user text is exactly the page. */
  lemma Phase3BarePage(pageContent: string)
    ensures Phase3User(pageContent, None, []) == pageContent
  {
  }

  /** The system text of every phase is fixed: it does not depend on the page or the inputs. */
  lemma SystemTextIndependentOfPage(names: seq<string>, name: string, dateFrom: string, dateTo: string,
                                    reason: Option<string>, items: seq<TriagedItem>, page1: string, page2: string)
    ensures Phase1Prompt(names, page1).system == Phase1Prompt(names, page2).system
    ensures Phase2Prompt(name, dateFrom, dateTo, page1).system == Phase2Prompt(name, dateFrom, dateTo, page2).system
    ensures Phase4Prompt(page1).system == Phase4Prompt(page2).system
  {
  }

  // ---------------------------------------------------------------- phase 4

  /** `buildPhase4Prompt`: the user text is the extract itself. */
  function Phase4Prompt(extract: string): (p: Prompt)
    ensures p.user == extract
    ensures p.system == Phase4Instructions(JoinWith(Topics, ", "), JoinWith(ExcludedTopics, ", "))
  {
    Prompt(Phase4Instructions(JoinWith(Topics, ", "), JoinWith(ExcludedTopics, ", ")), extract)
  }
}
