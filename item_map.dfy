/** The triage accumulator: a map from item title to item that keeps its keys in insertion
    order, filled by `associateByTo { it.title }` (a later item replaces the value of an
    existing title without moving it; a new title goes at the end). It is held as the sequence
    of its values, which is what `values` iterates. */
module ItemMap {
  import opened Wrappers
  import opened Responses

  function Titles(items: seq<TriagedItem>): (r: seq<string>)
    ensures |r| == |items| && forall i :: 0 <= i < |items| ==> r[i] == items[i].title
  {
    seq(|items|, i requires 0 <= i < |items| => items[i].title)
  }

  /** At most one entry per title: what makes the sequence a map. */
  predicate UniqueTitles(items: seq<TriagedItem>)
  {
    forall i, j :: 0 <= i < j < |items| ==> items[i].title != items[j].title
  }

  /** The entry of a title in the map. */
  function Lookup(acc: seq<TriagedItem>, title: string): (r: Option<TriagedItem>)
    ensures r.Some? <==> title in Titles(acc)
    ensures r.Some? ==> r.value in acc && r.value.title == title
  {
    if acc == [] then None
    else if acc[0].title == title then Some(acc[0])
    else
      assert Titles(acc) == [acc[0].title] + Titles(acc[1..]);
      Lookup(acc[1..], title)
  }

  /** The last of `items` with this title, if any. */
  function LastWithTitle(items: seq<TriagedItem>, title: string): Option<TriagedItem>
  {
    if items == [] then None
    else if items[|items| - 1].title == title then Some(items[|items| - 1])
    else LastWithTitle(items[..|items| - 1], title)
  }

  /** `put(item.title, item)`. */
  function Put(acc: seq<TriagedItem>, item: TriagedItem): (r: seq<TriagedItem>)
    ensures |r| == |acc| || r == acc + [item]
  {
    if acc == [] then [item]
    else if acc[0].title == item.title then [item] + acc[1..]
    else [acc[0]] + Put(acc[1..], item)
  }

  /** `items.associateByTo(acc) { it.title }`: every item put in turn. */
  function Merge(acc: seq<TriagedItem>, items: seq<TriagedItem>): seq<TriagedItem>
  {
    if items == [] then acc
    else Put(Merge(acc, items[..|items| - 1]), items[|items| - 1])
  }

  /** The method form, the loop `associateByTo` runs. */
  method AssociateByTitle(acc: seq<TriagedItem>, items: seq<TriagedItem>) returns (out: seq<TriagedItem>)
    ensures out == Merge(acc, items)
  {
    out := acc;
    for i := 0 to |items|
      invariant out == Merge(acc, items[..i])
    {
      assert items[..i + 1][..i] == items[..i];
      out := Put(out, items[i]);
    }
    assert items[..|items|] == items;
  }

  // ---------------------------------------------------------------- put

  /** Putting an item over a lone item with its title replaces it. */
  lemma MergeOverSingle(prior: TriagedItem, item: TriagedItem)
    requires prior.title == item.title
    ensures Merge([prior], [item]) == [item]
  {
    assert [item][..0] == [];
    assert Put([prior], item) == [item] + [prior][1..];
  }

  /** After `put`, the title maps to the new item and every other title is unchanged. */
  lemma {:induction false} PutLookup(acc: seq<TriagedItem>, item: TriagedItem, title: string)
    ensures Lookup(Put(acc, item), title) == if title == item.title then Some(item) else Lookup(acc, title)
    decreases |acc|
  {
    if acc != [] && acc[0].title != item.title {
      PutLookup(acc[1..], item, title);
      assert Put(acc, item)[1..] == Put(acc[1..], item);
    }
  }

  /** An existing title keeps its position; a new one is appended. */
  lemma PutPositions(acc: seq<TriagedItem>, item: TriagedItem)
    ensures item.title in Titles(acc) ==> Titles(Put(acc, item)) == Titles(acc)
    ensures item.title !in Titles(acc) ==> Put(acc, item) == acc + [item]
  {
    if item.title in Titles(acc) {
      PutReplaces(acc, item);
    } else {
      PutAppends(acc, item);
    }
  }

  lemma TitlesCons(acc: seq<TriagedItem>)
    requires acc != []
    ensures Titles(acc) == [acc[0].title] + Titles(acc[1..])
  {
  }

  /** A title already present keeps its position. */
  lemma {:induction false} PutReplaces(acc: seq<TriagedItem>, item: TriagedItem)
    requires item.title in Titles(acc)
    ensures Titles(Put(acc, item)) == Titles(acc)
    decreases |acc|
  {
    TitlesCons(acc);
    if acc[0].title != item.title {
      PutReplaces(acc[1..], item);
      TitlesCons(Put(acc, item));
      assert Put(acc, item)[1..] == Put(acc[1..], item);
    }
  }

  /** A new title goes at the end. */
  lemma {:induction false} PutAppends(acc: seq<TriagedItem>, item: TriagedItem)
    requires item.title !in Titles(acc)
    ensures Put(acc, item) == acc + [item]
    decreases |acc|
  {
    if acc != [] {
      TitlesCons(acc);
      PutAppends(acc[1..], item);
      assert [acc[0]] + (acc[1..] + [item]) == acc + [item];
    }
  }

  lemma {:induction false} PutUnique(acc: seq<TriagedItem>, item: TriagedItem)
    requires UniqueTitles(acc)
    ensures UniqueTitles(Put(acc, item))
  {
    PutPositions(acc, item);
    var r := Put(acc, item);
    if item.title in Titles(acc) {
      assert forall i :: 0 <= i < |r| ==> r[i].title == Titles(r)[i] == Titles(acc)[i];
    } else {
      assert forall i :: 0 <= i < |acc| ==> acc[i].title != item.title;
    }
  }

  // ---------------------------------------------------------------- merge

  /** Last write wins: after merging, a title maps to the last item given for it, or to what it
      mapped to before when no item has it. */
  lemma {:induction false} MergeLookup(acc: seq<TriagedItem>, items: seq<TriagedItem>, title: string)
    ensures Lookup(Merge(acc, items), title)
         == if LastWithTitle(items, title).Some? then LastWithTitle(items, title) else Lookup(acc, title)
    decreases |items|
  {
    if items != [] {
      var init := items[..|items| - 1];
      MergeLookup(acc, init, title);
      PutLookup(Merge(acc, init), items[|items| - 1], title);
    }
  }

  /** The titles already present keep their positions: they are a prefix of the titles after. */
  lemma {:induction false} MergeKeepsOrder(acc: seq<TriagedItem>, items: seq<TriagedItem>)
    ensures Titles(acc) <= Titles(Merge(acc, items))
    decreases |items|
  {
    if items != [] {
      var before := Merge(acc, items[..|items| - 1]);
      var item := items[|items| - 1];
      MergeKeepsOrder(acc, items[..|items| - 1]);
      PutPositions(before, item);
      if item.title !in Titles(before) {
        assert Titles(before + [item]) == Titles(before) + [item.title];
      }
    }
  }

  lemma {:induction false} MergeUnique(acc: seq<TriagedItem>, items: seq<TriagedItem>)
    requires UniqueTitles(acc)
    ensures UniqueTitles(Merge(acc, items))
    decreases |items|
  {
    if items != [] {
      MergeUnique(acc, items[..|items| - 1]);
      PutUnique(Merge(acc, items[..|items| - 1]), items[|items| - 1]);
    }
  }

  lemma {:induction false} LastWithTitleFound(items: seq<TriagedItem>, title: string)
    ensures LastWithTitle(items, title).Some? <==> title in Titles(items)
    ensures LastWithTitle(items, title).Some? ==> LastWithTitle(items, title).value in items
                                                  && LastWithTitle(items, title).value.title == title
    decreases |items|
  {
    if items != [] {
      var init := items[..|items| - 1];
      LastWithTitleFound(init, title);
      assert Titles(items) == Titles(init) + [items[|items| - 1].title];
    }
  }

  /** The titles after merging are those before and those of the items, nothing else. */
  lemma MergeTitles(acc: seq<TriagedItem>, items: seq<TriagedItem>, title: string)
    ensures title in Titles(Merge(acc, items)) <==> title in Titles(acc) || title in Titles(items)
  {
    MergeLookup(acc, items, title);
    LastWithTitleFound(items, title);
  }
}
