/**
 * The "Select System" filter shared by the MCQ, SBA, clinical-problem and
 * study-note pages, and the listing each page derives from it.
 */
module SystemFilter {
  import opened Bank

  /** The selector value that turns the filter off. */
  const AllSystems := "All"

  /** `q.get("system") == sel`: a missing field (None) never equals a string. */
  predicate Matches(q: Item, sel: string)
  {
    "system" in q && q["system"] == Text(sel)
  }

  /** `[q for q in items if q.get("system") == sel]` */
  function Keep(items: seq<Item>, sel: string): (r: seq<Item>)
    ensures |r| <= |items|
    ensures forall q :: q in r ==> q in items && Matches(q, sel)
    ensures multiset(r) <= multiset(items)
  {
    if items == [] then []
    else
      assert items == [items[0]] + items[1..];
      (if Matches(items[0], sel) then [items[0]] else []) + Keep(items[1..], sel)
  }

  /** The page's collection after `if system != "All": ...` */
  function FilterBySystem(items: seq<Item>, sel: string): (r: seq<Item>)
    ensures sel == AllSystems ==> r == items
    ensures sel != AllSystems ==> forall q :: q in r ==> "system" in q && q["system"] == Text(sel)
    ensures multiset(r) <= multiset(items)
  {
    if sel == AllSystems then items else Keep(items, sel)
  }

  /** Filtering distributes over concatenation: it decides item by item, in order. */
  lemma {:induction false} KeepConcat(a: seq<Item>, b: seq<Item>, sel: string)
    ensures Keep(a + b, sel) == Keep(a, sel) + Keep(b, sel)
  {
    if a == [] {
      assert a + b == b;
    } else {
      assert (a + b)[0] == a[0];
      assert (a + b)[1..] == a[1..] + b;
      KeepConcat(a[1..], b, sel);
    }
  }

  /** Every matching item of the input survives the filter. */
  lemma {:induction false} KeepComplete(items: seq<Item>, sel: string, q: Item)
    requires q in items && Matches(q, sel)
    ensures q in Keep(items, sel)
  {
    if items[0] != q {
      assert q in items[1..];
      KeepComplete(items[1..], sel, q);
    }
  }

  lemma {:induction false} KeepIdempotent(items: seq<Item>, sel: string)
    ensures Keep(Keep(items, sel), sel) == Keep(items, sel)
  {
    if items != [] {
      var head := if Matches(items[0], sel) then [items[0]] else [];
      KeepConcat(head, Keep(items[1..], sel), sel);
      KeepIdempotent(items[1..], sel);
      if Matches(items[0], sel) {
        assert Keep(head, sel) == [items[0]] + Keep([], sel);
      }
    }
  }

  /** Applying the filter a second time with the same selector changes nothing. */
  lemma FilterIdempotent(items: seq<Item>, sel: string)
    ensures FilterBySystem(FilterBySystem(items, sel), sel) == FilterBySystem(items, sel)
  {
    if sel != AllSystems {
      KeepIdempotent(items, sel);
    }
  }

  /** An item lacking a `system` field is dropped by every selector but "All". */
  lemma MissingSystemDropped(items: seq<Item>, sel: string, q: Item)
    requires sel != AllSystems && "system" !in q
    ensures q !in FilterBySystem(items, sel)
  {
  }

  /** The indices `i >= from` of the items that match, in increasing order. */
  ghost function PositionsFrom(items: seq<Item>, sel: string, from: nat): seq<nat>
    requires from <= |items|
    decreases |items| - from
  {
    if from == |items| then []
    else (if Matches(items[from], sel) then [from] else []) + PositionsFrom(items, sel, from + 1)
  }

  /** The indices of the matching items, in increasing order. */
  ghost function MatchPositions(items: seq<Item>, sel: string): seq<nat>
  {
    PositionsFrom(items, sel, 0)
  }

  /** The positions lie in range, increase, and are exactly the matching indices. */
  lemma {:induction false} PositionsFromMatch(items: seq<Item>, sel: string, from: nat)
    requires from <= |items|
    ensures var p := PositionsFrom(items, sel, from);
      && (forall k :: 0 <= k < |p| ==> from <= p[k] < |items|)
      && (forall k, l :: 0 <= k < l < |p| ==> p[k] < p[l])
      && (forall i :: from <= i < |items| ==> (i in p <==> Matches(items[i], sel)))
    decreases |items| - from
  {
    if from < |items| {
      PositionsFromMatch(items, sel, from + 1);
    }
  }

  /** `r` is the list of the items of `items` at positions `p`. */
  ghost predicate AtPositions(r: seq<Item>, items: seq<Item>, p: seq<nat>)
  {
    |r| == |p| && forall k :: 0 <= k < |p| ==> p[k] < |items| && r[k] == items[p[k]]
  }

  lemma ConsAtPositions(r: seq<Item>, items: seq<Item>, p: seq<nat>, i: nat)
    requires i < |items| && AtPositions(r, items, p)
    ensures AtPositions([items[i]] + r, items, [i] + p)
  {
  }

  /** The filtered suffix is the items at those positions, in order. */
  lemma {:induction false} PositionsFromSelect(items: seq<Item>, sel: string, from: nat)
    requires from <= |items|
    ensures AtPositions(Keep(items[from..], sel), items, PositionsFrom(items, sel, from))
    decreases |items| - from
  {
    if from < |items| {
      PositionsFromSelect(items, sel, from + 1);
      assert items[from..] == [items[from]] + items[from + 1..];
      if Matches(items[from], sel) {
        ConsAtPositions(Keep(items[from + 1..], sel), items, PositionsFrom(items, sel, from + 1), from);
      }
    }
  }

  /**
   * With a real selector the page shows exactly the matching items, in their
   * original relative order: the k-th item shown is the item at the k-th
   * matching position, and the matching positions are increasing.
   */
  lemma FilterSelectsMatchesInOrder(items: seq<Item>, sel: string)
    requires sel != AllSystems
    ensures var p, r := MatchPositions(items, sel), FilterBySystem(items, sel);
      && |r| == |p|
      && (forall k :: 0 <= k < |p| ==> p[k] < |items| && r[k] == items[p[k]])
      && (forall k, l :: 0 <= k < l < |p| ==> p[k] < p[l])
      && (forall i :: 0 <= i < |items| ==> (i in p <==> Matches(items[i], sel)))
  {
    PositionsFromMatch(items, sel, 0);
    PositionsFromSelect(items, sel, 0);
    assert items[0..] == items;
  }

  /** No item is listed under two different systems. */
  lemma DistinctSelectorsDisjoint(items: seq<Item>, a: string, b: string, q: Item)
    requires a != AllSystems && b != AllSystems && a != b
    ensures !(q in FilterBySystem(items, a) && q in FilterBySystem(items, b))
  {
  }

  /**
   * When every item is tagged Renal or Reproductive, the two system views
   * together list every item once.
   */
  lemma {:induction false} SystemsPartition(items: seq<Item>)
    requires forall q :: q in items ==> Matches(q, "Renal") || Matches(q, "Reproductive")
    ensures |FilterBySystem(items, "Renal")| + |FilterBySystem(items, "Reproductive")| == |items|
  {
    if items != [] {
      assert forall q :: q in items[1..] ==> q in items;
      SystemsPartition(items[1..]);
    }
  }

  /** What a page shows above its items. */
  datatype Listing = NoneFound | Found(count: nat, items: seq<Item>)

  /** `Found {n} question(s)`, or the "No ... found" warning for an empty view. */
  function ListPage(bank: Bank, key: string, sel: string): (r: Listing)
    ensures r.NoneFound? <==> FilterBySystem(Collection(bank, key), sel) == []
    ensures r.Found? ==> r.count > 0 && r.count == |r.items|
    ensures r.Found? ==> r.items == FilterBySystem(Collection(bank, key), sel)
  {
    var shown := FilterBySystem(Collection(bank, key), sel);
    if shown == [] then NoneFound else Found(|shown|, shown)
  }

  /** The number of items a page lists (none under the warning). */
  function ShownCount(l: Listing): nat
  {
    if l.NoneFound? then 0 else l.count
  }

  /**
   * The count a page reports is the number of matching items, and with
   * "All" it is the figure the home page shows for that collection.
   */
  lemma ListedCountIsMatchCount(bank: Bank, key: string, sel: string)
    ensures sel != AllSystems ==>
      ShownCount(ListPage(bank, key, sel)) == |MatchPositions(Collection(bank, key), sel)|
    ensures sel == AllSystems ==> ShownCount(ListPage(bank, key, sel)) == |Collection(bank, key)|
    ensures sel == AllSystems && key == McqKey ==> ShownCount(ListPage(bank, key, sel)) == HomeCounts(bank).mcq
    ensures sel == AllSystems && key == SbaKey ==> ShownCount(ListPage(bank, key, sel)) == HomeCounts(bank).sba
    ensures sel == AllSystems && key == ProblemsKey ==> ShownCount(ListPage(bank, key, sel)) == HomeCounts(bank).problems
    ensures sel == AllSystems && key == NotesKey ==> ShownCount(ListPage(bank, key, sel)) == HomeCounts(bank).notes
  {
    if sel != AllSystems {
      FilterSelectsMatchesInOrder(Collection(bank, key), sel);
    }
  }

  /** The heading of one listed question or problem: `{n} - {system}` and its text. */
  datatype Heading = Heading(number: nat, system: Value, question: Value)

  /** Headings of a listing: numbered from 1 in listing order, `system` defaulting to "Unknown". */
  function Headings(items: seq<Item>): (r: seq<Heading>)
    ensures |r| == |items|
    ensures forall k :: 0 <= k < |r| ==> r[k].number == k + 1
    ensures forall k :: 0 <= k < |r| ==> r[k].system == Get(items[k], "system", Text("Unknown"))
    ensures forall k :: 0 <= k < |r| ==> r[k].question == Get(items[k], "question", Blank)
  {
    seq(|items|, k requires 0 <= k < |items| =>
      Heading(k + 1, Get(items[k], "system", Text("Unknown")), Get(items[k], "question", Blank)))
  }

  /** Under a real selector every listed heading names that system, never "Unknown". */
  lemma FilteredHeadingsNameSelector(items: seq<Item>, sel: string)
    requires sel != AllSystems
    ensures forall h :: h in Headings(FilterBySystem(items, sel)) ==> h.system == Text(sel)
  {
    var r := FilterBySystem(items, sel);
    forall h | h in Headings(r) ensures h.system == Text(sel) {
      var k :| 0 <= k < |r| && Headings(r)[k] == h;
      assert r[k] in r;
    }
  }
}
