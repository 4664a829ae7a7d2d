/**
 * `NSDiffableDataSourceSnapshot` as a value: an ordered list of sections, each with an
 * ordered list of items, and the three `appending` functions, which copy the snapshot,
 * append to the copy and return it.
 *
 * The append operations themselves belong to the snapshot type of the toolkit. They are
 * modelled as documented there: sections go to the end; items go to the end of the named
 * section, or of the last section; an identifier used twice, an unknown section and
 * appending items to a snapshot without sections stop the program, modelled as `Err`.
 */
module Snapshots {
  import opened Wrappers
  import opened Views

  type SectionId = nat
  type ItemId = nat

  datatype Section = Section(id: SectionId, items: seq<ItemId>)

  datatype Snapshot = Snapshot(sections: seq<Section>)

  /** The conditions under which the toolkit's snapshot stops the program. */
  datatype SnapshotError =
    | DuplicateSections   // a section identifier is given twice or is already present
    | DuplicateItems      // an item identifier is given twice or is already present
    | UnknownSection(id: SectionId)
    | NoSections          // items appended to the last section of a snapshot that has none

  function Empty(): (s: Snapshot)
    ensures SectionIds(s) == [] && AllItems(s) == []
  {
    Snapshot([])
  }

  function SectionIds(s: Snapshot): (ids: seq<SectionId>)
    ensures |ids| == |s.sections|
    ensures forall k :: 0 <= k < |ids| ==> ids[k] == s.sections[k].id
  {
    SectionIdsOf(s.sections)
  }

  function SectionIdsOf(sections: seq<Section>): (ids: seq<SectionId>)
    ensures |ids| == |sections|
    ensures forall k :: 0 <= k < |ids| ==> ids[k] == sections[k].id
  {
    if sections == [] then [] else [sections[0].id] + SectionIdsOf(sections[1..])
  }

  /** Every item, section by section, in order. */
  function AllItems(s: Snapshot): seq<ItemId>
  {
    ItemsOfAll(s.sections)
  }

  function ItemsOfAll(sections: seq<Section>): seq<ItemId>
  {
    if sections == [] then [] else sections[0].items + ItemsOfAll(sections[1..])
  }

  /** Identifiers are unique across the whole snapshot. */
  predicate Valid(s: Snapshot)
  {
    NoDup(SectionIds(s)) && NoDup(AllItems(s))
  }

  function EmptySections(ids: seq<SectionId>): (r: seq<Section>)
    ensures |r| == |ids|
    ensures forall k :: 0 <= k < |r| ==> r[k] == Section(ids[k], [])
  {
    if ids == [] then [] else [Section(ids[0], [])] + EmptySections(ids[1..])
  }

  /** `appending(sections:)`. */
  function AppendingSections(s: Snapshot, ids: seq<SectionId>): (r: Result<Snapshot, SnapshotError>)
    ensures r.Err? ==> r.error == DuplicateSections
    ensures r.Ok? ==> |r.value.sections| == |s.sections| + |ids| && r.value.sections[..|s.sections|] == s.sections
  {
    if NoDup(ids) && Disjoint(ids, SectionIds(s)) then Ok(Snapshot(s.sections + EmptySections(ids)))
    else Err(DuplicateSections)
  }

  /** `appending(items:to:)`. */
  function AppendingItemsTo(s: Snapshot, items: seq<ItemId>, section: SectionId): (r: Result<Snapshot, SnapshotError>)
    ensures section !in SectionIds(s) ==> r == Err(UnknownSection(section))
    ensures r.Ok? ==> SectionIds(r.value) == SectionIds(s)
  {
    if section !in SectionIds(s) then Err(UnknownSection(section))
    else if !(NoDup(items) && Disjoint(items, AllItems(s))) then Err(DuplicateItems)
    else
      var k := IndexOf(SectionIds(s), section);
      Ok(Snapshot(s.sections[k := Section(section, s.sections[k].items + items)]))
  }

  /** `appending(items:)`: to the last section. */
  function AppendingItems(s: Snapshot, items: seq<ItemId>): (r: Result<Snapshot, SnapshotError>)
    ensures r == Err(NoSections) <==> s.sections == []
    ensures r.Ok? ==> SectionIds(r.value) == SectionIds(s)
  {
    if s.sections == [] then Err(NoSections)
    else AppendingItemsTo(s, items, s.sections[|s.sections| - 1].id)
  }

  /** The first position of `x` in `ids`. */
  function IndexOf(ids: seq<SectionId>, x: SectionId): (k: nat)
    requires x in ids
    ensures k < |ids| && ids[k] == x
    ensures forall j :: 0 <= j < k ==> ids[j] != x
  {
    if ids[0] == x then 0 else 1 + IndexOf(ids[1..], x)
  }

  // ---------------------------------------------------------------------------

  lemma {:induction false} ItemsOfAllAppend(a: seq<Section>, b: seq<Section>)
    ensures ItemsOfAll(a + b) == ItemsOfAll(a) + ItemsOfAll(b)
  {
    if a != [] {
      assert (a + b)[0] == a[0];
      assert (a + b)[1..] == a[1..] + b;
      ItemsOfAllAppend(a[1..], b);
      calc {
        ItemsOfAll(a + b);
        a[0].items + ItemsOfAll(a[1..] + b);
        a[0].items + (ItemsOfAll(a[1..]) + ItemsOfAll(b));
        (a[0].items + ItemsOfAll(a[1..])) + ItemsOfAll(b);
      }
    } else {
      assert a + b == b;
    }
  }

  lemma {:induction false} EmptySectionsHaveNoItems(ids: seq<SectionId>)
    ensures ItemsOfAll(EmptySections(ids)) == []
  {
    if ids != [] {
      EmptySectionsHaveNoItems(ids[1..]);
    }
  }

  /** Replacing the k-th section's items by more items adds exactly those items, in place. */
  lemma {:induction false} ItemsOfAllUpdate(sections: seq<Section>, k: nat, extra: seq<ItemId>)
    requires k < |sections|
    ensures ItemsOfAll(sections[k := Section(sections[k].id, sections[k].items + extra)])
         == ItemsOfAll(sections[..k + 1]) + extra + ItemsOfAll(sections[k + 1..])
  {
    var updated := sections[k := Section(sections[k].id, sections[k].items + extra)];
    assert updated == sections[..k] + [updated[k]] + sections[k + 1..];
    assert sections[..k + 1] == sections[..k] + [sections[k]];
    ItemsOfAllAppend(sections[..k] + [updated[k]], sections[k + 1..]);
    ItemsOfAllAppend(sections[..k], [updated[k]]);
    ItemsOfAllAppend(sections[..k], [sections[k]]);
    assert ItemsOfAll([updated[k]]) == sections[k].items + extra;
    assert ItemsOfAll([sections[k]]) == sections[k].items;
  }

  lemma {:induction false} ItemsOfAllSplit(sections: seq<Section>, k: nat)
    requires k <= |sections|
    ensures ItemsOfAll(sections) == ItemsOfAll(sections[..k]) + ItemsOfAll(sections[k..])
  {
    ItemsOfAllAppend(sections[..k], sections[k..]);
    assert sections[..k] + sections[k..] == sections;
  }

  /** Appending sections: refused exactly when an identifier repeats; otherwise the new, empty sections follow the old ones. */
  lemma AppendingSectionsSpec(s: Snapshot, ids: seq<SectionId>)
    ensures AppendingSections(s, ids).Ok? <==> NoDup(ids) && Disjoint(ids, SectionIds(s))
    ensures AppendingSections(s, ids).Ok? ==>
      var r := AppendingSections(s, ids).value;
      SectionIds(r) == SectionIds(s) + ids &&
      r.sections[..|s.sections|] == s.sections &&
      AllItems(r) == AllItems(s) &&
      (Valid(s) ==> Valid(r))
  {
    if NoDup(ids) && Disjoint(ids, SectionIds(s)) {
      var r := AppendingSections(s, ids).value;
      AppendedSections(s.sections, EmptySections(ids), r.sections);
      EmptySectionsHaveNoItems(ids);
      SectionIdsOfAppend(s.sections, EmptySections(ids), ids);
      if Valid(s) {
        NoDupAppend(SectionIds(s), ids);
      }
    }
  }

  lemma AppendedSections(a: seq<Section>, b: seq<Section>, r: seq<Section>)
    requires r == a + b
    ensures r[..|a|] == a
    ensures ItemsOfAll(r) == ItemsOfAll(a) + ItemsOfAll(b)
  {
    ItemsOfAllAppend(a, b);
  }

  lemma SectionIdsOfAppend(a: seq<Section>, b: seq<Section>, ids: seq<SectionId>)
    requires |b| == |ids| && forall k :: 0 <= k < |b| ==> b[k].id == ids[k]
    ensures SectionIdsOf(a + b) == SectionIdsOf(a) + ids
  {
  }

  /**
   * Appending items to a named section: refused when the section is unknown or an item
   * repeats; otherwise that section gains the items at its end and every other section,
   * and the order of sections, stay as they were.
   */
  lemma AppendingItemsToSpec(s: Snapshot, items: seq<ItemId>, section: SectionId)
    ensures AppendingItemsTo(s, items, section).Ok? <==>
      section in SectionIds(s) && NoDup(items) && Disjoint(items, AllItems(s))
    ensures section !in SectionIds(s) ==> AppendingItemsTo(s, items, section) == Err(UnknownSection(section))
    ensures AppendingItemsTo(s, items, section).Ok? ==>
      var r := AppendingItemsTo(s, items, section).value;
      var k := IndexOf(SectionIds(s), section);
      SectionIds(r) == SectionIds(s) &&
      r.sections[k].items == s.sections[k].items + items &&
      (forall j :: 0 <= j < |s.sections| && j != k ==> r.sections[j] == s.sections[j]) &&
      multiset(AllItems(r)) == multiset(AllItems(s)) + multiset(items) &&
      (Valid(s) ==> Valid(r))
  {
    if AppendingItemsTo(s, items, section).Ok? {
      var r := AppendingItemsTo(s, items, section).value;
      var k := IndexOf(SectionIds(s), section);
      assert SectionIds(r) == SectionIds(s);
      ItemsOfAllUpdate(s.sections, k, items);
      ItemsOfAllSplit(s.sections, k + 1);
      var before, after := ItemsOfAll(s.sections[..k + 1]), ItemsOfAll(s.sections[k + 1..]);
      assert AllItems(r) == before + items + after;
      assert AllItems(s) == before + after;
      if Valid(s) {
        NoDupAppend(AllItems(s), items);
        PermutedNoDup(AllItems(s) + items, AllItems(r), before, items, after);
      }
    }
  }

  /** Moving a middle block to the end keeps a list duplicate-free. */
  lemma PermutedNoDup(x: seq<ItemId>, y: seq<ItemId>, a: seq<ItemId>, b: seq<ItemId>, c: seq<ItemId>)
    requires x == a + c + b && y == a + b + c && NoDup(x)
    ensures NoDup(y)
  {
    assert NoDup(a) && NoDup(b) && NoDup(c) by {
      forall i, j | 0 <= i < j < |a| ensures a[i] != a[j] { assert a[i] == x[i] && a[j] == x[j]; }
      forall i, j | 0 <= i < j < |c| ensures c[i] != c[j] { assert c[i] == x[|a| + i] && c[j] == x[|a| + j]; }
      forall i, j | 0 <= i < j < |b| ensures b[i] != b[j] { assert b[i] == x[|a| + |c| + i] && b[j] == x[|a| + |c| + j]; }
    }
    assert Disjoint(b, a) by {
      forall v | v in b ensures v !in a {
        var i :| 0 <= i < |b| && b[i] == v;
        forall j | 0 <= j < |a| ensures a[j] != v { assert a[j] == x[j] && v == x[|a| + |c| + i]; }
      }
    }
    assert Disjoint(c, a + b) by {
      forall v | v in c ensures v !in a + b {
        var i :| 0 <= i < |c| && c[i] == v;
        forall j | 0 <= j < |a| ensures a[j] != v { assert a[j] == x[j] && v == x[|a| + i]; }
        forall j | 0 <= j < |b| ensures b[j] != v { assert b[j] == x[|a| + |c| + j] && v == x[|a| + i]; }
      }
    }
    NoDupAppend(a, b);
    NoDupAppend(a + b, c);
  }

  /**
   * Appending items without naming a section: refused when there is no section, otherwise the
   * same as appending to the last section, and the items come last in the snapshot's item order.
   */
  lemma AppendingItemsSpec(s: Snapshot, items: seq<ItemId>)
    ensures s.sections == [] ==> AppendingItems(s, items) == Err(NoSections)
    ensures AppendingItems(s, items).Ok? && Valid(s) ==>
      var last := |s.sections| - 1;
      AppendingItems(s, items).value.sections ==
        s.sections[last := Section(s.sections[last].id, s.sections[last].items + items)]
    ensures AppendingItems(s, items).Ok? <==> s.sections != [] && NoDup(items) && Disjoint(items, AllItems(s))
    ensures AppendingItems(s, items).Ok? && Valid(s) ==>
      AllItems(AppendingItems(s, items).value) == AllItems(s) + items
  {
    if s.sections != [] {
      var last := |s.sections| - 1;
      var id := s.sections[last].id;
      assert SectionIds(s)[last] == id;
      AppendingItemsToSpec(s, items, id);
      if AppendingItems(s, items).Ok? && Valid(s) {
        LastSectionItems(s, items);
      }
    }
  }

  /** Items appended to a valid snapshot go to the end of its last section, and so come last in its item order. */
  lemma LastSectionItems(s: Snapshot, items: seq<ItemId>)
    requires s.sections != [] && Valid(s) && AppendingItems(s, items).Ok?
    ensures
      var last := |s.sections| - 1;
      AppendingItems(s, items).value.sections ==
        s.sections[last := Section(s.sections[last].id, s.sections[last].items + items)]
    ensures AllItems(AppendingItems(s, items).value) == AllItems(s) + items
  {
    var last := |s.sections| - 1;
    var id := s.sections[last].id;
    assert SectionIds(s)[last] == id;
    var k := IndexOf(SectionIds(s), id);
    SameElementSameIndex(SectionIds(s), k, last);
    ItemsOfAllUpdate(s.sections, k, items);
    assert s.sections[k + 1..] == [];
    assert s.sections[..k + 1] == s.sections;
  }

  /** Building a snapshot step by step: sections [A, B], then items [1, 2] to A and [3] to B. */
  lemma AppendOrderingExample(a: SectionId, b: SectionId)
    requires a != b
    ensures
      var s1 := AppendingSections(Empty(), [a, b]);
      s1.Ok? &&
      var s2 := AppendingItemsTo(s1.value, [1, 2], a);
      s2.Ok? &&
      var s3 := AppendingItemsTo(s2.value, [3], b);
      s3 == Ok(Snapshot([Section(a, [1, 2]), Section(b, [3])]))
  {
    ExampleSections(a, b);
    ExampleFirstItems(a, b);
    ExampleSecondItems(a, b);
  }

  lemma ExampleSections(a: SectionId, b: SectionId)
    requires a != b
    ensures AppendingSections(Empty(), [a, b]) == Ok(Snapshot([Section(a, []), Section(b, [])]))
  {
    assert NoDup([a, b]);
    assert EmptySections([a, b]) == [Section(a, []), Section(b, [])] by {
      assert EmptySections([a, b][1..]) == [Section(b, [])];
    }
    assert Empty().sections + EmptySections([a, b]) == EmptySections([a, b]);
  }

  lemma ExampleFirstItems(a: SectionId, b: SectionId)
    requires a != b
    ensures AppendingItemsTo(Snapshot([Section(a, []), Section(b, [])]), [1, 2], a)
      == Ok(Snapshot([Section(a, [1, 2]), Section(b, [])]))
  {
    var s1 := Snapshot([Section(a, []), Section(b, [])]);
    assert SectionIds(s1) == [a, b];
    assert AllItems(s1) == [] by {
      var sec := s1.sections;
      assert sec[1..][1..] == [];
      assert ItemsOfAll(sec[1..]) == [] + ItemsOfAll(sec[1..][1..]);
      assert ItemsOfAll(sec) == [] + ItemsOfAll(sec[1..]);
    }
    assert IndexOf([a, b], a) == 0;
    assert NoDup([1, 2]);
    assert s1.sections[0].items + [1, 2] == [1, 2];
    assert s1.sections[0 := Section(a, [1, 2])] == [Section(a, [1, 2]), Section(b, [])];
  }

  lemma ExampleSecondItems(a: SectionId, b: SectionId)
    requires a != b
    ensures AppendingItemsTo(Snapshot([Section(a, [1, 2]), Section(b, [])]), [3], b)
      == Ok(Snapshot([Section(a, [1, 2]), Section(b, [3])]))
  {
    var s2 := Snapshot([Section(a, [1, 2]), Section(b, [])]);
    assert SectionIds(s2) == [a, b];
    assert AllItems(s2) == [1, 2] by {
      var sec := s2.sections;
      assert sec[1..][1..] == [];
      assert ItemsOfAll(sec[1..]) == [] + ItemsOfAll(sec[1..][1..]);
      assert ItemsOfAll(sec) == [1, 2] + ItemsOfAll(sec[1..]);
    }
    assert IndexOf([a, b], b) == 1 by {
      assert [a, b][1..] == [b];
    }
    assert NoDup([3]);
    assert s2.sections[1].items + [3] == [3];
    assert s2.sections[1 := Section(b, [3])] == [Section(a, [1, 2]), Section(b, [3])];
  }
}
