/** Option and Result, for absent values and for the operations that trap. */
module Wrappers {
  datatype Option<+T> = None | Some(value: T)

  datatype Result<+T, +E> = Ok(value: T) | Err(error: E)
}

/**
 * The parts of the view toolkit that several components share: views by identity,
 * layout constraints, the order-keeping edits UIKit makes on subview lists, the
 * allocation of new views, and the demand a subscriber asks of its publisher.
 */
module Views {
  /** A view, by reference identity: two views are the same exactly when their ids are. */
  type ViewId = nat

  datatype Edge = Top | Leading | Bottom | Trailing

  /** An active layout constraint: the view that holds it, the view it positions, and on which edge. */
  datatype Constraint = Constraint(holder: ViewId, item: ViewId, edge: Edge)

  /** How many further values a subscriber asks its publisher for. */
  datatype Demand = Unlimited | Max(count: nat)

  /** Hands out the identities of newly created views (`UIView()`): every view made so far is below `next`. */
  class Allocator {
    var next: nat

    constructor (next: nat)
      ensures this.next == next
    {
      this.next := next;
    }
  }

  /**
   * The constraints active in the window. Activating a constraint installs it on a view,
   * its holder; a view's `constraints` are the active ones it holds.
   */
  class ConstraintStore {
    var active: set<Constraint>

    constructor (active: set<Constraint>)
      ensures this.active == active
    {
      this.active := active;
    }
  }

  predicate NoDup<T(==)>(s: seq<T>)
  {
    forall i, j :: 0 <= i < j < |s| ==> s[i] != s[j]
  }

  /** In a sequence without repeats, an element sits at one index only. */
  lemma SameElementSameIndex<T>(s: seq<T>, i: nat, j: nat)
    requires NoDup(s) && i < |s| && j < |s| && s[i] == s[j]
    ensures i == j
  {
  }

  predicate Disjoint<T(==)>(s: seq<T>, t: seq<T>)
  {
    forall x :: x in s ==> x !in t
  }

  /** Two lists without repeats and with no element in common make a list without repeats. */
  lemma NoDupAppend<T>(a: seq<T>, b: seq<T>)
    requires NoDup(a) && NoDup(b) && Disjoint(b, a)
    ensures NoDup(a + b)
  {
    var r := a + b;
    forall i, j | 0 <= i < j < |r| ensures r[i] != r[j] {
      if j < |a| {
      } else if i >= |a| {
        assert r[i] == b[i - |a|] && r[j] == b[j - |a|];
      } else {
        assert r[j] == b[j - |a|] && r[j] in b;
      }
    }
  }

  /** `s` with every occurrence of `v` taken out, the rest in order. */
  function Without(s: seq<ViewId>, v: ViewId): (r: seq<ViewId>)
    ensures forall x :: x in r <==> x in s && x != v
    ensures |r| <= |s|
    ensures v !in s ==> r == s
  {
    if s == [] then []
    else if s[0] == v then Without(s[1..], v)
    else [s[0]] + Without(s[1..], v)
  }

  lemma {:induction false} WithoutNoDup(s: seq<ViewId>, v: ViewId)
    requires NoDup(s)
    ensures NoDup(Without(s, v))
  {
    if s != [] {
      assert NoDup(s[1..]) by {
        forall i, j | 0 <= i < j < |s[1..]| ensures s[1..][i] != s[1..][j] {
          assert s[1..][i] == s[i + 1] && s[1..][j] == s[j + 1];
        }
      }
      WithoutNoDup(s[1..], v);
      if s[0] != v {
        var t := Without(s[1..], v);
        assert s[0] !in s[1..];
        assert s[0] !in t;
        NoDupAppend<ViewId>([s[0]], t);
      }
    }
  }

  /** Removing the head of a duplicate-free list leaves its tail. */
  lemma WithoutHead(s: seq<ViewId>)
    requires NoDup(s) && s != []
    ensures Without(s, s[0]) == s[1..]
  {
    assert s[0] !in s[1..] by {
      forall k | 1 <= k < |s| ensures s[k] != s[0] {
      }
    }
  }

  /**
   * UIKit's add-to-end on an ordered list of views (`addSubview`, `addArrangedSubview`):
   * a view already present moves to the end, any other view is appended.
   */
  function Attach(s: seq<ViewId>, v: ViewId): (r: seq<ViewId>)
    ensures |r| > 0 && r[|r| - 1] == v
    ensures forall x :: x in r <==> x in s || x == v
    ensures v !in s ==> r == s + [v]
  {
    Without(s, v) + [v]
  }

  lemma AttachNoDup(s: seq<ViewId>, v: ViewId)
    requires NoDup(s)
    ensures NoDup(Attach(s, v))
    ensures multiset(Attach(s, v))[v] == 1
  {
    WithoutNoDup(s, v);
    var w := Without(s, v);
    assert v !in w;
    NoDupAppend<ViewId>(w, [v]);
    assert v !in multiset(w);
  }

  /** `Attach` applied to each view of `vs` in turn, in order (a `forEach` over `addArrangedSubview`). */
  function AttachAll(s: seq<ViewId>, vs: seq<ViewId>): seq<ViewId>
  {
    if vs == [] then s else Attach(AttachAll(s, vs[..|vs| - 1]), vs[|vs| - 1])
  }

  /** Attaching views that are new and pairwise distinct appends them, in order. */
  lemma {:induction false} AttachAllAppends(s: seq<ViewId>, vs: seq<ViewId>)
    requires NoDup(vs) && Disjoint(vs, s)
    ensures AttachAll(s, vs) == s + vs
  {
    if vs != [] {
      var init, last := vs[..|vs| - 1], vs[|vs| - 1];
      assert NoDup(init) && Disjoint(init, s);
      AttachAllAppends(s, init);
      assert last !in init by {
        forall k | 0 <= k < |init| ensures init[k] != last {
          assert init[k] == vs[k];
        }
      }
      assert last !in s + init;
      assert init + [last] == vs;
    }
  }

  /** Attaching one more view of `vs` attaches it to what the views before it gave. */
  lemma AttachAllStep(s: seq<ViewId>, vs: seq<ViewId>, i: nat)
    requires i < |vs|
    ensures AttachAll(s, vs[..i + 1]) == Attach(AttachAll(s, vs[..i]), vs[i])
  {
    assert vs[..i + 1][..i] == vs[..i];
  }

  /** Attaching distinct views to an empty list gives exactly those views. */
  lemma AttachAllFromEmpty(vs: seq<ViewId>)
    requires NoDup(vs)
    ensures AttachAll([], vs) == vs
  {
    AttachAllAppends([], vs);
    assert [] + vs == vs;
  }

  lemma {:induction false} AttachAllNoDup(s: seq<ViewId>, vs: seq<ViewId>)
    requires NoDup(s)
    ensures NoDup(AttachAll(s, vs))
    ensures forall x :: x in AttachAll(s, vs) <==> x in s || x in vs
  {
    if vs != [] {
      var init := vs[..|vs| - 1];
      AttachAllNoDup(s, init);
      AttachNoDup(AttachAll(s, init), vs[|vs| - 1]);
      assert vs == init + [vs[|vs| - 1]];
    }
  }

  /**
   * `addArrangedSubview`'s effect on the subviews list, for each view of `vs` in turn: a view
   * not yet a subview is appended, and one already a subview stays where it is.
   */
  function AppendNew(s: seq<ViewId>, vs: seq<ViewId>): (r: seq<ViewId>)
    ensures forall x :: x in r <==> x in s || x in vs
    ensures |s| <= |r| && r[..|s|] == s
  {
    if vs == [] then s
    else
      var t := AppendNew(s, vs[..|vs| - 1]);
      assert vs == vs[..|vs| - 1] + [vs[|vs| - 1]];
      if vs[|vs| - 1] in t then t else t + [vs[|vs| - 1]]
  }

  /** Adding one more view of `vs` adds it to what the views before it gave. */
  lemma AppendNewStep(s: seq<ViewId>, vs: seq<ViewId>, i: nat)
    requires i < |vs|
    ensures AppendNew(s, vs[..i + 1]) ==
      var t := AppendNew(s, vs[..i]); if vs[i] in t then t else t + [vs[i]]
  {
    assert vs[..i + 1][..i] == vs[..i];
  }

  /** Adding views that are new and pairwise distinct appends them, in order. */
  lemma {:induction false} AppendNewAppends(s: seq<ViewId>, vs: seq<ViewId>)
    requires NoDup(vs) && Disjoint(vs, s)
    ensures AppendNew(s, vs) == s + vs
  {
    if vs != [] {
      var init, last := vs[..|vs| - 1], vs[|vs| - 1];
      assert NoDup(init) && Disjoint(init, s);
      AppendNewAppends(s, init);
      assert last !in init by {
        forall k | 0 <= k < |init| ensures init[k] != last {
          assert init[k] == vs[k];
        }
      }
      assert init + [last] == vs;
    }
  }

  lemma {:induction false} AppendNewNoDup(s: seq<ViewId>, vs: seq<ViewId>)
    requires NoDup(s)
    ensures NoDup(AppendNew(s, vs))
  {
    if vs != [] {
      var t := AppendNew(s, vs[..|vs| - 1]);
      AppendNewNoDup(s, vs[..|vs| - 1]);
      if vs[|vs| - 1] !in t {
        NoDupAppend<ViewId>(t, [vs[|vs| - 1]]);
      }
    }
  }

  /** Every view of `vs` taken out of `s` (a `forEach` over `removeFromSuperview`). */
  function WithoutAll(s: seq<ViewId>, vs: seq<ViewId>): (r: seq<ViewId>)
    ensures forall x :: x in r <==> x in s && x !in vs
  {
    if vs == [] then s else Without(WithoutAll(s, vs[..|vs| - 1]), vs[|vs| - 1])
  }

  lemma {:induction false} WithoutAllNoDup(s: seq<ViewId>, vs: seq<ViewId>)
    requires NoDup(s)
    ensures NoDup(WithoutAll(s, vs))
  {
    if vs != [] {
      WithoutAllNoDup(s, vs[..|vs| - 1]);
      WithoutNoDup(WithoutAll(s, vs[..|vs| - 1]), vs[|vs| - 1]);
    }
  }
}
