/**
 * `UIView.ViewBuilder`, the result builder that turns the statements of a builder
 * closure into views, and `addSubview` with a builder closure.
 *
 * Swift's typing gives the builder two sorts of component: a single `UIView`
 * (a view expression, `buildOptional`) and a list `[UIView]` (a list expression,
 * a multi-statement block, an if/else). The two datatypes below follow that split.
 */
module ViewBuilder {
  import opened Wrappers
  import opened Views

  /** A builder component whose value is one view. */
  datatype ViewExpr =
    | Leaf(view: ViewId)              // an expression of type UIView
    | Opt(body: Option<ViewExpr>)     // `if c { ... }` without else; None when the branch is not taken

  /** A builder component whose value is a list of views. */
  datatype ListExpr =
    | List(views: seq<ViewId>)        // an expression of type [UIView]
    | EitherFirst(first: ListExpr)    // the taken `if` branch of an if/else
    | EitherSecond(second: ListExpr)  // the taken `else` branch of an if/else
    | Block(items: seq<ViewExpr>)     // a block of view statements

  /** A built value, and the allocator's counter after building it. */
  datatype Built<+T> = Built(value: T, next: nat)

  /**
   * `buildOptional`: a present view is returned as is; an absent one is replaced by a
   * newly created view, the one the allocator hands out next.
   */
  function BuildOptional(view: Option<ViewId>, next: nat): (r: Built<ViewId>)
    ensures view.Some? ==> r.value == view.value && r.next == next
    ensures view.None? ==> r.next == next + 1 && next <= r.value < r.next
  {
    match view
    case Some(v) => Built(v, next)
    case None => Built(next, next + 1)
  }

  /** The view a view expression builds (`buildExpression` / `buildBlock` on one view, `buildOptional`). */
  function BuildView(e: ViewExpr, next: nat): (r: Built<ViewId>)
    ensures r.next == next || (r.next == next + 1 && r.value == next)
  {
    match e
    case Leaf(v) => Built(v, next)
    case Opt(None) => BuildOptional(None, next)
    case Opt(Some(b)) =>
      var inner := BuildView(b, next);
      BuildOptional(Some(inner.value), inner.next)
  }

  /** The views of a block's statements, built left to right (the variadic `buildBlock`). */
  function BuildViews(items: seq<ViewExpr>, next: nat): (r: Built<seq<ViewId>>)
    ensures |r.value| == |items|
    ensures next <= r.next <= next + |items|
  {
    if items == [] then Built([], next)
    else
      var head := BuildView(items[0], next);
      var tail := BuildViews(items[1..], head.next);
      Built([head.value] + tail.value, tail.next)
  }

  /** The list a list expression builds. */
  function Flatten(e: ListExpr, next: nat): (r: Built<seq<ViewId>>)
    ensures next <= r.next <= next + |r.value|
  {
    match e
    case List(vs) => Built(vs, next)
    case EitherFirst(b) => Flatten(b, next)
    case EitherSecond(b) => Flatten(b, next)
    case Block(items) => BuildViews(items, next)
  }

  // ---------------------------------------------------------------------------
  // A reference semantics that ignores allocation: each position of the output is
  // either a view written in the source or a placeholder for a newly created view.

  datatype Slot = Given(view: ViewId) | Placeholder

  function ViewSlot(e: ViewExpr): Slot
  {
    match e
    case Leaf(v) => Given(v)
    case Opt(None) => Placeholder
    case Opt(Some(b)) => ViewSlot(b)
  }

  function ItemSlots(items: seq<ViewExpr>): seq<Slot>
  {
    if items == [] then [] else [ViewSlot(items[0])] + ItemSlots(items[1..])
  }

  function GivenSlots(vs: seq<ViewId>): seq<Slot>
  {
    if vs == [] then [] else [Given(vs[0])] + GivenSlots(vs[1..])
  }

  function Slots(e: ListExpr): seq<Slot>
  {
    match e
    case List(vs) => GivenSlots(vs)
    case EitherFirst(b) => Slots(b)
    case EitherSecond(b) => Slots(b)
    case Block(items) => ItemSlots(items)
  }

  function Placeholders(slots: seq<Slot>): nat
  {
    if slots == [] then 0 else (if slots[0].Placeholder? then 1 else 0) + Placeholders(slots[1..])
  }

  /** The views written in the source, in written order. */
  function Inputs(slots: seq<Slot>): seq<ViewId>
  {
    if slots == [] then []
    else if slots[0].Given? then [slots[0].view] + Inputs(slots[1..])
    else Inputs(slots[1..])
  }

  /** Fills the slots in order, numbering the placeholders from `next` upwards. */
  function Realize(slots: seq<Slot>, next: nat): seq<ViewId>
  {
    if slots == [] then []
    else match slots[0]
      case Given(v) => [v] + Realize(slots[1..], next)
      case Placeholder => [next] + Realize(slots[1..], next + 1)
  }

  // ---------------------------------------------------------------------------
  // The builder agrees with the reference semantics.

  lemma {:induction false} BuildViewSlot(e: ViewExpr, next: nat)
    ensures ViewSlot(e).Given? ==> BuildView(e, next) == Built(ViewSlot(e).view, next)
    ensures ViewSlot(e).Placeholder? ==> BuildView(e, next) == Built(next, next + 1)
  {
    match e
    case Leaf(_) =>
    case Opt(None) =>
    case Opt(Some(b)) => BuildViewSlot(b, next);
  }

  lemma {:induction false} BuildViewsRealize(items: seq<ViewExpr>, next: nat)
    ensures BuildViews(items, next) == Built(Realize(ItemSlots(items), next), next + Placeholders(ItemSlots(items)))
  {
    if items != [] {
      BuildViewSlot(items[0], next);
      var head := BuildView(items[0], next);
      BuildViewsRealize(items[1..], head.next);
    }
  }

  lemma {:induction false} GivenSlotsRealize(vs: seq<ViewId>, next: nat)
    ensures Realize(GivenSlots(vs), next) == vs
    ensures Placeholders(GivenSlots(vs)) == 0
    ensures Inputs(GivenSlots(vs)) == vs
  {
    if vs != [] {
      GivenSlotsRealize(vs[1..], next);
    }
  }

  /**
   * The builder's output is the written content with each placeholder filled by a new view,
   * numbered in order; it allocates exactly one view per placeholder.
   */
  lemma {:induction false} FlattenMatchesSlots(e: ListExpr, next: nat)
    ensures Flatten(e, next) == Built(Realize(Slots(e), next), next + Placeholders(Slots(e)))
  {
    match e
    case List(vs) => GivenSlotsRealize(vs, next);
    case EitherFirst(b) => FlattenMatchesSlots(b, next);
    case EitherSecond(b) => FlattenMatchesSlots(b, next);
    case Block(items) => BuildViewsRealize(items, next);
  }

  /** Position by position: a written view stays, the k-th placeholder becomes view `next + k`. */
  lemma {:induction false} RealizeAt(slots: seq<Slot>, next: nat, i: nat)
    requires i < |slots|
    ensures |Realize(slots, next)| == |slots|
    ensures slots[i].Given? ==> Realize(slots, next)[i] == slots[i].view
    ensures slots[i].Placeholder? ==> Realize(slots, next)[i] == next + Placeholders(slots[..i])
  {
    if i == 0 {
      RealizeLength(slots[1..], next + if slots[0].Placeholder? then 1 else 0);
    } else {
      RealizeAt(slots[1..], next + (if slots[0].Placeholder? then 1 else 0), i - 1);
      assert slots[..i][1..] == slots[1..][..i - 1];
    }
  }

  lemma {:induction false} RealizeLength(slots: seq<Slot>, next: nat)
    ensures |Realize(slots, next)| == |slots|
  {
    if slots != [] {
      RealizeLength(slots[1..], next + if slots[0].Placeholder? then 1 else 0);
    }
  }

  /** Every output view is a written view or one of the views allocated for the placeholders. */
  lemma {:induction false} RealizeRange(slots: seq<Slot>, next: nat, x: ViewId)
    requires x in Realize(slots, next)
    ensures x in Inputs(slots) || next <= x < next + Placeholders(slots)
  {
    if slots != [] {
      if x != Realize(slots, next)[0] {
        RealizeRange(slots[1..], next + (if slots[0].Placeholder? then 1 else 0), x);
      }
    }
  }

  lemma InputsTail(slots: seq<Slot>)
    requires slots != [] && NoDup(Inputs(slots))
    ensures NoDup(Inputs(slots[1..]))
    ensures slots[0].Given? ==> slots[0].view !in Inputs(slots[1..])
  {
    if slots[0].Given? {
      ConsNoDupInverse(slots[0].view, Inputs(slots[1..]));
    }
  }

  lemma ConsNoDupInverse(h: ViewId, t: seq<ViewId>)
    requires NoDup([h] + t)
    ensures h !in t && NoDup(t)
  {
    var r := [h] + t;
    forall i, j | 0 <= i < j < |t| ensures t[i] != t[j] {
      assert t[i] == r[i + 1] && t[j] == r[j + 1];
    }
    forall j | 0 <= j < |t| ensures t[j] != h {
      assert r[0] == h && t[j] == r[j + 1];
    }
  }

  /**
   * When the written views are pairwise distinct and were all created before building
   * began, no view occurs twice in the output: every placeholder is a distinct new view.
   */
  lemma {:induction false} RealizeNoDup(slots: seq<Slot>, next: nat)
    requires NoDup(Inputs(slots))
    requires forall v :: v in Inputs(slots) ==> v < next
    ensures NoDup(Realize(slots, next))
  {
    if slots != [] {
      InputsTail(slots);
      match slots[0]
      case Given(h) =>
        var tail := Realize(slots[1..], next);
        assert Inputs(slots) == [h] + Inputs(slots[1..]);
        assert h in Inputs(slots) && h < next;
        forall v | v in Inputs(slots[1..]) ensures v < next {
          assert v in Inputs(slots);
        }
        RealizeNoDup(slots[1..], next);
        assert h !in tail by {
          if h in tail {
            RealizeRange(slots[1..], next, h);
          }
        }
        NoDupAppend<ViewId>([h], tail);
      case Placeholder =>
        var tail := Realize(slots[1..], next + 1);
        assert Inputs(slots) == Inputs(slots[1..]);
        RealizeNoDup(slots[1..], next + 1);
        assert next !in tail by {
          if next in tail {
            RealizeRange(slots[1..], next + 1, next);
          }
        }
        NoDupAppend<ViewId>([next], tail);
    }
  }

  // ---------------------------------------------------------------------------
  // The builder rules, one by one.

  /** A block of views yields those views: same views, same order, same length (`buildBlock(_ views: UIView...)`). */
  lemma {:induction false} FlattenBlockOfLeaves(vs: seq<ViewId>, next: nat)
    ensures Flatten(Block(seq(|vs|, i requires 0 <= i < |vs| => Leaf(vs[i]))), next) == Built(vs, next)
  {
    var items := seq(|vs|, i requires 0 <= i < |vs| => Leaf(vs[i]));
    if vs != [] {
      assert items[1..] == seq(|vs[1..]|, i requires 0 <= i < |vs[1..]| => Leaf(vs[1..][i]));
      FlattenBlockOfLeaves(vs[1..], next);
      assert vs == [vs[0]] + vs[1..];
    }
  }

  /** One view in list context lifts to the one-element list of the view it builds (`buildBlock(_ view:) -> [UIView]`). */
  lemma SingleViewLifts(e: ViewExpr, next: nat)
    ensures Flatten(Block([e]), next).value == [BuildView(e, next).value]
    ensures Flatten(Block([e]), next).next == BuildView(e, next).next
  {
    var head := BuildView(e, next);
    assert [e][1..] == [];
    assert BuildViews([e][1..], head.next) == Built([], head.next);
  }

  /** `buildExpression` is the identity, on one view and on a list. */
  lemma ExpressionIdentity(v: ViewId, vs: seq<ViewId>, next: nat)
    ensures BuildView(Leaf(v), next) == Built(v, next)
    ensures Flatten(List(vs), next) == Built(vs, next)
  {
  }

  /** An absent optional never builds nothing: it builds exactly one newly created view, the same way every time. */
  lemma AbsentOptionalIsPlaceholder(next: nat)
    ensures Flatten(Block([Opt(None)]), next) == Built([next], next + 1)
  {
    SingleViewLifts(Opt(None), next);
  }

  /** An if/else passes the taken branch's list through: content, order and length (`buildEither`). */
  lemma FlattenEither(e: ListExpr, next: nat)
    ensures Flatten(EitherFirst(e), next) == Flatten(e, next)
    ensures Flatten(EitherSecond(e), next) == Flatten(e, next)
  {
  }

  /** Statements written one after the other concatenate in written order. */
  lemma {:induction false} FlattenConcat(a: seq<ViewExpr>, b: seq<ViewExpr>, next: nat)
    ensures Flatten(Block(a + b), next).value
         == Flatten(Block(a), next).value + Flatten(Block(b), Flatten(Block(a), next).next).value
    ensures Flatten(Block(a + b), next).next == Flatten(Block(b), Flatten(Block(a), next).next).next
  {
    if a == [] {
      assert a + b == b;
    } else {
      assert (a + b)[0] == a[0];
      assert (a + b)[1..] == a[1..] + b;
      FlattenConcat(a[1..], b, BuildView(a[0], next).next);
    }
  }

  /**
   * The output of a builder holds no view twice when the written views are distinct and all
   * existed before building began: every placeholder is fresh and distinct from all the others.
   */
  lemma FlattenNoDup(e: ListExpr, next: nat)
    requires NoDup(Inputs(Slots(e)))
    requires forall v :: v in Inputs(Slots(e)) ==> v < next
    ensures NoDup(Flatten(e, next).value)
    ensures forall x :: x in Flatten(e, next).value && x !in Inputs(Slots(e)) ==> next <= x < Flatten(e, next).next
  {
    FlattenMatchesSlots(e, next);
    RealizeNoDup(Slots(e), next);
    forall x | x in Flatten(e, next).value && x !in Inputs(Slots(e))
      ensures next <= x < Flatten(e, next).next
    {
      RealizeRange(Slots(e), next, x);
    }
  }

  // ---------------------------------------------------------------------------

  /** A view, reduced to what `addSubview` changes: its identity and its ordered subviews. */
  class View {
    const id: ViewId
    var subviews: seq<ViewId>

    constructor (id: ViewId)
      ensures this.id == id && subviews == []
    {
      this.id := id;
      subviews := [];
    }

    /** The constraints `pin(to:insets:)` activates: the subview's four edges, installed on this view. */
    function PinConstraints(subview: ViewId): (cs: set<Constraint>)
      ensures forall c :: c in cs <==> c.holder == id && c.item == subview
    {
      set e: Edge | true :: Constraint(id, subview, e)
    }

    /**
     * `addSubview { content }`: builds the content's one view, adds it as the last subview
     * (moving it if it was already one) and pins it to this view's edges.
     */
    method AddSubview(content: ViewExpr, alloc: Allocator, store: ConstraintStore) returns (subview: ViewId)
      requires NoDup(subviews)
      modifies this, alloc, store
      ensures Built(subview, alloc.next) == BuildView(content, old(alloc.next))
      ensures subviews == Attach(old(subviews), subview)
      ensures NoDup(subviews) && multiset(subviews)[subview] == 1
      ensures store.active == old(store.active) + PinConstraints(subview)
    {
      var built := BuildView(content, alloc.next);
      subview := built.value;
      alloc.next := built.next;
      AttachNoDup(subviews, subview);
      subviews := Attach(subviews, subview);
      store.active := store.active + PinConstraints(subview);
    }
  }
}
