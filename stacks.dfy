/**
 * The `UIStackView` extension: the builder initialiser, removing and adding arranged
 * subviews, replacing all of them, and rendering a publisher's values as the arranged
 * subviews.
 */
module Stacks {
  import opened Views
  import opened ViewBuilder

  datatype Axis = Horizontal | Vertical

  datatype Alignment = Fill | Leading | FirstBaseline | Center | Trailing | LastBaseline

  datatype Distribution = Fill | FillEqually | FillProportionally | EqualSpacing | EqualCentering

  /**
   * A stack view: its arranged subviews in order, its subviews, and the properties the
   * builder initialiser sets. `spacing` stands for a CGFloat. The constraints its views hold
   * live in the window's shared `ConstraintStore`.
   */
  class StackView {
    var arranged: seq<ViewId>
    var subviews: seq<ViewId>
    var axis: Axis
    var alignment: Alignment
    var isBaselineRelativeArrangement: bool
    var distribution: Distribution
    var isLayoutMarginsRelativeArrangement: bool
    var spacing: real

    /** Each view is arranged at most once, and an arranged view is always a subview. */
    ghost predicate Valid()
      reads this
    {
      NoDup(arranged) && NoDup(subviews) && forall v :: v in arranged ==> v in subviews
    }

    /**
     * `init(axis:alignment:...:arrangedSubviewsBuilder:)`: the builder's views become the
     * arranged subviews, and each property takes the value given.
     */
    constructor (axis: Axis, alignment: Alignment := Alignment.Fill,
                 isBaselineRelativeArrangement: bool := false,
                 distribution: Distribution := Distribution.Fill,
                 isLayoutMarginsRelativeArrangement: bool := false,
                 spacing: real := 0.0, content: ListExpr, alloc: Allocator)
      modifies alloc
      ensures Valid()
      ensures alloc.next == Flatten(content, old(alloc.next)).next
      ensures arranged == Arranged(Flatten(content, old(alloc.next)).value)
      ensures subviews == AppendNew([], Flatten(content, old(alloc.next)).value)
      ensures this.axis == axis && this.alignment == alignment
      ensures this.isBaselineRelativeArrangement == isBaselineRelativeArrangement
      ensures this.distribution == distribution
      ensures this.isLayoutMarginsRelativeArrangement == isLayoutMarginsRelativeArrangement
      ensures this.spacing == spacing
    {
      var built := Flatten(content, alloc.next);
      arranged := Arranged(built.value);
      subviews := AppendNew([], built.value);
      this.alignment := alignment;
      this.axis := axis;
      this.isBaselineRelativeArrangement := isBaselineRelativeArrangement;
      this.distribution := distribution;
      this.isLayoutMarginsRelativeArrangement := isLayoutMarginsRelativeArrangement;
      this.spacing := spacing;
      new;
      alloc.next := built.next;
      ValidAfterBuilding(this, built.value);
    }

    /** `removeArrangedSubview`: the view stops being arranged but stays a subview. */
    method RemoveArrangedSubview(v: ViewId)
      requires Valid()
      modifies this`arranged
      ensures Valid()
      ensures arranged == Without(old(arranged), v)
    {
      WithoutNoDup(arranged, v);
      arranged := Without(arranged, v);
    }

    /** `addArrangedSubview`: the view becomes the last arranged subview, and a subview if it was not one. */
    method AddArrangedSubview(v: ViewId)
      requires Valid()
      modifies this`arranged, this`subviews
      ensures Valid()
      ensures arranged == Attach(old(arranged), v)
      ensures subviews == if v in old(subviews) then old(subviews) else old(subviews) + [v]
    {
      AttachNoDup(arranged, v);
      arranged := Attach(arranged, v);
      if v !in subviews {
        AttachNoDup(subviews, v);
        subviews := subviews + [v];
      }
    }

    /**
     * `removeAllArrangedSubviews`: un-arranges every arranged subview in order, collecting
     * them; then deactivates the constraints those views hold and detaches each of them.
     * `removed` is that collected list.
     */
    method RemoveAllArrangedSubviews(store: ConstraintStore) returns (removed: seq<ViewId>)
      requires Valid()
      modifies this`arranged, this`subviews, store
      ensures Valid()
      ensures removed == old(arranged) && arranged == []
      ensures subviews == WithoutAll(old(subviews), removed)
      ensures forall v :: v in subviews <==> v in old(subviews) && v !in removed
      ensures forall c :: c in store.active <==> c in old(store.active) && c.holder !in removed
    {
      var all := arranged;
      removed := [];
      var i := 0;
      while i < |all|
        invariant 0 <= i <= |all|
        invariant removed == all[..i] && arranged == all[i..]
        invariant Valid()
        invariant subviews == old(subviews) && store.active == old(store.active)
      {
        WithoutHead(arranged);
        RemoveArrangedSubview(all[i]);
        removed := removed + [all[i]];
        i := i + 1;
      }
      store.active := set c | c in store.active && c.holder !in removed;
      var j := 0;
      while j < |removed|
        invariant 0 <= j <= |removed|
        invariant subviews == WithoutAll(old(subviews), removed[..j])
        invariant NoDup(subviews) && arranged == []
        invariant store.active == set c | c in old(store.active) && c.holder !in removed
      {
        assert removed[..j + 1][..j] == removed[..j];
        WithoutNoDup(subviews, removed[j]);
        subviews := Without(subviews, removed[j]);
        j := j + 1;
      }
      assert removed[..j] == removed;
    }

    /**
     * `addArrangedSubviews`: adds each view in turn; new, distinct views are appended in order,
     * and each view not yet a subview is appended to the subviews.
     */
    method AddArrangedSubviews(vs: seq<ViewId>)
      requires Valid()
      modifies this`arranged, this`subviews
      ensures Valid()
      ensures arranged == AttachAll(old(arranged), vs)
      ensures NoDup(vs) && Disjoint(vs, old(arranged)) ==> arranged == old(arranged) + vs
      ensures subviews == AppendNew(old(subviews), vs)
      ensures NoDup(vs) && Disjoint(vs, old(subviews)) ==> subviews == old(subviews) + vs
      ensures forall v :: v in subviews <==> v in old(subviews) || v in vs
    {
      ghost var arranged0, subviews0 := arranged, subviews;
      var i := 0;
      while i < |vs|
        invariant 0 <= i <= |vs|
        invariant Valid()
        invariant arranged == AttachAll(arranged0, vs[..i])
        invariant subviews == AppendNew(subviews0, vs[..i])
      {
        AttachAllStep(arranged0, vs, i);
        AppendNewStep(subviews0, vs, i);
        AddArrangedSubview(vs[i]);
        i := i + 1;
      }
      assert vs[..i] == vs;
      if NoDup(vs) && Disjoint(vs, arranged0) {
        AttachAllAppends(arranged0, vs);
      }
      if NoDup(vs) && Disjoint(vs, subviews0) {
        AppendNewAppends(subviews0, vs);
      }
    }

    /**
     * `replaceArrangedSubviews(with:)`: afterwards the arranged subviews are exactly `vs`
     * (when `vs` repeats no view), nothing arranged before is left over, and the constraints
     * the views arranged before held are deactivated.
     */
    method ReplaceArrangedSubviews(vs: seq<ViewId>, store: ConstraintStore)
      requires Valid()
      modifies this`arranged, this`subviews, store
      ensures Valid()
      ensures arranged == Arranged(vs)
      ensures subviews == AppendNew(WithoutAll(old(subviews), old(arranged)), vs)
      ensures forall v :: v in subviews <==> (v in old(subviews) && v !in old(arranged)) || v in vs
      ensures forall c :: c in store.active <==> c in old(store.active) && c.holder !in old(arranged)
    {
      var removed := RemoveAllArrangedSubviews(store);
      AddArrangedSubviews(vs);
    }

    /**
     * `replaceArrangedSubviews(arrangedSubviewsBuilder:)`: the old arranged subviews are
     * removed first, then the builder runs and its views are arranged, exactly so when the
     * written views are distinct and existed beforehand.
     */
    method ReplaceArrangedSubviewsBuilt(content: ListExpr, alloc: Allocator, store: ConstraintStore)
      requires Valid()
      modifies this`arranged, this`subviews, alloc, store
      ensures Valid()
      ensures Flatten(content, old(alloc.next)).next == alloc.next
      ensures arranged == Arranged(Flatten(content, old(alloc.next)).value)
      ensures NoDup(Inputs(Slots(content))) && (forall v :: v in Inputs(Slots(content)) ==> v < old(alloc.next))
        ==> arranged == Flatten(content, old(alloc.next)).value
      ensures subviews == AppendNew(WithoutAll(old(subviews), old(arranged)), Flatten(content, old(alloc.next)).value)
      ensures forall v :: v in subviews <==>
        (v in old(subviews) && v !in old(arranged)) || v in Flatten(content, old(alloc.next)).value
      ensures forall c :: c in store.active <==> c in old(store.active) && c.holder !in old(arranged)
    {
      var removed := RemoveAllArrangedSubviews(store);
      var built := Flatten(content, alloc.next);
      if NoDup(Inputs(Slots(content))) && (forall v :: v in Inputs(Slots(content)) ==> v < alloc.next) {
        FlattenNoDup(content, alloc.next);
      }
      alloc.next := built.next;
      AddArrangedSubviews(built.value);
    }

    /**
     * `render(onValue:content:)`: a sink that, for each value, replaces the arranged subviews
     * with the content built from it. The sink refers to this stack weakly. `sent` is what the
     * publisher sends while `sink` subscribes (a `@Published` property or `Just` sends its
     * current value then): each value is rendered in turn before `render` returns, so the
     * arranged subviews are the content of the last one.
     */
    method Render<T>(content: T -> ListExpr, alloc: Allocator, store: ConstraintStore, sent: seq<T>)
      returns (sink: StackRenderSink<T>)
      requires Valid()
      modifies this, alloc, store
      ensures fresh(sink)
      ensures sink.stack == this && sink.content == content && sink.alloc == alloc && sink.store == store
      ensures Valid()
      ensures alloc.next == NextAfter(content, sent, old(alloc.next))
      ensures sent == [] ==>
        arranged == old(arranged) && subviews == old(subviews) && store.active == old(store.active)
      ensures sent != [] ==>
        arranged == Arranged(Flatten(content(sent[|sent| - 1]),
                                     NextAfter(content, sent[..|sent| - 1], old(alloc.next))).value)
      ensures sent != [] ==>
        forall v :: v in subviews ==> v in arranged || (v in old(subviews) && v !in old(arranged))
      ensures forall v ::
        v in old(subviews) && v !in old(arranged) && v !in BuiltViews(content, sent, old(alloc.next))
        ==> v in subviews
      ensures forall c :: c in store.active ==> c in old(store.active)
      ensures sent != [] ==> forall c :: c in store.active ==> c.holder !in old(arranged)
      ensures forall c ::
        c in old(store.active) && c.holder !in old(arranged) && c.holder !in BuiltViews(content, sent, old(alloc.next))
        ==> c in store.active
      ensures axis == old(axis) && alignment == old(alignment) &&
        isBaselineRelativeArrangement == old(isBaselineRelativeArrangement) &&
        distribution == old(distribution) &&
        isLayoutMarginsRelativeArrangement == old(isLayoutMarginsRelativeArrangement) &&
        spacing == old(spacing)
    {
      sink := new StackRenderSink(this, content, alloc, store);
      ghost var next0, arranged0 := alloc.next, arranged;
      var i := 0;
      while i < |sent|
        invariant 0 <= i <= |sent|
        invariant sink.stack == this && Valid()
        invariant alloc.next == NextAfter(content, sent[..i], next0)
        invariant i == 0 ==>
          arranged == old(arranged) && subviews == old(subviews) && store.active == old(store.active)
        invariant i > 0 ==>
          arranged == Arranged(Flatten(content(sent[i - 1]), NextAfter(content, sent[..i - 1], next0)).value)
        invariant i > 0 ==>
          forall v :: v in subviews ==> v in arranged || (v in old(subviews) && v !in arranged0)
        invariant i > 0 ==> forall v :: v in arranged ==> v in BuiltViews(content, sent[..i], next0)
        invariant forall v ::
          v in old(subviews) && v !in arranged0 && v !in BuiltViews(content, sent[..i], next0)
          ==> v in subviews
        invariant forall c :: c in store.active ==> c in old(store.active)
        invariant forall c ::
          c in old(store.active) && c.holder !in arranged0 && c.holder !in BuiltViews(content, sent[..i], next0)
          ==> c in store.active
        invariant i > 0 ==> forall c :: c in store.active ==> c.holder !in arranged0
        invariant axis == old(axis) && alignment == old(alignment) &&
          isBaselineRelativeArrangement == old(isBaselineRelativeArrangement) &&
          distribution == old(distribution) &&
          isLayoutMarginsRelativeArrangement == old(isLayoutMarginsRelativeArrangement) &&
          spacing == old(spacing)
      {
        NextAfterStep(content, sent, i, next0);
        BuiltViewsStep(content, sent, i, next0);
        sink.Receive(sent[i]);
        i := i + 1;
      }
      assert sent[..i] == sent;
    }
  }

  /**
   * The arranged subviews that adding `vs` one by one to an empty stack gives: no view twice,
   * exactly the views of `vs`, and `vs` itself when it repeats no view.
   */
  function Arranged(vs: seq<ViewId>): (r: seq<ViewId>)
    ensures NoDup(r)
    ensures forall v :: v in r <==> v in vs
    ensures NoDup(vs) ==> r == vs
  {
    AttachAllNoDup([], vs);
    if NoDup(vs) then AttachAllFromEmpty(vs); AttachAll([], vs) else AttachAll([], vs)
  }

  /** The allocator's counter once the content of each of `values` has been built in turn, from `next`. */
  function NextAfter<T>(content: T -> ListExpr, values: seq<T>, next: nat): (r: nat)
    ensures next <= r
  {
    if values == [] then next
    else Flatten(content(values[|values| - 1]), NextAfter(content, values[..|values| - 1], next)).next
  }

  /** Every view the content of some value of `values` built, each value in turn from `next`. */
  function BuiltViews<T>(content: T -> ListExpr, values: seq<T>, next: nat): seq<ViewId>
  {
    if values == [] then []
    else
      var init := values[..|values| - 1];
      BuiltViews(content, init, next) + Flatten(content(values[|values| - 1]), NextAfter(content, init, next)).value
  }

  lemma BuiltViewsStep<T>(content: T -> ListExpr, values: seq<T>, i: nat, next: nat)
    requires i < |values|
    ensures BuiltViews(content, values[..i + 1], next) ==
      BuiltViews(content, values[..i], next) + Flatten(content(values[i]), NextAfter(content, values[..i], next)).value
  {
    assert values[..i + 1][..i] == values[..i];
  }

  lemma NextAfterStep<T>(content: T -> ListExpr, values: seq<T>, i: nat, next: nat)
    requires i < |values|
    ensures NextAfter(content, values[..i + 1], next) ==
      Flatten(content(values[i]), NextAfter(content, values[..i], next)).next
  {
    assert values[..i + 1][..i] == values[..i];
  }

  /** A stack made by adding each of `vs` in turn to an empty stack is valid. */
  lemma ValidAfterBuilding(stack: StackView, vs: seq<ViewId>)
    requires stack.arranged == Arranged(vs) && stack.subviews == AppendNew([], vs)
    ensures stack.Valid()
  {
    AppendNewNoDup([], vs);
  }

  /** The closure `render` installs: a weak reference to the stack and the content builder. */
  class StackRenderSink<T> {
    var stack: StackView?
    const content: T -> ListExpr
    const alloc: Allocator
    const store: ConstraintStore

    constructor (stack: StackView, content: T -> ListExpr, alloc: Allocator, store: ConstraintStore)
      ensures this.stack == stack && this.content == content && this.alloc == alloc && this.store == store
    {
      this.stack := stack;
      this.content := content;
      this.alloc := alloc;
      this.store := store;
    }

    /** The stack's last owner let it go: the weak reference becomes nil. */
    method StackReleased()
      modifies this
      ensures stack == null
    {
      stack := null;
    }

    /**
     * One value from the publisher: while the stack exists, the content is built from the
     * value and replaces the arranged subviews, leaving no old arranged view attached and
     * none of their constraints active; once the stack is gone, nothing is built and nothing
     * changes.
     */
    method Receive(value: T)
      requires stack != null ==> stack.Valid()
      modifies stack, alloc, store
      ensures stack == old(stack)
      ensures stack != null ==>
        var built := Flatten(content(value), old(alloc.next));
        stack.Valid() &&
        alloc.next == built.next &&
        stack.arranged == Arranged(built.value) &&
        stack.subviews == AppendNew(WithoutAll(old(stack.subviews), old(stack.arranged)), built.value) &&
        (forall v :: v in stack.subviews <==>
          (v in old(stack.subviews) && v !in old(stack.arranged)) || v in built.value) &&
        (forall c :: c in store.active <==> c in old(store.active) && c.holder !in old(stack.arranged))
      ensures stack != null ==>
        stack.axis == old(stack.axis) && stack.alignment == old(stack.alignment) &&
        stack.isBaselineRelativeArrangement == old(stack.isBaselineRelativeArrangement) &&
        stack.distribution == old(stack.distribution) &&
        stack.isLayoutMarginsRelativeArrangement == old(stack.isLayoutMarginsRelativeArrangement) &&
        stack.spacing == old(stack.spacing)
      ensures stack == null ==> alloc.next == old(alloc.next) && store.active == old(store.active)
    {
      if stack != null {
        var built := Flatten(content(value), alloc.next);
        alloc.next := built.next;
        stack.ReplaceArrangedSubviews(built.value, store);
      }
    }
  }

  /**
   * The constraints `addSubview` pins inside an arranged view are the ones that view holds,
   * and removing all arranged subviews deactivates them together with the view.
   */
  method PinnedConstraintsLeaveWithTheirView(stack: StackView, parent: View, content: ViewExpr,
                                             alloc: Allocator, store: ConstraintStore)
    requires stack.Valid() && parent.id in stack.arranged && NoDup(parent.subviews)
    modifies stack`arranged, stack`subviews, parent, alloc, store
    ensures stack.arranged == [] && parent.id !in stack.subviews
    ensures forall c :: c in store.active ==> c.holder != parent.id
  {
    var child := parent.AddSubview(content, alloc, store);
    assert forall c :: c in parent.PinConstraints(child) ==> c in store.active;
    var removed := stack.RemoveAllArrangedSubviews(store);
  }
}
