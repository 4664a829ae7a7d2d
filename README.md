# Herald, modelled in Dafny

Herald is a thin declarative layer over UIKit and Combine. This project models the part of
it that has behaviour of its own. Views, sections and items appear only as identifiers; the
project does not model UIKit itself.

- **View builder** (`view_builder.dfy`, module `ViewBuilder`). The `UIView.ViewBuilder` result
  builder is modelled as two expression datatypes that follow Swift's typing. A `ViewExpr`
  (`Leaf | Opt`) builds one `UIView`. A `ListExpr` (`List | EitherFirst | EitherSecond | Block`)
  builds a `[UIView]`. `BuildView` and `Flatten` are the builder. New views (`UIView()`) come
  from an `Allocator` counter, so a placeholder for an absent optional is a new view, distinct
  from every existing one. An independent reference semantics, `Slots` plus `Realize`, is
  proved equal to the builder. `View.AddSubview` models `addSubview` with a builder closure.
- **Layout builder** (`layout.dfy`, module `Layout`). The `LayoutBuilder` functions,
  `indexBuilder` and `indexEnvironmentBuilder`, on optional sections.
- **Snapshots** (`snapshots.dfy`, module `Snapshots`). A diffable snapshot is a value: an
  ordered list of sections, each holding an ordered list of items. It comes with the three
  `appending` functions. Value semantics make "the receiver is unchanged" hold by construction.
- **Data source and its subscriber** (`data_sources.dfy`, module `DataSources`). These are
  `DiffableDataSourceSubscriber` and `apply(to:animatingDifferences:)`, over a data source
  reduced to its current snapshot and a record of its `apply` calls.
- **Stack views** (`stacks.dfy`, module `Stacks`). `StackView` is a class with its arranged
  subviews, its subviews and the initialiser's properties, with the initialiser's defaults. It has the
  remove, add and replace methods and `render`. `StackRenderSink` is the closure `render`
  installs, holding the stack weakly.
- **Labels** (`labels.dfy`, module `Labels`). `Label` is a class with the properties the
  extension touches, its initialisers and its simple setters. `LabelTextSubscriber` writes
  received strings into the label.
- `common.dfy` holds `Option`/`Result` (module `Wrappers`) and module `Views`. `Views` has view
  ids, constraints, `Demand`, the allocator of new views, the `ConstraintStore` of active
  constraints that `addSubview` and the stack methods share, and UIKit's order-keeping list edits: `Attach`
  (add at the end; a view already present moves there) and `Without` (remove).

Assumptions about code that is not part of this model:
- The snapshot append operations belong to the toolkit's snapshot type. They are modelled as
  follows. Sections go to the end. Items go to the end of the named section, or of the last
  section. A repeated identifier, an unknown section, or items added to a snapshot with no
  sections stop the program; these cases are modelled as `Err`.
- `configure` (used by the snapshot functions and the label setters) is defined in a file that
  is not part of this model. It is taken to apply its closure to the receiver (a copy, for the
  value-type snapshot) and return it.
- `pin(to:insets:)` is not part of this model either. It is taken to activate four edge
  constraints between the subview and the receiver, installed on the receiver
  (`View.PinConstraints`). A view's `constraints` are the active constraints installed on it.
- Setting a label's `text` replaces its attributed text with the plain form of that text.
- `addArrangedSubview` of a view that is already arranged moves it to the end of the arranged
  subviews. On the subviews list it appends a view that is not yet a subview and leaves the order of
  the existing subviews unchanged. `addSubview` of a view that is already a subview moves it to the
  end. `removeArrangedSubview` keeps the view as a subview.
- `init(arrangedSubviews:)` adds its views one by one, as `addArrangedSubview` does.
- A new `UILabel` has no text, the default label colour, one line, and truncation at the tail.

Three behaviours of the code are easy to misread; the model follows the code:
- The subscribers hold their target (label or data source) **strongly**, as an optional, until
  the publisher completes. Only `render`'s closure holds the stack weakly.
- An absent single optional in the view builder becomes a **new placeholder view**, not an empty
  list. The list-returning `buildOptional` is commented out in the source. `AbsentOptionalIsPlaceholder`
  pins this choice down, and `FlattenNoDup` shows each placeholder is a distinct fresh view.
- `apply(to:)` with a nil data source applies nothing, and its publisher **never completes**.
  Its `Future`'s promise is only called from the data source's completion handler.

## Model

| member | source | states |
|---|---|---|
| `ViewBuilder.BuildView` | Sources/Herald/ViewBuilder.swift:10-28 | building one view allocates at most one new view, and when it allocates, the view built is that new one |
| `ViewBuilder.BuildViews` | Sources/Herald/ViewBuilder.swift:6-8 | a block yields one view per statement, allocating at most one new view per statement |
| `ViewBuilder.Flatten` | Sources/Herald/ViewBuilder.swift:5-41 | a builder closure allocates at most one new view per view it yields, and never gives one back |
| `ViewBuilder.FlattenBlockOfLeaves` | Sources/Herald/ViewBuilder.swift:6-8 | a block of views yields exactly those views, in written order and of the same length, allocating nothing |
| `ViewBuilder.FlattenConcat` | Sources/Herald/ViewBuilder.swift:6-8 | two runs of statements build the concatenation of what each builds, in written order; allocation continues from the first into the second |
| `ViewBuilder.SingleViewLifts` | Sources/Herald/ViewBuilder.swift:10-16 | one view expression in list context builds the one-element list of the view it builds |
| `ViewBuilder.ExpressionIdentity` | Sources/Herald/ViewBuilder.swift:18-24 | `buildExpression` returns a single view and a list unchanged, allocating nothing |
| `ViewBuilder.BuildOptional` | Sources/Herald/ViewBuilder.swift:26-28 | a present view is returned as is with nothing allocated; an absent one becomes exactly one newly allocated view, numbered past every existing view |
| `ViewBuilder.AbsentOptionalIsPlaceholder` | Sources/Herald/ViewBuilder.swift:26-32 | an untaken optional always yields one view, the next new one, never an empty list |
| `ViewBuilder.FlattenEither` | Sources/Herald/ViewBuilder.swift:34-40 | either branch of an if/else yields exactly the taken branch's list and allocation |
| `ViewBuilder.FlattenMatchesSlots` | Sources/Herald/ViewBuilder.swift:5-41 | the builder's output equals the reference semantics: written views in place, the k-th placeholder filled with new view `next + k`, one allocation per placeholder |
| `ViewBuilder.RealizeAt` | Sources/Herald/ViewBuilder.swift:5-41 | the reference output, position by position: its length equals the number of slots, a written view stays where it was written, and the k-th placeholder is `next + k` |
| `ViewBuilder.RealizeRange` | Sources/Herald/ViewBuilder.swift:27 | every output view is either written in the source or one of the views allocated during this build |
| `ViewBuilder.RealizeNoDup` | Sources/Herald/ViewBuilder.swift:27 | when the written views are distinct and already existed, no view occurs twice in the reference output |
| `ViewBuilder.FlattenNoDup` | Sources/Herald/ViewBuilder.swift:27 | with distinct, pre-existing written views, the built list repeats no view, and each view not written in the source is new to this build |
| `ViewBuilder.View.AddSubview` | Sources/Herald/ViewBuilder.swift:43-47 | the content's one view is built, becomes the last subview and occurs there exactly once; the active constraints gain exactly the pin constraints, installed on the receiver |
| `Layout.BuildSection` | Sources/Herald/Collection.swift:177-195 | a section given to the builder comes back present and unchanged |
| `Layout.BuildMaybe` | Sources/Herald/Collection.swift:185-211 | an optional section comes back present exactly when it was present, with the same section |
| `Layout.Build` | Sources/Herald/Collection.swift:176-212 | a builder closure never yields a section that was not written in it |
| `Layout.BuildThroughBranches` | Sources/Herald/Collection.swift:185-211 | taken `if`/`either` branches, however deeply nested, yield exactly what their innermost component yields |
| `Layout.SectionNeverDropped` | Sources/Herald/Collection.swift:177-211 | a section written inside any nest of taken branches comes out present and unchanged |
| `Layout.OptionalSectionKept` | Sources/Herald/Collection.swift:185-211 | an optional section inside any nest of taken branches comes out exactly as it went in |
| `Layout.UntakenIfYieldsNothing` | Sources/Herald/Collection.swift:185-187 | an `if` that was not taken, inside any nest of taken branches, yields no section |
| `Layout.IndexBuilder` | Sources/Herald/Collection.swift:216-220 | the layout's provider answers every index and environment with `sectionProvider(index)` |
| `Layout.IndexBuilderIgnoresEnvironment` | Sources/Herald/Collection.swift:216-219 | two environments never change what `indexBuilder`'s layout answers for an index |
| `Layout.IndexEnvironmentBuilder` | Sources/Herald/Collection.swift:224-228 | the layout's provider passes index and environment through unchanged to the given provider |
| `Snapshots.AppendingSections` | Sources/Herald/Collection.swift:85-87 | fails only because of a repeated section id; on success it keeps the old sections in front and adds one section per id |
| `Snapshots.AppendingItemsTo` | Sources/Herald/Collection.swift:89-91 | an unknown section is an error naming that section; on success the section ids and their order are unchanged |
| `Snapshots.AppendingItems` | Sources/Herald/Collection.swift:93-95 | fails with "no sections" exactly when the snapshot has none; on success the section ids and their order are unchanged |
| `Snapshots.AppendingSectionsSpec` | Sources/Herald/Collection.swift:85-87 | succeeds exactly when no section id repeats. On success the new empty sections follow the old ones, in order, the old sections and all items are unchanged, and unique ids stay unique |
| `Snapshots.AppendingItemsToSpec` | Sources/Herald/Collection.swift:89-91 | fails with the unknown section, or when an item id repeats. On success the named section gains the items at its end, every other section and the section order are unchanged, the items are exactly the old ones plus the new ones, and unique ids stay unique |
| `Snapshots.AppendingItemsSpec` | Sources/Herald/Collection.swift:93-95 | fails on a snapshot without sections; on success, for a snapshot whose section ids are distinct, the items go to the end of the last section, every other section is unchanged, and the new items come last in the snapshot's item order |
| `Snapshots.AppendOrderingExample` | Sources/Herald/Collection.swift:85-91 | sections [A, B], then items [1, 2] to A and [3] to B, give A→[1, 2], B→[3] |
| `DataSources.DataSource.Apply` | Sources/Herald/Collection.swift:99 | the snapshot becomes the current one and the call is recorded once, with its animation flag |
| `DataSources.DataSource.Subscriber` | Sources/Herald/Collection.swift:41-43 | a new subscriber holding this data source |
| `DataSources.DiffableDataSourceSubscriber.constructor` | Sources/Herald/Collection.swift:49-50 | the subscriber holds the data source it is given |
| `DataSources.DiffableDataSourceSubscriber.ReceiveSubscription` | Sources/Herald/Collection.swift:52-54 | requests unlimited demand |
| `DataSources.DiffableDataSourceSubscriber.ReceiveInput` | Sources/Herald/Collection.swift:56-59 | a held data source applies the input exactly once, animated, and it becomes current; with none, nothing is modified; the demand returned is always unlimited |
| `DataSources.DiffableDataSourceSubscriber.ReceiveCompletion` | Sources/Herald/Collection.swift:61-63 | the data source is released |
| `DataSources.CompletedSubscriberIgnoresInput` | Sources/Herald/Collection.swift:56-63 | completing twice releases the data source, and a later input leaves the data source entirely unchanged |
| `DataSources.ApplyTo` | Sources/Herald/Collection.swift:97-103 | with a data source, the snapshot is applied exactly once with the given animation flag (animated unless told otherwise) and the publisher completes; with nil, nothing is applied and the publisher never completes |
| `Stacks.StackView.constructor` | Sources/Herald/StackViews.swift:5-21 | the builder's views are added one by one to an empty stack: the arranged subviews become the builder's output (exactly, if it repeats no view), and the subviews list gains each view the first time it appears, so it holds the same views; axis, alignment, both flags, distribution and spacing take the given values, defaulting to fill, false, fill, false and 0 |
| `Stacks.Arranged` | Sources/Herald/StackViews.swift:42-45 | the arranged list that adding views one by one to an empty stack leaves: no view twice, exactly the views given, and the given list itself when it repeats no view |
| `Stacks.StackView.RemoveArrangedSubview` | Sources/Herald/StackViews.swift:25 | the view is no longer arranged, the rest keep their order, and it stays a subview |
| `Stacks.StackView.AddArrangedSubview` | Sources/Herald/StackViews.swift:34 | the view becomes the last arranged subview, and a subview if it was not one |
| `Stacks.StackView.RemoveAllArrangedSubviews` | Sources/Herald/StackViews.swift:23-31 | the removed list is the old arranged list in order, and nothing is arranged afterwards. Every removed view is detached and the constraints installed on it are deactivated; all other subviews and active constraints are kept |
| `Stacks.StackView.AddArrangedSubviews` | Sources/Herald/StackViews.swift:33-35 | each view is added in turn; views that are new and distinct are appended in order; the subviews list gains, at its end and in order, each view not yet a subview |
| `Views.AttachAllAppends` | Sources/Herald/StackViews.swift:33-35 | adding, one by one, distinct views that are not yet present appends them in their order |
| `Views.AppendNew` | Sources/Herald/StackViews.swift:33-35 | adding views one by one to a subviews list keeps the old list as its prefix and holds exactly the old views and the added ones |
| `Views.AppendNewAppends` | Sources/Herald/StackViews.swift:33-35 | adding, one by one, distinct views that are not yet subviews appends them to the subviews list in their order |
| `Stacks.StackView.ReplaceArrangedSubviews` | Sources/Herald/StackViews.swift:42-45 | the arranged subviews become `vs` with repeats dropped, exactly `vs` when it has none; the subviews list is the old one with the old arranged views taken out, then each view of `vs` not yet in it appended in order; the old arranged views' constraints are deactivated and no other |
| `Stacks.StackView.ReplaceArrangedSubviewsBuilt` | Sources/Herald/StackViews.swift:37-40 | the arranged subviews become the builder's output, exactly so when the written views are distinct and pre-existing; the subviews list is the old one with the old arranged views taken out, then each built view not yet in it appended in order; the old arranged views' constraints are deactivated and no other |
| `Stacks.StackView.Render` | Sources/Herald/StackViews.swift:47-55 | returns a new sink referring to this stack, the content builder, the allocator and the constraint store; each value the publisher sends during `sink` is rendered before `render` returns, so with none the stack is untouched, and otherwise the arranged subviews are the content built from the last value, the allocator has built every value's content in turn, no view stays attached that was arranged before unless it is arranged now, a subview that was not arranged before and that no value's content built stays attached, only constraints are deactivated, the old arranged views' ones all are, and every other constraint stays active unless a view built along the way holds it, and the other properties are kept |
| `Stacks.NextAfter` | Sources/Herald/StackViews.swift:51-54 | building the content of each value in turn never gives a view number back |
| `Stacks.StackRenderSink.Receive` | Sources/Herald/StackViews.swift:51-54 | while the stack exists, each value makes the arranged subviews the content built from it, makes the subviews list the old one with the old arranged views taken out and then each built view not yet in it appended in order, deactivates exactly the old arranged views' constraints, and keeps the stack's other properties; once the stack is gone, nothing is built and nothing changes |
| `Stacks.StackRenderSink.StackReleased` | Sources/Herald/StackViews.swift:52 | the weak reference to a released stack becomes nil |
| `Stacks.PinnedConstraintsLeaveWithTheirView` | Sources/Herald/StackViews.swift:23-31 | constraints pinned inside an arranged view by `addSubview` are inactive, and that view is detached, once all arranged subviews are removed |
| `Labels.Label.constructor` | Sources/Herald/Label.swift:11 | a new label has no text and the toolkit's default colour, line count and line break mode |
| `Labels.Label.WithText` | Sources/Herald/Label.swift:5-8 | the text is exactly the given content, and the attributed text is its plain form |
| `Labels.Label.TextColor` | Sources/Herald/Label.swift:27-29 | a colour replaces the text colour, nil leaves it unchanged; returns the label itself and changes nothing else |
| `Labels.Label.Underlined` | Sources/Herald/Label.swift:40-47 | requires text, because nil text is a fatal unwrap; the attributed text becomes that text, singly underlined |
| `Labels.Label.LineBreak` | Sources/Herald/Label.swift:49-51 | the line break mode becomes the given mode and nothing else changes |
| `Labels.Label.Lines` | Sources/Herald/Label.swift:53-55 | the number of lines becomes the given number and nothing else changes |
| `Labels.Label.Subscriber` | Sources/Herald/Label.swift:57-59 | a new subscriber holding this label |
| `Labels.LabelTextSubscriber.constructor` | Sources/Herald/Label.swift:65-66 | the subscriber holds the label it is given |
| `Labels.LabelTextSubscriber.ReceiveSubscription` | Sources/Herald/Label.swift:68-70 | requests unlimited demand |
| `Labels.LabelTextSubscriber.ReceiveInput` | Sources/Herald/Label.swift:72-75 | a held label's text becomes the input, its attributed text the plain input, and its other properties are unchanged; with no label, nothing is modified; the demand returned is always unlimited |
| `Labels.LabelTextSubscriber.ReceiveCompletion` | Sources/Herald/Label.swift:77-79 | the label is released |
| `Labels.CompletedSubscriberIgnoresInput` | Sources/Herald/Label.swift:72-79 | completing twice releases the label, and a later string leaves the label entirely unchanged |
| `Labels.LabelWithPublisher` | Sources/Herald/Label.swift:10-13 | a new default label, subscribed through a new subscriber that holds it and requests unlimited demand; each string the publisher sends during `subscribe` is written in turn, so the text and its plain attributed form are the last string sent, or absent when none was; if the publisher also finishes during `subscribe`, the subscriber has released the label, and otherwise it still holds it |

## Left out

- Sources/Herald/App.swift (application bootstrap and `AppDelegate`) is lifecycle plumbing with no behaviour of its own.
- Sources/Herald/Renderable.swift (associated-object storage and `render(subview:)`) and Sources/Herald/Images.swift (one property setter) are left out for the same reason. So is Package.swift, the build manifest.
- `UIView.backgroundColor(_:)` (ViewBuilder.swift:49-51) and `UIView.spacer()` (StackViews.swift:58-64) are single property assignments through `configure`.
- The collection-layout convenience initialisers and the list layouts (Collection.swift:106-172, 231-264) only forward to UIKit constructors.
- Cell registration, dequeuing and the content-configuration protocols (Collection.swift:5-39, 67-82, 266-284) depend on UIKit's cell reuse.
- The diff, animation and move detection behind the data source's `apply` belong to the toolkit. The model records only which snapshot becomes current.
- The model also leaves out when the `apply(to:)` publisher completes, the `assertNoFailure` stage, Combine scheduling, threads, and cancelling an `AnyCancellable`.
- The font methods (`font`, `preferredFont`, `fontWeight`, `bold`, `italic`; Label.swift:15-38) use floating-point sizes and font descriptors.
- `Stacks.StackView.RemoveAllArrangedSubviews`: UIKit's `removeFromSuperview` also drops constraints between the detached view and its old ancestors. The model deactivates only the constraints the removed views hold, which is what the source asks for.
- `Stacks.StackView.constructor`: `spacing` is a CGFloat and is modelled as a `real`. It is only assigned, never computed with.
- The publisher side (`subscribe`, `sink`) is not modelled as a stream. Each subscriber method is one event, and a sequence of events is a sequence of calls.
- `Labels.LabelWithPublisher`, `Stacks.StackView.Render`: the values a publisher sends while it is being subscribed to are a parameter, `sent`; for the label, whether it also finishes then is the parameter `completed`. A finish during `sink` only ends `render`'s subscription and changes no stack state. Values it sends after the initialiser or `render` has returned are later calls to `ReceiveInput` or `Receive`.
- `Stacks.StackView.Render`: after several values, the subviews and the active constraints are bounded from both sides rather than given exactly. A view or constraint that one value's content built and a later value removed is not tracked. Each value's step alone (`StackRenderSink.Receive`) gives the exact list and store.
