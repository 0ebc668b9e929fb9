# FlexUI core, modelled in Dafny

FlexUI is a declarative facade over the FlexLayout flexbox engine for UIKit. Application code
describes a view tree with nested builder blocks (`FlexRoot`, `FlexHStack`, `FlexVStack`,
`FlexSpacer`, `FlexItem`); FlexUI collects each block into an ordered list of nodes and then
walks the tree, asking each node to attach its view to its parent's flex scope. The layout
computation itself belongs to FlexLayout.

This project models the two pieces of FlexUI with logic of their own:

- **The content builder** (`FlexViewBuilder`): the static combinators the compiler calls for a
  builder block. They are pure functions over `seq<Node>` and `Option`. They are proved to keep
  order, to drop absent values, and to flatten lists exactly one level.
- **The tree-definition walk**: each node's `define(superFlex:)` and `[FlexView].define(flex:)`.
  These are imperative methods over the engine, a class with one map per per-view property
  and a ghost log of the calls made on it. Each method is proved to append exactly the calls
  of a trace function (`DefineCalls`, `DefineAllCalls`, `RootCalls`) to that log, and to leave
  the engine in the state that running the trace produces. Lemmas then say what that trace
  does to the child lists, directions and other settings.

Files (one module each):

- `wrappers.dfy`: `Option`, Swift's `T?`.
- `engine.dfy`: the external engine. It holds the `FlexEngine` class, the same state as a value
  (`EngineState`), the calls the core makes (`Call`), and their meaning (`Step`, `Run`).
  Every engine method appends its own call to the class's ghost `log`.
- `flex_view.dfy`: the `Node` datatype that replaces the `FlexView` protocol.
  `FlexItem.init` is its constructor `Item(view)`: it only stores the view.
- `flex_view_builder.dfy`: `FlexViewBuilder`.
- `definition.dfy`: the `define` methods of all node kinds and the list walk. They are
  mutually recursive, so they share one module.
- `components.dfy`: the `init`s of the spacer and stacks, and `FlexRoot`.

Assumptions about the engine, whose source is not part of this model:

- A view and its flex scope (`view.flex`) share one id.
- `addItem(v)` appends `v` to the parent's child list and returns `v`'s scope.
- `width(nil)` and `height(nil)` mean auto.
- `define { flex in ... }` runs its closure once on the receiver's own scope.

The walk is only meaningful on well-formed trees, and the code guarantees none of this. So the
lemmas require it instead of the code enforcing it:

- The parent's view is not inside the subtree.
- A stack's view does not reappear below it (`DistinctViews` is the whole-tree form).
- A tree is defined once. `DefineTwiceAddsTwice` shows what a second call does.

## Model

| member | source | states |
|---|---|---|
| FlexViewBuilder.BuildBlock | Sources/FlexUI/FlexView/FlexViewBuilder.swift:12-14 | the result has the block's nodes, same length, each at its argument position |
| FlexViewBuilder.BuildBlockOfLists | Sources/FlexUI/FlexView/FlexViewBuilder.swift:16-18 | length is the sum of the lists' lengths; Places: element j of list i lands at StartOf(i)+j, so lists and elements stay in order |
| FlexViewBuilder.BuildOptional | Sources/FlexUI/FlexView/FlexViewBuilder.swift:20-22 | nil gives the empty list; a present list is returned unchanged |
| FlexViewBuilder.BuildEitherFirst | Sources/FlexUI/FlexView/FlexViewBuilder.swift:24-26 | a present branch is returned unchanged; nil gives the empty list |
| FlexViewBuilder.BuildEitherSecond | Sources/FlexUI/FlexView/FlexViewBuilder.swift:27-29 | a present branch is returned unchanged; nil gives the empty list |
| FlexViewBuilder.BuildArray | Sources/FlexUI/FlexView/FlexViewBuilder.swift:31-33 | loop results are concatenated: length is the sum; Places: iteration i's element j at StartOf(i)+j |
| FlexViewBuilder.BuildExpressionList | Sources/FlexUI/FlexView/FlexViewBuilder.swift:35-37 | a present list is returned unchanged; nil gives the empty list |
| FlexViewBuilder.BuildExpressionNode | Sources/FlexUI/FlexView/FlexViewBuilder.swift:39-41 | a node gives the one-element list of it; nil gives the empty list; never more than one element |
| FlexViewBuilder.FlattenAt | Sources/FlexUI/FlexView/FlexViewBuilder.swift:17 | the flatMap puts element j of list i at position StartOf(i)+j: lists and their elements keep their order |
| FlexViewBuilder.FlattenPlaces | Sources/FlexUI/FlexView/FlexViewBuilder.swift:17 | every element of every list sits at its StartOf(i)+j position in the flattened list |
| FlexViewBuilder.FlattenLength | Sources/FlexUI/FlexView/FlexViewBuilder.swift:17 | the flattened list's length is the sum of the lists' lengths |
| FlexViewBuilder.FlattenMembers | Sources/FlexUI/FlexView/FlexViewBuilder.swift:32 | a node is in the flattened list iff it is in one of the lists: nothing is added or dropped |
| FlexViewBuilder.BlockOverloadsAgree | Sources/FlexUI/FlexView/FlexViewBuilder.swift:12-18 | the list form of buildBlock over one-node expressions equals the node form on the same nodes |
| FlexViewBuilder.BlocksConcatenate | Sources/FlexUI/FlexView/FlexViewBuilder.swift:16-18 | collecting a ++ b equals collecting a followed by collecting b |
| FlexViewBuilder.AbsentLineIsOmitted | Sources/FlexUI/FlexView/FlexViewBuilder.swift:20-41 | an unsatisfied `if`, a nil node or a nil list gives the same block as omitting that line |
| FlexViewBuilder.ArrayIsSplicedInPlace | Sources/FlexUI/FlexView/FlexViewBuilder.swift:31-33 | a loop's nodes are spliced between the lines before and after it, in order |
| FlexViewBuilder.ArrayFlattensOneLevel | Sources/FlexUI/FlexView/FlexViewBuilder.swift:31-33 | buildArray's nodes are exactly the iterations' nodes; a stack among them is not opened |
| Engine.FlexEngine.AddItem | Sources/FlexUI/Component/FlexItem.swift:19 | appends the item to the parent's child list, returns the item's scope, changes nothing else; logs the one AddItem call |
| Engine.FlexEngine.SetDirection | Sources/FlexUI/Component/FlexHStack.swift:29 | overwrites one view's direction, nothing else |
| Engine.FlexEngine.SetJustifyContent | Sources/FlexUI/Component/FlexHStack.swift:23 | overwrites one view's justify-content, nothing else |
| Engine.FlexEngine.SetAlignItems | Sources/FlexUI/Component/FlexHStack.swift:24 | overwrites one view's align-items, nothing else |
| Engine.FlexEngine.SetWidth | Sources/FlexUI/Component/FlexSpacer.swift:16 | overwrites one view's width, nothing else |
| Engine.FlexEngine.SetHeight | Sources/FlexUI/Component/FlexSpacer.swift:16 | overwrites one view's height, nothing else |
| Engine.FlexEngine.SetHidden | Sources/FlexUI/Component/FlexSpacer.swift:15 | overwrites one view's hidden flag, nothing else |
| Engine.DimensionOf | Sources/FlexUI/Component/FlexSpacer.swift:14-16 | a nil width or height is auto; a given one is that fixed value |
| Engine.RunChildren | Sources/FlexUI/Helper/Array+FlexView.swift:12-14 | a call trace appends to each child list exactly the items registered under that parent, in call order |
| Definition.DefineItem | Sources/FlexUI/Component/FlexItem.swift:18-20 | makes exactly one call, AddItem of the item's own view under the parent scope; no direction, justify, align or other state changes |
| Definition.DefineSpacer | Sources/FlexUI/Component/FlexSpacer.swift:19-21 | makes exactly one call, AddItem of the spacer's own view under the parent scope; nothing else changes |
| Definition.DefineHStack | Sources/FlexUI/Component/FlexHStack.swift:27-32 | makes exactly the calls: add the view to superFlex, set its direction to row, define the children into the stack's own scope; the engine ends in the state they produce |
| Definition.DefineVStack | Sources/FlexUI/Component/FlexVStack.swift:27-32 | makes exactly the calls: add the view to superFlex, set its direction to column, define the children into the stack's own scope; the engine ends in the state they produce |
| Definition.Define | Sources/FlexUI/Helper/Array+FlexView.swift:13 | defining a node of any kind makes exactly its DefineCalls trace and ends in the state that trace produces |
| Definition.DefineAll | Sources/FlexUI/Helper/Array+FlexView.swift:12-14 | makes exactly each element's define calls into `flex`, in list order, and ends in the state they produce |
| Definition.DefineAllInOrder | Sources/FlexUI/Helper/Array+FlexView.swift:13 | element i is defined once, into `flex`, after elements 0..i-1 and before the rest |
| Definition.DefineAllSequential | Sources/FlexUI/Helper/Array+FlexView.swift:13 | defining a ++ b has the effect of defining a, then b |
| Definition.DefineAllAppendsTopViews | Sources/FlexUI/Helper/Array+FlexView.swift:12-14 | flex's child list grows by exactly the list's own views, in order; an empty list changes nothing |
| Definition.DefineCallsShape | Sources/FlexUI/Component/FlexHStack.swift:27-32 | a definition only adds items and sets directions, and only of the subtree's own views |
| Definition.DefineRegistersAttachments | Sources/FlexUI/Component/FlexVStack.swift:27-32 | the registrations a definition makes are exactly the pre-order (parent scope, view) log Attachments |
| Definition.AttachmentsArePreOrder | Sources/FlexUI/Component/FlexHStack.swift:27-32 | the attachment log attaches each view of the subtree once, in pre-order |
| Definition.NothingUnderOthers | Sources/FlexUI/Component/FlexHStack.swift:28-31 | nothing is attached under a view that is neither the target scope nor in the subtree |
| Definition.UnderParentOnlyTheNode | Sources/FlexUI/Component/FlexHStack.swift:28-31 | under superFlex only the node's own view is attached; its children go under its own scope |
| Definition.UnderScopeTheTopViews | Sources/FlexUI/Helper/Array+FlexView.swift:12-14 | under flex exactly the list's own views are attached, in list order |
| Definition.DefineRegistersEachNodeOnce | Sources/FlexUI/Component/FlexHStack.swift:27-32 | every view of the subtree is registered exactly once, in pre-order (count = node count); the first is the node under superFlex |
| Definition.DefineAppendsOnceToParent | Sources/FlexUI/Component/FlexHStack.swift:28 | the parent's child list grows by exactly the node's view, once |
| Definition.StackChildrenInOrder | Sources/FlexUI/Component/FlexHStack.swift:31 | the stack's own child list grows by its children's views in subContents order |
| Definition.StackDirection | Sources/FlexUI/Component/FlexVStack.swift:28-29 | after define the stack's direction is row (H) or column (V), whatever it was before |
| Definition.DefineKeepsConfiguration | Sources/FlexUI/Component/FlexItem.swift:18-20 | define sets no justify, align, width, height or hidden flag, and no direction outside the subtree |
| Definition.DefineTwiceAddsTwice | Sources/FlexUI/Component/FlexHStack.swift:27-32 | nothing guards a second define: two definitions register the node's view under the parent twice, so its child list gains it twice |
| Definition.StackDefineOutcome | Sources/FlexUI/Component/FlexVStack.swift:27-32 | for a tree with distinct views: appended once to the parent, children in order under the stack, main-axis direction, justify/align kept |
| Components.RowWithSpacer | Sources/FlexUI/Component/FlexHStack.swift:27-32 | a row [item A, spacer 10 wide, item B] into a root: the root gains the stack; the stack gains A, spacer, B in order, with row direction; the spacer stays hidden and 10 wide |
| Components.NewSpacer | Sources/FlexUI/Component/FlexSpacer.swift:14-17 | the spacer's view is hidden; its width and height are the arguments (nil = auto); the node stores only the view; logs exactly those three calls |
| Components.NewHStack | Sources/FlexUI/Component/FlexHStack.swift:15-25 | stores view and content unchanged; sets justify/align (defaults start/stretch) on the view, logging exactly those two calls; nothing else changes |
| Components.NewVStack | Sources/FlexUI/Component/FlexVStack.swift:15-25 | stores view and content unchanged; sets justify/align (defaults start/stretch) on the view, logging exactly those two calls; nothing else changes |
| Components.FlexRoot | Sources/FlexUI/Component/FlexRoot.swift:11-26 | makes exactly the calls: set direction, justify, align (defaults column/start/stretch) on the container, then define the content into the container's scope; ends in the state they produce; returns that scope |
| Components.RootOutcome | Sources/FlexUI/Component/FlexRoot.swift:19-25 | the container has the given settings, its child list gains the top-level views in order, every content view is registered once, and the container is never registered |

## Left out

- `FlexView+Extension.swift`: about ninety chainable setters, each a one-line pass-through to
  FlexLayout. There is no logic in them to model.
- `sizeThatFits` hands measurement to the engine, and `cornerRadius` writes `CALayer`
  properties. Both are foreign calls.
- The flexbox layout and measurement algorithm. It lives in FlexLayout/Yoga, which is not part
  of this model.
- UIKit. Views are opaque ids. `CGFloat` widths and heights are `real`s with no arithmetic.
- The side effects of `addItem` beyond the child-list append, such as `addSubview`.
- Allocating a new `UIView`. The default `UIView()` of the stacks and the spacer's own
  `UIView()` become a `view` argument, so the model cannot state their freshness.
- Swift's rewriting of a builder block into combinator calls, done by the compiler. Only the
  combinators are modelled, plus lemmas that compose them.
- `content()` closures. The model receives the list a closure returns. So "evaluated exactly
  once, before any configuration" holds by construction, not as a proved statement.
- The `FlexView` protocol declaration, which is not part of this model. The `Node` datatype
  replaces it.
- Definition.DefineAppendsOnceToParent, Definition.StackChildrenInOrder,
  Definition.StackDirection and Components.RootOutcome: these are stated only for trees whose
  views do not collide with the scopes they are defined into. The code does not check this.
  For colliding trees, only the exact trace (`DefineCalls`) is stated.
