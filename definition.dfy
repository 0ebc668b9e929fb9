/**
 * The tree-definition walk: each node's `define(superFlex:)` and the list walk
 * `[FlexView].define(flex:)`. They call each other, so they live in one module.
 *
 * Each walk is specified by the trace of engine calls it makes (DefineCalls, DefineAllCalls);
 * the lemmas below say what running such a trace does to the engine.
 */
module Definition {
  import opened Wrappers
  import opened Engine
  import opened FlexView

  /** The main axis a stack fixes on its own scope. */
  function MainAxis(n: Node): Direction
    requires n.HStack? || n.VStack?
  {
    if n.HStack? then Row else Column
  }

  /**
   * The engine calls `n.define(superFlex:)` makes: register the node's view under the parent
   * scope; a stack then fixes its own direction and defines its children into its own scope.
   */
  function DefineCalls(superFlex: View, n: Node): seq<Call>
    decreases n
  {
    match n
    case Item(v) => [AddItem(superFlex, v)]
    case Spacer(v) => [AddItem(superFlex, v)]
    case HStack(v, kids) => [AddItem(superFlex, v), SetDirection(v, Row)] + DefineAllCalls(v, kids)
    case VStack(v, kids) => [AddItem(superFlex, v), SetDirection(v, Column)] + DefineAllCalls(v, kids)
  }

  /** The engine calls `ns.define(flex:)` makes: each node defined into `flex`, in list order. */
  function DefineAllCalls(flex: View, ns: seq<Node>): seq<Call>
    decreases ns
  {
    if ns == [] then [] else DefineCalls(flex, ns[0]) + DefineAllCalls(flex, ns[1..])
  }

  /**
   * The registrations a definition should make, as a pre-order log of `(parent scope, view)`:
   * the node under the scope it is defined into, then its subtrees under the node's own scope.
   */
  function Attachments(scope: View, n: Node): seq<(View, View)>
    decreases n
  {
    match n
    case Item(v) => [(scope, v)]
    case Spacer(v) => [(scope, v)]
    case HStack(v, kids) => [(scope, v)] + AttachmentsAll(v, kids)
    case VStack(v, kids) => [(scope, v)] + AttachmentsAll(v, kids)
  }

  function AttachmentsAll(scope: View, ns: seq<Node>): seq<(View, View)>
    decreases ns
  {
    if ns == [] then [] else Attachments(scope, ns[0]) + AttachmentsAll(scope, ns[1..])
  }

  /** The views a registration log attaches, in order. */
  function Items(log: seq<(View, View)>): seq<View>
  {
    if log == [] then [] else [log[0].1] + Items(log[1..])
  }

  lemma {:induction false} ItemsAppend(x: seq<(View, View)>, y: seq<(View, View)>)
    ensures Items(x + y) == Items(x) + Items(y)
    decreases |x|
  {
    if x == [] {
      assert x + y == y;
    } else {
      assert (x + y)[1..] == x[1..] + y;
      ItemsAppend(x[1..], y);
    }
  }

  // ---------------------------------------------------------------------------------------
  // The walk, on the engine
  // ---------------------------------------------------------------------------------------

  /** `FlexItem.define(superFlex:)`: one registration of the item's own view, nothing else. */
  method DefineItem(e: FlexEngine, view: View, superFlex: View)
    modifies e
    ensures e.children == old(e.children)[superFlex := ChildList(old(e.children), superFlex) + [view]]
    ensures e.direction == old(e.direction) && e.justify == old(e.justify) && e.align == old(e.align)
    ensures e.width == old(e.width) && e.height == old(e.height) && e.hidden == old(e.hidden)
    ensures e.log == old(e.log) + [AddItem(superFlex, view)]
  {
    var _ := e.AddItem(superFlex, view);
  }

  /** `FlexSpacer.define(superFlex:)`: one registration of the spacer's own view, nothing else. */
  method DefineSpacer(e: FlexEngine, view: View, superFlex: View)
    modifies e
    ensures e.children == old(e.children)[superFlex := ChildList(old(e.children), superFlex) + [view]]
    ensures e.direction == old(e.direction) && e.justify == old(e.justify) && e.align == old(e.align)
    ensures e.width == old(e.width) && e.height == old(e.height) && e.hidden == old(e.hidden)
    ensures e.log == old(e.log) + [AddItem(superFlex, view)]
  {
    var _ := e.AddItem(superFlex, view);
  }

  /**
   * `FlexHStack.define(superFlex:)`: register the stack's view under `superFlex`, set the
   * returned scope's direction to row, then define the children into that scope.
   */
  method DefineHStack(e: FlexEngine, view: View, subContents: seq<Node>, superFlex: View)
    modifies e
    ensures e.State() == Run(old(e.State()), DefineCalls(superFlex, HStack(view, subContents)))
    ensures e.log == old(e.log) + DefineCalls(superFlex, HStack(view, subContents))
    decreases subContents, 1
  {
    ghost var s0 := e.State();
    var stack := e.AddItem(superFlex, view);
    e.SetDirection(stack, Row);
    RunPair(s0, AddItem(superFlex, view), SetDirection(view, Row));
    DefineAll(e, subContents, stack);
    RunAppend(s0, [AddItem(superFlex, view), SetDirection(view, Row)], DefineAllCalls(view, subContents));
  }

  /**
   * `FlexVStack.define(superFlex:)`: register the stack's view under `superFlex`, set the
   * returned scope's direction to column, then define the children into that scope.
   */
  method DefineVStack(e: FlexEngine, view: View, subContents: seq<Node>, superFlex: View)
    modifies e
    ensures e.State() == Run(old(e.State()), DefineCalls(superFlex, VStack(view, subContents)))
    ensures e.log == old(e.log) + DefineCalls(superFlex, VStack(view, subContents))
    decreases subContents, 1
  {
    ghost var s0 := e.State();
    var stack := e.AddItem(superFlex, view);
    e.SetDirection(stack, Column);
    RunPair(s0, AddItem(superFlex, view), SetDirection(view, Column));
    DefineAll(e, subContents, stack);
    RunAppend(s0, [AddItem(superFlex, view), SetDirection(view, Column)], DefineAllCalls(view, subContents));
  }

  /** `n.define(superFlex:)`, dispatched on the kind of node. */
  method Define(e: FlexEngine, n: Node, superFlex: View)
    modifies e
    ensures e.State() == Run(old(e.State()), DefineCalls(superFlex, n))
    ensures e.log == old(e.log) + DefineCalls(superFlex, n)
    decreases n, 2
  {
    match n
    case Item(v) =>
      DefineItem(e, v, superFlex);
      assert [AddItem(superFlex, v)][1..] == [];
    case Spacer(v) =>
      DefineSpacer(e, v, superFlex);
      assert [AddItem(superFlex, v)][1..] == [];
    case HStack(v, kids) =>
      DefineHStack(e, v, kids, superFlex);
    case VStack(v, kids) =>
      DefineVStack(e, v, kids, superFlex);
  }

  /** `[FlexView].define(flex:)`: every node of the list defined into `flex`, in list order. */
  method DefineAll(e: FlexEngine, ns: seq<Node>, flex: View)
    modifies e
    ensures e.State() == Run(old(e.State()), DefineAllCalls(flex, ns))
    ensures e.log == old(e.log) + DefineAllCalls(flex, ns)
    decreases ns, 0
  {
    var i := 0;
    while i < |ns|
      invariant 0 <= i <= |ns|
      invariant e.State() == Run(old(e.State()), DefineAllCalls(flex, ns[..i]))
      invariant e.log == old(e.log) + DefineAllCalls(flex, ns[..i])
    {
      ghost var before := DefineAllCalls(flex, ns[..i]);
      Define(e, ns[i], flex);
      assert ns[..i + 1] == ns[..i] + [ns[i]];
      DefineAllCallsAppend(flex, ns[..i], [ns[i]]);
      assert DefineAllCalls(flex, [ns[i]]) == DefineCalls(flex, ns[i]) by {
        assert [ns[i]][1..] == [];
      }
      RunAppend(old(e.State()), before, DefineCalls(flex, ns[i]));
      i := i + 1;
    }
    assert ns[..i] == ns;
  }

  // ---------------------------------------------------------------------------------------
  // The shape of the traces
  // ---------------------------------------------------------------------------------------

  /** Defining `a + b` makes the calls of defining `a`, then those of defining `b`. */
  lemma {:induction false} DefineAllCallsAppend(flex: View, a: seq<Node>, b: seq<Node>)
    ensures DefineAllCalls(flex, a + b) == DefineAllCalls(flex, a) + DefineAllCalls(flex, b)
    decreases |a|
  {
    if a == [] {
      assert a + b == b;
    } else {
      assert (a + b)[1..] == a[1..] + b;
      DefineAllCallsAppend(flex, a[1..], b);
    }
  }

  /**
   * Defining a list defines each element exactly once, in list order, every one into the
   * same scope `flex`.
   */
  lemma DefineAllInOrder(flex: View, ns: seq<Node>, i: nat)
    requires i < |ns|
    ensures DefineAllCalls(flex, ns)
         == DefineAllCalls(flex, ns[..i]) + DefineCalls(flex, ns[i]) + DefineAllCalls(flex, ns[i + 1..])
  {
    assert ns == ns[..i] + ns[i..];
    DefineAllCallsAppend(flex, ns[..i], ns[i..]);
    assert ns[i..][1..] == ns[i + 1..];
  }

  /** Defining `a + b` into one scope has the effect of defining `a`, then `b`. */
  lemma DefineAllSequential(s: EngineState, flex: View, a: seq<Node>, b: seq<Node>)
    ensures Run(s, DefineAllCalls(flex, a + b))
         == Run(Run(s, DefineAllCalls(flex, a)), DefineAllCalls(flex, b))
  {
    DefineAllCallsAppend(flex, a, b);
    RunAppend(s, DefineAllCalls(flex, a), DefineAllCalls(flex, b));
  }

  /**
   * A definition only registers views and sets directions, and it sets directions only of
   * views of the subtree (the stacks' own).
   */
  lemma {:induction false} DefineCallsShape(superFlex: View, n: Node)
    ensures StructureOnly(DefineCalls(superFlex, n))
    ensures forall c | c in DefineCalls(superFlex, n) && c.SetDirection? :: c.view in PreOrder(n)
    decreases n, 1
  {
    match n
    case Item(v) =>
    case Spacer(v) =>
    case HStack(v, kids) =>
      DefineAllCallsShape(v, kids);
    case VStack(v, kids) =>
      DefineAllCallsShape(v, kids);
  }

  lemma {:induction false} DefineAllCallsShape(flex: View, ns: seq<Node>)
    ensures StructureOnly(DefineAllCalls(flex, ns))
    ensures forall c | c in DefineAllCalls(flex, ns) && c.SetDirection? :: c.view in PreOrderAll(ns)
    decreases ns, 0
  {
    if ns != [] {
      DefineCallsShape(flex, ns[0]);
      DefineAllCallsShape(flex, ns[1..]);
    }
  }

  /** The registrations a definition makes are exactly its pre-order attachment log. */
  lemma {:induction false} DefineRegistersAttachments(superFlex: View, n: Node)
    ensures Registrations(DefineCalls(superFlex, n)) == Attachments(superFlex, n)
    decreases n, 1
  {
    match n
    case Item(v) =>
      assert [AddItem(superFlex, v)][1..] == [];
    case Spacer(v) =>
      assert [AddItem(superFlex, v)][1..] == [];
    case HStack(v, kids) =>
      DefineAllRegistersAttachments(v, kids);
      var head := [AddItem(superFlex, v), SetDirection(v, Row)];
      RegistrationsAppend(head, DefineAllCalls(v, kids));
      assert head[1..][1..] == [];
    case VStack(v, kids) =>
      DefineAllRegistersAttachments(v, kids);
      var head := [AddItem(superFlex, v), SetDirection(v, Column)];
      RegistrationsAppend(head, DefineAllCalls(v, kids));
      assert head[1..][1..] == [];
  }

  lemma {:induction false} DefineAllRegistersAttachments(flex: View, ns: seq<Node>)
    ensures Registrations(DefineAllCalls(flex, ns)) == AttachmentsAll(flex, ns)
    decreases ns, 0
  {
    if ns != [] {
      DefineRegistersAttachments(flex, ns[0]);
      DefineAllRegistersAttachments(flex, ns[1..]);
      RegistrationsAppend(DefineCalls(flex, ns[0]), DefineAllCalls(flex, ns[1..]));
    }
  }

  /** The attachment log attaches every view of the subtree once, in pre-order. */
  lemma {:induction false} AttachmentsArePreOrder(scope: View, n: Node)
    ensures Items(Attachments(scope, n)) == PreOrder(n)
    decreases n, 1
  {
    match n
    case Item(v) =>
      assert [(scope, v)][1..] == [];
    case Spacer(v) =>
      assert [(scope, v)][1..] == [];
    case HStack(v, kids) =>
      AttachmentsAllArePreOrder(v, kids);
      ItemsAppend([(scope, v)], AttachmentsAll(v, kids));
      assert [(scope, v)][1..] == [];
    case VStack(v, kids) =>
      AttachmentsAllArePreOrder(v, kids);
      ItemsAppend([(scope, v)], AttachmentsAll(v, kids));
      assert [(scope, v)][1..] == [];
  }

  lemma {:induction false} AttachmentsAllArePreOrder(scope: View, ns: seq<Node>)
    ensures Items(AttachmentsAll(scope, ns)) == PreOrderAll(ns)
    decreases ns, 0
  {
    if ns != [] {
      AttachmentsArePreOrder(scope, ns[0]);
      AttachmentsAllArePreOrder(scope, ns[1..]);
      ItemsAppend(Attachments(scope, ns[0]), AttachmentsAll(scope, ns[1..]));
    }
  }

  /**
   * Nothing is attached under a view that is neither the scope a subtree is defined into
   * nor a view of that subtree.
   */
  lemma {:induction false} NothingUnderOthers(scope: View, n: Node, p: View)
    requires p != scope && p !in PreOrder(n)
    ensures ChildrenUnder(Attachments(scope, n), p) == []
    decreases n, 1
  {
    match n
    case Item(v) =>
      assert [(scope, v)][1..] == [];
    case Spacer(v) =>
      assert [(scope, v)][1..] == [];
    case HStack(v, kids) =>
      NothingUnderOthersAll(v, kids, p);
      ChildrenUnderAppend([(scope, v)], AttachmentsAll(v, kids), p);
      assert [(scope, v)][1..] == [];
    case VStack(v, kids) =>
      NothingUnderOthersAll(v, kids, p);
      ChildrenUnderAppend([(scope, v)], AttachmentsAll(v, kids), p);
      assert [(scope, v)][1..] == [];
  }

  lemma {:induction false} NothingUnderOthersAll(scope: View, ns: seq<Node>, p: View)
    requires p != scope && p !in PreOrderAll(ns)
    ensures ChildrenUnder(AttachmentsAll(scope, ns), p) == []
    decreases ns, 0
  {
    if ns != [] {
      NothingUnderOthers(scope, ns[0], p);
      NothingUnderOthersAll(scope, ns[1..], p);
      ChildrenUnderAppend(Attachments(scope, ns[0]), AttachmentsAll(scope, ns[1..]), p);
    }
  }

  /** Defining a node attaches under its parent scope exactly the node's own view. */
  lemma UnderParentOnlyTheNode(scope: View, n: Node)
    requires scope !in PreOrder(n)
    ensures ChildrenUnder(Attachments(scope, n), scope) == [n.view]
  {
    assert [(scope, n.view)][1..] == [];
    match n
    case Item(v) =>
    case Spacer(v) =>
    case HStack(v, kids) =>
      NothingUnderOthersAll(v, kids, scope);
      ChildrenUnderAppend([(scope, v)], AttachmentsAll(v, kids), scope);
    case VStack(v, kids) =>
      NothingUnderOthersAll(v, kids, scope);
      ChildrenUnderAppend([(scope, v)], AttachmentsAll(v, kids), scope);
  }

  /**
   * Defining a list into `flex` attaches under `flex` exactly the views of the list's own
   * nodes, in list order; deeper nodes go under their stacks.
   */
  lemma {:induction false} UnderScopeTheTopViews(flex: View, ns: seq<Node>)
    requires flex !in PreOrderAll(ns)
    ensures ChildrenUnder(AttachmentsAll(flex, ns), flex) == TopViews(ns)
    decreases |ns|
  {
    if ns != [] {
      UnderParentOnlyTheNode(flex, ns[0]);
      UnderScopeTheTopViews(flex, ns[1..]);
      ChildrenUnderAppend(Attachments(flex, ns[0]), AttachmentsAll(flex, ns[1..]), flex);
    }
  }

  // ---------------------------------------------------------------------------------------
  // What a definition does to the engine
  // ---------------------------------------------------------------------------------------

  /**
   * Defining a node registers every view of its subtree exactly once, in pre-order; the
   * number of registrations is the number of nodes.
   */
  lemma DefineRegistersEachNodeOnce(superFlex: View, n: Node)
    ensures Items(Registrations(DefineCalls(superFlex, n))) == PreOrder(n)
    ensures Registrations(DefineCalls(superFlex, n))[0] == (superFlex, n.view)
  {
    DefineRegistersAttachments(superFlex, n);
    AttachmentsArePreOrder(superFlex, n);
  }

  /**
   * Defining a node (whose subtree does not contain the parent's view) appends the node's
   * view once to the parent's child list; nothing else lands there.
   */
  lemma DefineAppendsOnceToParent(s: EngineState, superFlex: View, n: Node)
    requires superFlex !in PreOrder(n)
    ensures ChildList(Run(s, DefineCalls(superFlex, n)).children, superFlex)
         == ChildList(s.children, superFlex) + [n.view]
  {
    RunChildren(s, DefineCalls(superFlex, n), superFlex);
    DefineRegistersAttachments(superFlex, n);
    UnderParentOnlyTheNode(superFlex, n);
  }

  /**
   * A stack (whose view occurs nowhere else in its subtree or as its parent) ends up with
   * its children's views appended to its own child list, in `subContents` order.
   */
  lemma StackChildrenInOrder(s: EngineState, superFlex: View, n: Node)
    requires n.HStack? || n.VStack?
    requires n.view != superFlex && n.view !in PreOrderAll(n.subContents)
    ensures ChildList(Run(s, DefineCalls(superFlex, n)).children, n.view)
         == ChildList(s.children, n.view) + TopViews(n.subContents)
  {
    var v, kids := n.view, n.subContents;
    RunChildren(s, DefineCalls(superFlex, n), v);
    DefineRegistersAttachments(superFlex, n);
    UnderScopeTheTopViews(v, kids);
    ChildrenUnderAppend([(superFlex, v)], AttachmentsAll(v, kids), v);
    assert [(superFlex, v)][1..] == [];
  }

  /**
   * After a stack is defined its own direction is its main axis (row for FlexHStack,
   * column for FlexVStack), whatever it was before.
   */
  lemma StackDirection(s: EngineState, superFlex: View, n: Node)
    requires n.HStack? || n.VStack?
    requires n.view !in PreOrderAll(n.subContents)
    ensures Lookup(Run(s, DefineCalls(superFlex, n)).direction, n.view) == Some(MainAxis(n))
  {
    var v, kids := n.view, n.subContents;
    var head := [AddItem(superFlex, v), SetDirection(v, MainAxis(n))];
    assert DefineCalls(superFlex, n) == head + DefineAllCalls(v, kids);
    RunAppend(s, head, DefineAllCalls(v, kids));
    RunPair(s, head[0], head[1]);
    DefineAllCallsShape(v, kids);
    RunDirectionElsewhere(Run(s, head), DefineAllCalls(v, kids), v);
  }

  /**
   * A definition sets no justify-content, align-items, width, height or visibility, and
   * sets no direction outside the subtree.
   */
  lemma DefineKeepsConfiguration(s: EngineState, superFlex: View, n: Node, p: View)
    requires p !in PreOrder(n)
    ensures Run(s, DefineCalls(superFlex, n)).justify == s.justify
    ensures Run(s, DefineCalls(superFlex, n)).align == s.align
    ensures Run(s, DefineCalls(superFlex, n)).width == s.width
    ensures Run(s, DefineCalls(superFlex, n)).height == s.height
    ensures Run(s, DefineCalls(superFlex, n)).hidden == s.hidden
    ensures Lookup(Run(s, DefineCalls(superFlex, n)).direction, p) == Lookup(s.direction, p)
  {
    DefineCallsShape(superFlex, n);
    RunStructureOnly(s, DefineCalls(superFlex, n));
    RunDirectionElsewhere(s, DefineCalls(superFlex, n), p);
  }

  /**
   * Defining a list into `flex` (when no node of it owns `flex`'s view) appends the list's
   * own views to `flex`'s child list in list order; an empty list changes nothing.
   */
  lemma DefineAllAppendsTopViews(s: EngineState, flex: View, ns: seq<Node>)
    requires flex !in PreOrderAll(ns)
    ensures ChildList(Run(s, DefineAllCalls(flex, ns)).children, flex)
         == ChildList(s.children, flex) + TopViews(ns)
    ensures ns == [] ==> Run(s, DefineAllCalls(flex, ns)) == s
  {
    RunChildren(s, DefineAllCalls(flex, ns), flex);
    DefineAllRegistersAttachments(flex, ns);
    UnderScopeTheTopViews(flex, ns);
  }

  /**
   * Nothing guards a second definition: defining the same node twice appends its view to
   * the parent's child list twice.
   */
  lemma DefineTwiceAddsTwice(s: EngineState, superFlex: View, n: Node)
    requires superFlex !in PreOrder(n)
    ensures ChildrenUnder(Registrations(DefineCalls(superFlex, n) + DefineCalls(superFlex, n)), superFlex)
         == [n.view, n.view]
    ensures ChildList(Run(s, DefineCalls(superFlex, n) + DefineCalls(superFlex, n)).children, superFlex)
         == ChildList(s.children, superFlex) + [n.view, n.view]
  {
    var cs := DefineCalls(superFlex, n);
    RegistrationsAppend(cs, cs);
    DefineRegistersAttachments(superFlex, n);
    UnderParentOnlyTheNode(superFlex, n);
    ChildrenUnderAppend(Registrations(cs), Registrations(cs), superFlex);
    RunAppend(s, cs, cs);
    DefineAppendsOnceToParent(s, superFlex, n);
    DefineAppendsOnceToParent(Run(s, cs), superFlex, n);
  }

  /** No two nodes of a tree own the same view, and the tree does not own its parent's view. */
  predicate DistinctViews(superFlex: View, n: Node)
  {
    superFlex !in PreOrder(n)
    && forall i, j | 0 <= i < j < |PreOrder(n)| :: PreOrder(n)[i] != PreOrder(n)[j]
  }

  /**
   * A stack whose tree owns distinct views, defined once into `superFlex`: its view is
   * appended once to the parent, its children's views are appended to its own child list in
   * `subContents` order, its direction is its main axis, and no other configuration changes.
   */
  lemma StackDefineOutcome(s: EngineState, superFlex: View, n: Node)
    requires n.HStack? || n.VStack?
    requires DistinctViews(superFlex, n)
    ensures ChildList(Run(s, DefineCalls(superFlex, n)).children, superFlex)
         == ChildList(s.children, superFlex) + [n.view]
    ensures ChildList(Run(s, DefineCalls(superFlex, n)).children, n.view)
         == ChildList(s.children, n.view) + TopViews(n.subContents)
    ensures Lookup(Run(s, DefineCalls(superFlex, n)).direction, n.view) == Some(MainAxis(n))
    ensures Run(s, DefineCalls(superFlex, n)).justify == s.justify
    ensures Run(s, DefineCalls(superFlex, n)).align == s.align
  {
    var order := PreOrder(n);
    assert order == [n.view] + PreOrderAll(n.subContents);
    forall k | 0 <= k < |PreOrderAll(n.subContents)|
      ensures PreOrderAll(n.subContents)[k] != n.view
    {
      assert order[k + 1] == PreOrderAll(n.subContents)[k];
      assert order[0] == n.view;
      assert 0 < k + 1 < |order|;
      assert order[0] != order[k + 1];
    }
    DefineAppendsOnceToParent(s, superFlex, n);
    StackChildrenInOrder(s, superFlex, n);
    StackDirection(s, superFlex, n);
    DefineKeepsConfiguration(s, superFlex, n, superFlex);
  }
}
