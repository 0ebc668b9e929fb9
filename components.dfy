/**
 * Construction of the spacer and the stacks, and the `FlexRoot` entry point. A builder
 * closure (`content: () -> [FlexView]`) is evaluated once by the code that takes it; the
 * model receives the list it returns.
 */
module Components {
  import opened Wrappers
  import opened Engine
  import opened FlexView
  import opened Definition

  /** The engine calls `FlexSpacer.init` makes: hide the view, then set its width and height. */
  function SpacerInitCalls(view: View, width: Option<real>, height: Option<real>): seq<Call>
  {
    [SetHidden(view, true), SetWidth(view, DimensionOf(width)), SetHeight(view, DimensionOf(height))]
  }

  /** The engine calls a stack's `init` makes: set the view's justify-content, then its align-items. */
  function StackInitCalls(view: View, justifyContent: JustifyContent, alignItems: AlignItems): seq<Call>
  {
    [SetJustifyContent(view, justifyContent), SetAlignItems(view, alignItems)]
  }

  /**
   * `FlexSpacer.init(width:height:)`: the spacer's new view (passed in as `view`) is hidden,
   * and its width and height are set, nil meaning auto. Nothing else changes.
   */
  method NewSpacer(e: FlexEngine, view: View, width: Option<real> := None, height: Option<real> := None)
    returns (n: Node)
    modifies e
    ensures n == Spacer(view)
    ensures e.hidden == old(e.hidden)[view := true]
    ensures e.width == old(e.width)[view := DimensionOf(width)]
    ensures e.height == old(e.height)[view := DimensionOf(height)]
    ensures e.children == old(e.children) && e.direction == old(e.direction)
    ensures e.justify == old(e.justify) && e.align == old(e.align)
    ensures e.log == old(e.log) + SpacerInitCalls(view, width, height)
  {
    e.SetHidden(view, true);
    e.SetWidth(view, DimensionOf(width));
    e.SetHeight(view, DimensionOf(height));
    n := Spacer(view);
  }

  /**
   * `FlexHStack.init`: stores the view and the built children unchanged, and sets the
   * view's justify-content and align-items (by default start and stretch). Nothing else changes.
   */
  method NewHStack(e: FlexEngine, view: View, content: seq<Node>,
                   justifyContent: JustifyContent := JustifyContent.Start,
                   alignItems: AlignItems := AlignItems.Stretch)
    returns (n: Node)
    modifies e
    ensures n == HStack(view, content)
    ensures e.log == old(e.log) + StackInitCalls(view, justifyContent, alignItems)
    ensures e.justify == old(e.justify)[view := justifyContent]
    ensures e.align == old(e.align)[view := alignItems]
    ensures e.children == old(e.children) && e.direction == old(e.direction)
    ensures e.width == old(e.width) && e.height == old(e.height) && e.hidden == old(e.hidden)
  {
    var subContents := content;
    e.SetJustifyContent(view, justifyContent);
    e.SetAlignItems(view, alignItems);
    n := HStack(view, subContents);
  }

  /**
   * `FlexVStack.init`: stores the view and the built children unchanged, and sets the
   * view's justify-content and align-items (by default start and stretch). Nothing else changes.
   */
  method NewVStack(e: FlexEngine, view: View, content: seq<Node>,
                   justifyContent: JustifyContent := JustifyContent.Start,
                   alignItems: AlignItems := AlignItems.Stretch)
    returns (n: Node)
    modifies e
    ensures n == VStack(view, content)
    ensures e.log == old(e.log) + StackInitCalls(view, justifyContent, alignItems)
    ensures e.justify == old(e.justify)[view := justifyContent]
    ensures e.align == old(e.align)[view := alignItems]
    ensures e.children == old(e.children) && e.direction == old(e.direction)
    ensures e.width == old(e.width) && e.height == old(e.height) && e.hidden == old(e.hidden)
  {
    var subContents := content;
    e.SetJustifyContent(view, justifyContent);
    e.SetAlignItems(view, alignItems);
    n := VStack(view, subContents);
  }

  /**
   * The engine calls `FlexRoot` makes: configure the container's own scope, then define the
   * top-level nodes into it, in order. The container itself is not registered anywhere.
   */
  function RootCalls(container: View, direction: Direction, justifyContent: JustifyContent,
                     alignItems: AlignItems, content: seq<Node>): seq<Call>
  {
    [SetDirection(container, direction), SetJustifyContent(container, justifyContent),
     SetAlignItems(container, alignItems)]
    + DefineAllCalls(container, content)
  }

  /**
   * `FlexRoot(container, direction:, justifyContent:, alignItems:, content)`: configures the
   * container (by default column, start, stretch) before any child is defined, defines the
   * children into the container's own scope, and returns that scope.
   */
  method FlexRoot(e: FlexEngine, container: View, content: seq<Node>,
                  direction: Direction := Column,
                  justifyContent: JustifyContent := JustifyContent.Start,
                  alignItems: AlignItems := AlignItems.Stretch)
    returns (root: View)
    modifies e
    ensures root == container
    ensures e.State() == Run(old(e.State()), RootCalls(container, direction, justifyContent, alignItems, content))
    ensures e.log == old(e.log) + RootCalls(container, direction, justifyContent, alignItems, content)
  {
    ghost var s0 := e.State();
    var subContents := content;
    e.SetDirection(container, direction);
    e.SetJustifyContent(container, justifyContent);
    e.SetAlignItems(container, alignItems);
    ghost var config := [SetDirection(container, direction), SetJustifyContent(container, justifyContent),
                         SetAlignItems(container, alignItems)];
    RunTriple(s0, config[0], config[1], config[2]);
    assert e.State() == Run(s0, config);
    // The engine's `define` runs its closure on the container's own scope.
    DefineAll(e, subContents, container);
    RunAppend(s0, config, DefineAllCalls(container, subContents));
    root := container;
  }

  /**
   * After `FlexRoot` (with a container that is no view of the content): the container has the
   * given direction, justify-content and align-items, its child list has the top-level views
   * appended in order, and the container itself was registered nowhere.
   */
  lemma RootOutcome(s: EngineState, container: View, direction: Direction,
                    justifyContent: JustifyContent, alignItems: AlignItems, content: seq<Node>)
    requires container !in PreOrderAll(content)
    ensures Lookup(Run(s, RootCalls(container, direction, justifyContent, alignItems, content)).direction, container)
         == Some(direction)
    ensures Lookup(Run(s, RootCalls(container, direction, justifyContent, alignItems, content)).justify, container)
         == Some(justifyContent)
    ensures Lookup(Run(s, RootCalls(container, direction, justifyContent, alignItems, content)).align, container)
         == Some(alignItems)
    ensures ChildList(Run(s, RootCalls(container, direction, justifyContent, alignItems, content)).children, container)
         == ChildList(s.children, container) + TopViews(content)
    ensures Items(Registrations(RootCalls(container, direction, justifyContent, alignItems, content)))
         == PreOrderAll(content)
    ensures container !in Items(Registrations(RootCalls(container, direction, justifyContent, alignItems, content)))
  {
    var config := [SetDirection(container, direction), SetJustifyContent(container, justifyContent),
                   SetAlignItems(container, alignItems)];
    var body := DefineAllCalls(container, content);
    var s1 := Run(s, config);
    RunTriple(s, config[0], config[1], config[2]);
    assert Lookup(s1.direction, container) == Some(direction);
    assert s1.children == s.children;
    RunAppend(s, config, body);
    DefineAllCallsShape(container, content);
    RunStructureOnly(s1, body);
    RunDirectionElsewhere(s1, body, container);
    DefineAllAppendsTopViews(s1, container, content);
    RegistrationsAppend(config, body);
    assert Registrations(config) == [] by {
      assert config[1..] == [config[1], config[2]];
      assert config[1..][1..] == [config[2]];
      assert config[1..][1..][1..] == [];
      assert Registrations(config[1..][1..]) == [];
      assert Registrations(config[1..]) == [];
    }
    assert config + body == RootCalls(container, direction, justifyContent, alignItems, content);
    DefineAllRegistersAttachments(container, content);
    AttachmentsAllArePreOrder(container, content);
    assert Registrations(config + body) == AttachmentsAll(container, content);
  }

  /**
   * A row of an item A, a spacer S 10 wide and an item B, defined into a root scope R: R
   * gains the stack; the stack gains A, S and B in that order and has row direction; S stays
   * hidden and 10 wide.
   */
  lemma RowWithSpacer(s: EngineState)
    ensures var t := Run(Run(s, SpacerInitCalls(3, Some(10.0), None)),
                         DefineCalls(0, HStack(1, [Item(2), Spacer(3), Item(4)])));
      && ChildList(t.children, 0) == ChildList(s.children, 0) + [1]
      && ChildList(t.children, 1) == ChildList(s.children, 1) + [2, 3, 4]
      && Lookup(t.direction, 1) == Some(Row)
      && Lookup(t.hidden, 3) == Some(true)
      && Lookup(t.width, 3) == Some(Points(10.0))
  {
    var kids := [Item(2), Spacer(3), Item(4)];
    var n := HStack(1, kids);
    var init := SpacerInitCalls(3, Some(10.0), None);
    var s1 := Run(s, init);
    RunTriple(s, init[0], init[1], init[2]);
    assert s1.children == s.children;
    assert Lookup(s1.hidden, 3) == Some(true) && Lookup(s1.width, 3) == Some(Points(10.0));
    assert PreOrderAll(kids) == [2, 3, 4] by {
      assert kids[1..] == [Spacer(3), Item(4)];
      assert kids[1..][1..] == [Item(4)];
      assert kids[1..][1..][1..] == [];
    }
    assert TopViews(kids) == [2, 3, 4] by {
      assert kids[1..] == [Spacer(3), Item(4)];
      assert kids[1..][1..] == [Item(4)];
      assert kids[1..][1..][1..] == [];
    }
    DefineAppendsOnceToParent(s1, 0, n);
    StackChildrenInOrder(s1, 0, n);
    StackDirection(s1, 0, n);
    DefineKeepsConfiguration(s1, 0, n, 0);
  }
}
