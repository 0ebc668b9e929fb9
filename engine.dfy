/**
 * The external flex-layout engine (FlexLayout) as far as the FlexUI core uses it.
 *
 * Every UIView carries one flex configuration (`view.flex`); the model names a view and its
 * configuration by the same opaque id, so the scope `addItem` returns for a view is that view.
 * The engine keeps, per view: its child list, direction, justify-content, align-items, width
 * and height. The host toolkit's `isHidden` flag is kept here too.
 *
 * Besides the mutable engine (class FlexEngine) the module gives the same state as a value
 * (EngineState), the engine calls the core makes (Call), and their meaning (Step, Run), so
 * that a whole definition pass can be stated as one trace of calls.
 */
module Engine {
  import opened Wrappers

  /** An opaque UIView id; it also names that view's flex scope. */
  type View = nat

  datatype Direction = Column | ColumnReverse | Row | RowReverse

  datatype JustifyContent = Start | Center | End | SpaceBetween | SpaceAround | SpaceEvenly

  datatype AlignItems = Stretch | Start | Center | End | Baseline

  /** A width or height: `Auto` when the setter is given nil, otherwise a fixed CGFloat. */
  datatype Dimension = Auto | Points(points: real)

  /** FlexLayout's `width(_: CGFloat?)` and `height(_: CGFloat?)`: nil means auto. */
  function DimensionOf(value: Option<real>): (d: Dimension)
    ensures d.Auto? <==> value.None?
    ensures value.Some? ==> d.points == value.value
  {
    match value
    case None => Auto
    case Some(p) => Points(p)
  }

  /** The engine calls the core makes. */
  datatype Call =
    | AddItem(parent: View, item: View)
    | SetDirection(view: View, dir: Direction)
    | SetJustifyContent(view: View, justify: JustifyContent)
    | SetAlignItems(view: View, align: AlignItems)
    | SetWidth(view: View, size: Dimension)
    | SetHeight(view: View, size: Dimension)
    | SetHidden(view: View, isHidden: bool)

  /** The engine's per-view state; a view missing from a map has the engine's default. */
  datatype EngineState = EngineState(
    children: map<View, seq<View>>,
    direction: map<View, Direction>,
    justify: map<View, JustifyContent>,
    align: map<View, AlignItems>,
    width: map<View, Dimension>,
    height: map<View, Dimension>,
    hidden: map<View, bool>)

  /** The child list of `parent`; a view never added to is childless. */
  function ChildList(children: map<View, seq<View>>, parent: View): seq<View>
  {
    if parent in children then children[parent] else []
  }

  function Lookup<K, V>(m: map<K, V>, k: K): Option<V>
  {
    if k in m then Some(m[k]) else None
  }

  /**
   * The effect of one call. `AddItem` appends the item to the parent's child list; this is
   * what the model assumes of FlexLayout's `addItem`, whose source is not part of this model.
   * Every setter overwrites one entry (last write wins).
   */
  function Step(s: EngineState, c: Call): EngineState
  {
    match c
    case AddItem(p, v) => s.(children := s.children[p := ChildList(s.children, p) + [v]])
    case SetDirection(v, d) => s.(direction := s.direction[v := d])
    case SetJustifyContent(v, j) => s.(justify := s.justify[v := j])
    case SetAlignItems(v, a) => s.(align := s.align[v := a])
    case SetWidth(v, w) => s.(width := s.width[v := w])
    case SetHeight(v, h) => s.(height := s.height[v := h])
    case SetHidden(v, b) => s.(hidden := s.hidden[v := b])
  }

  /** The effect of a trace of calls, made in order. */
  function Run(s: EngineState, cs: seq<Call>): EngineState
    decreases |cs|
  {
    if cs == [] then s else Run(Step(s, cs[0]), cs[1..])
  }

  /** The `(parent, item)` pairs of the `AddItem` calls of a trace, in order. */
  function Registrations(cs: seq<Call>): seq<(View, View)>
  {
    if cs == [] then []
    else (if cs[0].AddItem? then [(cs[0].parent, cs[0].item)] else []) + Registrations(cs[1..])
  }

  /** The items a registration log adds under `parent`, in order. */
  function ChildrenUnder(log: seq<(View, View)>, parent: View): seq<View>
  {
    if log == [] then []
    else (if log[0].0 == parent then [log[0].1] else []) + ChildrenUnder(log[1..], parent)
  }

  /** A trace that only adds items and sets directions. */
  predicate StructureOnly(cs: seq<Call>)
  {
    forall c | c in cs :: c.AddItem? || c.SetDirection?
  }

  /** A trace that never sets the direction of `v`. */
  predicate LeavesDirectionOf(cs: seq<Call>, v: View)
  {
    forall c | c in cs && c.SetDirection? :: c.view != v
  }

  /** Making the calls of `a + b` is making those of `a`, then those of `b`. */
  lemma {:induction false} RunAppend(s: EngineState, a: seq<Call>, b: seq<Call>)
    ensures Run(s, a + b) == Run(Run(s, a), b)
    decreases |a|
  {
    if a == [] {
      assert a + b == b;
    } else {
      assert (a + b)[1..] == a[1..] + b;
      RunAppend(Step(s, a[0]), a[1..], b);
    }
  }

  lemma RunPair(s: EngineState, c: Call, d: Call)
    ensures Run(s, [c, d]) == Step(Step(s, c), d)
  {
    assert [c, d][1..] == [d];
    assert [d][1..] == [];
    assert Run(s, [c, d]) == Run(Step(s, c), [d]);
    assert Run(Step(s, c), [d]) == Run(Step(Step(s, c), d), []);
  }

  lemma RunTriple(s: EngineState, c: Call, d: Call, f: Call)
    ensures Run(s, [c, d, f]) == Step(Step(Step(s, c), d), f)
  {
    assert [c, d, f][1..] == [d, f];
    RunPair(Step(s, c), d, f);
  }

  lemma {:induction false} RegistrationsAppend(a: seq<Call>, b: seq<Call>)
    ensures Registrations(a + b) == Registrations(a) + Registrations(b)
    decreases |a|
  {
    if a == [] {
      assert a + b == b;
    } else {
      assert (a + b)[1..] == a[1..] + b;
      RegistrationsAppend(a[1..], b);
    }
  }

  lemma {:induction false} ChildrenUnderAppend(x: seq<(View, View)>, y: seq<(View, View)>, parent: View)
    ensures ChildrenUnder(x + y, parent) == ChildrenUnder(x, parent) + ChildrenUnder(y, parent)
    decreases |x|
  {
    if x == [] {
      assert x + y == y;
    } else {
      var head := if x[0].0 == parent then [x[0].1] else [];
      assert (x + y)[0] == x[0];
      assert (x + y)[1..] == x[1..] + y;
      assert ChildrenUnder(x + y, parent) == head + ChildrenUnder(x[1..] + y, parent);
      ChildrenUnderAppend(x[1..], y, parent);
      assert ChildrenUnder(x, parent) == head + ChildrenUnder(x[1..], parent);
    }
  }

  /**
   * What a trace does to one child list: it appends exactly the items registered under that
   * parent, in the order of their `AddItem` calls.
   */
  lemma {:induction false} RunChildren(s: EngineState, cs: seq<Call>, parent: View)
    ensures ChildList(Run(s, cs).children, parent)
         == ChildList(s.children, parent) + ChildrenUnder(Registrations(cs), parent)
    decreases |cs|
  {
    if cs != [] {
      StepChildren(s, cs[0], parent);
      RunChildren(Step(s, cs[0]), cs[1..], parent);
      assert cs == [cs[0]] + cs[1..];
      RegistrationsAppend([cs[0]], cs[1..]);
      ChildrenUnderAppend(Registrations([cs[0]]), Registrations(cs[1..]), parent);
    }
  }

  lemma StepChildren(s: EngineState, c: Call, parent: View)
    ensures ChildList(Step(s, c).children, parent)
         == ChildList(s.children, parent) + ChildrenUnder(Registrations([c]), parent)
  {
    assert [c][1..] == [];
    if c.AddItem? {
      assert Registrations([c]) == [(c.parent, c.item)];
      assert [(c.parent, c.item)][1..] == [];
    } else {
      assert Registrations([c]) == [];
    }
  }

  /** A trace of additions and directions changes no other engine state. */
  lemma {:induction false} RunStructureOnly(s: EngineState, cs: seq<Call>)
    requires StructureOnly(cs)
    ensures Run(s, cs).justify == s.justify && Run(s, cs).align == s.align
    ensures Run(s, cs).width == s.width && Run(s, cs).height == s.height
    ensures Run(s, cs).hidden == s.hidden
    decreases |cs|
  {
    if cs != [] {
      assert cs[0] in cs;
      assert forall c | c in cs[1..] :: c in cs;
      StepStructureOnly(s, cs[0]);
      RunStructureOnly(Step(s, cs[0]), cs[1..]);
    }
  }

  lemma StepStructureOnly(s: EngineState, c: Call)
    requires c.AddItem? || c.SetDirection?
    ensures Step(s, c).justify == s.justify && Step(s, c).align == s.align
    ensures Step(s, c).width == s.width && Step(s, c).height == s.height
    ensures Step(s, c).hidden == s.hidden
  {
  }

  /** A trace that never sets the direction of `v` leaves it as it was. */
  lemma {:induction false} RunDirectionElsewhere(s: EngineState, cs: seq<Call>, v: View)
    requires LeavesDirectionOf(cs, v)
    ensures Lookup(Run(s, cs).direction, v) == Lookup(s.direction, v)
    decreases |cs|
  {
    if cs != [] {
      assert cs[0] in cs;
      assert forall c | c in cs[1..] :: c in cs;
      StepDirectionElsewhere(s, cs[0], v);
      RunDirectionElsewhere(Step(s, cs[0]), cs[1..], v);
    }
  }

  lemma StepDirectionElsewhere(s: EngineState, c: Call, v: View)
    requires !(c.SetDirection? && c.view == v)
    ensures Lookup(Step(s, c).direction, v) == Lookup(s.direction, v)
  {
  }

  /** The engine as the core sees it: per-view maps that its calls update in place. */
  class FlexEngine {
    var children: map<View, seq<View>>
    var direction: map<View, Direction>
    var justify: map<View, JustifyContent>
    var align: map<View, AlignItems>
    var width: map<View, Dimension>
    var height: map<View, Dimension>
    var hidden: map<View, bool>
    /** The calls made on the engine so far, oldest first. */
    ghost var log: seq<Call>

    function State(): EngineState
      reads this
    {
      EngineState(children, direction, justify, align, width, height, hidden)
    }

    /** `parent.flex.addItem(item)`: appends `item` to `parent`'s children and returns `item`'s scope. */
    method AddItem(parent: View, item: View) returns (scope: View)
      modifies this
      ensures scope == item
      ensures children == old(children)[parent := ChildList(old(children), parent) + [item]]
      ensures State() == Step(old(State()), Call.AddItem(parent, item))
      ensures log == old(log) + [Call.AddItem(parent, item)]
    {
      log := log + [Call.AddItem(parent, item)];
      children := children[parent := ChildList(children, parent) + [item]];
      scope := item;
    }

    method SetDirection(v: View, d: Direction)
      modifies this
      ensures State() == Step(old(State()), Call.SetDirection(v, d))
      ensures log == old(log) + [Call.SetDirection(v, d)]
    {
      log := log + [Call.SetDirection(v, d)];
      direction := direction[v := d];
    }

    method SetJustifyContent(v: View, j: JustifyContent)
      modifies this
      ensures State() == Step(old(State()), Call.SetJustifyContent(v, j))
      ensures log == old(log) + [Call.SetJustifyContent(v, j)]
    {
      log := log + [Call.SetJustifyContent(v, j)];
      justify := justify[v := j];
    }

    method SetAlignItems(v: View, a: AlignItems)
      modifies this
      ensures State() == Step(old(State()), Call.SetAlignItems(v, a))
      ensures log == old(log) + [Call.SetAlignItems(v, a)]
    {
      log := log + [Call.SetAlignItems(v, a)];
      align := align[v := a];
    }

    method SetWidth(v: View, w: Dimension)
      modifies this
      ensures State() == Step(old(State()), Call.SetWidth(v, w))
      ensures log == old(log) + [Call.SetWidth(v, w)]
    {
      log := log + [Call.SetWidth(v, w)];
      width := width[v := w];
    }

    method SetHeight(v: View, h: Dimension)
      modifies this
      ensures State() == Step(old(State()), Call.SetHeight(v, h))
      ensures log == old(log) + [Call.SetHeight(v, h)]
    {
      log := log + [Call.SetHeight(v, h)];
      height := height[v := h];
    }

    /** The host toolkit's `view.isHidden = b`. */
    method SetHidden(v: View, b: bool)
      modifies this
      ensures State() == Step(old(State()), Call.SetHidden(v, b))
      ensures log == old(log) + [Call.SetHidden(v, b)]
    {
      log := log + [Call.SetHidden(v, b)];
      hidden := hidden[v := b];
    }
  }
}
