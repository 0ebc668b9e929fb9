/**
 * The layout participants (the `FlexView` conformers) as one value type. Each node owns one
 * view; a stack also owns the child list its builder produced, fixed at construction.
 * FlexItem's `init` is the constructor `Item(view)`: it stores the view and touches nothing else.
 */
module FlexView {
  import opened Engine

  datatype Node =
    | Item(view: View)
    | Spacer(view: View)
    | HStack(view: View, subContents: seq<Node>)
    | VStack(view: View, subContents: seq<Node>)

  /** The views of a subtree in pre-order: the node's own view, then its children's subtrees. */
  function PreOrder(n: Node): seq<View>
    decreases n
  {
    match n
    case Item(v) => [v]
    case Spacer(v) => [v]
    case HStack(v, kids) => [v] + PreOrderAll(kids)
    case VStack(v, kids) => [v] + PreOrderAll(kids)
  }

  function PreOrderAll(ns: seq<Node>): seq<View>
    decreases ns
  {
    if ns == [] then [] else PreOrder(ns[0]) + PreOrderAll(ns[1..])
  }

  /** The views of the nodes of a list themselves, in list order. */
  function TopViews(ns: seq<Node>): seq<View>
  {
    if ns == [] then [] else [ns[0].view] + TopViews(ns[1..])
  }
}
