/**
 * FlexViewBuilder, the result builder behind the `{ ... }` content blocks: static combinators
 * that turn the expressions of a block (a node, an optional node, an `if`, an `if`/`else`,
 * a `for` loop, a list) into one flat, ordered list of nodes. Absent values contribute
 * nothing; lists are spliced in place, one level deep.
 */
module FlexViewBuilder {
  import opened Wrappers
  import opened FlexView

  /** Blocks laid end to end: `flatMap { $0 }`. */
  function Flatten(blocks: seq<seq<Node>>): seq<Node>
  {
    if blocks == [] then [] else blocks[0] + Flatten(blocks[1..])
  }

  function TotalLength(blocks: seq<seq<Node>>): nat
  {
    if blocks == [] then 0 else |blocks[0]| + TotalLength(blocks[1..])
  }

  /** Where block `i` starts once the blocks are laid end to end. */
  function StartOf(blocks: seq<seq<Node>>, i: nat): nat
    requires i <= |blocks|
  {
    if i == 0 then 0 else |blocks[0]| + StartOf(blocks[1..], i - 1)
  }

  lemma {:induction false} FlattenLength(blocks: seq<seq<Node>>)
    ensures |Flatten(blocks)| == TotalLength(blocks)
    decreases |blocks|
  {
    if blocks != [] {
      FlattenLength(blocks[1..]);
    }
  }

  /** Element `j` of block `i` sits at `StartOf(blocks, i) + j` in the flattened list. */
  lemma {:induction false} FlattenAt(blocks: seq<seq<Node>>, i: nat, j: nat)
    requires i < |blocks| && j < |blocks[i]|
    ensures StartOf(blocks, i) + j < |Flatten(blocks)|
    ensures Flatten(blocks)[StartOf(blocks, i) + j] == blocks[i][j]
    decreases i
  {
    if i > 0 {
      var rest := blocks[1..];
      FlattenAt(rest, i - 1, j);
      assert rest[i - 1] == blocks[i];
    }
  }

  /** Element `j` of block `i` of `blocks` sits at `StartOf(blocks, i) + j` in `r`. */
  predicate Places(r: seq<Node>, blocks: seq<seq<Node>>)
  {
    forall i, j {:trigger blocks[i][j]} | 0 <= i < |blocks| && 0 <= j < |blocks[i]| ::
      StartOf(blocks, i) + j < |r| && r[StartOf(blocks, i) + j] == blocks[i][j]
  }

  /** Flattening keeps every block in place and every element of a block in order. */
  lemma FlattenPlaces(blocks: seq<seq<Node>>)
    ensures Places(Flatten(blocks), blocks)
  {
    forall i, j {:trigger blocks[i][j]} | 0 <= i < |blocks| && 0 <= j < |blocks[i]|
      ensures StartOf(blocks, i) + j < |Flatten(blocks)| && Flatten(blocks)[StartOf(blocks, i) + j] == blocks[i][j]
    {
      FlattenAt(blocks, i, j);
    }
  }

  /** A node is in the flattened list exactly when it is in one of the blocks. */
  lemma {:induction false} FlattenMembers(blocks: seq<seq<Node>>, x: Node)
    ensures x in Flatten(blocks) <==> exists i | 0 <= i < |blocks| :: x in blocks[i]
    decreases |blocks|
  {
    if blocks != [] {
      FlattenMembers(blocks[1..], x);
      if x in Flatten(blocks[1..]) {
        var i :| 0 <= i < |blocks[1..]| && x in blocks[1..][i];
        assert x in blocks[i + 1];
      }
      if exists i | 0 <= i < |blocks| :: x in blocks[i] {
        var i :| 0 <= i < |blocks| && x in blocks[i];
        if i > 0 {
          assert x in blocks[1..][i - 1];
        }
      }
    }
  }

  lemma {:induction false} FlattenAppend(a: seq<seq<Node>>, b: seq<seq<Node>>)
    ensures Flatten(a + b) == Flatten(a) + Flatten(b)
    decreases |a|
  {
    if a == [] {
      assert a + b == b;
    } else {
      assert (a + b)[1..] == a[1..] + b;
      FlattenAppend(a[1..], b);
    }
  }

  /** `buildBlock(_ components: FlexView...)`: the nodes of a block, as written. */
  function BuildBlock(components: seq<Node>): (r: seq<Node>)
    ensures |r| == |components|
    ensures forall i | 0 <= i < |r| :: r[i] == components[i]
  {
    components
  }

  /** `buildBlock(_ block: [FlexView]...)`: the partial results of a block, concatenated in order. */
  function BuildBlockOfLists(block: seq<seq<Node>>): (r: seq<Node>)
    ensures |r| == TotalLength(block)
    ensures Places(r, block)
  {
    FlattenLength(block);
    FlattenPlaces(block);
    Flatten(block)
  }

  /** `buildOptional`: the body of an `if` without `else`; nothing when the condition failed. */
  function BuildOptional(item: Option<seq<Node>>): (r: seq<Node>)
    ensures item.None? ==> r == []
    ensures item.Some? ==> r == item.value
  {
    item.UnwrapOr([])
  }

  /** `buildEither(first:)`: the `if` branch of an `if`/`else`. */
  function BuildEitherFirst(first: Option<seq<Node>>): (r: seq<Node>)
    ensures first.None? ==> r == []
    ensures first.Some? ==> r == first.value
  {
    first.UnwrapOr([])
  }

  /** `buildEither(second:)`: the `else` branch of an `if`/`else`. */
  function BuildEitherSecond(second: Option<seq<Node>>): (r: seq<Node>)
    ensures second.None? ==> r == []
    ensures second.Some? ==> r == second.value
  {
    second.UnwrapOr([])
  }

  /** `buildArray`: the results of the iterations of a `for` loop, concatenated in order. */
  function BuildArray(components: seq<seq<Node>>): (r: seq<Node>)
    ensures |r| == TotalLength(components)
    ensures Places(r, components)
  {
    FlattenLength(components);
    FlattenPlaces(components);
    Flatten(components)
  }

  /** `buildExpression(_: [FlexView]?)`: a list expression, or nothing when it is nil. */
  function BuildExpressionList(expr: Option<seq<Node>>): (r: seq<Node>)
    ensures expr.None? ==> r == []
    ensures expr.Some? ==> r == expr.value
  {
    expr.UnwrapOr([])
  }

  /** `buildExpression(_: FlexView?)`: a single node as a one-element list, or nothing when nil. */
  function BuildExpressionNode(expr: Option<Node>): (r: seq<Node>)
    ensures |r| <= 1
    ensures expr.None? ==> r == []
    ensures expr.Some? ==> r == [expr.value]
  {
    match expr
    case None => []
    case Some(x) => [x]
  }

  /** Each node of a block lifted on its own by `buildExpression`. */
  function NodeExpressions(components: seq<Node>): seq<seq<Node>>
  {
    if components == [] then []
    else [BuildExpressionNode(Some(components[0]))] + NodeExpressions(components[1..])
  }

  /**
   * The two `buildBlock` overloads agree: collecting the one-node expressions of a block
   * with the list form gives the block the node form gives.
   */
  lemma {:induction false} BlockOverloadsAgree(components: seq<Node>)
    ensures BuildBlockOfLists(NodeExpressions(components)) == BuildBlock(components)
    decreases |components|
  {
    if components != [] {
      BlockOverloadsAgree(components[1..]);
      assert NodeExpressions(components)[1..] == NodeExpressions(components[1..]);
      assert components == [components[0]] + components[1..];
    }
  }

  /** Blocks chained one after the other concatenate in the order they appear. */
  lemma BlocksConcatenate(a: seq<seq<Node>>, b: seq<seq<Node>>)
    ensures BuildBlockOfLists(a + b) == BuildBlockOfLists(a) + BuildBlockOfLists(b)
  {
    FlattenAppend(a, b);
  }

  /**
   * An absent expression (an `if` whose condition failed, a nil node, a nil list) leaves
   * the same result as a block without that line.
   */
  lemma AbsentLineIsOmitted(before: seq<seq<Node>>, after: seq<seq<Node>>)
    ensures BuildBlockOfLists(before + [BuildOptional(None)] + after) == BuildBlockOfLists(before + after)
    ensures BuildBlockOfLists(before + [BuildExpressionNode(None)] + after) == BuildBlockOfLists(before + after)
    ensures BuildBlockOfLists(before + [BuildExpressionList(None)] + after) == BuildBlockOfLists(before + after)
  {
    var empty: seq<seq<Node>> := [[]];
    FlattenAppend(before + empty, after);
    FlattenAppend(before, empty);
    FlattenAppend(before, after);
    assert Flatten(empty) == [];
  }

  /**
   * A loop's results spliced among other lines: the lines before, then every iteration's
   * nodes in order, then the lines after.
   */
  lemma ArrayIsSplicedInPlace(before: seq<seq<Node>>, components: seq<seq<Node>>, after: seq<seq<Node>>)
    ensures BuildBlockOfLists(before + [BuildArray(components)] + after)
         == BuildBlockOfLists(before) + BuildArray(components) + BuildBlockOfLists(after)
  {
    var flat := Flatten(components);
    var mid := [flat];
    assert BuildArray(components) == flat;
    FlattenAppend(before + mid, after);
    FlattenAppend(before, mid);
    assert Flatten(mid) == flat + Flatten([]) by {
      assert mid[1..] == [];
    }
    assert Flatten(mid) == flat;
  }

  /**
   * `buildArray` flattens one level only: its nodes are exactly the nodes of the iterations'
   * lists (a stack among them keeps its own children).
   */
  lemma ArrayFlattensOneLevel(components: seq<seq<Node>>, x: Node)
    ensures x in BuildArray(components) <==> exists i | 0 <= i < |components| :: x in components[i]
  {
    FlattenMembers(components, x);
  }
}
