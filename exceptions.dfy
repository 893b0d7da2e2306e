/**
 * The exceptions a view request can raise, and .NET's `AggregateException.Flatten`,
 * which the view client applies before handling the inner exceptions one by one.
 */
module Exceptions {

  datatype Exception =
    | AggregateException(innerExceptions: seq<Exception>)
    | OperationCanceledException
    | HttpRequestException(message: string)
    | OtherException(typeName: string)

  /** The number of exception objects in the tree rooted at `e`. */
  function Size(e: Exception): nat
  {
    match e
    case AggregateException(inner) => 1 + SizeOfAll(inner)
    case _ => 1
  }

  function SizeOfAll(es: seq<Exception>): nat
  {
    if es == [] then 0 else Size(es[0]) + SizeOfAll(es[1..])
  }

  lemma {:induction false} SizeOfAllConcat(a: seq<Exception>, b: seq<Exception>)
    ensures SizeOfAll(a + b) == SizeOfAll(a) + SizeOfAll(b)
  {
    if a == [] {
      assert a + b == b;
    } else {
      assert (a + b)[1..] == a[1..] + b;
      SizeOfAllConcat(a[1..], b);
    }
  }

  /** The members of `es` that are not aggregates, in their order. */
  function NonAggregates(es: seq<Exception>): (r: seq<Exception>)
    ensures |r| <= |es|
    ensures forall i :: 0 <= i < |r| ==> !r[i].AggregateException?
    ensures forall e :: e in r ==> e in es
  {
    if es == [] then []
    else if es[0].AggregateException? then NonAggregates(es[1..])
    else [es[0]] + NonAggregates(es[1..])
  }

  /** The inner exceptions of the aggregates among `es`, concatenated in order. */
  function InnerOfAggregates(es: seq<Exception>): seq<Exception>
  {
    if es == [] then []
    else if es[0].AggregateException? then es[0].innerExceptions + InnerOfAggregates(es[1..])
    else InnerOfAggregates(es[1..])
  }

  /** One level of flattening removes one object per member of the level. */
  lemma {:induction false} SizeSplit(es: seq<Exception>)
    ensures SizeOfAll(es) == |es| + SizeOfAll(InnerOfAggregates(es))
  {
    if es != [] {
      SizeSplit(es[1..]);
      if es[0].AggregateException? {
        SizeOfAllConcat(es[0].innerExceptions, InnerOfAggregates(es[1..]));
      }
    }
  }

  /**
   * Breadth-first flattening. `level` holds, in queue order, the inner exceptions of the
   * aggregates of one depth: their non-aggregates are emitted, their aggregates make up
   * the next level.
   */
  function FlattenLevels(level: seq<Exception>): (r: seq<Exception>)
    ensures forall i :: 0 <= i < |r| ==> !r[i].AggregateException?
    decreases SizeOfAll(level)
  {
    if level == [] then []
    else
      SizeSplit(level);
      NonAggregates(level) + FlattenLevels(InnerOfAggregates(level))
  }

  /** The leaves of `e` in depth-first order: the reference for what flattening keeps. */
  function Leaves(e: Exception): seq<Exception>
  {
    match e
    case AggregateException(inner) => LeavesOfAll(inner)
    case _ => [e]
  }

  function LeavesOfAll(es: seq<Exception>): seq<Exception>
  {
    if es == [] then [] else Leaves(es[0]) + LeavesOfAll(es[1..])
  }

  lemma {:induction false} LeavesOfAllConcat(a: seq<Exception>, b: seq<Exception>)
    ensures LeavesOfAll(a + b) == LeavesOfAll(a) + LeavesOfAll(b)
  {
    if a == [] {
      assert a + b == b;
    } else {
      assert (a + b)[1..] == a[1..] + b;
      LeavesOfAllConcat(a[1..], b);
    }
  }

  /** The leaves under a level are its non-aggregates plus the leaves under the next level. */
  lemma {:induction false} LeavesSplit(es: seq<Exception>)
    ensures multiset(LeavesOfAll(es))
         == multiset(NonAggregates(es)) + multiset(LeavesOfAll(InnerOfAggregates(es)))
  {
    if es != [] {
      LeavesSplit(es[1..]);
      if es[0].AggregateException? {
        LeavesOfAllConcat(es[0].innerExceptions, InnerOfAggregates(es[1..]));
      }
    }
  }

  lemma {:induction false} FlattenLevelsKeepsLeaves(level: seq<Exception>)
    ensures multiset(FlattenLevels(level)) == multiset(LeavesOfAll(level))
    decreases SizeOfAll(level)
  {
    if level != [] {
      SizeSplit(level);
      LeavesSplit(level);
      FlattenLevelsKeepsLeaves(InnerOfAggregates(level));
    }
  }

  /**
   * `AggregateException.Flatten().InnerExceptions`: no aggregate is left, and exactly the
   * leaves of the tree are kept, each as often as it occurs.
   */
  function Flatten(ae: Exception): (r: seq<Exception>)
    requires ae.AggregateException?
    ensures forall i :: 0 <= i < |r| ==> !r[i].AggregateException?
    ensures multiset(r) == multiset(Leaves(ae))
  {
    FlattenLevelsKeepsLeaves(ae.innerExceptions);
    FlattenLevels(ae.innerExceptions)
  }

  lemma {:induction false} NonAggregatesOfFlat(es: seq<Exception>)
    requires forall i :: 0 <= i < |es| ==> !es[i].AggregateException?
    ensures NonAggregates(es) == es && InnerOfAggregates(es) == []
  {
    if es != [] {
      NonAggregatesOfFlat(es[1..]);
    }
  }

  /** An aggregate that holds no aggregate flattens to its own inner exceptions, in order. */
  lemma FlattenOfFlatAggregate(ae: Exception)
    requires ae.AggregateException?
    requires forall i :: 0 <= i < |ae.innerExceptions| ==> !ae.innerExceptions[i].AggregateException?
    ensures Flatten(ae) == ae.innerExceptions
  {
    var inner := ae.innerExceptions;
    NonAggregatesOfFlat(inner);
    if inner != [] {
      assert FlattenLevels(inner) == inner + FlattenLevels([]);
    }
  }

  /** The two-level tree below: `[[a], b, [[c], d]]`. */
  function TwoLevelTree(a: Exception, b: Exception, c: Exception, d: Exception): Exception
  {
    AggregateException([AggregateException([a]), b, AggregateException([AggregateException([c]), d])])
  }

  /** Depth-first, the leaves of the two-level tree come in their written order. */
  lemma TwoLevelTreeLeaves(a: Exception, b: Exception, c: Exception, d: Exception)
    requires !a.AggregateException? && !b.AggregateException?
    requires !c.AggregateException? && !d.AggregateException?
    ensures Leaves(TwoLevelTree(a, b, c, d)) == [a, b, c, d]
  {
    var y := AggregateException([c]);
    var z := AggregateException([y, d]);
    assert [a][1..] == [] && [c][1..] == [] && [d][1..] == [];
    assert LeavesOfAll([a]) == [a] && LeavesOfAll([c]) == [c] && LeavesOfAll([d]) == [d];
    assert [y, d][1..] == [d];
    assert LeavesOfAll([y, d]) == [c] + [d];
    assert [z][1..] == [];
    assert LeavesOfAll([z]) == [c, d];
    assert [b, z][1..] == [z];
    assert LeavesOfAll([b, z]) == [b] + [c, d];
    var top := [AggregateException([a]), b, z];
    assert top[1..] == [b, z];
    assert LeavesOfAll(top) == [a] + [b, c, d];
  }

  /** The top level of the two-level tree keeps `b` and passes on `[a, [c], d]`. */
  lemma TwoLevelTreeFirstLevel(a: Exception, b: Exception, c: Exception, d: Exception)
    requires !b.AggregateException?
    ensures var level := TwoLevelTree(a, b, c, d).innerExceptions;
            NonAggregates(level) == [b] && InnerOfAggregates(level) == [a, AggregateException([c]), d]
  {
    var z := AggregateException([AggregateException([c]), d]);
    var top := [AggregateException([a]), b, z];
    assert top[1..] == [b, z] && [b, z][1..] == [z] && [z][1..] == [];
    assert NonAggregates([z]) == [] && InnerOfAggregates([z]) == z.innerExceptions;
    assert NonAggregates([b, z]) == [b] && InnerOfAggregates([b, z]) == z.innerExceptions;
  }

  /** The second level keeps `a` and `d` and passes on `[c]`. */
  lemma TwoLevelTreeSecondLevel(a: Exception, c: Exception, d: Exception)
    requires !a.AggregateException? && !d.AggregateException?
    ensures var level := [a, AggregateException([c]), d];
            NonAggregates(level) == [a, d] && InnerOfAggregates(level) == [c]
  {
    var y := AggregateException([c]);
    var level := [a, y, d];
    assert level[1..] == [y, d] && [y, d][1..] == [d] && [d][1..] == [];
    assert NonAggregates([d]) == [d] && InnerOfAggregates([d]) == [];
    assert NonAggregates([y, d]) == [d] && InnerOfAggregates([y, d]) == [c];
  }

  /**
   * Flattening goes level by level: in the two-level tree the shallower leaves come first,
   * where the depth-first `Leaves` lists them in written order.
   */
  lemma FlattenIsBreadthFirst(a: Exception, b: Exception, c: Exception, d: Exception)
    requires !a.AggregateException? && !b.AggregateException?
    requires !c.AggregateException? && !d.AggregateException?
    ensures Flatten(TwoLevelTree(a, b, c, d)) == [b, a, d, c]
    ensures Leaves(TwoLevelTree(a, b, c, d)) == [a, b, c, d]
  {
    TwoLevelTreeLeaves(a, b, c, d);
    var first := TwoLevelTree(a, b, c, d).innerExceptions;
    var second := [a, AggregateException([c]), d];
    TwoLevelTreeFirstLevel(a, b, c, d);
    TwoLevelTreeSecondLevel(a, c, d);
    NonAggregatesOfFlat([c]);
    assert FlattenLevels([c]) == [c] + FlattenLevels([]);
    assert FlattenLevels([c]) == [c];
    assert FlattenLevels(second) == [a, d] + FlattenLevels([c]);
    assert FlattenLevels(second) == [a, d, c];
    assert FlattenLevels(first) == [b] + FlattenLevels(second);
    assert FlattenLevels(first) == [b, a, d, c];
    assert Flatten(TwoLevelTree(a, b, c, d)) == FlattenLevels(first);
  }
}
