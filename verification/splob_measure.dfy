/**
 * The model-size figures SPLOB reads from its members: the per-instance
 * Page-Hinkley input and the "[avg] tree size (nodes)" measurement.
 */
module SplobMeasure {
  import opened Wrappers

  /** What the ensemble can see of one member's learner. */
  datatype ModelSize =
    | Tree(nodes: nat)          // a Hoeffding tree or Hoeffding adaptive tree
    | Forest(trees: seq<nat>)   // an adaptive random forest, one node count per tree
    | Opaque                    // any other learner

  /** The node count of a forest: the sum of its trees' node counts. */
  function TotalNodes(xs: seq<nat>): nat
  {
    if |xs| == 0 then 0 else TotalNodes(xs[..|xs| - 1]) + xs[|xs| - 1]
  }

  /**
   * The value fed to the Page-Hinkley detector: the node count of a tree, the
   * integer mean node count of a forest (`int` division), 0 otherwise. A forest
   * without trees divides by zero.
   */
  function ComplexitySignal(size: ModelSize): (r: Result<int>)
    ensures r.Failure? <==> size.Forest? && |size.trees| == 0
    ensures r.Success? ==> r.value >= 0
    ensures size.Tree? ==> r == Success(size.nodes)
    ensures size.Opaque? ==> r == Success(0)
    // the forest's mean, rounded down
    ensures size.Forest? && r.Success? ==>
      r.value * |size.trees| <= TotalNodes(size.trees) < (r.value + 1) * |size.trees|
  {
    match size
    case Tree(n) => Success(n)
    case Forest(ts) => if |ts| == 0 then Failure(DivisionByZero) else Success(TotalNodes(ts) / |ts|)
    case Opaque => Success(0)
  }

  /** Some member is a forest without trees, so some division has no defined result. */
  predicate HasEmptyForest(sizes: seq<ModelSize>)
  {
    exists i :: 0 <= i < |sizes| && sizes[i] == Forest([])
  }

  lemma EmptyForestCons(sizes: seq<ModelSize>)
    requires |sizes| > 0
    ensures HasEmptyForest(sizes) <==> sizes[0] == Forest([]) || HasEmptyForest(sizes[1..])
  {
    if HasEmptyForest(sizes) && sizes[0] != Forest([]) {
      var i :| 0 <= i < |sizes| && sizes[i] == Forest([]);
      assert sizes[1..][i - 1] == sizes[i];
    }
    if HasEmptyForest(sizes[1..]) {
      var i :| 0 <= i < |sizes[1..]| && sizes[1..][i] == Forest([]);
      assert sizes[i + 1] == sizes[1..][i];
    }
  }

  lemma SumPair(a: nat, b: nat)
    ensures TotalNodes([a, b]) == a + b
  {
    var one: seq<nat> := [a];
    assert [a, b][..1] == one;
    assert one[..0] == [];
    assert TotalNodes(one) == a;
  }

  /**
   * The measurement loop as written: a forest divides the running total,
   * including the sizes of the members before it, by its tree count. `None`
   * stands for the infinite or NaN double that a forest without trees gives.
   */
  function AccumulateAsWritten(sizes: seq<ModelSize>, total: real): (r: Option<real>)
    ensures r.None? <==> HasEmptyForest(sizes)
    ensures total >= 0.0 && r.Some? ==> r.value >= 0.0
    decreases |sizes|
  {
    if |sizes| == 0 then Some(total)
    else
      EmptyForestCons(sizes);
      match sizes[0]
      case Tree(n) => AccumulateAsWritten(sizes[1..], total + n as real)
      case Forest(ts) =>
        if |ts| == 0 then None
        else AccumulateAsWritten(sizes[1..], (total + TotalNodes(ts) as real) / |ts| as real)
      case Opaque => AccumulateAsWritten(sizes[1..], total)
  }

  /** `getModelMeasurementsImpl` as written: the running total over the ensemble size. */
  function MeasureAsWritten(sizes: seq<ModelSize>, ensembleSize: int): (r: Option<real>)
    requires ensembleSize >= 1
    ensures r.None? <==> HasEmptyForest(sizes)
    ensures r.Some? ==> r.value >= 0.0
  {
    match AccumulateAsWritten(sizes, 0.0)
    case None => None
    case Some(t) => Some(t / ensembleSize as real)
  }

  /** The members of a SPLOB ensemble are copies of one base learner, so with forests every
      member is a forest with the same number of trees; even then the figure depends on the
      order of the members. */
  lemma MeasureAsWrittenDependsOnOrder()
    ensures MeasureAsWritten([Forest([4, 4]), Forest([2, 2])], 2) == Some(2.0)
    ensures MeasureAsWritten([Forest([2, 2]), Forest([4, 4])], 2) == Some(2.5)
  {
    SumPair(4, 4);
    SumPair(2, 2);
    assert [Forest([4, 4]), Forest([2, 2])][1..] == [Forest([2, 2])];
    assert [Forest([2, 2]), Forest([4, 4])][1..] == [Forest([4, 4])];
  }

  /** Two equal forests of two 4-node trees: the code as written reports 3.0, not 4.0. */
  lemma MeasureAsWrittenUndercounts()
    ensures MeasureAsWritten([Forest([4, 4]), Forest([4, 4])], 2) == Some(3.0)
    ensures MeanTreeSize([Forest([4, 4]), Forest([4, 4])], 2) == Some(4.0)
  {
    SumPair(4, 4);
    assert [Forest([4, 4]), Forest([4, 4])][1..] == [Forest([4, 4])];
  }

  /** One member's tree size: a forest counts with its mean tree size. */
  function MemberTreeSize(size: ModelSize): Option<real>
  {
    match size
    case Tree(n) => Some(n as real)
    case Forest(ts) => if |ts| == 0 then None else Some(TotalNodes(ts) as real / |ts| as real)
    case Opaque => Some(0.0)
  }

  function AddOpt(a: Option<real>, b: Option<real>): Option<real>
  {
    if a.Some? && b.Some? then Some(a.value + b.value) else None
  }

  /** The sum over the members of each member's tree size. */
  function TotalTreeSize(sizes: seq<ModelSize>): (r: Option<real>)
    ensures r.None? <==> HasEmptyForest(sizes)
    ensures r.Some? ==> r.value >= 0.0
    decreases |sizes|
  {
    if |sizes| == 0 then Some(0.0)
    else
      EmptyForestCons(sizes);
      AddOpt(MemberTreeSize(sizes[0]), TotalTreeSize(sizes[1..]))
  }

  /** The measurement as evidently intended: mean over the members of each member's tree size. */
  function MeanTreeSize(sizes: seq<ModelSize>, ensembleSize: int): (r: Option<real>)
    requires ensembleSize >= 1
    ensures r.None? <==> HasEmptyForest(sizes)
    ensures r.Some? ==> r.value >= 0.0
  {
    match TotalTreeSize(sizes)
    case None => None
    case Some(t) => Some(t / ensembleSize as real)
  }

  /** The total is additive over a split of the members. */
  lemma {:induction false} TotalTreeSizeAppend(a: seq<ModelSize>, b: seq<ModelSize>)
    ensures TotalTreeSize(a + b) == AddOpt(TotalTreeSize(a), TotalTreeSize(b))
    decreases |a|
  {
    if |a| == 0 {
      assert a + b == b;
    } else {
      assert (a + b)[0] == a[0];
      assert (a + b)[1..] == a[1..] + b;
      TotalTreeSizeAppend(a[1..], b);
    }
  }

  lemma AddOptSwap(p: Option<real>, q: Option<real>, r: Option<real>)
    ensures AddOpt(p, AddOpt(q, r)) == AddOpt(q, AddOpt(p, r))
  {
  }

  /** Taking the same member out of two permutations of each other leaves permutations. */
  lemma MultisetRemove<T>(a: seq<T>, b: seq<T>, k: int)
    requires |a| > 0 && 0 <= k < |b| && b[k] == a[0]
    requires multiset(a) == multiset(b)
    ensures multiset(a[1..]) == multiset(b[..k] + b[k + 1..])
  {
    var x := a[0];
    var rest := b[..k] + b[k + 1..];
    assert a == [x] + a[1..];
    assert b == b[..k] + [x] + b[k + 1..];
    assert multiset(a) == multiset(a[1..]) + multiset{x};
    assert multiset(b) == multiset(rest) + multiset{x};
    assert multiset(a[1..]) == multiset(a) - multiset{x};
    assert multiset(rest) == multiset(b) - multiset{x};
  }

  /** The intended total is the same for any reordering of the members. */
  lemma {:induction false} TotalTreeSizePermutation(a: seq<ModelSize>, b: seq<ModelSize>)
    requires multiset(a) == multiset(b)
    ensures TotalTreeSize(a) == TotalTreeSize(b)
    decreases |a|
  {
    if |a| == 0 {
      assert |b| == |multiset(b)| == 0;
    } else {
      var x := a[0];
      assert x in multiset(b) by {
        assert a == [x] + a[1..];
        assert x in multiset(a);
      }
      var k :| 0 <= k < |b| && b[k] == x;
      var l, r := b[..k], b[k + 1..];
      assert b == l + ([x] + r);
      MultisetRemove(a, b, k);
      TotalTreeSizePermutation(a[1..], l + r);
      TotalTreeSizeAppend(l, [x] + r);
      TotalTreeSizeAppend(l, r);
      assert ([x] + r)[1..] == r;
      AddOptSwap(TotalTreeSize(l), MemberTreeSize(x), TotalTreeSize(r));
    }
  }

  /** The intended measurement does not depend on the order of the members: any
      permutation of them gives the same figure. */
  lemma MeanTreeSizeOrderFree(a: seq<ModelSize>, b: seq<ModelSize>, ensembleSize: int)
    requires ensembleSize >= 1
    requires multiset(a) == multiset(b)
    ensures MeanTreeSize(a, ensembleSize) == MeanTreeSize(b, ensembleSize)
  {
    TotalTreeSizePermutation(a, b);
  }

  /** The running total without forests is the plain sum of the members' sizes. */
  lemma {:induction false} AccumulateWithoutForests(sizes: seq<ModelSize>, total: real)
    requires forall i :: 0 <= i < |sizes| ==> !sizes[i].Forest?
    ensures TotalTreeSize(sizes).Some?
    ensures AccumulateAsWritten(sizes, total) == Some(total + TotalTreeSize(sizes).value)
    decreases |sizes|
  {
    if |sizes| > 0 {
      assert !sizes[0].Forest?;
      var t := total + MemberTreeSize(sizes[0]).value;
      assert AccumulateAsWritten(sizes, total) == AccumulateAsWritten(sizes[1..], t);
      assert TotalTreeSize(sizes) == AddOpt(MemberTreeSize(sizes[0]), TotalTreeSize(sizes[1..]));
      assert forall i :: 0 <= i < |sizes[1..]| ==> sizes[1..][i] == sizes[i + 1];
      AccumulateWithoutForests(sizes[1..], t);
    }
  }

  /** Without forests (an ensemble of Hoeffding trees) the code as written and the intended
      figure agree. */
  lemma MeasureAgreesWithoutForests(sizes: seq<ModelSize>, ensembleSize: int)
    requires ensembleSize >= 1
    requires forall i :: 0 <= i < |sizes| ==> !sizes[i].Forest?
    ensures MeasureAsWritten(sizes, ensembleSize) == MeanTreeSize(sizes, ensembleSize)
  {
    AccumulateWithoutForests(sizes, 0.0);
  }

  /** The intended figure for the order example: 3.0 either way. */
  lemma MeanTreeSizeExample()
    ensures MeanTreeSize([Forest([4, 4]), Forest([2, 2])], 2) == Some(3.0)
    ensures MeanTreeSize([Forest([2, 2]), Forest([4, 4])], 2) == Some(3.0)
  {
    SumPair(4, 4);
    SumPair(2, 2);
    assert [Forest([4, 4]), Forest([2, 2])][1..] == [Forest([2, 2])];
    assert [Forest([2, 2]), Forest([4, 4])][1..] == [Forest([4, 4])];
  }
}
