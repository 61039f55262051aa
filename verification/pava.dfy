/** Pool-adjacent-violators (aura/core/stats.py): the pooling loop, and why its output is the one best
    non-decreasing fit in weighted least squares. */
module Pava {
  import opened Wrappers
  import opened Indicators

  /** A bin or a pooled block: centre, weight and mean. */
  datatype Block = Block(s: real, w: real, y: real)

  function Weight(g: seq<Block>): real {
    if g == [] then 0.0 else Weight(Front(g)) + Last(g).w
  }

  /** The weighted sum of the means. */
  function Mass(g: seq<Block>): real {
    if g == [] then 0.0 else Mass(Front(g)) + Last(g).w * Last(g).y
  }

  predicate PositiveWeights(g: seq<Block>) {
    forall i :: 0 <= i < |g| ==> g[i].w > 0.0
  }

  predicate IncreasingCentres(g: seq<Block>) {
    forall i, j :: 0 <= i < j < |g| ==> g[i].s < g[j].s
  }

  predicate NonDecreasing(x: seq<real>) {
    forall i, j :: 0 <= i <= j < |x| ==> x[i] <= x[j]
  }

  function Pool(a: Block, b: Block): Block
    requires a.w > 0.0 && b.w > 0.0
  {
    var w := a.w + b.w;
    Block((a.w * a.s + b.w * b.s) / w, w, (a.w * a.y + b.w * b.y) / w)
  }

  /** A block stands for a group of consecutive bins: it keeps their weight and mass, and every initial part of the
      group has at least the block's mean. */
  ghost predicate Stands(b: Block, g: seq<Block>) {
    && g != [] && PositiveWeights(g)
    && b.w == Weight(g) && b.w > 0.0 && b.w * b.y == Mass(g)
    && g[0].s <= b.s <= Last(g).s
    && forall k :: 0 <= k <= |g| ==> HeavyStart(g, b.y, k)
  }

  predicate HeavyStart(g: seq<Block>, y: real, k: nat)
    requires k <= |g|
  {
    Mass(g[..k]) >= y * Weight(g[..k])
  }

  lemma {:induction false} SumsOfAppend(a: seq<Block>, b: seq<Block>)
    ensures Weight(a + b) == Weight(a) + Weight(b) && Mass(a + b) == Mass(a) + Mass(b)
  {
    if b == [] {
      assert a + b == a;
    } else {
      assert Front(a + b) == a + Front(b);
      SumsOfAppend(a, Front(b));
    }
  }

  lemma {:induction false} WeightGrows(g: seq<Block>, k: nat)
    requires k <= |g| && PositiveWeights(g)
    ensures 0.0 <= Weight(g[..k]) <= Weight(g)
    decreases |g|
  {
    if k < |g| {
      WeightGrows(Front(g), k);
      assert Front(g)[..k] == g[..k];
    } else {
      assert g[..k] == g;
      if g != [] {
        WeightGrows(Front(g), |g| - 1);
        assert Front(g)[..|g| - 1] == Front(g);
      }
    }
  }

  /** The weighted mean of two values lies between them. */
  lemma MeanBetween(w1: real, y1: real, w2: real, y2: real, y: real)
    requires w1 > 0.0 && w2 > 0.0 && y2 <= y1
    requires y == (w1 * y1 + w2 * y2) / (w1 + w2)
    ensures y2 <= y <= y1
    ensures y * (w1 + w2) == w1 * y1 + w2 * y2
    ensures y2 < y1 ==> y2 < y < y1
  {
    var w, total := w1 + w2, w1 * y1 + w2 * y2;
    DivMul(total, w);
    MulMono(y2, y1, w1);
    MulMono(y2, y1, w2);
    Quotient(y2, total, w);
    Quotient(y1, total, w);
    if y2 < y1 {
      MulStrict(y2, y1, w1);
      MulStrict(y2, y1, w2);
      assert y != y2 && y != y1 by { assert y * w == total; assert y2 * w < total < y1 * w; }
    }
  }

  /** Initial parts that end inside the second group stay heavy. */
  lemma HeavyAcross(w1: real, y1: real, w2: real, y2: real, y: real, mass: real, weight: real)
    requires y2 <= y && y * (w1 + w2) == w1 * y1 + w2 * y2
    requires mass >= y2 * weight && weight <= w2
    ensures w1 * y1 + mass >= y * (w1 + weight)
  {
    MulMono(y2, y, w2 - weight);
    assert w1 * y1 + mass >= y * (w1 + w2) - y2 * (w2 - weight);
  }

  lemma StartIsHeavy(b: Block, g: seq<Block>, k: nat)
    requires Stands(b, g) && k <= |g|
    ensures Mass(g[..k]) >= b.y * Weight(g[..k]) && 0.0 <= Weight(g[..k]) <= b.w
    ensures b.w == Weight(g) && b.w * b.y == Mass(g)
  {
    assert HeavyStart(g, b.y, k);
    WeightGrows(g, k);
  }

  lemma IsHeavy(g: seq<Block>, y: real, k: nat, mass: real, weight: real)
    requires k <= |g| && Mass(g[..k]) == mass && Weight(g[..k]) == weight && mass >= y * weight
    ensures HeavyStart(g, y, k)
  {
  }

  lemma HeavyStartAppend(g1: seq<Block>, g2: seq<Block>, b1: Block, b2: Block, y: real, k: nat)
    requires Stands(b1, g1) && Stands(b2, g2)
    requires b2.y <= y <= b1.y && y * (b1.w + b2.w) == b1.w * b1.y + b2.w * b2.y
    requires k <= |g1 + g2|
    ensures HeavyStart(g1 + g2, y, k)
  {
    hide *;
    var g := g1 + g2;
    if k <= |g1| {
      assert g[..k] == g1[..k];
      StartIsHeavy(b1, g1, k);
      MulMono(y, b1.y, Weight(g1[..k]));
      IsHeavy(g, y, k, Mass(g1[..k]), Weight(g1[..k]));
    } else {
      var q := g2[..k - |g1|];
      assert g[..k] == g1 + q;
      SumsOfAppend(g1, q);
      StartIsHeavy(b1, g1, 0);
      StartIsHeavy(b2, g2, k - |g1|);
      HeavyAcross(b1.w, b1.y, b2.w, b2.y, y, Mass(q), Weight(q));
      IsHeavy(g, y, k, b1.w * b1.y + Mass(q), b1.w + Weight(q));
    }
  }

  /** Pooling two violating neighbours stands for both groups together. */
  lemma PoolStands(b1: Block, g1: seq<Block>, b2: Block, g2: seq<Block>)
    requires Stands(b1, g1) && Stands(b2, g2) && b1.y > b2.y
    requires Last(g1).s <= g2[0].s
    ensures Stands(Pool(b1, b2), g1 + g2)
  {
    hide HeavyStart, Pool, Weight, Mass;
    var b := Pool(b1, b2);
    StandsKeeps(b1, g1);
    StandsKeeps(b2, g2);
    PoolBetween(b1, b2);
    PoolConserves(b1, b2);
    CentreBetween(b1, b2);
    forall k | 0 <= k <= |g1 + g2|
      ensures HeavyStart(g1 + g2, b.y, k)
    {
      HeavyStartAppend(g1, g2, b1, b2, b.y, k);
    }
    SumsOfAppend(g1, g2);
    assert Last(g1 + g2) == Last(g2) && (g1 + g2)[0] == g1[0];
  }

  lemma PoolBetween(b1: Block, b2: Block)
    requires b1.w > 0.0 && b2.w > 0.0 && b1.y > b2.y
    ensures b2.y <= Pool(b1, b2).y <= b1.y
  {
    MeanBetween(b1.w, b1.y, b2.w, b2.y, Pool(b1, b2).y);
  }

  lemma PoolConserves(b1: Block, b2: Block)
    requires b1.w > 0.0 && b2.w > 0.0
    ensures var b := Pool(b1, b2); b.w == b1.w + b2.w && b.w * b.y == b1.w * b1.y + b2.w * b2.y
  {
  }

  lemma CentreBetween(a: Block, b: Block)
    requires a.w > 0.0 && b.w > 0.0 && a.s <= b.s
    ensures a.s <= Pool(a, b).s <= b.s
  {
    MeanBetween(b.w, b.s, a.w, a.s, Pool(a, b).s);
  }

  // ---------- the grouping ----------

  function Flatten(groups: seq<seq<Block>>): seq<Block> {
    if groups == [] then [] else Flatten(Front(groups)) + Last(groups)
  }

  /** The blocks stand for consecutive groups of the bins. */
  ghost predicate Pooling(blocks: seq<Block>, groups: seq<seq<Block>>, bins: seq<Block>) {
    Flatten(groups) == bins && AllStand(blocks, groups) && Ordered(groups)
  }

  lemma Regroup(a: seq<Block>, b: seq<Block>, c: seq<Block>)
    ensures a + b + c == a + (b + c)
  {
  }

  lemma {:induction false} FlattenAppend(a: seq<seq<Block>>, b: seq<seq<Block>>)
    ensures Flatten(a + b) == Flatten(a) + Flatten(b)
  {
    if b == [] {
      assert a + b == a;
    } else {
      var f := Front(b);
      assert Front(a + b) == a + f && Last(a + b) == Last(b);
      FlattenAppend(a, f);
      Regroup(Flatten(a), Flatten(f), Last(b));
    }
  }

  function Merged<T>(xs: seq<T>, i: nat, x: T): seq<T>
    requires i + 1 < |xs|
  {
    xs[..i] + [x] + xs[i + 2..]
  }

  lemma FlattenMerged(groups: seq<seq<Block>>, i: nat)
    requires i + 1 < |groups|
    ensures Flatten(Merged(groups, i, groups[i] + groups[i + 1])) == Flatten(groups)
  {
    hide Flatten;
    var g, h := groups[i], groups[i + 1];
    var pre, post := groups[..i], groups[i + 2..];
    assert groups == pre + [g, h] + post;
    FlattenPair(g, h);
    FlattenAppend(pre + [g, h], post);
    FlattenAppend(pre, [g, h]);
    FlattenAppend(pre + [g + h], post);
    FlattenAppend(pre, [g + h]);
  }

  lemma FlattenPair(g: seq<Block>, h: seq<Block>)
    ensures Flatten([g, h]) == g + h && Flatten([g + h]) == g + h
  {
    assert Front([g, h]) == [g] && Front([g]) == [] && Front([g + h]) == [];
    assert Flatten([g]) == [] + g;
  }

  ghost predicate AllStand(blocks: seq<Block>, groups: seq<seq<Block>>) {
    |blocks| == |groups| && forall i :: 0 <= i < |blocks| ==> Stands(blocks[i], groups[i])
  }

  predicate Before(g: seq<Block>, h: seq<Block>) {
    g != [] && h != [] && Last(g).s < h[0].s
  }

  predicate Ordered(groups: seq<seq<Block>>) {
    forall i, j :: 0 <= i < j < |groups| ==> Before(groups[i], groups[j])
  }

  lemma MergeKeepsStands(blocks: seq<Block>, groups: seq<seq<Block>>, i: nat, b: Block, g: seq<Block>)
    requires AllStand(blocks, groups) && i + 1 < |blocks| && Stands(b, g)
    ensures AllStand(Merged(blocks, i, b), Merged(groups, i, g))
  {
    hide Stands;
    var bs, gs := Merged(blocks, i, b), Merged(groups, i, g);
    forall k | 0 <= k < |bs|
      ensures Stands(bs[k], gs[k])
    {
      if k > i { assert bs[k] == blocks[k + 1] && gs[k] == groups[k + 1]; }
    }
  }

  lemma MergeKeepsOrder(groups: seq<seq<Block>>, i: nat)
    requires Ordered(groups) && i + 1 < |groups|
    ensures Ordered(Merged(groups, i, groups[i] + groups[i + 1]))
  {
    var gs := Merged(groups, i, groups[i] + groups[i + 1]);
    assert Before(groups[i], groups[i + 1]);
    forall a, b | 0 <= a < b < |gs|
      ensures Before(gs[a], gs[b])
    {
      var a', b' := if a < i then a else a + 1, if b <= i then b else b + 1;
      assert Before(groups[a'], groups[b']);
      assert Last(gs[a]) == Last(groups[a']) && gs[b][0] == groups[b'][0];
    }
  }

  lemma MergeKeepsPooling(blocks: seq<Block>, groups: seq<seq<Block>>, bins: seq<Block>, i: nat)
    requires Pooling(blocks, groups, bins) && i + 1 < |blocks| && blocks[i].y > blocks[i + 1].y
    ensures blocks[i].w > 0.0 && blocks[i + 1].w > 0.0
    ensures Pooling(
              Merged(blocks, i, Pool(blocks[i], blocks[i + 1])), Merged(groups, i, groups[i] + groups[i + 1]), bins)
  {
    StandsKeeps(blocks[i], groups[i]);
    StandsKeeps(blocks[i + 1], groups[i + 1]);
    hide Flatten, Stands, Pool;
    assert Before(groups[i], groups[i + 1]);
    hide AllStand, Ordered;
    PoolStands(blocks[i], groups[i], blocks[i + 1], groups[i + 1]);
    FlattenMerged(groups, i);
    MergeKeepsStands(blocks, groups, i, Pool(blocks[i], blocks[i + 1]), groups[i] + groups[i + 1]);
    MergeKeepsOrder(groups, i);
  }

  function Singletons(bins: seq<Block>): seq<seq<Block>> {
    seq(|bins|, i requires 0 <= i < |bins| => [bins[i]])
  }

  lemma {:induction false} FlattenSingletons(bins: seq<Block>)
    ensures Flatten(Singletons(bins)) == bins
  {
    if bins != [] {
      FlattenSingletons(Front(bins));
      assert Front(Singletons(bins)) == Singletons(Front(bins));
    }
  }

  lemma BinStands(b: Block)
    requires b.w > 0.0
    ensures Stands(b, [b])
  {
    assert Front([b]) == [] && [b][..0] == [] && [b][..1] == [b];
    assert Mass([]) == 0.0 && Weight([]) == 0.0;
    assert Mass([b]) == 0.0 + b.w * b.y;
    assert HeavyStart([b], b.y, 0) && HeavyStart([b], b.y, 1);
  }

  lemma BinsPool(bins: seq<Block>)
    requires PositiveWeights(bins) && IncreasingCentres(bins)
    ensures Pooling(bins, Singletons(bins), bins)
  {
    FlattenSingletons(bins);
    hide Flatten, Stands;
    forall i | 0 <= i < |bins|
      ensures Stands(bins[i], Singletons(bins)[i])
    {
      BinStands(bins[i]);
    }
  }

  lemma UpdateAndPop<T>(xs: seq<T>, i: nat, x: T)
    requires i + 1 < |xs|
    ensures var ys := xs[i := x]; ys[..i + 1] + ys[i + 2..] == Merged(xs, i, x)
  {
  }

  predicate SortedUpTo(blocks: seq<Block>, n: int) {
    forall j :: 0 <= j < n && j + 1 < |blocks| ==> blocks[j].y <= blocks[j + 1].y
  }

  /** Replace violating neighbours by their pool and step back, until no violation is left. */
  method PoolViolators(bins: seq<Block>) returns (blocks: seq<Block>, ghost groups: seq<seq<Block>>)
    requires PositiveWeights(bins) && IncreasingCentres(bins)
    ensures Pooling(blocks, groups, bins)
    ensures SortedUpTo(blocks, |blocks| - 1)
    ensures IncreasingCentres(blocks)
  {
    blocks, groups := bins, Singletons(bins);
    BinsPool(bins);
    hide Pooling, Pool;
    var i := 0;
    while i < |blocks| - 1
      invariant 0 <= i && (i < |blocks| || blocks == [])
      invariant Pooling(blocks, groups, bins)
      invariant SortedUpTo(blocks, i)
      decreases 2 * |blocks| - i
    {
      PoolingShape(blocks, groups, bins);
      if blocks[i].y > blocks[i + 1].y {
        MergeKeepsPooling(blocks, groups, bins, i);
        groups := Merged(groups, i, groups[i] + groups[i + 1]);
        UpdateAndPop(blocks, i, Pool(blocks[i], blocks[i + 1]));
        blocks := blocks[i := Pool(blocks[i], blocks[i + 1])];
        blocks := blocks[..i + 1] + blocks[i + 2..];
        if i > 0 {
          i := i - 1;
        }
      } else {
        i := i + 1;
      }
    }
    PoolingShape(blocks, groups, bins);
  }

  lemma PoolingShape(blocks: seq<Block>, groups: seq<seq<Block>>, bins: seq<Block>)
    requires Pooling(blocks, groups, bins)
    ensures |groups| == |blocks| && PositiveWeights(blocks) && IncreasingCentres(blocks)
  {
    hide Flatten;
    forall i, j | 0 <= i < j < |blocks|
      ensures blocks[i].s < blocks[j].s
    {
      assert Stands(blocks[i], groups[i]) && Stands(blocks[j], groups[j]) && Before(groups[i], groups[j]);
    }
    forall i | 0 <= i < |blocks|
      ensures blocks[i].w > 0.0
    {
      assert Stands(blocks[i], groups[i]);
    }
  }

  // ---------- conservation ----------

  /** Pooling keeps the total weight and the weighted sum of the bins. */
  lemma {:induction false} PoolingConserves(blocks: seq<Block>, groups: seq<seq<Block>>, bins: seq<Block>)
    requires Pooling(blocks, groups, bins)
    ensures Weight(blocks) == Weight(bins) && Mass(blocks) == Mass(bins)
    decreases |blocks|
  {
    if blocks != [] {
      FrontPools(blocks, groups, bins);
      StandsKeeps(Last(blocks), Last(groups));
      hide Pooling, Stands, Flatten;
      PoolingConserves(Front(blocks), Front(groups), Flatten(Front(groups)));
      SumsOfAppend(Flatten(Front(groups)), Last(groups));
    } else {
      assert Weight(bins) == Weight(Flatten([])) == 0.0;
    }
  }

  lemma StandsKeeps(b: Block, g: seq<Block>)
    requires Stands(b, g)
    ensures b.w > 0.0 && b.w == Weight(g) && b.w * b.y == Mass(g) && PositiveWeights(g) && g != []
    ensures g[0].s <= b.s <= Last(g).s
  {
    hide HeavyStart;
  }

  lemma FrontPools(blocks: seq<Block>, groups: seq<seq<Block>>, bins: seq<Block>)
    requires Pooling(blocks, groups, bins) && blocks != []
    ensures groups != [] && Pooling(Front(blocks), Front(groups), Flatten(Front(groups)))
    ensures |groups| == |blocks|
    ensures bins == Flatten(Front(groups)) + Last(groups) && Stands(Last(blocks), Last(groups))
  {
    hide Stands;
  }

  // ---------- the best fit ----------

  function Repeat(y: real, n: nat): seq<real> {
    seq(n, _ => y)
  }

  /** The fitted value of every bin. */
  function Fit(blocks: seq<Block>, groups: seq<seq<Block>>): seq<real>
    requires |blocks| == |groups|
  {
    if blocks == [] then [] else Fit(Front(blocks), Front(groups)) + Repeat(Last(blocks).y, |Last(groups)|)
  }

  lemma {:induction false} FitLength(blocks: seq<Block>, groups: seq<seq<Block>>)
    requires |blocks| == |groups|
    ensures |Fit(blocks, groups)| == |Flatten(groups)|
  {
    if blocks != [] {
      FitLength(Front(blocks), Front(groups));
    }
  }

  lemma {:induction false} SortedChain(blocks: seq<Block>, i: int, j: int)
    requires SortedUpTo(blocks, |blocks| - 1) && 0 <= i <= j < |blocks|
    ensures blocks[i].y <= blocks[j].y
    decreases j
  {
    if i < j {
      SortedChain(blocks, i, j - 1);
      assert blocks[j - 1].y <= blocks[j - 1 + 1].y;
    }
  }

  /** Every fitted value is the mean of some block, no larger than the last one, and the fit does not decrease. */
  lemma {:induction false} FitNonDecreasing(blocks: seq<Block>, groups: seq<seq<Block>>)
    requires |blocks| == |groups| && SortedUpTo(blocks, |blocks| - 1)
    ensures NonDecreasing(Fit(blocks, groups))
    ensures blocks != [] ==> forall k :: 0 <= k < |Fit(blocks, groups)| ==> Fit(blocks, groups)[k] <= Last(blocks).y
  {
    if blocks != [] {
      FitNonDecreasing(Front(blocks), Front(groups));
      if |blocks| > 1 {
        SortedChain(blocks, |blocks| - 2, |blocks| - 1);
        assert Last(Front(blocks)) == blocks[|blocks| - 2];
      }
    }
  }

  function Square(x: real): real {
    x * x
  }

  /** Weighted squared distance of a fit from the bins. */
  function Cost(g: seq<Block>, x: seq<real>): real
    requires |x| == |g|
  {
    if g == [] then 0.0 else Cost(Front(g), Front(x)) + Term(Last(g).w, Last(g).y - Last(x))
  }

  /** Weighted squared distance of two fits. */
  function Distance(g: seq<Block>, x: seq<real>, z: seq<real>): real
    requires |x| == |z| == |g|
  {
    if g == [] then 0.0 else Distance(Front(g), Front(x), Front(z)) + Term(Last(g).w, Last(x) - Last(z))
  }

  /** Sum of the deviations from `y`, weighted with `x`. */
  function Tilt(g: seq<Block>, x: seq<real>, y: real): real
    requires |x| == |g|
  {
    if g == [] then 0.0 else Tilt(Front(g), Front(x), y) + Last(g).w * (Last(g).y - y) * Last(x)
  }

  function Deviation(g: seq<Block>, y: real): real {
    Mass(g) - y * Weight(g)
  }

  /** Summation by parts: with heavy starts, the tilt of a non-decreasing sequence is at most the deviation times its
      last value. */
  lemma {:induction false} TiltBound(g: seq<Block>, x: seq<real>, y: real)
    requires |x| == |g| && g != [] && NonDecreasing(x)
    requires forall k :: 0 <= k <= |g| ==> HeavyStart(g, y, k)
    ensures Tilt(g, x, y) <= Deviation(g, y) * Last(x)
    decreases |g|
  {
    TiltStep(g, x, y);
    DeviationStep(g, y);
    hide Tilt, Deviation, HeavyStart;
    var f, d := Front(g), Last(g).w * (Last(g).y - y);
    if f == [] {
      NoDeviation(y);
      assert Front(x) == [];
      Outweighs(0.0, 0.0, d, Last(x), Last(x));
    } else {
      forall k | 0 <= k <= |f|
        ensures HeavyStart(f, y, k)
      {
        HeavyPrefix(g, y, k);
      }
      TiltBound(f, Front(x), y);
      HeavyDeviates(f, y);
      Outweighs(Tilt(f, Front(x), y), Deviation(f, y), d, Last(Front(x)), Last(x));
    }
  }

  lemma Outweighs(t: real, a: real, b: real, x: real, x': real)
    requires t <= a * x && a >= 0.0 && x <= x'
    ensures t + b * x' <= (a + b) * x'
  {
    MulMono(x, x', a);
  }

  lemma TiltStep(g: seq<Block>, x: seq<real>, y: real)
    requires |x| == |g| && g != []
    ensures Tilt(g, x, y) == Tilt(Front(g), Front(x), y) + Last(g).w * (Last(g).y - y) * Last(x)
  {
  }

  lemma DeviationStep(g: seq<Block>, y: real)
    requires g != []
    ensures Deviation(g, y) == Deviation(Front(g), y) + Last(g).w * (Last(g).y - y)
  {
  }

  lemma NoDeviation(y: real)
    ensures Deviation([], y) == 0.0 && Tilt([], [], y) == 0.0
  {
  }

  lemma HeavyPrefix(g: seq<Block>, y: real, k: nat)
    requires g != [] && k < |g| && HeavyStart(g, y, k)
    ensures HeavyStart(Front(g), y, k)
  {
    assert Front(g)[..k] == g[..k];
    hide Mass, Weight;
  }

  lemma HeavyDeviates(g: seq<Block>, y: real)
    requires HeavyStart(g, y, |g|)
    ensures Deviation(g, y) >= 0.0
  {
    assert g[..|g|] == g;
    hide Mass, Weight;
  }

  function Term(w: real, d: real): real {
    w * Square(d)
  }

  /** How the deviations from `y` correlate with the fit's. */
  function Cross(g: seq<Block>, x: seq<real>, y: real): real
    requires |x| == |g|
  {
    Tilt(g, x, y) - y * Deviation(g, y)
  }

  function CrossTerm(w: real, v: real, x: real, y: real): real {
    w * (v - y) * x - y * (w * v - y * w)
  }

  /** Expanding the squares around the constant fit. */
  lemma {:induction false} CostAroundMean(g: seq<Block>, x: seq<real>, y: real)
    requires |x| == |g|
    ensures Cost(g, x) == Cost(g, Repeat(y, |g|)) + Distance(g, x, Repeat(y, |g|)) - 2.0 * Cross(g, x, y)
    decreases |g|
  {
    var z := Repeat(y, |g|);
    if g == [] {
      assert Deviation(g, y) == 0.0 && y * 0.0 == 0.0;
    } else {
      assert Front(z) == Repeat(y, |g| - 1) && Last(z) == y && |z| == |g|;
      assert |Front(x)| == |Front(g)| == |g| - 1;
      CostStep(g, x, Last(x));
      CostStep(g, z, y);
      DistanceStep(g, x, z, y);
      CrossStep(g, x, y);
      hide *;
      CostAroundMean(Front(g), Front(x), y);
      SquareExpansion(Last(g).w, Last(g).y, Last(x), y);
    }
  }

  lemma CostStep(g: seq<Block>, x: seq<real>, v: real)
    requires g != [] && |x| == |g| && Last(x) == v
    ensures Cost(g, x) == Cost(Front(g), Front(x)) + Term(Last(g).w, Last(g).y - v)
  {
    hide Term;
  }

  lemma DistanceStep(g: seq<Block>, x: seq<real>, z: seq<real>, v: real)
    requires g != [] && |x| == |g| == |z| && Last(z) == v
    ensures Distance(g, x, z) == Distance(Front(g), Front(x), Front(z)) + Term(Last(g).w, Last(x) - v)
  {
    hide Term;
  }

  lemma CrossStep(g: seq<Block>, x: seq<real>, y: real)
    requires g != [] && |x| == |g|
    ensures Cross(g, x, y) == Cross(Front(g), Front(x), y) + CrossTerm(Last(g).w, Last(g).y, Last(x), y)
  {
    var d, e := Deviation(Front(g), y), Last(g).w * Last(g).y - y * Last(g).w;
    assert Deviation(g, y) == d + e by {
      assert y * (Weight(Front(g)) + Last(g).w) == y * Weight(Front(g)) + y * Last(g).w;
    }
    hide Deviation;
    assert y * (d + e) == y * d + y * e;
  }

  lemma SquareExpansion(w: real, v: real, x: real, y: real)
    ensures Term(w, v - x) == Term(w, v - y) + Term(w, x - y) - 2.0 * CrossTerm(w, v, x, y)
  {
    var a, b := v - y, x - y;
    assert Square(v - x) == Square(a) + Square(b) - 2.0 * (a * b);
    assert w * (Square(a) + Square(b) - 2.0 * (a * b)) == w * Square(a) + w * Square(b) - 2.0 * (w * (a * b));
    assert w * (a * b) == w * a * x - w * a * y;
  }

  /** Within one group no non-decreasing sequence beats the block's mean. */
  lemma GroupGap(b: Block, g: seq<Block>, x: seq<real>)
    requires Stands(b, g) && |x| == |g| && NonDecreasing(x)
    ensures Cost(g, x) >= Cost(g, Repeat(b.y, |g|)) + Distance(g, x, Repeat(b.y, |g|))
  {
    hide Cost, Distance;
    TiltBound(g, x, b.y);
    CostAroundMean(g, x, b.y);
    assert Deviation(g, b.y) == 0.0;
  }

  lemma {:induction false} CostOfAppend(a: seq<Block>, b: seq<Block>, x: seq<real>, z: seq<real>)
    requires |x| == |a| && |z| == |b|
    ensures Cost(a + b, x + z) == Cost(a, x) + Cost(b, z)
    decreases |b|
  {
    if b == [] {
      assert a + b == a && x + z == x;
    } else {
      assert Front(a + b) == a + Front(b) && Front(x + z) == x + Front(z);
      CostOfAppend(a, Front(b), x, Front(z));
    }
  }

  lemma {:induction false} DistanceOfAppend(a: seq<Block>, b: seq<Block>, x: seq<real>, z: seq<real>, x': seq<real>,
                                            z': seq<real>)
    requires |x| == |x'| == |a| && |z| == |z'| == |b|
    ensures Distance(a + b, x + z, x' + z') == Distance(a, x, x') + Distance(b, z, z')
    decreases |b|
  {
    if b == [] {
      assert a + b == a && x + z == x && x' + z' == x';
    } else {
      assert Front(a + b) == a + Front(b) && Front(x + z) == x + Front(z) && Front(x' + z') == x' + Front(z');
      DistanceOfAppend(a, Front(b), x, Front(z), x', Front(z'));
    }
  }

  /** Every non-decreasing sequence costs at least as much as the pooled fit, and at least its own weighted squared
      distance from the fit more. */
  lemma {:induction false} FitIsBest(blocks: seq<Block>, groups: seq<seq<Block>>, bins: seq<Block>, x: seq<real>)
    requires Pooling(blocks, groups, bins)
    requires |x| == |bins| && NonDecreasing(x)
    ensures |Fit(blocks, groups)| == |bins|
    ensures Cost(bins, x) >= Cost(bins, Fit(blocks, groups)) + Distance(bins, x, Fit(blocks, groups))
    decreases |blocks|
  {
    FitLength(blocks, groups);
    if blocks != [] {
      FrontPools(blocks, groups, bins);
      hide Pooling, Stands;
      var f, last := Flatten(Front(groups)), Last(groups);
      var x1, x2 := x[..|f|], x[|f|..];
      var y1, y2 := Fit(Front(blocks), Front(groups)), Repeat(Last(blocks).y, |last|);
      assert x == x1 + x2;
      FitIsBest(Front(blocks), Front(groups), f, x1);
      GroupGap(Last(blocks), last, x2);
      CostOfAppend(f, last, x1, x2);
      CostOfAppend(f, last, y1, y2);
      DistanceOfAppend(f, last, x1, x2, y1, y2);
    }
  }

  lemma {:induction false} DistanceSeparates(g: seq<Block>, x: seq<real>, z: seq<real>)
    requires |x| == |z| == |g| && PositiveWeights(g)
    ensures Distance(g, x, z) >= 0.0
    ensures Distance(g, x, z) == 0.0 ==> x == z
    decreases |g|
  {
    if g != [] {
      DistanceSeparates(Front(g), Front(x), Front(z));
      WeightedSquare(Last(g).w, Last(x) - Last(z));
      assert x == Front(x) + [Last(x)] && z == Front(z) + [Last(z)];
    } else {
      assert x == z;
    }
  }

  lemma WeightedSquare(w: real, d: real)
    requires w > 0.0
    ensures w * Square(d) >= 0.0
    ensures d != 0.0 ==> w * Square(d) > 0.0
  {
    if d != 0.0 {
      SquarePositive(d);
      ProductPositive(w, Square(d), w * Square(d));
    }
  }

  lemma SquarePositive(d: real)
    requires d != 0.0
    ensures Square(d) > 0.0
  {
    if d > 0.0 {
      ProductPositive(d, d, Square(d));
    } else {
      assert Square(d) == (-d) * (-d);
      ProductPositive(-d, -d, Square(d));
    }
  }

  lemma ProductPositive(x: real, y: real, product: real)
    requires x > 0.0 && y > 0.0 && product == x * y
    ensures product > 0.0
  {
  }

  /** The calibration law: the loop's output is non-decreasing, keeps weight and weighted sum, and is the only best
      non-decreasing fit of the bins. */
  lemma PavaIsOptimal(blocks: seq<Block>, groups: seq<seq<Block>>, bins: seq<Block>)
    requires PositiveWeights(bins) && Pooling(blocks, groups, bins) && SortedUpTo(blocks, |blocks| - 1)
    ensures var fit := Fit(blocks, groups);
            && |fit| == |bins| && NonDecreasing(fit)
            && Weight(blocks) == Weight(bins) && Mass(blocks) == Mass(bins)
            && forall x: seq<real> :: |x| == |bins| && NonDecreasing(x) ==>
                 Cost(bins, fit) <= Cost(bins, x) && (Cost(bins, x) == Cost(bins, fit) ==> x == fit)
  {
    var fit := Fit(blocks, groups);
    FitLength(blocks, groups);
    FitNonDecreasing(blocks, groups);
    PoolingConserves(blocks, groups, bins);
    forall x: seq<real> | |x| == |bins| && NonDecreasing(x)
      ensures Cost(bins, fit) <= Cost(bins, x) && (Cost(bins, x) == Cost(bins, fit) ==> x == fit)
    {
      FitIsBest(blocks, groups, bins, x);
      DistanceSeparates(bins, x, fit);
    }
  }
}
