/**
 * The coverage and recommendation engine of bot/metrics.py.
 *
 * Python dicts become a `map` together with a sequence that records their iteration
 * (insertion) order. The region set that `_weights` iterates is enumerated in the order
 * regions first appear; with exact real arithmetic the sums do not depend on that order
 * (GlobalSpeedOrderIndependent).
 */
module Metrics {
  import opened Outcomes
  import opened Sums
  import opened StableSort
  import opened Records

  // ---------------------------------------------------------------------------------------
  // Dict helpers
  // ---------------------------------------------------------------------------------------

  /** A time lookup that defaults to unreachable, as both the dict reads and the `defaultdict` reads do. */
  function Lookup(m: map<Region, Time>, r: Region): Time
  {
    if r in m then m[r] else Unreachable
  }

  /** A lookup that defaults to 0. */
  function Get0(m: map<Region, real>, r: Region): real
  {
    if r in m then m[r] else 0.0
  }

  /** Appends `k` unless it is already there: how a dict's key order grows. */
  function AppendNew<K(==)>(order: seq<K>, k: K): seq<K>
  {
    if k in order then order else order + [k]
  }

  /** The keys of `ks` in order of first appearance. */
  function FirstSeen<K(==,!new)>(ks: seq<K>): (r: seq<K>)
    ensures Distinct(r)
    ensures forall k :: k in r <==> k in ks
  {
    if |ks| == 0 then [] else AppendNew(FirstSeen(ks[..|ks| - 1]), ks[|ks| - 1])
  }

  // ---------------------------------------------------------------------------------------
  // Region weights: _weights (bot/metrics.py:30-36)
  // ---------------------------------------------------------------------------------------

  /** The defaulting lookup as a summand. */
  function Get0Term(m: map<Region, real>): Region -> real
  {
    r => Get0(m, r)
  }

  /** Σ `m.get(r, 0.0)` over `order`; `sum(sales.values())` when `order` enumerates the keys of `sales`. */
  function Total(m: map<Region, real>, order: seq<Region>): real
  {
    if |order| == 0 then 0.0 else Total(m, order[..|order| - 1]) + Get0(m, order[|order| - 1])
  }

  lemma {:induction false} TotalIsSum(m: map<Region, real>, order: seq<Region>)
    ensures Total(m, order) == SumOver(order, Get0Term(m))
  {
    if |order| > 0 {
      TotalIsSum(m, order[..|order| - 1]);
    }
  }

  /** The sales branch of `_weights` is taken: sales is non-empty, sums positive, and so do the regions' sales. */
  predicate SalesWeighted(regions: seq<Region>, sales: map<Region, real>, salesOrder: seq<Region>)
  {
    |sales| > 0 && Total(sales, salesOrder) > 0.0 && Total(sales, regions) > 0.0
  }

  /**
   * `_weights(regions, sales)`: each region's share of the sales over `regions`, or the
   * uniform `1/n` when there is no usable sales mass. `regions` enumerates the region set;
   * `salesOrder` enumerates the keys of `sales`.
   */
  function Weights(regions: seq<Region>, sales: map<Region, real>, salesOrder: seq<Region>): (w: map<Region, real>)
    requires Distinct(regions)
    ensures forall r :: r in w <==> r in regions
  {
    if SalesWeighted(regions, sales, salesOrder) then
      var total := Total(sales, regions);
      map r | r in regions :: Get0(sales, r) / total
    else
      map r | r in regions :: 1.0 / |regions| as real
  }

  /** The weights are each region's share of the sales over `regions`, and they add up to 1. */
  lemma {:induction false} WeightsFromSales(regions: seq<Region>, sales: map<Region, real>, salesOrder: seq<Region>)
    requires Distinct(regions)
    requires SalesWeighted(regions, sales, salesOrder)
    ensures forall r :: r in regions ==>
      Weights(regions, sales, salesOrder)[r] == Get0(sales, r) / Total(sales, regions)
    ensures Total(Weights(regions, sales, salesOrder), regions) == 1.0
  {
    var w := Weights(regions, sales, salesOrder);
    var total := Total(sales, regions);
    TotalIsSum(sales, regions);
    TotalIsSum(w, regions);
    assert forall r :: r in regions ==> Get0Term(w)(r) == Get0Term(sales)(r) / total;
    SumOverScaled(regions, Get0Term(sales), Get0Term(w), total);
    assert total / total == 1.0;
  }

  /** Without usable sales every region weighs `1/n`; the weights add up to 1 unless there are no regions. */
  lemma {:induction false} WeightsUniform(regions: seq<Region>, sales: map<Region, real>, salesOrder: seq<Region>)
    requires Distinct(regions)
    requires !SalesWeighted(regions, sales, salesOrder)
    ensures forall r :: r in regions ==> Weights(regions, sales, salesOrder)[r] == 1.0 / |regions| as real
    ensures |regions| == 0 ==> Weights(regions, sales, salesOrder) == map[]
    ensures |regions| > 0 ==> Total(Weights(regions, sales, salesOrder), regions) == 1.0
  {
    var w := Weights(regions, sales, salesOrder);
    if |regions| > 0 {
      TotalIsSum(w, regions);
      var n := |regions| as real;
      assert forall r :: r in regions ==> Get0Term(w)(r) == 1.0 / n;
      SumOverConstant(regions, Get0Term(w), 1.0 / n);
      assert n * (1.0 / n) == 1.0;
    }
  }

  /** Non-negative sales give non-negative weights. */
  lemma WeightsNonNegative(regions: seq<Region>, sales: map<Region, real>, salesOrder: seq<Region>)
    requires Distinct(regions)
    requires forall r :: r in sales ==> sales[r] >= 0.0
    ensures forall r :: r in Weights(regions, sales, salesOrder) ==> Weights(regions, sales, salesOrder)[r] >= 0.0
  {
    if SalesWeighted(regions, sales, salesOrder) {
      var total := Total(sales, regions);
      forall r | r in regions ensures Get0(sales, r) / total >= 0.0 { }
    }
  }

  // ---------------------------------------------------------------------------------------
  // Global speed: _compute_global_speed (bot/metrics.py:39-45)
  // ---------------------------------------------------------------------------------------

  /** `0` for an unreachable region, otherwise `1 / t`. */
  function Speed(t: Time): real
  {
    match t
    case Unreachable => 0.0
    case Hours(h) => 1.0 / h
  }

  lemma SpeedAntitone(a: Time, b: Time)
    requires AtMost(a, b)
    ensures Speed(a) >= Speed(b) >= 0.0
  {
    if a.Hours? && b.Hours? {
      assert a.h <= b.h;
      assert 1.0 / a.h >= 1.0 / b.h by {
        assert 1.0 / a.h * a.h == 1.0 == 1.0 / b.h * b.h;
      }
    }
  }

  /** The summand of the global speed: `w * speed`. */
  function SpeedTerm(best: map<Region, Time>, weights: map<Region, real>): Region -> real
  {
    r => Get0(weights, r) * Speed(Lookup(best, r))
  }

  /** Σ w·speed(best[r]) over `order`, the iteration order of `weights`. */
  function GlobalSpeed(best: map<Region, Time>, weights: map<Region, real>, order: seq<Region>): real
  {
    if |order| == 0 then 0.0
    else
      var r := order[|order| - 1];
      GlobalSpeed(best, weights, order[..|order| - 1]) + Get0(weights, r) * Speed(Lookup(best, r))
  }

  /** The global speed is the sum of its terms, so the lemmas about sums apply to it. */
  lemma {:induction false} GlobalSpeedIsSum(best: map<Region, Time>, weights: map<Region, real>, order: seq<Region>)
    ensures GlobalSpeed(best, weights, order) == SumOver(order, SpeedTerm(best, weights))
  {
    if |order| > 0 {
      GlobalSpeedIsSum(best, weights, order[..|order| - 1]);
    }
  }

  /** The loop of `_compute_global_speed`. */
  method ComputeGlobalSpeed(best: map<Region, Time>, weights: map<Region, real>, order: seq<Region>)
    returns (gs: real)
    ensures gs == GlobalSpeed(best, weights, order)
  {
    gs := 0.0;
    for i := 0 to |order|
      invariant gs == GlobalSpeed(best, weights, order[..i])
    {
      var r := order[i];
      var w := Get0(weights, r);
      var t := Lookup(best, r);
      var speed := if t.Unreachable? then 0.0 else 1.0 / t.h;
      gs := gs + w * speed;
      assert order[..i + 1][..i] == order[..i];
    }
    assert order[..|order|] == order;
  }

  /** With no region reached the global speed is 0, whatever the weights. */
  lemma {:induction false} GlobalSpeedNothingReached(weights: map<Region, real>, order: seq<Region>)
    ensures GlobalSpeed(map[], weights, order) == 0.0
  {
    if |order| > 0 {
      GlobalSpeedNothingReached(weights, order[..|order| - 1]);
    }
  }

  lemma GlobalSpeedNonNegative(best: map<Region, Time>, weights: map<Region, real>, order: seq<Region>)
    requires forall r :: r in order ==> Get0(weights, r) >= 0.0
    ensures GlobalSpeed(best, weights, order) >= 0.0
  {
    forall r | r in order ensures Get0(weights, r) * Speed(Lookup(best, r)) >= 0.0 {
      SpeedAntitone(Lookup(best, r), Unreachable);
    }
    GlobalSpeedIsSum(best, weights, order);
    SumOverNonNegative(order, SpeedTerm(best, weights));
  }

  /** One weighted speed term: a better time never gives a smaller term. */
  lemma SpeedTermMonotone(w: real, better: Time, worse: Time)
    requires w >= 0.0 && AtMost(better, worse)
    ensures w * Speed(worse) <= w * Speed(better)
  {
    SpeedAntitone(better, worse);
    MultiplyMonotone(w, Speed(worse), Speed(better));
  }

  /** Each weighted speed term grows when the times get better. */
  lemma SpeedTermsMonotone(better: map<Region, Time>, worse: map<Region, Time>, weights: map<Region, real>, order: seq<Region>)
    requires forall r :: r in order ==> Get0(weights, r) >= 0.0
    requires forall r :: r in order ==> AtMost(Lookup(better, r), Lookup(worse, r))
    ensures forall r :: r in order ==> SpeedTerm(worse, weights)(r) <= SpeedTerm(better, weights)(r)
  {
    forall r | r in order
      ensures SpeedTerm(worse, weights)(r) <= SpeedTerm(better, weights)(r)
    {
      SpeedTermMonotone(Get0(weights, r), Lookup(better, r), Lookup(worse, r));
    }
  }

  /** Better (smaller or equal) times everywhere never lower the global speed. */
  lemma GlobalSpeedMonotone(better: map<Region, Time>, worse: map<Region, Time>, weights: map<Region, real>, order: seq<Region>)
    requires forall r :: r in order ==> Get0(weights, r) >= 0.0
    requires forall r :: r in order ==> AtMost(Lookup(better, r), Lookup(worse, r))
    ensures GlobalSpeed(worse, weights, order) <= GlobalSpeed(better, weights, order)
  {
    SpeedTermsMonotone(better, worse, weights, order);
    GlobalSpeedIsSum(worse, weights, order);
    GlobalSpeedIsSum(better, weights, order);
    SumOverMonotone(order, SpeedTerm(worse, weights), SpeedTerm(better, weights));
  }

  lemma MultiplyMonotone(w: real, x: real, y: real)
    requires w >= 0.0 && x <= y
    ensures w * x <= w * y
  {
    assert w * y - w * x == w * (y - x);
  }

  /** Any two enumerations of the region set give the same global speed. */
  lemma GlobalSpeedOrderIndependent(best: map<Region, Time>, weights: map<Region, real>, a: seq<Region>, b: seq<Region>)
    requires Distinct(a) && Distinct(b)
    requires forall r :: r in a <==> r in b
    ensures GlobalSpeed(best, weights, a) == GlobalSpeed(best, weights, b)
  {
    SameSetPermutation(a, b);
    GlobalSpeedIsSum(best, weights, a);
    GlobalSpeedIsSum(best, weights, b);
    SumOverPermutation(a, b, SpeedTerm(best, weights));
  }

  /** `0` when the optimum is `0`, otherwise `current / optimum * 100` (bot/metrics.py:80, :124). */
  function Coverage(current: real, optimum: real): real
  {
    if optimum == 0.0 then 0.0 else current / optimum * 100.0
  }

  lemma CoverageBounded(current: real, optimum: real)
    requires 0.0 <= current <= optimum
    ensures 0.0 <= Coverage(current, optimum) <= 100.0
    ensures optimum == 0.0 ==> Coverage(current, optimum) == 0.0
  {
    if optimum != 0.0 {
      assert current / optimum <= 1.0 by {
        assert current / optimum * optimum == current;
      }
    }
  }

  // ---------------------------------------------------------------------------------------
  // Weighted average time: _weighted_avg_time (bot/metrics.py:48-51)
  // ---------------------------------------------------------------------------------------

  /** Some region of `order` with positive weight is unreachable (the `any(...)` at bot/metrics.py:49). */
  predicate Poisoned(best: map<Region, Time>, weights: map<Region, real>, order: seq<Region>)
  {
    && |order| > 0
    && (|| Poisoned(best, weights, order[..|order| - 1])
        || (Get0(weights, order[|order| - 1]) > 0.0 && Lookup(best, order[|order| - 1]).Unreachable?))
  }

  lemma {:induction false} PoisonedExactly(best: map<Region, Time>, weights: map<Region, real>, order: seq<Region>)
    ensures Poisoned(best, weights, order) <==>
              exists r :: r in order && Get0(weights, r) > 0.0 && Lookup(best, r).Unreachable?
  {
    if |order| > 0 {
      var n := |order|;
      PoisonedExactly(best, weights, order[..n - 1]);
      assert order == order[..n - 1] + [order[n - 1]];
    }
  }

  /** The hours of a reachable time; an unreachable region of weight zero contributes nothing. */
  function HoursOrZero(t: Time): real
  {
    if t.Unreachable? then 0.0 else t.h
  }

  /**
   * `_weighted_avg_time` as evidently intended: unreachable when some region of positive
   * weight is unreachable, otherwise Σ w·t in which a zero-weight unreachable region
   * contributes 0. (The code as written yields NaN there: WeightedAvgTimeAsWritten.)
   */
  function WeightedAvgTime(best: map<Region, Time>, weights: map<Region, real>, order: seq<Region>): Extended
  {
    if Poisoned(best, weights, order) then Infinite
    else Finite(WeightedTimeSum(best, weights, order))
  }

  /** Σ w·t over `order`, with `0` for an unreachable region. */
  function WeightedTimeSum(best: map<Region, Time>, weights: map<Region, real>, order: seq<Region>): real
  {
    if |order| == 0 then 0.0
    else
      var r := order[|order| - 1];
      WeightedTimeSum(best, weights, order[..|order| - 1]) + Get0(weights, r) * HoursOrZero(Lookup(best, r))
  }

  lemma {:induction false} WeightedTimeSumIsSum(best: map<Region, Time>, weights: map<Region, real>, order: seq<Region>)
    ensures WeightedTimeSum(best, weights, order) == SumOver(order, TimeTerm(best, weights))
  {
    if |order| > 0 {
      WeightedTimeSumIsSum(best, weights, order[..|order| - 1]);
    }
  }

  /** The summand of the weighted average: `w * t`, with `0` for an unreachable region. */
  function TimeTerm(best: map<Region, Time>, weights: map<Region, real>): Region -> real
  {
    r => Get0(weights, r) * HoursOrZero(Lookup(best, r))
  }

  /** A region that is not poisoned for the worse times is not poisoned for the better ones either. */
  lemma {:induction false} PoisonedMonotone(better: map<Region, Time>, worse: map<Region, Time>, weights: map<Region, real>, order: seq<Region>)
    requires forall r :: r in order ==> AtMost(Lookup(better, r), Lookup(worse, r))
    ensures Poisoned(better, weights, order) ==> Poisoned(worse, weights, order)
  {
    if |order| > 0 {
      var pre := order[..|order| - 1];
      assert forall x :: x in pre ==> x in order;
      PoisonedMonotone(better, worse, weights, pre);
    }
  }

  /** One weighted time term: a better time never gives a larger term where the worse one counts. */
  lemma TimeTermMonotone(w: real, better: Time, worse: Time)
    requires w >= 0.0 && AtMost(better, worse)
    requires w > 0.0 ==> worse.Hours?
    ensures w * HoursOrZero(better) <= w * HoursOrZero(worse)
  {
    if w > 0.0 {
      MultiplyMonotone(w, HoursOrZero(better), HoursOrZero(worse));
    }
  }

  /** Term by term, better times give no larger weighted time where the worse times count. */
  lemma TimeTermsMonotone(better: map<Region, Time>, worse: map<Region, Time>, weights: map<Region, real>, order: seq<Region>)
    requires forall r :: r in order ==> Get0(weights, r) >= 0.0
    requires forall r :: r in order ==> AtMost(Lookup(better, r), Lookup(worse, r))
    requires !Poisoned(worse, weights, order)
    ensures forall r :: r in order ==> TimeTerm(better, weights)(r) <= TimeTerm(worse, weights)(r)
  {
    PoisonedExactly(worse, weights, order);
    forall r | r in order
      ensures TimeTerm(better, weights)(r) <= TimeTerm(worse, weights)(r)
    {
      TimeTermMonotone(Get0(weights, r), Lookup(better, r), Lookup(worse, r));
    }
  }

  lemma WeightedTimeSumMonotone(better: map<Region, Time>, worse: map<Region, Time>, weights: map<Region, real>, order: seq<Region>)
    requires forall r :: r in order ==> Get0(weights, r) >= 0.0
    requires forall r :: r in order ==> AtMost(Lookup(better, r), Lookup(worse, r))
    requires !Poisoned(worse, weights, order)
    ensures WeightedTimeSum(better, weights, order) <= WeightedTimeSum(worse, weights, order)
  {
    TimeTermsMonotone(better, worse, weights, order);
    WeightedTimeSumIsSum(better, weights, order);
    WeightedTimeSumIsSum(worse, weights, order);
    SumOverMonotone(order, TimeTerm(better, weights), TimeTerm(worse, weights));
  }

  /**
   * Better times everywhere never make the average worse: a finite average stays finite
   * and does not grow.
   */
  lemma WeightedAvgTimeMonotone(better: map<Region, Time>, worse: map<Region, Time>, weights: map<Region, real>, order: seq<Region>)
    requires forall r :: r in order ==> Get0(weights, r) >= 0.0
    requires forall r :: r in order ==> AtMost(Lookup(better, r), Lookup(worse, r))
    ensures WeightedAvgTime(worse, weights, order).Finite? ==>
              && WeightedAvgTime(better, weights, order).Finite?
              && WeightedAvgTime(better, weights, order).v <= WeightedAvgTime(worse, weights, order).v
  {
    PoisonedMonotone(better, worse, weights, order);
    if !Poisoned(worse, weights, order) {
      WeightedTimeSumMonotone(better, worse, weights, order);
    }
  }

  lemma WeightedAvgTimeNonNegative(best: map<Region, Time>, weights: map<Region, real>, order: seq<Region>)
    requires forall r :: r in order ==> Get0(weights, r) >= 0.0
    ensures WeightedAvgTime(best, weights, order).Finite? ==> WeightedAvgTime(best, weights, order).v >= 0.0
  {
    forall r | r in order ensures Get0(weights, r) * HoursOrZero(Lookup(best, r)) >= 0.0 {
      MultiplyMonotone(Get0(weights, r), 0.0, HoursOrZero(Lookup(best, r)));
    }
    WeightedTimeSumIsSum(best, weights, order);
    SumOverNonNegative(order, TimeTerm(best, weights));
  }

  // --- the code as written ------------------------------------------------------------------

  /** Python's `w * t` for a weight and a time (`0.0 * inf` is NaN). */
  function MulTime(w: real, t: Time): FloatValue
  {
    match t
    case Hours(h) => Fin(w * h)
    case Unreachable => if w > 0.0 then PosInf else if w < 0.0 then NegInf else NaN
  }

  /** IEEE addition. */
  function AddFloat(a: FloatValue, b: FloatValue): FloatValue
  {
    if a.NaN? || b.NaN? then NaN
    else if (a.PosInf? && b.NegInf?) || (a.NegInf? && b.PosInf?) then NaN
    else if a.PosInf? || b.PosInf? then PosInf
    else if a.NegInf? || b.NegInf? then NegInf
    else Fin(a.x + b.x)
  }

  /** Python's `sum(...)` of floating terms over `order`, accumulated left to right. */
  function FloatSum(order: seq<Region>, term: Region -> FloatValue): FloatValue
  {
    if |order| == 0 then Fin(0.0)
    else AddFloat(FloatSum(order[..|order| - 1], term), term(order[|order| - 1]))
  }

  /** The floating summand `w * t` of bot/metrics.py:51. */
  function FloatTerm(best: map<Region, Time>, weights: map<Region, real>): Region -> FloatValue
  {
    r => MulTime(Get0(weights, r), Lookup(best, r))
  }

  /** The weighted time sum of bot/metrics.py:51 in IEEE arithmetic. */
  function FloatWeightedSum(best: map<Region, Time>, weights: map<Region, real>, order: seq<Region>): FloatValue
  {
    FloatSum(order, FloatTerm(best, weights))
  }

  /** `_weighted_avg_time` exactly as bot/metrics.py:48-51 computes it. */
  function WeightedAvgTimeAsWritten(best: map<Region, Time>, weights: map<Region, real>, order: seq<Region>): FloatValue
  {
    if Poisoned(best, weights, order) then PosInf else FloatWeightedSum(best, weights, order)
  }

  /** Where no unreachable region has weight zero, the code as written computes the intended value. */
  lemma {:induction false} WeightedAvgTimeAsWrittenAgrees(best: map<Region, Time>, weights: map<Region, real>, order: seq<Region>)
    requires forall r :: r in order ==> Get0(weights, r) >= 0.0
    requires forall r :: r in order && Lookup(best, r).Unreachable? ==> Get0(weights, r) != 0.0
    ensures WeightedAvgTimeAsWritten(best, weights, order)
         == match WeightedAvgTime(best, weights, order)
            case Infinite => PosInf
            case Finite(v) => Fin(v)
  {
    PoisonedExactly(best, weights, order);
    if !Poisoned(best, weights, order) {
      forall i | 0 <= i < |order|
        ensures Lookup(best, order[i]).Hours?
      {
        assert order[i] in order;
      }
      FloatWeightedSumReachable(best, weights, order);
      WeightedTimeSumIsSum(best, weights, order);
    }
  }

  /** A floating sum of finite terms is the exact sum of their values. */
  lemma {:induction false} FloatSumFinite(order: seq<Region>, term: Region -> FloatValue, value: Region -> real)
    requires forall i :: 0 <= i < |order| ==> term(order[i]) == Fin(value(order[i]))
    ensures FloatSum(order, term) == Fin(SumOver(order, value))
  {
    if |order| > 0 {
      FloatSumFinite(order[..|order| - 1], term, value);
    }
  }

  lemma FloatWeightedSumReachable(best: map<Region, Time>, weights: map<Region, real>, order: seq<Region>)
    requires forall i :: 0 <= i < |order| ==> Lookup(best, order[i]).Hours?
    ensures FloatWeightedSum(best, weights, order) == Fin(SumOver(order, TimeTerm(best, weights)))
  {
    forall i | 0 <= i < |order|
      ensures FloatTerm(best, weights)(order[i]) == Fin(TimeTerm(best, weights)(order[i]))
    {
      MulTimeReachable(Get0(weights, order[i]), Lookup(best, order[i]));
    }
    FloatSumFinite(order, FloatTerm(best, weights), TimeTerm(best, weights));
  }

  /** A reachable time multiplies without infinities. */
  lemma MulTimeReachable(w: real, t: Time)
    requires t.Hours?
    ensures MulTime(w, t) == Fin(w * HoursOrZero(t))
  {
  }

  /**
   * Two regions; the sales mass is all on "msk", and "spb" (weight 0) is unreachable by the
   * active warehouses. The code as written returns NaN (`0.0 * inf`); the intended average is 5.
   */
  lemma WeightedAvgTimeNaNWitness()
    ensures WeightedAvgTimeAsWritten(map["msk" := Hours(5.0)], map["msk" := 1.0, "spb" := 0.0], ["msk", "spb"]) == NaN
    ensures WeightedAvgTime(map["msk" := Hours(5.0)], map["msk" := 1.0, "spb" := 0.0], ["msk", "spb"]) == Finite(5.0)
  {
    var best := map["msk" := Hours(5.0)];
    var weights := map["msk" := 1.0, "spb" := 0.0];
    var order: seq<Region> := ["msk", "spb"];
    assert order[..1] == ["msk"];
    assert order[..1][..0] == [];
    assert Lookup(best, "spb") == Unreachable;
    assert !Poisoned(best, weights, order[..1]);
    assert WeightedTimeSum(best, weights, order[..1]) == 5.0;
    var term := FloatTerm(best, weights);
    assert term("msk") == Fin(5.0) && term("spb") == NaN;
    assert FloatSum(order[..1], term) == AddFloat(FloatSum([], term), term("msk")) == Fin(5.0);
  }

  // ---------------------------------------------------------------------------------------
  // The network view: build_views (bot/metrics.py:54-93)
  // ---------------------------------------------------------------------------------------

  /** Running minimum of the time per region over `rows` (the updates at bot/metrics.py:67-72). */
  function BestByRegion(rows: seq<SpeedRow>): map<Region, Time>
  {
    if |rows| == 0 then map[]
    else
      var m := BestByRegion(rows[..|rows| - 1]);
      var row := rows[|rows| - 1];
      m[row.regionCode := Min(Lookup(m, row.regionCode), row.time)]
  }

  /** The rows whose warehouse is in `active`, in order. */
  function ActiveRows(rows: seq<SpeedRow>, active: set<WarehouseId>): seq<SpeedRow>
  {
    if |rows| == 0 then []
    else ActiveRows(rows[..|rows| - 1], active) + (if rows[|rows| - 1].warehouseId in active then [rows[|rows| - 1]] else [])
  }

  /** The rows of warehouse `w`, in order. */
  function RowsOf(rows: seq<SpeedRow>, w: WarehouseId): seq<SpeedRow>
  {
    if |rows| == 0 then []
    else RowsOf(rows[..|rows| - 1], w) + (if rows[|rows| - 1].warehouseId == w then [rows[|rows| - 1]] else [])
  }

  /** `best_by_wh`: per warehouse, the running minimum per region over that warehouse's rows. */
  function BestByWarehouse(rows: seq<SpeedRow>): map<WarehouseId, map<Region, Time>>
  {
    if |rows| == 0 then map[]
    else
      var m := BestByWarehouse(rows[..|rows| - 1]);
      var row := rows[|rows| - 1];
      var inner := if row.warehouseId in m then m[row.warehouseId] else map[];
      m[row.warehouseId := inner[row.regionCode := Min(Lookup(inner, row.regionCode), row.time)]]
  }

  /** `region_name`: the last name given to each region code. */
  function RegionNames(rows: seq<SpeedRow>): map<Region, string>
  {
    if |rows| == 0 then map[]
    else RegionNames(rows[..|rows| - 1])[rows[|rows| - 1].regionCode := rows[|rows| - 1].regionName]
  }

  /** `wh_name`: the last name given to each warehouse id. */
  function WarehouseNames(rows: seq<SpeedRow>): map<WarehouseId, string>
  {
    if |rows| == 0 then map[]
    else WarehouseNames(rows[..|rows| - 1])[rows[|rows| - 1].warehouseId := rows[|rows| - 1].warehouseName]
  }

  function RegionCodes(rows: seq<SpeedRow>): seq<Region>
  {
    seq(|rows|, i requires 0 <= i < |rows| => rows[i].regionCode)
  }

  function WarehouseIds(rows: seq<SpeedRow>): seq<WarehouseId>
  {
    seq(|rows|, i requires 0 <= i < |rows| => rows[i].warehouseId)
  }

  /** The sales dict of bot/metrics.py:75: the last row of a region wins. */
  function SalesMap(salesRows: seq<SalesRow>): map<Region, real>
  {
    if |salesRows| == 0 then map[]
    else SalesMap(salesRows[..|salesRows| - 1])[salesRows[|salesRows| - 1].regionCode := salesRows[|salesRows| - 1].orders]
  }

  function SalesCodes(salesRows: seq<SalesRow>): seq<Region>
  {
    seq(|salesRows|, i requires 0 <= i < |salesRows| => salesRows[i].regionCode)
  }

  /** The dict returned by `build_views`; `regions` and `warehouses` are the key orders. */
  datatype View = View(
    regionName: map<Region, string>,
    regions: seq<Region>,
    bestAll: map<Region, Time>,
    bestActive: map<Region, Time>,
    bestByWarehouse: map<WarehouseId, map<Region, Time>>,
    warehouses: seq<WarehouseId>,
    weights: map<Region, real>,
    globalCurrent: real,
    globalOpt: real,
    coverage: real,
    warehouseNames: map<WarehouseId, string>,
    avgTimeCurrent: Extended)

  /** The view `build_views(rows, active, salesRows)` returns. */
  function ViewOf(rows: seq<SpeedRow>, active: set<WarehouseId>, salesRows: seq<SalesRow>): View
  {
    var regions := FirstSeen(RegionCodes(rows));
    var bestAll := BestByRegion(rows);
    var bestActive := BestByRegion(ActiveRows(rows, active));
    var weights := Weights(regions, SalesMap(salesRows), FirstSeen(SalesCodes(salesRows)));
    var current := GlobalSpeed(bestActive, weights, regions);
    var optimum := GlobalSpeed(bestAll, weights, regions);
    View(RegionNames(rows), regions, bestAll, bestActive, BestByWarehouse(rows),
         FirstSeen(WarehouseIds(rows)), weights, current, optimum, Coverage(current, optimum),
         WarehouseNames(rows), WeightedAvgTime(bestActive, weights, regions))
  }

  /** What `recommend_next` needs of a view in order not to fail on a missing key. */
  ghost predicate Consistent(v: View)
  {
    && (forall w :: w in v.warehouses ==> w in v.bestByWarehouse && w in v.warehouseNames)
    && (forall r :: r in v.regions ==> r in v.weights && r in v.regionName)
  }

  /** The invariants every view built by `build_views` satisfies. */
  ghost predicate WellFormed(v: View)
  {
    && Consistent(v)
    && Distinct(v.regions)
    && Distinct(v.warehouses)
    && (forall r :: r in v.weights <==> r in v.regions)
    && (forall r :: r in v.bestAll <==> r in v.regions)
    && (forall w :: w in v.bestByWarehouse <==> w in v.warehouses)
    && (forall r :: AtMost(Lookup(v.bestAll, r), Lookup(v.bestActive, r)))
    && (forall w, r :: w in v.bestByWarehouse ==> AtMost(Lookup(v.bestAll, r), Lookup(v.bestByWarehouse[w], r)))
    && v.globalCurrent == GlobalSpeed(v.bestActive, v.weights, v.regions)
    && v.globalOpt == GlobalSpeed(v.bestAll, v.weights, v.regions)
    && v.coverage == Coverage(v.globalCurrent, v.globalOpt)
    && v.avgTimeCurrent == WeightedAvgTime(v.bestActive, v.weights, v.regions)
  }

  predicate NonNegativeWeights(v: View)
  {
    forall r :: r in v.weights ==> v.weights[r] >= 0.0
  }

  predicate NonNegativeSales(salesRows: seq<SalesRow>)
  {
    forall i :: 0 <= i < |salesRows| ==> salesRows[i].orders >= 0.0
  }

  /**
   * `BestByRegion(rows)` holds, for every region with rows, the least of their times: it is
   * one of those times and no row of the region is faster. An unreachable time therefore
   * never lowers a minimum.
   */
  lemma {:induction false} BestByRegionIsMinimum(rows: seq<SpeedRow>, r: Region)
    ensures r in BestByRegion(rows) <==> exists i :: 0 <= i < |rows| && rows[i].regionCode == r
    ensures forall i :: 0 <= i < |rows| && rows[i].regionCode == r ==> AtMost(BestByRegion(rows)[r], rows[i].time)
    ensures r in BestByRegion(rows) ==>
              exists i :: 0 <= i < |rows| && rows[i].regionCode == r && BestByRegion(rows)[r] == rows[i].time
  {
    if |rows| > 0 {
      var n := |rows|;
      var pre := rows[..n - 1];
      BestByRegionIsMinimum(pre, r);
      assert forall i :: 0 <= i < n - 1 ==> pre[i] == rows[i];
      var m := BestByRegion(pre);
      if rows[n - 1].regionCode == r {
        if r in m {
          var i :| 0 <= i < n - 1 && pre[i].regionCode == r && m[r] == pre[i].time;
          assert BestByRegion(rows)[r] == rows[i].time || BestByRegion(rows)[r] == rows[n - 1].time;
        } else {
          assert BestByRegion(rows)[r] == rows[n - 1].time;
        }
      }
    }
  }

  /** Dropping rows can only raise (or keep) each region's best time. */
  lemma BestByRegionSubset(sub: seq<SpeedRow>, rows: seq<SpeedRow>, r: Region)
    requires forall row :: row in sub ==> row in rows
    ensures AtMost(Lookup(BestByRegion(rows), r), Lookup(BestByRegion(sub), r))
  {
    BestByRegionIsMinimum(sub, r);
    BestByRegionIsMinimum(rows, r);
    if r in BestByRegion(sub) {
      var i :| 0 <= i < |sub| && sub[i].regionCode == r && BestByRegion(sub)[r] == sub[i].time;
      assert sub[i] in sub;
      var j :| 0 <= j < |rows| && rows[j] == sub[i];
      assert AtMost(BestByRegion(rows)[r], rows[j].time);
    }
  }

  lemma {:induction false} ActiveRowsMembers(rows: seq<SpeedRow>, active: set<WarehouseId>)
    ensures forall row :: row in ActiveRows(rows, active) <==> row in rows && row.warehouseId in active
  {
    if |rows| > 0 {
      var n := |rows|;
      ActiveRowsMembers(rows[..n - 1], active);
      assert rows == rows[..n - 1] + [rows[n - 1]];
    }
  }

  lemma {:induction false} RowsOfMembers(rows: seq<SpeedRow>, w: WarehouseId)
    ensures forall row :: row in RowsOf(rows, w) <==> row in rows && row.warehouseId == w
  {
    if |rows| > 0 {
      var n := |rows|;
      RowsOfMembers(rows[..n - 1], w);
      assert rows == rows[..n - 1] + [rows[n - 1]];
    }
  }

  lemma {:induction false} RowsOfAbsent(rows: seq<SpeedRow>, w: WarehouseId)
    requires w !in WarehouseIds(rows)
    ensures RowsOf(rows, w) == []
  {
    if |rows| > 0 {
      var n := |rows|;
      assert WarehouseIds(rows)[n - 1] == rows[n - 1].warehouseId;
      assert WarehouseIds(rows[..n - 1]) == WarehouseIds(rows)[..n - 1];
      RowsOfAbsent(rows[..n - 1], w);
    }
  }

  /** Each warehouse's entry of `best_by_wh` is the per-region minimum over that warehouse's rows. */
  lemma {:induction false} BestByWarehouseIsPerWarehouseMinimum(rows: seq<SpeedRow>)
    ensures forall w :: w in BestByWarehouse(rows) <==> w in WarehouseIds(rows)
    ensures forall w :: w in BestByWarehouse(rows) ==> BestByWarehouse(rows)[w] == BestByRegion(RowsOf(rows, w))
  {
    if |rows| > 0 {
      var n := |rows|;
      var pre := rows[..n - 1];
      BestByWarehouseIsPerWarehouseMinimum(pre);
      assert WarehouseIds(rows) == WarehouseIds(pre) + [rows[n - 1].warehouseId];
      forall w | w in BestByWarehouse(rows)
        ensures BestByWarehouse(rows)[w] == BestByRegion(RowsOf(rows, w))
      {
        var x := rows[n - 1];
        var sub := RowsOf(pre, w);
        if x.warehouseId == w {
          var all := RowsOf(rows, w);
          assert all == sub + [x];
          assert all[..|all| - 1] == sub;
          var m := BestByWarehouse(pre);
          var inner := if w in m then m[w] else map[];
          if w !in m {
            assert w !in WarehouseIds(pre);
            RowsOfAbsent(pre, w);
          }
          assert inner == BestByRegion(sub);
          assert BestByWarehouse(rows)[w] == inner[x.regionCode := Min(Lookup(inner, x.regionCode), x.time)];
        } else {
          assert RowsOf(rows, w) == sub;
        }
      }
    }
  }

  lemma {:induction false} RegionNamesKeys(rows: seq<SpeedRow>)
    ensures forall r :: r in RegionNames(rows) <==> r in RegionCodes(rows)
  {
    if |rows| > 0 {
      RegionNamesKeys(rows[..|rows| - 1]);
      assert RegionCodes(rows) == RegionCodes(rows[..|rows| - 1]) + [rows[|rows| - 1].regionCode];
    }
  }

  lemma {:induction false} WarehouseNamesKeys(rows: seq<SpeedRow>)
    ensures forall w :: w in WarehouseNames(rows) <==> w in WarehouseIds(rows)
  {
    if |rows| > 0 {
      WarehouseNamesKeys(rows[..|rows| - 1]);
      assert WarehouseIds(rows) == WarehouseIds(rows[..|rows| - 1]) + [rows[|rows| - 1].warehouseId];
    }
  }

  lemma BestByRegionKeys(rows: seq<SpeedRow>)
    ensures forall r :: r in BestByRegion(rows) <==> r in RegionCodes(rows)
  {
    forall r ensures r in BestByRegion(rows) <==> r in RegionCodes(rows) {
      BestByRegionIsMinimum(rows, r);
      if r in BestByRegion(rows) {
        var i :| 0 <= i < |rows| && rows[i].regionCode == r;
        assert RegionCodes(rows)[i] == r;
      }
      if r in RegionCodes(rows) {
        var i :| 0 <= i < |rows| && RegionCodes(rows)[i] == r;
        assert rows[i].regionCode == r;
      }
    }
  }

  lemma SalesMapNonNegative(salesRows: seq<SalesRow>)
    requires NonNegativeSales(salesRows)
    ensures forall r :: r in SalesMap(salesRows) ==> SalesMap(salesRows)[r] >= 0.0
  {
    if |salesRows| > 0 {
      SalesMapNonNegative(salesRows[..|salesRows| - 1]);
    }
  }

  /** Every view `build_views` returns satisfies the view invariants; with non-negative sales its weights are non-negative. */
  lemma ViewOfWellFormed(rows: seq<SpeedRow>, active: set<WarehouseId>, salesRows: seq<SalesRow>)
    ensures WellFormed(ViewOf(rows, active, salesRows))
    ensures NonNegativeSales(salesRows) ==> NonNegativeWeights(ViewOf(rows, active, salesRows))
  {
    var v := ViewOf(rows, active, salesRows);
    RegionNamesKeys(rows);
    WarehouseNamesKeys(rows);
    BestByRegionKeys(rows);
    BestByWarehouseIsPerWarehouseMinimum(rows);
    ActiveRowsMembers(rows, active);
    forall r ensures AtMost(Lookup(v.bestAll, r), Lookup(v.bestActive, r)) {
      BestByRegionSubset(ActiveRows(rows, active), rows, r);
    }
    forall w, r | w in v.bestByWarehouse
      ensures AtMost(Lookup(v.bestAll, r), Lookup(v.bestByWarehouse[w], r))
    {
      RowsOfMembers(rows, w);
      BestByRegionSubset(RowsOf(rows, w), rows, r);
    }
    if NonNegativeSales(salesRows) {
      SalesMapNonNegative(salesRows);
      WeightsNonNegative(v.regions, SalesMap(salesRows), FirstSeen(SalesCodes(salesRows)));
    }
  }

  /** With non-negative weights: 0 <= global_current <= global_opt and 0 <= coverage <= 100. */
  lemma ViewCoverageBounded(v: View)
    requires WellFormed(v) && NonNegativeWeights(v)
    ensures 0.0 <= v.globalCurrent <= v.globalOpt
    ensures 0.0 <= v.coverage <= 100.0
    ensures v.globalOpt == 0.0 ==> v.coverage == 0.0
  {
    GlobalSpeedNonNegative(v.bestActive, v.weights, v.regions);
    GlobalSpeedMonotone(v.bestAll, v.bestActive, v.weights, v.regions);
    CoverageBounded(v.globalCurrent, v.globalOpt);
  }

  /** How each fold of `build_views` advances by one row. */
  lemma BuildViewsStep(rows: seq<SpeedRow>, i: nat, active: set<WarehouseId>)
    requires i < |rows|
    ensures RegionNames(rows[..i + 1]) == RegionNames(rows[..i])[rows[i].regionCode := rows[i].regionName]
    ensures WarehouseNames(rows[..i + 1]) == WarehouseNames(rows[..i])[rows[i].warehouseId := rows[i].warehouseName]
    ensures FirstSeen(RegionCodes(rows[..i + 1])) == AppendNew(FirstSeen(RegionCodes(rows[..i])), rows[i].regionCode)
    ensures FirstSeen(WarehouseIds(rows[..i + 1])) == AppendNew(FirstSeen(WarehouseIds(rows[..i])), rows[i].warehouseId)
    ensures BestByRegion(rows[..i + 1]) ==
              BestByRegion(rows[..i])[rows[i].regionCode := Min(Lookup(BestByRegion(rows[..i]), rows[i].regionCode), rows[i].time)]
    ensures BestByRegion(ActiveRows(rows[..i + 1], active)) ==
              var m := BestByRegion(ActiveRows(rows[..i], active));
              if rows[i].warehouseId in active then m[rows[i].regionCode := Min(Lookup(m, rows[i].regionCode), rows[i].time)]
              else m
    ensures BestByWarehouse(rows[..i + 1]) ==
              var m := BestByWarehouse(rows[..i]);
              var inner := if rows[i].warehouseId in m then m[rows[i].warehouseId] else map[];
              m[rows[i].warehouseId := inner[rows[i].regionCode := Min(Lookup(inner, rows[i].regionCode), rows[i].time)]]
  {
    assert rows[..i + 1][..i] == rows[..i];
    assert RegionCodes(rows[..i + 1]) == RegionCodes(rows[..i]) + [rows[i].regionCode];
    assert RegionCodes(rows[..i + 1])[..i] == RegionCodes(rows[..i]);
    assert WarehouseIds(rows[..i + 1]) == WarehouseIds(rows[..i]) + [rows[i].warehouseId];
    assert WarehouseIds(rows[..i + 1])[..i] == WarehouseIds(rows[..i]);
    var act := ActiveRows(rows[..i], active);
    if rows[i].warehouseId in active {
      assert ActiveRows(rows[..i + 1], active) == act + [rows[i]];
      assert (act + [rows[i]])[..|act|] == act;
    } else {
      assert ActiveRows(rows[..i + 1], active) == act;
    }
  }

  /** The single pass of `build_views` over the speed rows and the derived scalars. */
  method BuildViews(rows: seq<SpeedRow>, active: set<WarehouseId>, salesRows: seq<SalesRow>) returns (v: View)
    ensures v == ViewOf(rows, active, salesRows)
    ensures WellFormed(v)
    ensures NonNegativeSales(salesRows) ==>
              NonNegativeWeights(v) && 0.0 <= v.globalCurrent <= v.globalOpt && 0.0 <= v.coverage <= 100.0
  {
    var regionName: map<Region, string> := map[];
    var regions: seq<Region> := [];
    var bestAll: map<Region, Time> := map[];
    var bestActive: map<Region, Time> := map[];
    var bestByWh: map<WarehouseId, map<Region, Time>> := map[];
    var warehouses: seq<WarehouseId> := [];
    var whName: map<WarehouseId, string> := map[];
    for i := 0 to |rows|
      invariant regionName == RegionNames(rows[..i])
      invariant regions == FirstSeen(RegionCodes(rows[..i]))
      invariant bestAll == BestByRegion(rows[..i])
      invariant bestActive == BestByRegion(ActiveRows(rows[..i], active))
      invariant bestByWh == BestByWarehouse(rows[..i])
      invariant warehouses == FirstSeen(WarehouseIds(rows[..i]))
      invariant whName == WarehouseNames(rows[..i])
    {
      var row := rows[i];
      BuildViewsStep(rows, i, active);
      var r := row.regionCode;
      regionName := regionName[r := row.regionName];
      regions := AppendNew(regions, r);
      var w := row.warehouseId;
      whName := whName[w := row.warehouseName];
      warehouses := AppendNew(warehouses, w);
      var t := row.time;
      // Reading a defaultdict inserts the key with the default value, so the region's
      // entry is written whether or not `t` improves on it.
      var best := Lookup(bestAll, r);
      if Before(t, best) {
        best := t;
      }
      bestAll := bestAll[r := best];
      if w in active {
        var bestA := Lookup(bestActive, r);
        if Before(t, bestA) {
          bestA := t;
        }
        bestActive := bestActive[r := bestA];
      }
      var inner := if w in bestByWh then bestByWh[w] else map[];
      var bestW := Lookup(inner, r);
      if Before(t, bestW) {
        bestW := t;
      }
      bestByWh := bestByWh[w := inner[r := bestW]];
    }
    assert rows[..|rows|] == rows;
    var sales := SalesMap(salesRows);
    var weights := Weights(regions, sales, FirstSeen(SalesCodes(salesRows)));
    var globalCurrent := ComputeGlobalSpeed(bestActive, weights, regions);
    var globalOpt := ComputeGlobalSpeed(bestAll, weights, regions);
    var coverage := if globalOpt == 0.0 then 0.0 else globalCurrent / globalOpt * 100.0;
    v := View(regionName, regions, bestAll, bestActive, bestByWh, warehouses, weights,
              globalCurrent, globalOpt, coverage, whName, WeightedAvgTime(bestActive, weights, regions));
    ViewOfWellFormed(rows, active, salesRows);
    if NonNegativeSales(salesRows) {
      ViewCoverageBounded(v);
    }
  }

  // ---------------------------------------------------------------------------------------
  // Ranking candidate warehouses: recommend_next (bot/metrics.py:96-133)
  // ---------------------------------------------------------------------------------------

  /** A region whose best time a candidate warehouse improves (bot/metrics.py:7-13). */
  datatype RegionView = RegionView(code: Region, name: string, weight: real, oldTime: Time, newTime: Time)

  /** The assessment of one candidate warehouse (bot/metrics.py:16-27); `None` is Python's None. */
  datatype Recommendation = Recommendation(
    warehouseId: WarehouseId,
    warehouseName: string,
    marginalAbs: real,
    marginalPct: Option<real>,
    coveragePct: real,
    globalSpeedCurrent: real,
    weightedAvgTimeOld: Extended,
    weightedAvgTimeNew: Extended,
    weightedAvgTimeDelta: Extended,
    regionChanges: seq<RegionView>)

  /** The sort key of the region changes. */
  function Weight(c: RegionView): real
  {
    c.weight
  }

  /** The sort key of the recommendations. */
  function Gain(rec: Recommendation): real
  {
    rec.marginalAbs
  }

  /** `new_best`: per region of `order`, the better of the active best and the candidate's own time. */
  function NewBest(bestActive: map<Region, Time>, own: map<Region, Time>, order: seq<Region>): map<Region, Time>
  {
    if |order| == 0 then map[]
    else
      var r := order[|order| - 1];
      NewBest(bestActive, own, order[..|order| - 1])[r := Min(Lookup(bestActive, r), Lookup(own, r))]
  }

  /** The regions of `order` whose time `nb` strictly improves, in that order (bot/metrics.py:111-116). */
  function Changes(v: View, nb: map<Region, Time>, order: seq<Region>): seq<RegionView>
    requires forall r :: r in order ==> r in v.regionName && r in v.weights
  {
    if |order| == 0 then []
    else
      var r := order[|order| - 1];
      Changes(v, nb, order[..|order| - 1])
        + (if Before(Lookup(nb, r), Lookup(v.bestActive, r))
           then [RegionView(r, v.regionName[r], v.weights[r], Lookup(v.bestActive, r), Lookup(nb, r))]
           else [])
  }

  /** `marginal_pct`: None when the current speed is zero, else the gain in percent of it (bot/metrics.py:107). */
  function Percent(gain: real, current: real): (p: Option<real>)
    ensures p.None? <==> current == 0.0
    ensures p.Some? ==> p.value * current == gain * 100.0
  {
    if current == 0.0 then None else Some(gain / current * 100.0)
  }

  lemma PercentNonNegative(gain: real, current: real)
    requires gain >= 0.0 && current > 0.0
    ensures Percent(gain, current).Some? && Percent(gain, current).value >= 0.0
  {
    MultiplyMonotone(1.0 / current, 0.0, gain);
    assert gain / current == 1.0 / current * gain;
    MultiplyMonotone(100.0, 0.0, gain / current);
  }

  /** `new_avg - old_avg` when both are finite, inf otherwise (bot/metrics.py:128). */
  function Delta(oldAvg: Extended, newAvg: Extended): (d: Extended)
    ensures d.Infinite? <==> oldAvg.Infinite? || newAvg.Infinite?
    ensures d.Finite? ==> oldAvg.v + d.v == newAvg.v
  {
    if oldAvg.Finite? && newAvg.Finite? then Finite(newAvg.v - oldAvg.v) else Infinite
  }

  /** The recommendation built for warehouse `w` (the body of the loop at bot/metrics.py:98-131). */
  function Evaluate(v: View, w: WarehouseId): Recommendation
    requires Consistent(v) && w in v.warehouses
  {
    Assess(v, w, NewBest(v.bestActive, v.bestByWarehouse[w], v.regions))
  }

  /** The recommendation for `w` once its `new_best` map `nb` is known. */
  function Assess(v: View, w: WarehouseId, nb: map<Region, Time>): Recommendation
    requires Consistent(v) && w in v.warehouses
  {
    var newGlobal := GlobalSpeed(nb, v.weights, v.regions);
    var marginalAbs := newGlobal - v.globalCurrent;
    var oldAvg := WeightedAvgTime(v.bestActive, v.weights, v.regions);
    var newAvg := WeightedAvgTime(nb, v.weights, v.regions);
    Recommendation(
      w, v.warehouseNames[w], marginalAbs,
      Percent(marginalAbs, v.globalCurrent),
      Coverage(newGlobal, v.globalOpt), v.globalCurrent, oldAvg, newAvg, Delta(oldAvg, newAvg),
      RegionChanges(v, nb))
  }

  /** The region changes, stably sorted by decreasing weight. */
  function RegionChanges(v: View, nb: map<Region, Time>): seq<RegionView>
    requires Consistent(v)
  {
    SortDesc(Changes(v, nb, v.regions), Weight)
  }

  /** The warehouses of `ws` not in `active`, in order. */
  function Candidates(ws: seq<WarehouseId>, active: set<WarehouseId>): (cs: seq<WarehouseId>)
    ensures forall w :: w in cs <==> w in ws && w !in active
  {
    if |ws| == 0 then []
    else Candidates(ws[..|ws| - 1], active) + (if ws[|ws| - 1] in active then [] else [ws[|ws| - 1]])
  }

  /** `recs` before sorting: one recommendation per candidate, in candidate order. */
  function EvaluateAll(v: View, ws: seq<WarehouseId>): (recs: seq<Recommendation>)
    requires Consistent(v)
    requires forall w :: w in ws ==> w in v.warehouses
    ensures |recs| == |ws|
    ensures forall i :: 0 <= i < |ws| ==> recs[i] == Evaluate(v, ws[i])
  {
    if |ws| == 0 then []
    else EvaluateAll(v, ws[..|ws| - 1]) + [Evaluate(v, ws[|ws| - 1])]
  }

  /** Python's `xs[:n]`, where a negative `n` counts from the end. */
  function Slice<T>(xs: seq<T>, n: int): (r: seq<T>)
    ensures r <= xs
    ensures 0 <= n ==> |r| == (if n < |xs| then n else |xs|)
    ensures n < 0 ==> |r| == (if |xs| + n < 0 then 0 else |xs| + n)
  {
    if n >= |xs| then xs
    else if n >= 0 then xs[..n]
    else if |xs| + n >= 0 then xs[..|xs| + n]
    else []
  }

  /** Every candidate's recommendation, stably sorted by decreasing gain (`recs.sort(..., reverse=True)`). */
  function Ranked(v: View, active: set<WarehouseId>): seq<Recommendation>
    requires Consistent(v)
  {
    SortDesc(EvaluateAll(v, Candidates(v.warehouses, active)), Gain)
  }

  /** What `recommend_next(view, active_ids, top_n)` returns. */
  function RecommendationsOf(v: View, active: set<WarehouseId>, topN: int): seq<Recommendation>
    requires Consistent(v)
  {
    Slice(Ranked(v, active), topN)
  }

  /** Each candidate appears once. */
  lemma {:induction false} CandidatesDistinct(ws: seq<WarehouseId>, active: set<WarehouseId>)
    requires Distinct(ws)
    ensures Distinct(Candidates(ws, active))
  {
    if |ws| > 0 {
      var n := |ws|;
      var pre := ws[..n - 1];
      assert Distinct(pre);
      CandidatesDistinct(pre, active);
      assert ws[n - 1] !in pre;
    }
  }

  /** `new_best` has exactly the regions of `order`, each with the better of the two times. */
  lemma {:induction false} NewBestLookup(bestActive: map<Region, Time>, own: map<Region, Time>, order: seq<Region>)
    ensures forall r :: r in NewBest(bestActive, own, order) <==> r in order
    ensures forall r :: r in order ==> Lookup(NewBest(bestActive, own, order), r) == Min(Lookup(bestActive, r), Lookup(own, r))
  {
    if |order| > 0 {
      var n := |order|;
      NewBestLookup(bestActive, own, order[..n - 1]);
      assert order == order[..n - 1] + [order[n - 1]];
    }
  }

  /** Evaluating `w` from a view: the new bests lie between the network optimum and the current bests. */
  lemma NewBestBetween(v: View, w: WarehouseId)
    requires WellFormed(v) && w in v.warehouses
    ensures var nb := NewBest(v.bestActive, v.bestByWarehouse[w], v.regions);
            forall r :: r in v.regions ==>
              AtMost(Lookup(nb, r), Lookup(v.bestActive, r)) && AtMost(Lookup(v.bestAll, r), Lookup(nb, r))
  {
    var nb := NewBest(v.bestActive, v.bestByWarehouse[w], v.regions);
    NewBestLookup(v.bestActive, v.bestByWarehouse[w], v.regions);
    forall r | r in v.regions
      ensures AtMost(Lookup(nb, r), Lookup(v.bestActive, r)) && AtMost(Lookup(v.bestAll, r), Lookup(nb, r))
    {
      assert AtMost(Lookup(v.bestAll, r), Lookup(v.bestActive, r));
      assert AtMost(Lookup(v.bestAll, r), Lookup(v.bestByWarehouse[w], r));
    }
  }

  lemma CoverageMonotone(a: real, b: real, optimum: real)
    requires 0.0 <= a <= b && 0.0 <= optimum
    ensures Coverage(a, optimum) <= Coverage(b, optimum)
  {
    if optimum != 0.0 {
      var inv := 1.0 / optimum;
      assert a / optimum == inv * a && b / optimum == inv * b;
      MultiplyMonotone(inv, a, b);
      MultiplyMonotone(100.0, a / optimum, b / optimum);
    }
  }

  /**
   * Per-region bests that lie between the optimum and the current bests give a global speed
   * between the current and the optimal one, and a weighted average time no larger than the
   * current one (finite whenever the current one is).
   */
  lemma OpeningBetween(bestAll: map<Region, Time>, bestActive: map<Region, Time>, nb: map<Region, Time>,
                       weights: map<Region, real>, order: seq<Region>)
    requires forall r :: r in order ==> Get0(weights, r) >= 0.0
    requires forall r :: r in order ==> AtMost(Lookup(nb, r), Lookup(bestActive, r))
    requires forall r :: r in order ==> AtMost(Lookup(bestAll, r), Lookup(nb, r))
    ensures 0.0 <= GlobalSpeed(bestActive, weights, order) <= GlobalSpeed(nb, weights, order) <= GlobalSpeed(bestAll, weights, order)
    ensures WeightedAvgTime(bestActive, weights, order).Finite? ==>
              && WeightedAvgTime(nb, weights, order).Finite?
              && WeightedAvgTime(nb, weights, order).v <= WeightedAvgTime(bestActive, weights, order).v
  {
    GlobalSpeedNonNegative(bestActive, weights, order);
    GlobalSpeedMonotone(nb, bestActive, weights, order);
    GlobalSpeedMonotone(bestAll, nb, weights, order);
    WeightedAvgTimeMonotone(nb, bestActive, weights, order);
  }

  /**
   * What recommend_next promises about every candidate: adding a warehouse never lowers the
   * global speed, the percentage is absent exactly when the current speed is zero, the coverage
   * after opening lies between the current coverage and 100, and the weighted average time
   * never grows (it stays finite once finite).
   */
  lemma EvaluateGain(v: View, w: WarehouseId)
    requires WellFormed(v) && NonNegativeWeights(v) && w in v.warehouses
    ensures Evaluate(v, w).warehouseId == w && Evaluate(v, w).warehouseName == v.warehouseNames[w]
    ensures Evaluate(v, w).globalSpeedCurrent == v.globalCurrent
    ensures Evaluate(v, w).marginalAbs >= 0.0
    ensures Evaluate(v, w).marginalPct.None? <==> v.globalCurrent == 0.0
    ensures Evaluate(v, w).marginalPct.Some? ==> Evaluate(v, w).marginalPct.value >= 0.0
    ensures v.coverage <= Evaluate(v, w).coveragePct <= 100.0
    ensures Evaluate(v, w).weightedAvgTimeOld == v.avgTimeCurrent
    ensures v.avgTimeCurrent.Finite? ==>
              && Evaluate(v, w).weightedAvgTimeNew.Finite?
              && Evaluate(v, w).weightedAvgTimeDelta.Finite?
              && Evaluate(v, w).weightedAvgTimeDelta.v <= 0.0
  {
    var rec := Evaluate(v, w);
    var nb := NewBest(v.bestActive, v.bestByWarehouse[w], v.regions);
    var newGlobal := GlobalSpeed(nb, v.weights, v.regions);
    assert rec.marginalAbs == newGlobal - v.globalCurrent;
    assert rec.coveragePct == Coverage(newGlobal, v.globalOpt);
    assert rec.weightedAvgTimeNew == WeightedAvgTime(nb, v.weights, v.regions);
    NewBestBetween(v, w);
    OpeningBetween(v.bestAll, v.bestActive, nb, v.weights, v.regions);
    CoverageMonotone(v.globalCurrent, newGlobal, v.globalOpt);
    CoverageBounded(newGlobal, v.globalOpt);
    if v.globalCurrent != 0.0 {
      PercentNonNegative(rec.marginalAbs, v.globalCurrent);
    }
  }

  /**
   * The region changes of a recommendation are exactly the regions where the candidate's own
   * time is strictly below the current best, each with its name, weight, old and new time, and
   * they are sorted by decreasing weight with ties in region order.
   */
  lemma RegionChangesExact(v: View, w: WarehouseId)
    requires Consistent(v) && w in v.warehouses
    ensures var own := v.bestByWarehouse[w];
            forall c :: c in Evaluate(v, w).regionChanges ==>
              && c.code in v.regions
              && Before(Lookup(own, c.code), Lookup(v.bestActive, c.code))
              && c == RegionView(c.code, v.regionName[c.code], v.weights[c.code], Lookup(v.bestActive, c.code), Lookup(own, c.code))
    ensures var own := v.bestByWarehouse[w];
            forall r :: r in v.regions && Before(Lookup(own, r), Lookup(v.bestActive, r)) ==>
              RegionView(r, v.regionName[r], v.weights[r], Lookup(v.bestActive, r), Lookup(own, r)) in Evaluate(v, w).regionChanges
    ensures SortedDesc(Evaluate(v, w).regionChanges, Weight)
    ensures forall x :: WithKey(Evaluate(v, w).regionChanges, Weight, x)
                        == WithKey(Changes(v, NewBest(v.bestActive, v.bestByWarehouse[w], v.regions), v.regions), Weight, x)
  {
    var own := v.bestByWarehouse[w];
    var nb := NewBest(v.bestActive, own, v.regions);
    assert Evaluate(v, w).regionChanges == RegionChanges(v, nb);
    SortedChangesExact(v, nb);
    NewBestLookup(v.bestActive, own, v.regions);
    forall r | r in v.regions
      ensures Before(Lookup(nb, r), Lookup(v.bestActive, r)) <==> Before(Lookup(own, r), Lookup(v.bestActive, r))
      ensures Before(Lookup(nb, r), Lookup(v.bestActive, r)) ==> Lookup(nb, r) == Lookup(own, r)
    {
    }
  }

  /** The sorted changes hold exactly the improved regions, by decreasing weight, ties in region order. */
  lemma SortedChangesExact(v: View, nb: map<Region, Time>)
    requires Consistent(v)
    ensures forall c :: c in RegionChanges(v, nb) ==>
              && c.code in v.regions
              && Before(Lookup(nb, c.code), Lookup(v.bestActive, c.code))
              && c == RegionView(c.code, v.regionName[c.code], v.weights[c.code], Lookup(v.bestActive, c.code), Lookup(nb, c.code))
    ensures forall r :: r in v.regions && Before(Lookup(nb, r), Lookup(v.bestActive, r)) ==>
              RegionView(r, v.regionName[r], v.weights[r], Lookup(v.bestActive, r), Lookup(nb, r)) in RegionChanges(v, nb)
    ensures SortedDesc(RegionChanges(v, nb), Weight)
    ensures forall x :: WithKey(RegionChanges(v, nb), Weight, x) == WithKey(Changes(v, nb, v.regions), Weight, x)
  {
    var unsorted := Changes(v, nb, v.regions);
    ChangesExact(v, nb, v.regions);
    SortDescSorted(unsorted, Weight);
    SortDescMembers(unsorted, Weight);
    forall x ensures WithKey(RegionChanges(v, nb), Weight, x) == WithKey(unsorted, Weight, x) {
      SortDescStable(unsorted, Weight, x);
    }
  }

  lemma {:induction false} ChangesExact(v: View, nb: map<Region, Time>, order: seq<Region>)
    requires forall r :: r in order ==> r in v.regionName && r in v.weights
    ensures forall c :: c in Changes(v, nb, order) ==>
              && c.code in order
              && Before(Lookup(nb, c.code), Lookup(v.bestActive, c.code))
              && c == RegionView(c.code, v.regionName[c.code], v.weights[c.code], Lookup(v.bestActive, c.code), Lookup(nb, c.code))
    ensures forall r :: r in order && Before(Lookup(nb, r), Lookup(v.bestActive, r)) ==>
              RegionView(r, v.regionName[r], v.weights[r], Lookup(v.bestActive, r), Lookup(nb, r)) in Changes(v, nb, order)
  {
    if |order| > 0 {
      var n := |order|;
      ChangesExact(v, nb, order[..n - 1]);
      assert order == order[..n - 1] + [order[n - 1]];
    }
  }

  lemma CandidatesStep(ws: seq<WarehouseId>, active: set<WarehouseId>, i: nat)
    requires i < |ws|
    ensures Candidates(ws[..i + 1], active)
         == Candidates(ws[..i], active) + (if ws[i] in active then [] else [ws[i]])
  {
    assert ws[..i + 1][..i] == ws[..i];
  }

  lemma EvaluateAllStep(v: View, ws: seq<WarehouseId>, w: WarehouseId)
    requires Consistent(v)
    requires forall x :: x in ws ==> x in v.warehouses
    requires w in v.warehouses
    ensures EvaluateAll(v, ws + [w]) == EvaluateAll(v, ws) + [Evaluate(v, w)]
  {
    assert (ws + [w])[..|ws|] == ws;
  }

  /** A slice of a sorted sequence is sorted and holds only elements of the input. */
  lemma SliceOfSorted<T>(xs: seq<T>, key: T -> real, n: int)
    ensures SortedDesc(Slice(SortDesc(xs, key), n), key)
    ensures forall x :: x in Slice(SortDesc(xs, key), n) ==> x in xs
  {
    var sorted := SortDesc(xs, key);
    var r := Slice(sorted, n);
    SortDescSorted(xs, key);
    SortDescMembers(xs, key);
    assert r == sorted[..|r|];
    forall x | x in r ensures x in xs {
      assert x in sorted;
    }
  }

  lemma EvaluateId(v: View, w: WarehouseId)
    requires Consistent(v) && w in v.warehouses
    ensures Evaluate(v, w).warehouseId == w
  {
  }

  /** A recommendation in `EvaluateAll(v, ws)` is the evaluation of one of `ws`. */
  lemma EvaluateAllMember(v: View, ws: seq<WarehouseId>, rec: Recommendation)
    requires Consistent(v)
    requires forall w :: w in ws ==> w in v.warehouses
    requires rec in EvaluateAll(v, ws)
    ensures rec.warehouseId in ws && rec == Evaluate(v, rec.warehouseId)
  {
    var all := EvaluateAll(v, ws);
    var i :| 0 <= i < |all| && all[i] == rec;
    EvaluateId(v, ws[i]);
  }

  /**
   * The ranking is sorted by decreasing gain, keeps candidates of equal gain in their
   * first-appearance order, and has `top_n` entries when there are that many candidates.
   */
  lemma RecommendationsSorted(v: View, active: set<WarehouseId>, topN: int)
    requires Consistent(v)
    ensures SortedDesc(RecommendationsOf(v, active, topN), Gain)
    ensures 0 <= topN <= |Candidates(v.warehouses, active)| ==> |RecommendationsOf(v, active, topN)| == topN
    ensures topN >= |Candidates(v.warehouses, active)| ==> |RecommendationsOf(v, active, topN)| == |Candidates(v.warehouses, active)|
    ensures forall x :: WithKey(Ranked(v, active), Gain, x)
                        == WithKey(EvaluateAll(v, Candidates(v.warehouses, active)), Gain, x)
  {
    var all := EvaluateAll(v, Candidates(v.warehouses, active));
    SliceOfSorted(all, Gain, topN);
    forall x ensures WithKey(SortDesc(all, Gain), Gain, x) == WithKey(all, Gain, x) {
      SortDescStable(all, Gain, x);
    }
  }

  /**
   * Every recommendation is for a candidate (a warehouse with speed rows that is not active)
   * and is that warehouse's own evaluation.
   */
  lemma RecommendationsAreCandidates(v: View, active: set<WarehouseId>, topN: int)
    requires Consistent(v)
    ensures forall rec :: rec in RecommendationsOf(v, active, topN) ==>
              && rec.warehouseId in v.warehouses && rec.warehouseId !in active
              && rec == Evaluate(v, rec.warehouseId)
  {
    var cands := Candidates(v.warehouses, active);
    var all := EvaluateAll(v, cands);
    SliceOfSorted(all, Gain, topN);
    forall rec | rec in RecommendationsOf(v, active, topN)
      ensures rec.warehouseId in v.warehouses && rec.warehouseId !in active && rec == Evaluate(v, rec.warehouseId)
    {
      EvaluateAllMember(v, cands, rec);
    }
  }

  /** No candidate left out of the result gains more than any recommendation kept. */
  lemma RecommendationsTop(v: View, active: set<WarehouseId>, topN: int, w: WarehouseId, rec: Recommendation)
    requires Consistent(v)
    requires w in v.warehouses && w !in active
    requires rec in RecommendationsOf(v, active, topN)
    requires forall kept :: kept in RecommendationsOf(v, active, topN) ==> kept.warehouseId != w
    ensures Gain(Evaluate(v, w)) <= Gain(rec)
  {
    var cands := Candidates(v.warehouses, active);
    var all := EvaluateAll(v, cands);
    var recs := RecommendationsOf(v, active, topN);
    var ranked := SortDesc(all, Gain);
    assert recs == ranked[..|recs|];
    var k :| 0 <= k < |cands| && cands[k] == w;
    var e := all[k];
    EvaluateId(v, w);
    assert e == Evaluate(v, w) && e.warehouseId == w;
    assert e !in ranked[..|recs|];
    SortDescPrefixDominates(all, Gain, |recs|, e, rec);
  }

  /** The loop at bot/metrics.py:101-103. */
  method NewBestLoop(v: View, own: map<Region, Time>) returns (newBest: map<Region, Time>)
    ensures newBest == NewBest(v.bestActive, own, v.regions)
  {
    newBest := map[];
    for i := 0 to |v.regions|
      invariant newBest == NewBest(v.bestActive, own, v.regions[..i])
    {
      var r := v.regions[i];
      assert v.regions[..i + 1][..i] == v.regions[..i];
      newBest := newBest[r := Min(Lookup(v.bestActive, r), Lookup(own, r))];
    }
    assert v.regions[..|v.regions|] == v.regions;
  }

  /** The loop at bot/metrics.py:111-116. */
  method ChangesLoop(v: View, newBest: map<Region, Time>) returns (changes: seq<RegionView>)
    requires Consistent(v)
    ensures changes == Changes(v, newBest, v.regions)
  {
    changes := [];
    for i := 0 to |v.regions|
      invariant changes == Changes(v, newBest, v.regions[..i])
    {
      var r := v.regions[i];
      assert v.regions[..i + 1][..i] == v.regions[..i];
      var oldT := Lookup(v.bestActive, r);
      var newT := Lookup(newBest, r);
      if Before(newT, oldT) {
        changes := changes + [RegionView(r, v.regionName[r], v.weights[r], oldT, newT)];
      }
    }
    assert v.regions[..|v.regions|] == v.regions;
  }

  /** The body of the loop of `recommend_next` for one candidate warehouse. */
  method EvaluateCandidate(v: View, w: WarehouseId) returns (rec: Recommendation)
    requires Consistent(v) && w in v.warehouses
    ensures rec == Evaluate(v, w)
  {
    var newBest := NewBestLoop(v, v.bestByWarehouse[w]);
    var newGlobal := ComputeGlobalSpeed(newBest, v.weights, v.regions);
    var marginalAbs := newGlobal - v.globalCurrent;
    var marginalPct := Percent(marginalAbs, v.globalCurrent);
    var oldAvg := WeightedAvgTime(v.bestActive, v.weights, v.regions);
    var newAvg := WeightedAvgTime(newBest, v.weights, v.regions);
    var changes := ChangesLoop(v, newBest);
    rec := Recommendation(
      w, v.warehouseNames[w], marginalAbs, marginalPct,
      if v.globalOpt == 0.0 then 0.0 else newGlobal / v.globalOpt * 100.0,
      v.globalCurrent, oldAvg, newAvg,
      if oldAvg.Finite? && newAvg.Finite? then Finite(newAvg.v - oldAvg.v) else Infinite,
      SortDesc(changes, Weight));
    ghost var expected := Assess(v, w, newBest);
    assert rec.marginalAbs == expected.marginalAbs;
    assert rec.marginalPct == expected.marginalPct;
    assert rec.coveragePct == expected.coveragePct;
    assert rec.weightedAvgTimeOld == expected.weightedAvgTimeOld;
    assert rec.weightedAvgTimeNew == expected.weightedAvgTimeNew;
    assert rec.weightedAvgTimeDelta == expected.weightedAvgTimeDelta;
    assert rec.regionChanges == expected.regionChanges;
    assert rec == expected;
  }

  /** `recommend_next`: evaluate every inactive warehouse, rank by gain, keep the first `top_n`. */
  method RecommendNext(v: View, active: set<WarehouseId>, topN: int) returns (recs: seq<Recommendation>)
    requires Consistent(v)
    ensures recs == RecommendationsOf(v, active, topN)
    ensures SortedDesc(recs, Gain)
    ensures forall rec :: rec in recs ==> rec.warehouseId in v.warehouses && rec.warehouseId !in active
  {
    var all: seq<Recommendation> := [];
    ghost var cands: seq<WarehouseId> := [];
    for i := 0 to |v.warehouses|
      invariant cands == Candidates(v.warehouses[..i], active)
      invariant forall w :: w in cands ==> w in v.warehouses
      invariant all == EvaluateAll(v, cands)
    {
      var w := v.warehouses[i];
      CandidatesStep(v.warehouses, active, i);
      if w !in active {
        var rec := EvaluateCandidate(v, w);
        EvaluateAllStep(v, cands, w);
        all := all + [rec];
        cands := cands + [w];
      }
    }
    assert v.warehouses[..|v.warehouses|] == v.warehouses;
    recs := Slice(SortDesc(all, Gain), topN);
    RecommendationsSorted(v, active, topN);
    RecommendationsAreCandidates(v, active, topN);
  }
  // ---------------------------------------------------------------------------------------
  // The two-region scenario of tests/test_metrics.py:4-18
  // ---------------------------------------------------------------------------------------

  const ScenarioRows: seq<SpeedRow> := [
    SpeedRow("msk", "Moscow", 1, "A", Hours(10.0)),
    SpeedRow("msk", "Moscow", 2, "B", Hours(5.0)),
    SpeedRow("spb", "SPB", 1, "A", Hours(8.0)),
    SpeedRow("spb", "SPB", 2, "B", Hours(20.0))]

  const ScenarioSales: seq<SalesRow> := [SalesRow("msk", 100.0), SalesRow("spb", 100.0)]

  /** The regions and warehouses of the scenario, in first-appearance order. */
  lemma ScenarioOrders()
    ensures FirstSeen(RegionCodes(ScenarioRows)) == ["msk", "spb"]
    ensures FirstSeen(WarehouseIds(ScenarioRows)) == [1, 2]
  {
    var codes: seq<Region> := ["msk", "msk", "spb", "spb"];
    assert RegionCodes(ScenarioRows) == codes;
    assert codes[..3][..2][..1] == codes[..1] == ["msk"];
    assert codes[..3][..2] == codes[..2];
    assert FirstSeen(codes[..1]) == ["msk"];
    assert FirstSeen(codes[..2]) == ["msk"];
    assert FirstSeen(codes[..3]) == ["msk", "spb"];
    var ids: seq<WarehouseId> := [1, 2, 1, 2];
    assert WarehouseIds(ScenarioRows) == ids;
    assert ids[..3][..2][..1] == ids[..1] == [1];
    assert ids[..3][..2] == ids[..2];
    assert FirstSeen(ids[..1]) == [1];
    assert FirstSeen(ids[..2]) == [1, 2];
    assert FirstSeen(ids[..3]) == [1, 2];
  }

  /** The sales dict of the scenario and its key order. */
  lemma ScenarioSalesMap()
    ensures SalesMap(ScenarioSales) == map["msk" := 100.0, "spb" := 100.0]
    ensures FirstSeen(SalesCodes(ScenarioSales)) == ["msk", "spb"]
  {
    var rows := ScenarioSales;
    assert rows[..1] == [rows[0]];
    assert SalesMap(rows[..1]) == map["msk" := 100.0];
    var codes: seq<Region> := ["msk", "spb"];
    assert SalesCodes(rows) == codes;
    assert codes[..1] == ["msk"];
    assert FirstSeen(codes[..1]) == ["msk"];
  }

  /** Two regions selling 100 orders each weigh one half each. */
  lemma EvenSalesWeights(sales: map<Region, real>)
    requires sales == map["msk" := 100.0, "spb" := 100.0]
    ensures Weights(["msk", "spb"], sales, ["msk", "spb"]) == map["msk" := 0.5, "spb" := 0.5]
  {
    var regions: seq<Region> := ["msk", "spb"];
    assert regions[..1] == ["msk"];
    assert Total(sales, regions[..1]) == 100.0;
    assert Total(sales, regions) == 200.0;
    assert "msk" in sales;
    assert SalesWeighted(regions, sales, regions);
    var w := Weights(regions, sales, regions);
    assert w["msk"] == 0.5 && w["spb"] == 0.5;
    assert w.Keys == {"msk", "spb"};
  }

  /** Both regions sell 100 orders, so each weighs one half. */
  lemma ScenarioWeights()
    ensures Weights(["msk", "spb"], SalesMap(ScenarioSales), FirstSeen(SalesCodes(ScenarioSales)))
            == map["msk" := 0.5, "spb" := 0.5]
  {
    ScenarioSalesMap();
    EvenSalesWeights(SalesMap(ScenarioSales));
  }

  /** Each warehouse's own best time per region. */
  lemma ScenarioBestByWarehouse()
    ensures BestByWarehouse(ScenarioRows)
            == map[1 := map["msk" := Hours(10.0), "spb" := Hours(8.0)],
                   2 := map["msk" := Hours(5.0), "spb" := Hours(20.0)]]
  {
    var rows := ScenarioRows;
    assert rows[..3][..2][..1] == rows[..1] == [rows[0]];
    assert rows[..3][..2] == rows[..2];
    assert BestByWarehouse(rows[..1]) == map[1 := map["msk" := Hours(10.0)]];
    assert BestByWarehouse(rows[..2]) == map[1 := map["msk" := Hours(10.0)], 2 := map["msk" := Hours(5.0)]];
    assert BestByWarehouse(rows[..3])
           == map[1 := map["msk" := Hours(10.0), "spb" := Hours(8.0)], 2 := map["msk" := Hours(5.0)]];
  }

  /** With no warehouse active there is no active best time. */
  lemma ScenarioNothingActive()
    ensures ActiveRows(ScenarioRows, {}) == []
  {
    var rows := ScenarioRows;
    assert rows[..3][..2][..1] == rows[..1];
    assert rows[..3][..2] == rows[..2];
    assert ActiveRows(rows[..1], {}) == [];
    assert ActiveRows(rows[..2], {}) == [];
    assert ActiveRows(rows[..3], {}) == [];
  }
  /** The key orders and the per-warehouse times of the scenario's view. */
  lemma ScenarioViewShape(active: set<WarehouseId>)
    ensures var v := ViewOf(ScenarioRows, active, ScenarioSales);
            && v.regions == ["msk", "spb"]
            && v.warehouses == [1, 2]
            && v.bestByWarehouse == map[1 := map["msk" := Hours(10.0), "spb" := Hours(8.0)],
                                        2 := map["msk" := Hours(5.0), "spb" := Hours(20.0)]]
            && v.weights == map["msk" := 0.5, "spb" := 0.5]
  {
    ScenarioOrders();
    ScenarioWeights();
    ScenarioBestByWarehouse();
  }

  /** The view built for the scenario when `active` is empty. */
  lemma ScenarioViewNothingActive()
    ensures var v := ViewOf(ScenarioRows, {}, ScenarioSales);
            && v.bestActive == map[]
            && v.globalCurrent == 0.0
  {
    var v := ViewOf(ScenarioRows, {}, ScenarioSales);
    ScenarioNothingActive();
    GlobalSpeedNothingReached(v.weights, v.regions);
  }
  /** With both regions weighing one half, times of `a` and `b` hours give a speed of `0.5/a + 0.5/b`. */
  lemma HalfWeightSpeed(best: map<Region, Time>, weights: map<Region, real>, regions: seq<Region>,
                        a: PositiveReal, b: PositiveReal)
    requires regions == ["msk", "spb"] && weights == map["msk" := 0.5, "spb" := 0.5]
    requires best == map["msk" := Hours(a), "spb" := Hours(b)]
    ensures GlobalSpeed(best, weights, regions) == 0.5 * (1.0 / a) + 0.5 * (1.0 / b)
  {
    assert regions[..1] == ["msk"];
    assert GlobalSpeed(best, weights, regions[..1]) == 0.5 * (1.0 / a);
  }

  /**
   * With both regions weighing one half, opening a warehouse whose `new_best` times are `a`
   * and `b` hours moves the global speed from the current one to `0.5/a + 0.5/b`.
   */
  lemma HalfWeightGain(v: View, w: WarehouseId, a: PositiveReal, b: PositiveReal)
    requires Consistent(v) && w in v.warehouses
    requires v.regions == ["msk", "spb"] && v.weights == map["msk" := 0.5, "spb" := 0.5]
    requires NewBest(v.bestActive, v.bestByWarehouse[w], v.regions) == map["msk" := Hours(a), "spb" := Hours(b)]
    ensures Gain(Evaluate(v, w)) == 0.5 * (1.0 / a) + 0.5 * (1.0 / b) - v.globalCurrent
  {
    HalfWeightSpeed(NewBest(v.bestActive, v.bestByWarehouse[w], v.regions), v.weights, v.regions, a, b);
  }

  /** `new_best` over the scenario's two regions: the better of the active and the own time per region. */
  lemma TwoRegionNewBest(active: map<Region, Time>, own: map<Region, Time>, regions: seq<Region>)
    requires regions == ["msk", "spb"]
    ensures NewBest(active, own, regions)
            == map["msk" := Min(Lookup(active, "msk"), Lookup(own, "msk")),
                   "spb" := Min(Lookup(active, "spb"), Lookup(own, "spb"))]
  {
    assert regions[..1] == ["msk"];
    assert NewBest(active, own, regions[..1]) == map["msk" := Min(Lookup(active, "msk"), Lookup(own, "msk"))];
  }

  /** The gains of the two warehouses of the scenario when nothing is active. */
  lemma ScenarioGains(v: View)
    requires Consistent(v)
    requires v.regions == ["msk", "spb"] && v.warehouses == [1, 2]
    requires v.weights == map["msk" := 0.5, "spb" := 0.5]
    requires v.bestActive == map[] && v.globalCurrent == 0.0
    requires v.bestByWarehouse == map[1 := map["msk" := Hours(10.0), "spb" := Hours(8.0)],
                                      2 := map["msk" := Hours(5.0), "spb" := Hours(20.0)]]
    ensures Gain(Evaluate(v, 1)) == 0.1125 && Gain(Evaluate(v, 2)) == 0.125
  {
    TwoRegionNewBest(v.bestActive, v.bestByWarehouse[1], v.regions);
    HalfWeightGain(v, 1, 10.0, 8.0);
    assert 0.5 * (1.0 / 10.0) + 0.5 * (1.0 / 8.0) == 0.1125;
    TwoRegionNewBest(v.bestActive, v.bestByWarehouse[2], v.regions);
    HalfWeightGain(v, 2, 5.0, 20.0);
    assert 0.5 * (1.0 / 5.0) + 0.5 * (1.0 / 20.0) == 0.125;
  }

  /** When exactly one warehouse is a candidate, `recommend_next(view, active, 1)` returns its recommendation alone. */
  lemma OnlyCandidate(v: View, active: set<WarehouseId>, w: WarehouseId)
    requires Consistent(v)
    requires Candidates(v.warehouses, active) == [w]
    ensures RecommendationsOf(v, active, 1) == [Evaluate(v, w)]
  {
    var all := EvaluateAll(v, [w]);
    assert all == [Evaluate(v, w)];
    SortDescSingle(Evaluate(v, w), Gain);
  }

  /**
   * When exactly two warehouses are candidates and the second gains strictly more, the one
   * recommendation `recommend_next(view, active, 1)` returns is the second's.
   */
  lemma TopOfTwo(v: View, active: set<WarehouseId>, first: WarehouseId, second: WarehouseId)
    requires Consistent(v)
    requires Candidates(v.warehouses, active) == [first, second]
    requires Gain(Evaluate(v, first)) < Gain(Evaluate(v, second))
    ensures |RecommendationsOf(v, active, 1)| == 1
    ensures RecommendationsOf(v, active, 1)[0] == Evaluate(v, second)
  {
    var recs := RecommendationsOf(v, active, 1);
    assert |recs| == 1 by {
      RecommendationsSorted(v, active, 1);
    }
    var rec := recs[0];
    assert rec.warehouseId in [first, second] && rec == Evaluate(v, rec.warehouseId) by {
      RecommendationsAreCandidates(v, active, 1);
      assert rec in recs;
    }
    if rec.warehouseId == first {
      assert second in Candidates(v.warehouses, active);
      RecommendationsTop(v, active, 1, second, rec);
      assert false;
    }
  }

  /** The candidates among the scenario's warehouses, with nothing and with warehouse 1 active. */
  lemma ScenarioCandidates(ws: seq<WarehouseId>)
    requires ws == [1, 2]
    ensures Candidates(ws, {}) == [1, 2]
    ensures Candidates(ws, {1}) == [2]
  {
    assert ws[..1] == [1];
    assert Candidates(ws[..1], {}) == [1];
    assert Candidates(ws[..1], {1}) == [];
  }

  /** With the scenario's view and nothing active, warehouse 2 is the one recommendation. */
  lemma ScenarioRecommendation(v: View)
    requires Consistent(v)
    requires v.regions == ["msk", "spb"] && v.warehouses == [1, 2]
    requires v.weights == map["msk" := 0.5, "spb" := 0.5]
    requires v.bestActive == map[] && v.globalCurrent == 0.0
    requires v.bestByWarehouse == map[1 := map["msk" := Hours(10.0), "spb" := Hours(8.0)],
                                      2 := map["msk" := Hours(5.0), "spb" := Hours(20.0)]]
    ensures |RecommendationsOf(v, {}, 1)| == 1
    ensures RecommendationsOf(v, {}, 1)[0].warehouseId == 2
    ensures Gain(RecommendationsOf(v, {}, 1)[0]) == 0.125
  {
    ScenarioGains(v);
    ScenarioCandidates(v.warehouses);
    TopOfTwo(v, {}, 1, 2);
    EvaluateId(v, 2);
  }

  /**
   * tests/test_metrics.py:4-18 as the source runs it: the ids read from the rows become `str`
   * at bot/metrics.py:64, so the `{1}` of the test matches no warehouse and nothing is active.
   * Warehouse 2 gains 0.125 against 0.1125 for warehouse 1 and is the one recommendation.
   */
  lemma TestScenarioNothingActive()
    ensures var v := ViewOf(ScenarioRows, {}, ScenarioSales);
            && Consistent(v)
            && |RecommendationsOf(v, {}, 1)| == 1
            && RecommendationsOf(v, {}, 1)[0].warehouseId == 2
            && Gain(RecommendationsOf(v, {}, 1)[0]) == 0.125 > 0.0
  {
    var v := ViewOf(ScenarioRows, {}, ScenarioSales);
    ViewOfWellFormed(ScenarioRows, {}, ScenarioSales);
    ScenarioViewShape({});
    ScenarioViewNothingActive();
    ScenarioRecommendation(v);
  }
  /** With warehouse 1 active, its two rows are the active ones. */
  lemma ScenarioFirstActiveRows()
    ensures ActiveRows(ScenarioRows, {1}) == [ScenarioRows[0], ScenarioRows[2]]
  {
    var rows := ScenarioRows;
    assert rows[..3][..2][..1] == rows[..1];
    assert rows[..3][..2] == rows[..2];
    assert ActiveRows(rows[..1], {1}) == [rows[0]];
    assert ActiveRows(rows[..2], {1}) == [rows[0]];
    assert ActiveRows(rows[..3], {1}) == [rows[0], rows[2]];
  }

  /** With warehouse 1 active, its times are the active best ones. */
  lemma ScenarioFirstActive()
    ensures BestByRegion(ActiveRows(ScenarioRows, {1})) == map["msk" := Hours(10.0), "spb" := Hours(8.0)]
  {
    ScenarioFirstActiveRows();
    var act := [ScenarioRows[0], ScenarioRows[2]];
    assert act[..1] == [ScenarioRows[0]];
    assert BestByRegion(act[..1]) == map["msk" := Hours(10.0)];
  }

  /** The view built for the scenario when warehouse 1 is active. */
  lemma ScenarioViewFirstActive()
    ensures var v := ViewOf(ScenarioRows, {1}, ScenarioSales);
            && v.bestActive == map["msk" := Hours(10.0), "spb" := Hours(8.0)]
            && v.globalCurrent == 0.1125
  {
    var v := ViewOf(ScenarioRows, {1}, ScenarioSales);
    ScenarioFirstActive();
    ScenarioViewShape({1});
    HalfWeightSpeed(v.bestActive, v.weights, v.regions, 10.0, 8.0);
    assert 0.5 * (1.0 / 10.0) + 0.5 * (1.0 / 8.0) == 0.1125;
  }

  /** With the scenario's view and warehouse 1 active, warehouse 2 is the only candidate and gains 0.05. */
  lemma ScenarioFirstActiveRecommendation(v: View)
    requires Consistent(v)
    requires v.regions == ["msk", "spb"] && v.warehouses == [1, 2]
    requires v.weights == map["msk" := 0.5, "spb" := 0.5]
    requires v.bestActive == map["msk" := Hours(10.0), "spb" := Hours(8.0)] && v.globalCurrent == 0.1125
    requires v.bestByWarehouse == map[1 := map["msk" := Hours(10.0), "spb" := Hours(8.0)],
                                      2 := map["msk" := Hours(5.0), "spb" := Hours(20.0)]]
    ensures |RecommendationsOf(v, {1}, 1)| == 1
    ensures RecommendationsOf(v, {1}, 1)[0].warehouseId == 2
    ensures Gain(RecommendationsOf(v, {1}, 1)[0]) == 0.05
  {
    ScenarioCandidates(v.warehouses);
    OnlyCandidate(v, {1}, 2);
    EvaluateId(v, 2);
    ScenarioSecondGain(v);
  }

  /** With warehouse 1 active, opening warehouse 2 improves Moscow from 10 to 5 hours: a gain of 0.05. */
  lemma ScenarioSecondGain(v: View)
    requires Consistent(v)
    requires v.regions == ["msk", "spb"] && v.warehouses == [1, 2]
    requires v.weights == map["msk" := 0.5, "spb" := 0.5]
    requires v.bestActive == map["msk" := Hours(10.0), "spb" := Hours(8.0)] && v.globalCurrent == 0.1125
    requires v.bestByWarehouse[2] == map["msk" := Hours(5.0), "spb" := Hours(20.0)]
    ensures Gain(Evaluate(v, 2)) == 0.05
  {
    TwoRegionNewBest(v.bestActive, v.bestByWarehouse[2], v.regions);
    HalfWeightGain(v, 2, 5.0, 8.0);
    assert 0.5 * (1.0 / 5.0) + 0.5 * (1.0 / 8.0) - 0.1125 == 0.05;
  }

  /**
   * tests/test_metrics.py:4-18 as it is meant, with the `{1}` of the test naming warehouse 1:
   * warehouse 2 is then the one candidate and is recommended with a gain of 0.05.
   */
  lemma TestScenarioFirstActive()
    ensures var v := ViewOf(ScenarioRows, {1}, ScenarioSales);
            && Consistent(v)
            && |RecommendationsOf(v, {1}, 1)| == 1
            && RecommendationsOf(v, {1}, 1)[0].warehouseId == 2
            && Gain(RecommendationsOf(v, {1}, 1)[0]) == 0.05 > 0.0
  {
    var v := ViewOf(ScenarioRows, {1}, ScenarioSales);
    ViewOfWellFormed(ScenarioRows, {1}, ScenarioSales);
    ScenarioViewShape({1});
    ScenarioViewFirstActive();
    ScenarioFirstActiveRecommendation(v);
  }
}
