/** The fair value estimator: fixing the strike from the first prices, and the clamps that keep both fair values
    and the momentum in range. The normal distribution, logarithms and the exponential are parameters. */
module FairValue {
  import opened Common

  // ── Sorting ──

  function Insert(x: real, s: seq<real>): (r: seq<real>)
    ensures |r| == |s| + 1 && multiset(r) == multiset(s) + multiset{x}
  {
    if s == [] then [x]
    else if x <= s[0] then [x] + s
    else
      var rest := Insert(x, s[1..]);
      assert s == [s[0]] + s[1..];
      [s[0]] + rest
  }

  function Sort(s: seq<real>): (r: seq<real>)
    ensures |r| == |s| && multiset(r) == multiset(s)
  {
    if s == [] then []
    else
      assert s == [s[0]] + s[1..];
      Insert(s[0], Sort(s[1..]))
  }

  ghost predicate Ascending(s: seq<real>) {
    forall i, j :: 0 <= i < j < |s| ==> s[i] <= s[j]
  }

  lemma {:induction false} InsertAscends(x: real, s: seq<real>)
    requires Ascending(s)
    ensures Ascending(Insert(x, s))
  {
    if s != [] && x > s[0] {
      InsertAscends(x, s[1..]);
      var rest := Insert(x, s[1..]);
      forall i | 0 <= i < |rest| ensures s[0] <= rest[i] {
        assert rest[i] in multiset(rest);
      }
    }
  }

  lemma {:induction false} SortAscends(s: seq<real>)
    ensures Ascending(Sort(s))
  {
    if s != [] {
      SortAscends(s[1..]);
      InsertAscends(s[0], Sort(s[1..]));
    }
  }

  lemma FirstIsLeast(a: seq<real>, x: real)
    requires Ascending(a) && x in multiset(a)
    ensures a != [] && a[0] <= x
  {
    var i :| 0 <= i < |a| && a[i] == x;
  }

  /** Two ascending arrangements of the same values start alike, and so do what follows. */
  lemma SameStart(a: seq<real>, b: seq<real>)
    requires Ascending(a) && Ascending(b) && multiset(a) == multiset(b) && a != []
    ensures b != [] && a[0] == b[0]
  {
    assert a[0] in multiset(b);
    FirstIsLeast(b, a[0]);
    assert b[0] in multiset(a);
    FirstIsLeast(a, b[0]);
  }

  lemma RestOf(a: seq<real>)
    requires a != []
    ensures multiset(a[1..]) == multiset(a) - multiset{a[0]}
    ensures Ascending(a) ==> Ascending(a[1..])
  {
    assert a == [a[0]] + a[1..];
  }

  lemma {:induction false} AscendingIsUnique(a: seq<real>, b: seq<real>)
    requires Ascending(a) && Ascending(b) && multiset(a) == multiset(b)
    ensures a == b
    decreases |a|
  {
    if a == [] {
      assert |multiset(b)| == 0;
    } else {
      SameStart(a, b);
      RestOf(a);
      RestOf(b);
      AscendingIsUnique(a[1..], b[1..]);
      Rejoined(a, b);
    }
  }

  lemma Rejoined(a: seq<real>, b: seq<real>)
    requires a != [] && b != [] && a[0] == b[0] && a[1..] == b[1..]
    ensures a == b
  {
    assert a == [a[0]] + a[1..] && b == [b[0]] + b[1..];
  }

  // ── The median ──

  function Median(s: seq<real>): real
    requires s != []
  {
    Sort(s)[|s| / 2]
  }

  /** How many values lie below `m`, or at most at `m`. */
  ghost function Count(s: seq<real>, m: real, inclusive: bool): nat {
    if s == [] then 0
    else (if s[0] < m || (inclusive && s[0] == m) then 1 else 0) + Count(s[1..], m, inclusive)
  }

  lemma {:induction false} CountInsert(x: real, s: seq<real>, m: real, inclusive: bool)
    ensures Count(Insert(x, s), m, inclusive) == Count([x], m, inclusive) + Count(s, m, inclusive)
  {
    if s != [] {
      if x <= s[0] {
        assert Insert(x, s)[1..] == s;
      } else {
        CountInsert(x, s[1..], m, inclusive);
        assert Insert(x, s)[1..] == Insert(x, s[1..]);
      }
    }
  }

  lemma {:induction false} CountSort(s: seq<real>, m: real, inclusive: bool)
    ensures Count(Sort(s), m, inclusive) == Count(s, m, inclusive)
  {
    if s != [] {
      CountSort(s[1..], m, inclusive);
      CountInsert(s[0], Sort(s[1..]), m, inclusive);
    }
  }

  lemma {:induction false} CountRank(s: seq<real>, k: nat)
    requires Ascending(s) && k < |s|
    ensures Count(s, s[k], false) <= k < Count(s, s[k], true)
  {
    CountBounds(s, s[k], k);
  }

  lemma {:induction false} CountBounds(s: seq<real>, m: real, k: nat)
    requires Ascending(s) && k < |s| && s[k] == m
    ensures Count(s, m, false) <= k < Count(s, m, true)
    decreases |s|
  {
    if k > 0 {
      CountBounds(s[1..], m, k - 1);
    } else {
      NoneBelow(s, m);
    }
  }

  lemma {:induction false} NoneBelow(s: seq<real>, m: real)
    requires forall i :: 0 <= i < |s| ==> m <= s[i]
    ensures Count(s, m, false) == 0
  {
    if s != [] {
      NoneBelow(s[1..], m);
    }
  }

  /** At most half of the values lie below the median, and more than half at or below it. */
  lemma MedianIsInTheMiddle(s: seq<real>)
    requires s != []
    ensures Median(s) in s
    ensures Count(s, Median(s), false) <= |s| / 2 < Count(s, Median(s), true)
  {
    SortAscends(s);
    CountRank(Sort(s), |s| / 2);
    CountSort(s, Median(s), false);
    CountSort(s, Median(s), true);
    assert Median(s) in multiset(Sort(s));
  }

  /** The order in which prices arrive does not matter. */
  lemma MedianIgnoresOrder(a: seq<real>, b: seq<real>)
    requires a != [] && multiset(a) == multiset(b)
    ensures b != [] && Median(a) == Median(b)
  {
    SortAscends(a);
    SortAscends(b);
    AscendingIsUnique(Sort(a), Sort(b));
    assert |multiset(a)| == |a| && |multiset(b)| == |b|;
  }

  // ── The estimator ──

  /** One number for each of the eight momentum signals: a weight, or a signed value. */
  datatype PerSignal = PerSignal(
    basis: real, cvd: real, obi: real, cvdLevel: real, obiLevel: real, basisLevel: real, spotCvd: real,
    liquidation: real)

  datatype FairValueConfig = FairValueConfig(
    weights: PerSignal, maxMomentumAdj: real, useLogitMomentum: bool, momentumTimeDecay: bool,
    volEdgeScale: real, timeEdgeScale: real, baselineVol: real,
    regimeSpikeThreshold: real, regimeSpikePenalty: real, staleDataEdgePenalty: real,
    strikeWarmupCount: nat)

  /** What one recomputation reads besides the estimator itself: the model's base probability, the signed signals,
      both volatilities, the remaining time and its root, and the number of stale feeds. */
  datatype Reading = Reading(
    baseFv: real, signals: PerSignal, vol: real, sessionVol: real,
    timeFraction: real, timeRoot: real, staleFeeds: nat, minEdge: real)

  function RawMomentum(w: PerSignal, s: PerSignal): real {
    w.basis * s.basis + w.cvd * s.cvd + w.obi * s.obi
    + w.cvdLevel * s.cvdLevel + w.obiLevel * s.obiLevel + w.basisLevel * s.basisLevel
    + w.spotCvd * s.spotCvd + w.liquidation * s.liquidation
  }

  function MomentumOf(c: FairValueConfig, r: Reading): real {
    var factor := if c.momentumTimeDecay then r.timeFraction else 1.0;
    Clamp(RawMomentum(c.weights, r.signals) * factor, -c.maxMomentumAdj, c.maxMomentumAdj)
  }

  function YesOf(c: FairValueConfig, logitShift: (real, real) -> real, r: Reading): real {
    var shifted :=
      if c.useLogitMomentum then logitShift(Clamp(r.baseFv, 0.02, 0.98), MomentumOf(c, r))
      else r.baseFv + MomentumOf(c, r);
    Clamp(shifted, 0.02, 0.98)
  }

  function EdgeOf(c: FairValueConfig, r: Reading): real
    requires c.baselineVol != 0.0
  {
    var calm := r.minEdge + c.volEdgeScale * Min(r.vol / c.baselineVol, 2.0) + c.timeEdgeScale * r.timeRoot;
    var spike := r.sessionVol > 0.0 && r.vol / r.sessionVol > c.regimeSpikeThreshold;
    (if spike then calm + c.regimeSpikePenalty else calm) + r.staleFeeds as real * c.staleDataEdgePenalty
  }

  class FairValueEstimator {
    const config: FairValueConfig
    const logitShift: (real, real) -> real  // probability and momentum to the shifted probability
    var strikePrice: real
    var currentBtc: real
    var yes: real
    var no: real
    var edge: real
    var lastMomentum: real
    var warmup: seq<real>

    constructor (config: FairValueConfig, logitShift: (real, real) -> real)
      ensures this.config == config && this.logitShift == logitShift
      ensures Strike() == FRESH_STRIKE && currentBtc == 0.0
      ensures yes == no == 0.5 && edge == 0.05 && lastMomentum == 0.0
    {
      this.config, this.logitShift := config, logitShift;
      strikePrice, currentBtc, warmup := 0.0, 0.0, [];
      yes, no, edge, lastMomentum := 0.5, 0.5, 0.05, 0.0;
    }

    function Strike(): StrikeState
      reads this
    {
      StrikeState(strikePrice, warmup)
    }

    method TrySetStrike(price: real) returns (done: bool)
      modifies this`strikePrice, this`warmup
      ensures (Strike(), done) == OnPrice(config.strikeWarmupCount, old(Strike()), price)
    {
      if strikePrice > 0.0 {
        return true;
      }
      warmup := warmup + [price];
      if |warmup| >= config.strikeWarmupCount {
        warmup := Sort(warmup);
        strikePrice := warmup[|warmup| / 2];
        done := true;
      } else {
        done := false;
      }
    }

    /** Both fair values stay two cents away from certainty and add up to a dollar, and the momentum stays within
        its limit. */
    method Recompute(r: Reading)
      requires config.baselineVol != 0.0 && 0.0 <= config.maxMomentumAdj
      modifies this
      ensures Strike() == old(Strike()) && currentBtc == old(currentBtc)
      ensures !IsWarm() ==>
                yes == old(yes) && no == old(no) && edge == old(edge) && lastMomentum == old(lastMomentum)
      ensures IsWarm() ==>
                && 0.02 <= yes <= 0.98 && yes + no == 1.0 && Abs(lastMomentum) <= config.maxMomentumAdj
                && yes == YesOf(config, logitShift, r)
                && lastMomentum == MomentumOf(config, r) && edge == EdgeOf(config, r)
    {
      if strikePrice <= 0.0 || currentBtc <= 0.0 {
        return;
      }
      var momentum := MomentumOf(config, r);
      lastMomentum := momentum;
      if config.useLogitMomentum {
        yes := Clamp(logitShift(Clamp(r.baseFv, 0.02, 0.98), momentum), 0.02, 0.98);
      } else {
        yes := Clamp(r.baseFv + momentum, 0.02, 0.98);
      }
      no := 1.0 - yes;
      edge := EdgeOf(config, r);
    }

    predicate IsWarm()
      reads this
    {
      strikePrice > 0.0 && currentBtc > 0.0
    }
  }

  // ── Fixing the strike ──

  datatype StrikeState = StrikeState(strike: real, warmup: seq<real>)

  const FRESH_STRIKE := StrikeState(0.0, [])

  function OnPrice(count: nat, s: StrikeState, price: real): (StrikeState, bool) {
    if s.strike > 0.0 then (s, true)
    else
      var more := s.warmup + [price];
      if |more| < count then (s.(warmup := more), false)
      else (StrikeState(Median(more), Sort(more)), true)
  }

  ghost function AfterPrices(count: nat, prices: seq<real>): StrikeState {
    if prices == [] then FRESH_STRIKE
    else OnPrice(count, AfterPrices(count, prices[..|prices| - 1]), prices[|prices| - 1]).0
  }

  /** The prices the strike is taken from: as many as configured, but at least one. */
  function Needed(count: nat): nat {
    if count == 0 then 1 else count
  }

  lemma {:induction false} BeforeTheStrike(count: nat, prices: seq<real>)
    requires |prices| < Needed(count)
    ensures AfterPrices(count, prices) == StrikeState(0.0, prices)
  {
    if prices != [] {
      BeforeTheStrike(count, prices[..|prices| - 1]);
      assert prices[..|prices| - 1] + [prices[|prices| - 1]] == prices;
    }
  }

  /** The strike is open until enough prices have come; then it is their median, and if that is positive it never
      changes again, whatever prices follow. */
  lemma {:induction false} StrikeIsTheMedianForever(count: nat, prices: seq<real>)
    ensures |prices| < Needed(count) ==> AfterPrices(count, prices).strike == 0.0
    ensures |prices| >= Needed(count) && Median(prices[..Needed(count)]) > 0.0 ==>
              AfterPrices(count, prices).strike == Median(prices[..Needed(count)])
  {
    var k, n := Needed(count), |prices|;
    if n < k {
      BeforeTheStrike(count, prices);
    } else {
      var front := prices[..n - 1];
      if n == k {
        BeforeTheStrike(count, front);
        assert front + [prices[n - 1]] == prices == prices[..k];
      } else {
        StrikeIsTheMedianForever(count, front);
        assert front[..k] == prices[..k];
      }
    }
  }

  /** The first time the strike is reported as set it really is set exactly when the median is positive; otherwise
      the report is wrong, and the next price is collected as well. */
  lemma ReportedStrikeIsSetExactly(count: nat, prices: seq<real>, next: real)
    requires |prices| + 1 == Needed(count)
    ensures var (s, done) := OnPrice(count, AfterPrices(count, prices), next);
            done && (s.strike > 0.0 <==> Median(prices + [next]) > 0.0)
            && forall p :: OnPrice(count, s, p).0 == s <==> s.strike > 0.0
  {
    BeforeTheStrike(count, prices);
    var (s, done) := OnPrice(count, AfterPrices(count, prices), next);
    forall p ensures OnPrice(count, s, p).0 == s <==> s.strike > 0.0 {
      if s.strike <= 0.0 {
        assert |OnPrice(count, s, p).0.warmup| == |s.warmup| + 1;
      }
    }
  }
}
