/** Exponentially weighted signal trackers. The share of an old average that survives `dt` milliseconds is a
    parameter, `decay(dt)`; the program uses two to the power of minus `dt` over the half-life. */
module Ema {
  import opened Common
  import opened BuildupGuard

  // ── Helpers of all trackers ──

  function Normalize(value: real, min: real, saturation: real): real {
    if saturation <= min then 0.0
    else if Abs(value) < min then 0.0
    else Clamp((Abs(value) - min) / (saturation - min), 0.0, 1.0)
  }

  function SignToDirection(value: real): Option<Direction> {
    if value > 0.0 then Some(Up) else if value < 0.0 then Some(Down) else None
  }

  function TimeAlpha(decay: nat -> real, dt: nat): real {
    1.0 - decay(dt)
  }

  function Blend(alpha: real, x: real, ema: real): real {
    alpha * x + (1.0 - alpha) * ema
  }

  predicate IsFresh(lastMs: nat, now: nat, maxAge: nat) {
    lastMs > 0 && SaturatingSub(now, lastMs) <= maxAge
  }

  // ── Trackers, as values ──

  datatype Sample = Sample(value: real, now: nat)

  /** Level trackers: an average of the values themselves. */
  datatype Level = Level(ema: real, lastMs: nat, samples: nat) {
    function Updated(decay: nat -> real, s: Sample): Level {
      var alpha := TimeAlpha(decay, SaturatingSub(s.now, lastMs));
      Level(if samples == 0 then s.value else Blend(alpha, s.value, ema), s.now, samples + 1)
    }
  }

  /** Acceleration trackers: a fast average minus a slow one. */
  datatype Accel = Accel(fast: Level, slow: Level, accel: real) {
    function Updated(fastDecay: nat -> real, slowDecay: nat -> real, s: Sample): Accel {
      var f, g := fast.Updated(fastDecay, s), slow.Updated(slowDecay, s);
      Accel(f, g, f.ema - g.ema)
    }
  }

  /** Velocity trackers: an average of the changes. */
  datatype Velocity = Velocity(prev: real, deltaEma: real, lastMs: nat, initialized: bool) {
    function Updated(decay: nat -> real, s: Sample): Velocity {
      var alpha := TimeAlpha(decay, SaturatingSub(s.now, lastMs));
      Velocity(s.value, if initialized then Blend(alpha, s.value - prev, deltaEma) else deltaEma, s.now, true)
    }
  }

  const NO_LEVEL := Level(0.0, 0, 0)
  const NO_ACCEL := Accel(NO_LEVEL, NO_LEVEL, 0.0)
  const NO_VELOCITY := Velocity(0.0, 0.0, 0, false)

  function Signed(quantity: real, isBuyerMaker: bool): real {
    if isBuyerMaker then -quantity else quantity
  }

  // ── Trackers of the program ──

  class CvdLevelTracker {
    const decay: nat -> real
    const freshnessMaxMs: nat
    const saturation: real
    var cvdEma: real
    var lastUpdateMs: nat
    var samples: nat

    function View(): Level
      reads this
    {
      Level(cvdEma, lastUpdateMs, samples)
    }

    constructor (decay: nat -> real, maxAge: nat, saturation: real)
      ensures View() == NO_LEVEL
      ensures this.decay == decay && freshnessMaxMs == maxAge && this.saturation == saturation
    {
      this.decay, freshnessMaxMs, this.saturation := decay, maxAge, saturation;
      cvdEma, lastUpdateMs, samples := 0.0, 0, 0;
    }

    method Update(quantity: real, isBuyerMaker: bool, now: nat)
      modifies this
      ensures View() == old(View()).Updated(decay, Sample(Signed(quantity, isBuyerMaker), now))
    {
      var signed := Signed(quantity, isBuyerMaker);
      if samples == 0 {
        cvdEma := signed;
      } else {
        var alpha := TimeAlpha(decay, SaturatingSub(now, lastUpdateMs));
        cvdEma := alpha * signed + (1.0 - alpha) * cvdEma;
      }
      lastUpdateMs := now;
      samples := samples + 1;
    }

    function Signal(now: nat): Signal
      reads this
    {
      LevelSignal(View(), now, Limits(freshnessMaxMs, 0.0, saturation))
    }
  }

  class CvdAccelTracker {
    const fastDecay: nat -> real
    const slowDecay: nat -> real
    const freshnessMaxMs: nat
    const minThreshold: real
    const saturation: real
    var fastEma: real
    var slowEma: real
    var accel: real
    var lastUpdateMs: nat
    var samples: nat

    function View(): Accel
      reads this
    {
      Accel(Level(fastEma, lastUpdateMs, samples), Level(slowEma, lastUpdateMs, samples), accel)
    }

    constructor (fastDecay: nat -> real, slowDecay: nat -> real, maxAge: nat, min: real, saturation: real)
      ensures View() == NO_ACCEL && this.fastDecay == fastDecay && this.slowDecay == slowDecay
      ensures freshnessMaxMs == maxAge && minThreshold == min && this.saturation == saturation
    {
      this.fastDecay, this.slowDecay := fastDecay, slowDecay;
      freshnessMaxMs, minThreshold, this.saturation := maxAge, min, saturation;
      fastEma, slowEma, accel, lastUpdateMs, samples := 0.0, 0.0, 0.0, 0, 0;
    }

    method Update(quantity: real, isBuyerMaker: bool, now: nat)
      modifies this
      ensures View() == old(View()).Updated(fastDecay, slowDecay, Sample(Signed(quantity, isBuyerMaker), now))
    {
      var signed := Signed(quantity, isBuyerMaker);
      if samples == 0 {
        fastEma := signed;
        slowEma := signed;
      } else {
        var dt := SaturatingSub(now, lastUpdateMs);
        var a, b := TimeAlpha(fastDecay, dt), TimeAlpha(slowDecay, dt);
        fastEma := a * signed + (1.0 - a) * fastEma;
        slowEma := b * signed + (1.0 - b) * slowEma;
      }
      accel := fastEma - slowEma;
      lastUpdateMs := now;
      samples := samples + 1;
    }
  }

  class ObiVelocityTracker {
    const decay: nat -> real
    const freshnessMaxMs: nat
    const minThreshold: real
    const saturation: real
    var prevObi: real
    var obiDeltaEma: real
    var lastUpdateMs: nat
    var initialized: bool

    function View(): Velocity
      reads this
    {
      Velocity(prevObi, obiDeltaEma, lastUpdateMs, initialized)
    }

    constructor (decay: nat -> real, maxAge: nat, min: real, saturation: real)
      ensures View() == NO_VELOCITY && this.decay == decay
      ensures freshnessMaxMs == maxAge && minThreshold == min && this.saturation == saturation
    {
      this.decay, freshnessMaxMs, minThreshold, this.saturation := decay, maxAge, min, saturation;
      prevObi, obiDeltaEma, lastUpdateMs, initialized := 0.0, 0.0, 0, false;
    }

    method Update(obi: real, now: nat)
      modifies this
      ensures View() == old(View()).Updated(decay, Sample(obi, now))
    {
      if initialized {
        var delta := obi - prevObi;
        var alpha := TimeAlpha(decay, SaturatingSub(now, lastUpdateMs));
        obiDeltaEma := alpha * delta + (1.0 - alpha) * obiDeltaEma;
      }
      prevObi := obi;
      lastUpdateMs := now;
      initialized := true;
    }
  }

  // ── Signals ──

  const MIN_SAMPLES := 10

  datatype Limits = Limits(maxAge: nat, min: real, saturation: real)

  function LevelSignal(l: Level, now: nat, k: Limits): Signal {
    var norm := Normalize(l.ema, k.min, k.saturation);
    Signal(if !IsFresh(l.lastMs, now, k.maxAge) || l.samples < MIN_SAMPLES then 0.0 else norm,
           if l.samples < MIN_SAMPLES then None else SignToDirection(l.ema))
  }

  function AccelSignal(a: Accel, now: nat, k: Limits): Signal {
    LevelSignal(a.fast.(ema := a.accel), now, k)
  }

  function VelocitySignal(v: Velocity, now: nat, k: Limits): Signal {
    var norm := Normalize(v.deltaEma, k.min, k.saturation);
    Signal(if !IsFresh(v.lastMs, now, k.maxAge) || !v.initialized then 0.0 else norm,
           if !v.initialized then None else SignToDirection(v.deltaEma))
  }

  /** Normalized values lie in [0, 1]; they vanish exactly up to the threshold and saturate exactly beyond the
      saturation point. */
  lemma NormalizeIsUnit(value: real, min: real, saturation: real)
    ensures 0.0 <= Normalize(value, min, saturation) <= 1.0
    ensures Normalize(value, min, saturation) == 0.0 <==> saturation <= min || Abs(value) <= min
    ensures Normalize(value, min, saturation) == 1.0 <==> min < saturation <= Abs(value)
  {
    if min < saturation && Abs(value) >= min {
      QuotientAgainstOne(Abs(value) - min, saturation - min);
    }
  }

  lemma QuotientAgainstOne(num: real, den: real)
    requires num >= 0.0 && den > 0.0
    ensures num / den >= 0.0 && (num / den == 0.0 <==> num == 0.0) && (num / den >= 1.0 <==> num >= den)
  {
    if num / den < 0.0 {
      QuotientNegative(num, den);
    }
    if num / den <= 0.0 {
      QuotientAtMost(num, den, 0.0);
    }
    if num == 0.0 {
      QuotientIs(num, den, 0.0);
    }
    if num / den >= 1.0 {
      QuotientAtLeastOne(num, den);
    } else {
      QuotientBelowOne(num, den);
    }
  }

  lemma QuotientNegative(num: real, den: real)
    requires den > 0.0 && num / den < 0.0
    ensures num < 0.0
  {
    MulStrict(num / den, 0.0, den);
    QuotientTimes(num, den);
  }

  lemma QuotientAtLeastOne(num: real, den: real)
    requires den > 0.0 && num / den >= 1.0
    ensures num >= den
  {
    MulMono(1.0, num / den, den);
    QuotientTimes(num, den);
  }

  lemma QuotientBelowOne(num: real, den: real)
    requires den > 0.0 && num / den < 1.0
    ensures num < den
  {
    MulStrict(num / den, 1.0, den);
    QuotientTimes(num, den);
  }

  function GuardSignals(cvd: Accel, obi: Velocity, basis: Velocity, now: nat, c: Limits, o: Limits, b: Limits): Signals
  {
    Signals(AccelSignal(cvd, now, c), VelocitySignal(obi, now, o), VelocitySignal(basis, now, b))
  }

  /** The guard's score of any signals the trackers can produce is a weight in [0, 1]. */
  lemma TrackersKeepTheScoreUnit(cvd: Accel, obi: Velocity, basis: Velocity, now: nat, c: Limits, o: Limits, b: Limits)
    ensures UnitSignals(GuardSignals(cvd, obi, basis, now, c, o, b))
    ensures 0.0 <= Score(GuardSignals(cvd, obi, basis, now, c, o, b)) <= 1.0
  {
    NormalizeIsUnit(cvd.accel, c.min, c.saturation);
    NormalizeIsUnit(obi.deltaEma, o.min, o.saturation);
    NormalizeIsUnit(basis.deltaEma, b.min, b.saturation);
    ScoreIsAVetoedWeight(GuardSignals(cvd, obi, basis, now, c, o, b));
  }

  // ── Laws ──

  /** What is used of the exponential: it starts at one, never grows beyond it, and multiplies over time. */
  ghost predicate IsDecay(decay: nat -> real) {
    && decay(0) == 1.0
    && (forall t :: 0.0 < decay(t) <= 1.0)
    && (forall s, t {:trigger Later(decay, s, t)} :: Later(decay, s, t) == decay(s) * decay(t))
  }

  function Later(decay: nat -> real, s: nat, t: nat): real {
    decay(s + t)
  }

  ghost predicate Within(samples: seq<Sample>, lo: real, hi: real) {
    forall s :: s in samples ==> lo <= s.value <= hi
  }

  lemma Share(alpha: real, d: real) returns (p: real)
    requires 0.0 <= alpha <= 1.0 && d >= 0.0
    ensures p == alpha * d && 0.0 <= p <= d
  {
    p := alpha * d;
    MulMono(alpha, 1.0, d);
  }

  lemma BlendStaysWithin(alpha: real, x: real, ema: real, lo: real, hi: real)
    requires 0.0 <= alpha <= 1.0 && lo <= x <= hi && lo <= ema <= hi
    ensures lo <= Blend(alpha, x, ema) <= hi
  {
    if x >= ema {
      var p := Share(alpha, x - ema);
      assert Blend(alpha, x, ema) == ema + p;
    } else {
      var p := Share(alpha, ema - x);
      assert Blend(alpha, x, ema) == ema - p;
    }
  }

  ghost function LevelOf(decay: nat -> real, samples: seq<Sample>): Level {
    if samples == [] then NO_LEVEL
    else LevelOf(decay, samples[..|samples| - 1]).Updated(decay, samples[|samples| - 1])
  }

  /** A level stays between the smallest and the largest value it was fed, whatever the timestamps. */
  lemma {:induction false} LevelStaysWithin(decay: nat -> real, samples: seq<Sample>, lo: real, hi: real)
    requires IsDecay(decay) && samples != [] && Within(samples, lo, hi)
    ensures lo <= LevelOf(decay, samples).ema <= hi && LevelOf(decay, samples).samples == |samples|
  {
    var front, s := samples[..|samples| - 1], samples[|samples| - 1];
    assert s in samples;
    if front != [] {
      LevelStaysWithin(decay, front, lo, hi);
      var l := LevelOf(decay, front);
      BlendStaysWithin(TimeAlpha(decay, SaturatingSub(s.now, l.lastMs)), s.value, l.ema, lo, hi);
    }
  }

  ghost function AccelOf(fast: nat -> real, slow: nat -> real, samples: seq<Sample>): Accel {
    if samples == [] then NO_ACCEL
    else AccelOf(fast, slow, samples[..|samples| - 1]).Updated(fast, slow, samples[|samples| - 1])
  }

  lemma {:induction false} AccelIsTwoLevels(fast: nat -> real, slow: nat -> real, samples: seq<Sample>)
    ensures var a := AccelOf(fast, slow, samples);
            && a.fast == LevelOf(fast, samples) && a.slow == LevelOf(slow, samples)
            && a.accel == a.fast.ema - a.slow.ema
  {
    if samples != [] {
      AccelIsTwoLevels(fast, slow, samples[..|samples| - 1]);
    }
  }

  /** An acceleration never exceeds the spread of the values. */
  lemma AccelStaysWithinSpread(fast: nat -> real, slow: nat -> real, samples: seq<Sample>, lo: real, hi: real)
    requires IsDecay(fast) && IsDecay(slow) && lo <= hi && Within(samples, lo, hi)
    ensures Abs(AccelOf(fast, slow, samples).accel) <= hi - lo
  {
    AccelIsTwoLevels(fast, slow, samples);
    if samples != [] {
      LevelStaysWithin(fast, samples, lo, hi);
      LevelStaysWithin(slow, samples, lo, hi);
    }
  }

  ghost function VelocityOf(decay: nat -> real, samples: seq<Sample>): Velocity {
    if samples == [] then NO_VELOCITY
    else VelocityOf(decay, samples[..|samples| - 1]).Updated(decay, samples[|samples| - 1])
  }

  /** Neither does a velocity. */
  lemma {:induction false} VelocityStaysWithinSpread(decay: nat -> real, samples: seq<Sample>, lo: real, hi: real)
    requires IsDecay(decay) && lo <= hi && Within(samples, lo, hi)
    ensures var v := VelocityOf(decay, samples);
            && Abs(v.deltaEma) <= hi - lo
            && v.initialized == (samples != []) && (v.initialized ==> lo <= v.prev <= hi)
  {
    if samples != [] {
      var front, s := samples[..|samples| - 1], samples[|samples| - 1];
      VelocityStaysWithinSpread(decay, front, lo, hi);
      assert s in samples;
      var v := VelocityOf(decay, front);
      if v.initialized {
        BlendStaysWithin(TimeAlpha(decay, SaturatingSub(s.now, v.lastMs)), s.value - v.prev, v.deltaEma,
                         lo - hi, hi - lo);
      }
    }
  }

  // ── Arrival rate ──

  lemma TwoBlends(a: real, b: real, x: real, ema: real)
    ensures Blend(b, x, Blend(a, x, ema)) == Blend(1.0 - (1.0 - a) * (1.0 - b), x, ema)
  {
  }

  lemma DecayMultiplies(decay: nat -> real, r: nat, s: nat, t: nat)
    requires IsDecay(decay) && r <= s <= t
    ensures decay(t - r) == decay(s - r) * decay(t - s)
  {
    assert Later(decay, s - r, t - s) == decay(s - r) * decay(t - s);
    assert s - r + (t - s) == t - r;
  }

  /** Feeding a value at two instants is feeding it once, at the later one. */
  lemma FeedingTwiceIsFeedingOnce(decay: nat -> real, l: Level, x: real, s: nat, t: nat)
    requires IsDecay(decay) && l.samples > 0 && l.lastMs <= s <= t
    ensures l.Updated(decay, Sample(x, s)).Updated(decay, Sample(x, t)).ema == l.Updated(decay, Sample(x, t)).ema
  {
    var a, b := TimeAlpha(decay, s - l.lastMs), TimeAlpha(decay, t - s);
    DecayMultiplies(decay, l.lastMs, s, t);
    TwoBlends(a, b, x, l.ema);
  }

  ghost predicate Repeats(samples: seq<Sample>, x: real, from: nat) {
    && (forall i :: 0 <= i < |samples| ==> samples[i].value == x && from <= samples[i].now)
    && (forall i, j :: 0 <= i < j < |samples| ==> samples[i].now <= samples[j].now)
  }

  ghost function Fed(decay: nat -> real, l: Level, samples: seq<Sample>): Level {
    if samples == [] then l else Fed(decay, l, samples[..|samples| - 1]).Updated(decay, samples[|samples| - 1])
  }

  /** However often a value arrives up to some instant, the level there is the same. */
  lemma {:induction false} ArrivalRateDoesNotMatter(decay: nat -> real, l: Level, samples: seq<Sample>, x: real)
    requires IsDecay(decay) && l.samples > 0 && samples != [] && Repeats(samples, x, l.lastMs)
    ensures var end := samples[|samples| - 1].now;
            var f, once := Fed(decay, l, samples), l.Updated(decay, Sample(x, end));
            f.ema == once.ema && f.lastMs == end && f.samples == l.samples + |samples|
  {
    var n := |samples| - 1;
    var front, s := samples[..n], samples[n];
    assert s == Sample(x, s.now);
    if front == [] {
      assert Fed(decay, l, front) == l;
    } else {
      ArrivalRateDoesNotMatter(decay, l, front, x);
      var mid := front[n - 1].now;
      FeedingTwiceIsFeedingOnce(decay, l, x, mid, s.now);
      assert samples[n - 1].now <= samples[n].now;
    }
  }

  lemma OneBlendMinusTwo(a: real, b: real, c: real, d: real, ema: real)
    requires c == a * b
    ensures Blend(1.0 - c, d, ema) - Blend(1.0 - b, 0.0, Blend(1.0 - a, d, ema)) == (1.0 - b) * d
  {
    assert Blend(1.0 - b, 0.0, Blend(1.0 - a, d, ema)) == b * ((1.0 - a) * d + a * ema);
    assert b * ((1.0 - a) * d + a * ema) == b * d - a * b * d + a * b * ema;
  }

  lemma ProductVanishes(c: real, d: real)
    ensures c * d == 0.0 <==> c == 0.0 || d == 0.0
  {
  }

  /** Velocities do depend on the arrival rate: repeating a value leaves the velocity as a single feed would
      exactly when the value did not change or nothing decayed in between. */
  lemma VelocityIsRateIndependentExactly(decay: nat -> real, v: Velocity, x: real, s: nat, t: nat)
    requires IsDecay(decay) && v.initialized && v.lastMs <= s <= t
    ensures v.Updated(decay, Sample(x, s)).Updated(decay, Sample(x, t)).deltaEma
         == v.Updated(decay, Sample(x, t)).deltaEma
       <==> x == v.prev || decay(t - s) == 1.0
  {
    var a, b, c, d := decay(s - v.lastMs), decay(t - s), decay(t - v.lastMs), x - v.prev;
    DecayMultiplies(decay, v.lastMs, s, t);
    assert v.Updated(decay, Sample(x, t)).deltaEma == Blend(1.0 - c, d, v.deltaEma);
    assert v.Updated(decay, Sample(x, s)).deltaEma == Blend(1.0 - a, d, v.deltaEma);
    OneBlendMinusTwo(a, b, c, d, v.deltaEma);
    ProductVanishes(1.0 - b, d);
  }
}
