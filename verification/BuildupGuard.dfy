/** The buildup guard: quoting goes dark when several signals agree on a directional move, and comes back
    only after the score has fallen below a second, lower threshold. */
module BuildupGuard {
  import opened Common

  datatype Direction = Up | Down

  /** Strength in [0, 1] and direction of one signal. */
  datatype Signal = Signal(norm: real, dir: Option<Direction>)

  datatype Signals = Signals(cvd: Signal, obi: Signal, basis: Signal)

  /** Signals with strength that point in `d`. */
  ghost function Votes(signals: seq<Signal>, d: Direction): nat {
    if signals == [] then 0
    else
      var s := signals[|signals| - 1];
      Votes(signals[..|signals| - 1], d) + if s.norm > 0.0 && s.dir == Some(d) then 1 else 0
  }

  function InOrder(s: Signals): seq<Signal> {
    [s.cvd, s.obi, s.basis]
  }

  ghost predicate Consensus(s: Signals) {
    (Votes(InOrder(s), Up) > 0) != (Votes(InOrder(s), Down) > 0)
  }

  predicate Leading(s: Signals) {
    s.cvd.norm > 0.0 || s.basis.norm > 0.0
  }

  function Composite(s: Signals): real {
    0.40 * s.cvd.norm + 0.30 * s.basis.norm + 0.30 * s.obi.norm
  }

  /** The score the guard acts on. */
  ghost function Score(s: Signals): real {
    if Consensus(s) && Leading(s) then Composite(s) else 0.0
  }

  /** The read-only score shown in diagnostics is the score the guard acts on. */
  method BuildupScore(s: Signals) returns (score: real)
    ensures score == Score(s)
  {
    var signals := InOrder(s);
    var up, down := 0, 0;
    for i := 0 to |signals|
      invariant up == Votes(signals[..i], Up)
      invariant down == Votes(signals[..i], Down)
    {
      assert signals[..i + 1][..i] == signals[..i];
      if signals[i].norm > 0.0 {
        match signals[i].dir
        case Some(Up) => up := up + 1;
        case Some(Down) => down := down + 1;
        case None =>
      }
    }
    assert signals[..|signals|] == signals;
    var consensus := (up > 0 && down == 0) || (down > 0 && up == 0);
    if consensus && Leading(s) {
      score := Composite(s);
    } else {
      score := 0.0;
    }
  }

  ghost predicate UnitSignals(s: Signals) {
    0.0 <= s.cvd.norm <= 1.0 && 0.0 <= s.obi.norm <= 1.0 && 0.0 <= s.basis.norm <= 1.0
  }

  /** The score is a weight in [0, 1], and any two opposed signals veto it. */
  lemma ScoreIsAVetoedWeight(s: Signals)
    requires UnitSignals(s)
    ensures 0.0 <= Score(s) <= 1.0
    ensures Votes(InOrder(s), Up) > 0 && Votes(InOrder(s), Down) > 0 ==> Score(s) == 0.0
  {
  }

  // ── Hysteresis ──

  function GuardNext(active: bool, score: real, dark: real, live: real): bool {
    if active then !(score < live) else score >= dark
  }

  /** State of the guard after a sequence of scores. */
  ghost function GuardAfter(active: bool, scores: seq<real>, dark: real, live: real): bool {
    if scores == [] then active
    else GuardNext(GuardAfter(active, scores[..|scores| - 1], dark, live), scores[|scores| - 1], dark, live)
  }

  predicate Decisive(score: real, dark: real, live: real) {
    score < live || dark <= score
  }

  /** The latest decisive score said "dark"; with none, the guard is as it began. */
  ghost function LatestVerdict(active: bool, scores: seq<real>, dark: real, live: real): bool {
    if scores == [] then active
    else
      var last := scores[|scores| - 1];
      if Decisive(last, dark, live) then dark <= last
      else LatestVerdict(active, scores[..|scores| - 1], dark, live)
  }

  lemma {:induction false} GuardFollowsTheLatestVerdict(active: bool, scores: seq<real>, dark: real, live: real)
    requires live <= dark
    ensures GuardAfter(active, scores, dark, live) == LatestVerdict(active, scores, dark, live)
  {
    if scores != [] {
      GuardFollowsTheLatestVerdict(active, scores[..|scores| - 1], dark, live);
    }
  }

  /** Score `i` reached `dark`, and none since fell below `live`. */
  ghost predicate DarkSince(scores: seq<real>, dark: real, live: real, i: nat) {
    i < |scores| && dark <= scores[i] && forall j :: i < j < |scores| ==> live <= scores[j]
  }

  lemma DarkSinceGrows(scores: seq<real>, last: real, dark: real, live: real, i: nat)
    requires live <= dark && i < |scores|
    ensures DarkSince(scores + [last], dark, live, i) <==> DarkSince(scores, dark, live, i) && live <= last
  {
    var more := scores + [last];
    if DarkSince(more, dark, live, i) {
      assert more[|scores|] == last;
      forall j | i < j < |scores| ensures live <= scores[j] {
        assert more[j] == scores[j];
      }
    }
  }

  lemma DarkSinceLast(scores: seq<real>, last: real, dark: real, live: real)
    ensures DarkSince(scores + [last], dark, live, |scores|) <==> dark <= last
  {
  }

  /** From a quiet start the guard is active exactly if some score reached `dark` and none since fell below
      `live`. */
  lemma {:induction false} GuardIsActiveExactlySinceDark(scores: seq<real>, dark: real, live: real)
    requires live <= dark
    ensures GuardAfter(false, scores, dark, live) <==> exists i :: DarkSince(scores, dark, live, i)
  {
    if scores != [] {
      var front, last := scores[..|scores| - 1], scores[|scores| - 1];
      assert scores == front + [last];
      GuardIsActiveExactlySinceDark(front, dark, live);
      DarkSinceLast(front, last, dark, live);
      forall i: nat | i < |front|
        ensures DarkSince(scores, dark, live, i) <==> DarkSince(front, dark, live, i) && live <= last
      {
        DarkSinceGrows(front, last, dark, live, i);
      }
      if dark <= last {
        assert DarkSince(scores, dark, live, |front|);
      } else if live <= last && GuardAfter(false, front, dark, live) {
        var i :| DarkSince(front, dark, live, i);
        assert DarkSince(scores, dark, live, i);
      }
    }
  }

  /** The `k`-th score turned the guard on. */
  ghost predicate Darkens(active: bool, scores: seq<real>, dark: real, live: real, k: nat)
    requires k < |scores|
  {
    !GuardAfter(active, scores[..k], dark, live) && GuardAfter(active, scores[..k + 1], dark, live)
  }

  /** While no score falls below `live`, an active guard stays active. */
  lemma {:induction false} ActiveUntilLive(active: bool, scores: seq<real>, dark: real, live: real, i: nat, k: nat)
    requires i <= k <= |scores|
    requires GuardAfter(active, scores[..i], dark, live)
    requires forall j :: i <= j < k ==> live <= scores[j]
    ensures GuardAfter(active, scores[..k], dark, live)
    decreases k
  {
    if i < k {
      ActiveUntilLive(active, scores, dark, live, i, k - 1);
      assert scores[..k][..k - 1] == scores[..k - 1];
    }
  }

  /** Between two darkenings the score has always fallen below `live`. */
  lemma DarkeningsAreSeparated(active: bool, scores: seq<real>, dark: real, live: real, i: nat, k: nat)
    requires i < k < |scores|
    requires Darkens(active, scores, dark, live, i) && Darkens(active, scores, dark, live, k)
    ensures exists j :: i < j < k && scores[j] < live
  {
    if forall j :: i < j < k ==> live <= scores[j] {
      ActiveUntilLive(active, scores, dark, live, i + 1, k);
    }
  }

  /** A constant score, `n` times. */
  function Repeat(score: real, n: nat): (r: seq<real>)
    ensures |r| == n
  {
    seq(n, i => score)
  }

  /** Thresholds the wrong way round make the guard flicker: one and the same score turns it on, off, on ... */
  lemma {:induction false} InvertedThresholdsFlicker(score: real, dark: real, live: real, n: nat)
    requires dark <= score < live
    ensures GuardAfter(false, Repeat(score, n), dark, live) == (n % 2 == 1)
  {
    if n > 0 {
      InvertedThresholdsFlicker(score, dark, live, n - 1);
      assert Repeat(score, n)[..n - 1] == Repeat(score, n - 1);
    }
  }

  /** So the closed form holds for all score sequences exactly when `live <= dark`. */
  lemma ClosedFormHoldsExactlyForOrderedThresholds(dark: real, live: real)
    ensures live <= dark
       <==> forall scores :: GuardAfter(false, scores, dark, live) == LatestVerdict(false, scores, dark, live)
  {
    if live <= dark {
      forall scores ensures GuardAfter(false, scores, dark, live) == LatestVerdict(false, scores, dark, live) {
        GuardFollowsTheLatestVerdict(false, scores, dark, live);
      }
    } else {
      InvertedThresholdsFlicker(dark, dark, live, 2);
      var two := Repeat(dark, 2);
      assert LatestVerdict(false, two, dark, live);
      assert GuardAfter(false, two, dark, live) != LatestVerdict(false, two, dark, live);
    }
  }
}
