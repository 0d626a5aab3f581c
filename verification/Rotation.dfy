/** Market rotation: choosing the next market from a listing, pre-warming it before the current one expires, and
    announcing every market change to the engine. */
module Rotation {
  import opened Common
  import Calendar

  /** A market of a listed event; `tokens` is `None` when the token list could not be read. */
  datatype GammaMarket = GammaMarket(conditionId: string, tokens: Option<seq<string>>)

  datatype GammaEvent = GammaEvent(slug: string, endDate: string, markets: seq<GammaMarket>)

  datatype MarketInfo = MarketInfo(conditionId: string, yesToken: string, noToken: string, end: nat)

  // ── Choosing a market ──

  const TARGET_SLUG := "btc-updown-5m-"

  /** End of an event; an unreadable date counts as long past. */
  function EndOf(e: GammaEvent): nat {
    match Calendar.ParseIso8601(e.endDate)
    case Some(ms) => ms
    case None => 0
  }

  predicate Scheduled(e: GammaEvent, cutoff: nat) {
    TARGET_SLUG <= e.slug && e.endDate != "" && EndOf(e) > cutoff
  }

  predicate Tradable(m: GammaMarket) {
    m.conditionId != "" && m.tokens.Some? && |m.tokens.value| >= 2
  }

  function InfoOf(e: GammaEvent, m: GammaMarket): MarketInfo
    requires Tradable(m)
  {
    MarketInfo(m.conditionId, m.tokens.value[0], m.tokens.value[1], EndOf(e))
  }

  /** Candidates among the first `n` markets of an event. */
  ghost function CandidatesIn(e: GammaEvent, cutoff: nat, n: nat): seq<MarketInfo>
    requires n <= |e.markets|
  {
    if n == 0 then []
    else
      var m := e.markets[n - 1];
      CandidatesIn(e, cutoff, n - 1) + (if Scheduled(e, cutoff) && Tradable(m) then [InfoOf(e, m)] else [])
  }

  /** Every candidate of a listing, in the order listed. */
  ghost function Candidates(events: seq<GammaEvent>, cutoff: nat): seq<MarketInfo> {
    if events == [] then []
    else
      var e := events[|events| - 1];
      Candidates(events[..|events| - 1], cutoff) + CandidatesIn(e, cutoff, |e.markets|)
  }

  /** A later candidate only replaces one that ends strictly after it. */
  ghost function Pick(s: seq<MarketInfo>): Option<MarketInfo> {
    if s == [] then None
    else
      var best, last := Pick(s[..|s| - 1]), s[|s| - 1];
      if best.Some? && last.end >= best.value.end then best else Some(last)
  }

  ghost function Select(events: seq<GammaEvent>, cutoff: nat): Option<MarketInfo> {
    Pick(Candidates(events, cutoff))
  }

  lemma PickStep(s: seq<MarketInfo>, last: MarketInfo)
    ensures Pick(s + [last])
         == if Pick(s).Some? && last.end >= Pick(s).value.end then Pick(s) else Some(last)
  {
    assert (s + [last])[..|s|] == s;
  }

  lemma {:induction false} UnscheduledHasNoCandidates(e: GammaEvent, cutoff: nat, n: nat)
    requires n <= |e.markets| && !Scheduled(e, cutoff)
    ensures CandidatesIn(e, cutoff, n) == []
  {
    if n > 0 {
      UnscheduledHasNoCandidates(e, cutoff, n - 1);
    }
  }

  lemma CandidatesStep(events: seq<GammaEvent>, i: nat, cutoff: nat)
    requires i < |events|
    ensures Candidates(events[..i + 1], cutoff)
         == Candidates(events[..i], cutoff) + CandidatesIn(events[i], cutoff, |events[i].markets|)
  {
    assert events[..i + 1][..i] == events[..i];
  }

  /** The choice after the first `i` events. */
  ghost function Best(events: seq<GammaEvent>, cutoff: nat, i: nat): Option<MarketInfo>
    requires i <= |events|
  {
    Pick(Candidates(events[..i], cutoff))
  }

  /** The choice after the first `j` markets of event `i` besides. */
  ghost function BestWithin(events: seq<GammaEvent>, cutoff: nat, i: nat, j: nat): Option<MarketInfo>
    requires i < |events| && j <= |events[i].markets|
  {
    Pick(Candidates(events[..i], cutoff) + CandidatesIn(events[i], cutoff, j))
  }

  lemma NoEvents(events: seq<GammaEvent>, cutoff: nat)
    ensures Best(events, cutoff, 0) == None && Best(events, cutoff, |events|) == Select(events, cutoff)
  {
    assert events[..0] == [] && events[..|events|] == events;
  }

  lemma EventBegins(events: seq<GammaEvent>, cutoff: nat, i: nat)
    requires i < |events|
    ensures BestWithin(events, cutoff, i, 0) == Best(events, cutoff, i)
  {
    var before := Candidates(events[..i], cutoff);
    assert before + [] == before;
  }

  lemma EventEnds(events: seq<GammaEvent>, cutoff: nat, i: nat)
    requires i < |events|
    ensures Best(events, cutoff, i + 1) == BestWithin(events, cutoff, i, |events[i].markets|)
  {
    CandidatesStep(events, i, cutoff);
  }

  lemma UnscheduledEvent(events: seq<GammaEvent>, cutoff: nat, i: nat)
    requires i < |events| && !Scheduled(events[i], cutoff)
    ensures Best(events, cutoff, i + 1) == Best(events, cutoff, i)
  {
    var before := Candidates(events[..i], cutoff);
    EventEnds(events, cutoff, i);
    UnscheduledHasNoCandidates(events[i], cutoff, |events[i].markets|);
    assert before + [] == before;
  }

  lemma SkippedMarket(events: seq<GammaEvent>, cutoff: nat, i: nat, j: nat)
    requires i < |events| && j < |events[i].markets| && !Tradable(events[i].markets[j])
    ensures BestWithin(events, cutoff, i, j + 1) == BestWithin(events, cutoff, i, j)
  {
    assert CandidatesIn(events[i], cutoff, j + 1) == CandidatesIn(events[i], cutoff, j);
  }

  lemma TakenMarket(events: seq<GammaEvent>, cutoff: nat, i: nat, j: nat)
    requires i < |events| && j < |events[i].markets|
    requires Scheduled(events[i], cutoff) && Tradable(events[i].markets[j])
    ensures var best, info := BestWithin(events, cutoff, i, j), InfoOf(events[i], events[i].markets[j]);
            BestWithin(events, cutoff, i, j + 1)
            == if best.Some? && info.end >= best.value.end then best else Some(info)
  {
    var before, e := Candidates(events[..i], cutoff), events[i];
    var info := InfoOf(e, e.markets[j]);
    assert before + CandidatesIn(e, cutoff, j + 1) == before + CandidatesIn(e, cutoff, j) + [info];
    PickStep(before + CandidatesIn(e, cutoff, j), info);
  }

  method SelectMarket(events: seq<GammaEvent>, cutoff: nat) returns (best: Option<MarketInfo>)
    ensures best == Select(events, cutoff)
  {
    best := None;
    NoEvents(events, cutoff);
    for i := 0 to |events|
      invariant best == Best(events, cutoff, i)
    {
      var e := events[i];
      if !Scheduled(e, cutoff) {
        UnscheduledEvent(events, cutoff, i);
        continue;
      }
      EventBegins(events, cutoff, i);
      for j := 0 to |e.markets|
        invariant best == BestWithin(events, cutoff, i, j)
      {
        var m := e.markets[j];
        if !Tradable(m) {
          SkippedMarket(events, cutoff, i, j);
          continue;
        }
        TakenMarket(events, cutoff, i, j);
        var info := InfoOf(e, m);
        if best.None? || info.end < best.value.end {
          best := Some(info);
        }
      }
      EventEnds(events, cutoff, i);
    }
  }

  // ── What is chosen ──

  /** `b` ends no later than anything in `s`, and is the first to end that early. */
  ghost predicate FirstEarliest(s: seq<MarketInfo>, b: MarketInfo) {
    exists k :: 0 <= k < |s| && s[k] == b
      && (forall j :: 0 <= j < |s| ==> b.end <= s[j].end)
      && (forall j :: 0 <= j < k ==> b.end < s[j].end)
  }

  lemma {:induction false} PickIsFirstEarliest(s: seq<MarketInfo>)
    ensures Pick(s).None? <==> s == []
    ensures Pick(s).Some? ==> FirstEarliest(s, Pick(s).value)
  {
    if s != [] {
      var n := |s| - 1;
      PickIsFirstEarliest(s[..n]);
      if Pick(s) == Some(s[n]) && !(Pick(s[..n]).Some? && s[n].end >= Pick(s[..n]).value.end) {
        assert s[n] == Pick(s).value;
        forall j | 0 <= j < n ensures s[n].end < s[j].end {
          assert s[j] == s[..n][j];
        }
      } else {
        var b := Pick(s[..n]).value;
        var k :| 0 <= k < n && s[..n][k] == b
              && (forall j :: 0 <= j < n ==> b.end <= s[..n][j].end)
              && (forall j :: 0 <= j < k ==> b.end < s[..n][j].end);
        assert s[k] == b;
        forall j | 0 <= j < |s| ensures b.end <= s[j].end {
          assert j < n ==> s[j] == s[..n][j];
        }
        forall j | 0 <= j < k ensures b.end < s[j].end {
          assert s[j] == s[..n][j];
        }
      }
    }
  }

  lemma {:induction false} CandidateOfEvent(e: GammaEvent, cutoff: nat, n: nat, info: MarketInfo)
    requires n <= |e.markets|
    ensures info in CandidatesIn(e, cutoff, n)
       <==> Scheduled(e, cutoff) && exists m :: m in e.markets[..n] && Tradable(m) && info == InfoOf(e, m)
  {
    if n > 0 {
      CandidateOfEvent(e, cutoff, n - 1, info);
      assert e.markets[..n] == e.markets[..n - 1] + [e.markets[n - 1]];
    }
  }

  /** A market is a candidate exactly when a scheduled event lists it with two tokens. */
  ghost predicate Offered(events: seq<GammaEvent>, cutoff: nat, info: MarketInfo) {
    exists e, m :: e in events && m in e.markets && Scheduled(e, cutoff) && Tradable(m) && info == InfoOf(e, m)
  }

  /** What one event offers. */
  ghost predicate OfferedBy(e: GammaEvent, cutoff: nat, info: MarketInfo) {
    Scheduled(e, cutoff) && exists m :: m in e.markets && Tradable(m) && info == InfoOf(e, m)
  }

  lemma CandidatesOfEvent(e: GammaEvent, cutoff: nat, info: MarketInfo)
    ensures info in CandidatesIn(e, cutoff, |e.markets|) <==> OfferedBy(e, cutoff, info)
  {
    CandidateOfEvent(e, cutoff, |e.markets|, info);
    assert e.markets[..|e.markets|] == e.markets;
  }

  lemma OfferedByLast(events: seq<GammaEvent>, e: GammaEvent, cutoff: nat, info: MarketInfo)
    ensures Offered(events + [e], cutoff, info) <==> Offered(events, cutoff, info) || OfferedBy(e, cutoff, info)
  {
    if Offered(events + [e], cutoff, info) {
      var d, m :| d in events + [e] && m in d.markets && Scheduled(d, cutoff) && Tradable(m) && info == InfoOf(d, m);
      assert d in events || d == e;
    }
    if Offered(events, cutoff, info) {
      var d, m :| d in events && m in d.markets && Scheduled(d, cutoff) && Tradable(m) && info == InfoOf(d, m);
      assert d in events + [e];
    }
    if OfferedBy(e, cutoff, info) {
      assert e in events + [e];
    }
  }

  lemma CandidatesOfLast(events: seq<GammaEvent>, e: GammaEvent, cutoff: nat, info: MarketInfo)
    ensures info in Candidates(events + [e], cutoff)
       <==> info in Candidates(events, cutoff) || OfferedBy(e, cutoff, info)
  {
    assert (events + [e])[..|events|] == events;
    CandidatesOfEvent(e, cutoff, info);
  }

  lemma OneEventMore(events: seq<GammaEvent>, e: GammaEvent, cutoff: nat, info: MarketInfo)
    requires info in Candidates(events, cutoff) <==> Offered(events, cutoff, info)
    ensures info in Candidates(events + [e], cutoff) <==> Offered(events + [e], cutoff, info)
  {
    CandidatesOfLast(events, e, cutoff, info);
    OfferedByLast(events, e, cutoff, info);
  }

  lemma {:induction false} CandidatesAreOffered(events: seq<GammaEvent>, cutoff: nat, info: MarketInfo)
    ensures info in Candidates(events, cutoff) <==> Offered(events, cutoff, info)
  {
    if events != [] {
      var front, e := events[..|events| - 1], events[|events| - 1];
      CandidatesAreOffered(front, cutoff, info);
      OneEventMore(front, e, cutoff, info);
      assert front + [e] == events;
    }
  }

  lemma OfferedEndsLater(events: seq<GammaEvent>, cutoff: nat, info: MarketInfo)
    ensures Offered(events, cutoff, info) ==> info.end > cutoff
  {
  }

  lemma FirstEarliestIsLeast(s: seq<MarketInfo>, b: MarketInfo, info: MarketInfo)
    requires FirstEarliest(s, b)
    ensures b in s && (info in s ==> b.end <= info.end)
  {
  }

  /** The selection returns the earliest market offered that ends strictly after the cutoff, the first listed
      among equals, and fails exactly when none is offered. */
  lemma SelectionIsEarliest(events: seq<GammaEvent>, cutoff: nat)
    ensures Select(events, cutoff).None? <==> forall info :: !Offered(events, cutoff, info)
    ensures Select(events, cutoff).Some? ==> IsEarliest(events, cutoff, Select(events, cutoff).value)
  {
    var s := Candidates(events, cutoff);
    PickIsFirstEarliest(s);
    if s == [] {
      forall info ensures !Offered(events, cutoff, info) {
        CandidatesAreOffered(events, cutoff, info);
      }
    } else {
      var b := Pick(s).value;
      FirstEarliestIsLeast(s, b, b);
      CandidatesAreOffered(events, cutoff, b);
      OfferedEndsLater(events, cutoff, b);
      forall info | Offered(events, cutoff, info) ensures b.end <= info.end {
        CandidatesAreOffered(events, cutoff, info);
        FirstEarliestIsLeast(s, b, info);
      }
    }
  }

  ghost predicate IsEarliest(events: seq<GammaEvent>, cutoff: nat, b: MarketInfo) {
    && b.end > cutoff && Offered(events, cutoff, b)
    && FirstEarliest(Candidates(events, cutoff), b)
    && forall info :: Offered(events, cutoff, info) ==> b.end <= info.end
  }

  // ── The rotation manager ──

  /** `deadline` is when the expiry timer is due; `emitted` is what went to the engine. */
  datatype RotationState = RotationState(
    current: Option<MarketInfo>, next: Option<MarketInfo>, prewarmAttempted: bool,
    lastEmitted: Option<string>, deadline: nat, emitted: seq<MarketInfo>)

  const FAR_FUTURE := 31_536_000_000  // 365 days

  function ExpiryAt(end: nat, now: nat): nat {
    now + SaturatingSub(end, now)
  }

  function Emit(s: RotationState, info: MarketInfo): RotationState {
    s.(emitted := s.emitted + [info], lastEmitted := Some(info.conditionId))
  }

  function OnExpiry(s: RotationState, armed: nat): RotationState {
    match s.next
    case Some(next) =>
      Emit(s, next).(current := Some(next), deadline := ExpiryAt(next.end, armed),
                     next := None, prewarmAttempted := false)
    case None =>
      s.(current := None, deadline := armed + FAR_FUTURE, prewarmAttempted := false)
  }

  /** One housekeeping pass: when it starts, what each listing request returns if it succeeds, the time the
      second listing is read, the time it is acted upon, and the time the timer is armed. */
  datatype Pass = Pass(now: nat, ahead: Option<seq<GammaEvent>>,
                       read: nat, listing: Option<seq<GammaEvent>>, acted: nat, armed: nat)

  predicate PrewarmDue(s: RotationState, lead: nat, now: nat) {
    s.current.Some? && 0 < SaturatingSub(s.current.value.end, now) <= lead && !s.prewarmAttempted
  }

  ghost function Discover(listing: Option<seq<GammaEvent>>, cutoff: nat): Option<MarketInfo> {
    if listing.None? then None else Select(listing.value, cutoff)
  }

  ghost function Prewarm(s: RotationState, lead: nat, p: Pass): RotationState {
    if !PrewarmDue(s, lead, p.now) then s
    else
      match Discover(p.ahead, s.current.value.end)
      case Some(info) => s.(next := Some(info), prewarmAttempted := true)
      case None => s
  }

  ghost function PollAndEmit(s: RotationState, p: Pass): RotationState {
    match Discover(p.listing, p.read)
    case Some(info) =>
      var isNew := s.lastEmitted != Some(info.conditionId) && p.acted < info.end;
      (if isNew then Emit(s, info) else s).(current := Some(info))
    case None => s
  }

  ghost function OnHousekeeping(s: RotationState, lead: nat, p: Pass): RotationState {
    var s1 := Prewarm(s, lead, p);
    if s1.current.Some? then s1
    else
      var s2 := PollAndEmit(s1, p);
      if s2.current.None? then s2 else s2.(deadline := ExpiryAt(s2.current.value.end, p.armed))
  }

  class RotationManager {
    const lead: nat
    var current: Option<MarketInfo>
    var next: Option<MarketInfo>
    var prewarmAttempted: bool
    var lastEmitted: Option<string>
    var deadline: nat
    var emitted: seq<MarketInfo>

    function View(): RotationState
      reads this
    {
      RotationState(current, next, prewarmAttempted, lastEmitted, deadline, emitted)
    }

    constructor (lead: nat, now: nat)
      ensures this.lead == lead && View() == Fresh(now)
    {
      this.lead := lead;
      current, next, prewarmAttempted, lastEmitted := None, None, false, None;
      deadline, emitted := now + FAR_FUTURE, [];
    }

    method EmitRotation(info: MarketInfo)
      modifies this`emitted, this`lastEmitted
      ensures View() == Emit(old(View()), info)
    {
      emitted := emitted + [info];
      lastEmitted := Some(info.conditionId);
    }

    method Expire(armed: nat)
      modifies this
      ensures View() == OnExpiry(old(View()), armed)
    {
      if next.Some? {
        var info := next.value;
        next := None;
        EmitRotation(info);
        deadline := ExpiryAt(info.end, armed);
        current := Some(info);
      } else {
        current := None;
        deadline := armed + FAR_FUTURE;
      }
      prewarmAttempted := false;
    }

    method PollGammaAndEmit(p: Pass)
      modifies this
      ensures View() == PollAndEmit(old(View()), p)
    {
      var found: Option<MarketInfo> := None;
      if p.listing.Some? {
        found := SelectMarket(p.listing.value, p.read);
      }
      if found.Some? {
        var info := found.value;
        var remaining := SaturatingSub(info.end, p.acted);
        var alreadyEmitted := lastEmitted.Some? && lastEmitted.value == info.conditionId;
        if !alreadyEmitted && remaining > 0 {
          EmitRotation(info);
        }
        current := Some(info);
      }
    }

    method Housekeep(p: Pass)
      modifies this
      ensures View() == OnHousekeeping(old(View()), lead, p)
    {
      if current.Some? {
        var remaining := SaturatingSub(current.value.end, p.now);
        if remaining > 0 && remaining <= lead && !prewarmAttempted {
          var found: Option<MarketInfo> := None;
          if p.ahead.Some? {
            found := SelectMarket(p.ahead.value, current.value.end);
          }
          if found.Some? {
            next := found;
            prewarmAttempted := true;
          }
        }
      }
      if current.None? {
        PollGammaAndEmit(p);
        if current.Some? {
          deadline := ExpiryAt(current.value.end, p.armed);
        }
      }
    }
  }

  function Fresh(now: nat): RotationState {
    RotationState(None, None, false, None, now + FAR_FUTURE, [])
  }

  // ── Runs ──

  /** The timer fires at `fired`, or the housekeeping interval ticks. */
  datatype Wakeup = Expiry(fired: nat, armed: nat) | Housekeeping(pass: Pass)

  /** The clock never runs backwards and the timer never fires early. */
  predicate Timely(s: RotationState, clock: nat, w: Wakeup) {
    match w
    case Expiry(fired, armed) => clock <= fired <= armed && s.deadline <= fired
    case Housekeeping(p) => clock <= p.now <= p.read <= p.acted <= p.armed
  }

  function ClockAfter(w: Wakeup): nat {
    match w
    case Expiry(_, armed) => armed
    case Housekeeping(p) => p.armed
  }

  ghost function Woken(s: RotationState, lead: nat, w: Wakeup): RotationState {
    match w
    case Expiry(_, armed) => OnExpiry(s, armed)
    case Housekeeping(p) => OnHousekeeping(s, lead, p)
  }

  ghost predicate TimelyRun(s: RotationState, lead: nat, clock: nat, run: seq<Wakeup>)
    decreases |run|
  {
    run == [] || (Timely(s, clock, run[0]) && TimelyRun(Woken(s, lead, run[0]), lead, ClockAfter(run[0]), run[1..]))
  }

  ghost function AfterRun(s: RotationState, lead: nat, run: seq<Wakeup>): RotationState
    decreases |run|
  {
    if run == [] then s else AfterRun(Woken(s, lead, run[0]), lead, run[1..])
  }

  ghost function ClockAt(clock: nat, run: seq<Wakeup>): nat {
    if run == [] then clock else ClockAfter(run[|run| - 1])
  }

  // ── Safety ──

  ghost predicate Increasing(s: seq<MarketInfo>) {
    forall i, j :: 0 <= i < j < |s| ==> s[i].end < s[j].end
  }

  ghost predicate Inv(s: RotationState, clock: nat) {
    && Increasing(s.emitted)
    && (s.emitted != [] ==>
          s.emitted[|s.emitted| - 1].end <= if s.current.Some? then s.current.value.end else clock)
    && s.lastEmitted == (if s.emitted == [] then None else Some(s.emitted[|s.emitted| - 1].conditionId))
    && (s.current.Some? ==> s.current.value.end <= s.deadline)
    && (s.next.Some? ==> s.current.Some? && s.current.value.end < s.next.value.end)
    && (s.prewarmAttempted <==> s.next.Some?)
  }

  lemma DiscoveredEndsLater(listing: Option<seq<GammaEvent>>, cutoff: nat)
    ensures Discover(listing, cutoff).Some? ==> Discover(listing, cutoff).value.end > cutoff
  {
    if listing.Some? {
      SelectionIsEarliest(listing.value, cutoff);
    }
  }

  lemma LaterMarketKeepsIncreasing(s: seq<MarketInfo>, info: MarketInfo)
    requires Increasing(s) && (s != [] ==> s[|s| - 1].end < info.end)
    ensures Increasing(s + [info])
  {
  }

  lemma ExpiryKeepsInv(s: RotationState, clock: nat, fired: nat, armed: nat)
    requires Inv(s, clock) && Timely(s, clock, Expiry(fired, armed))
    ensures Inv(OnExpiry(s, armed), armed)
  {
    if s.next.Some? {
      LaterMarketKeepsIncreasing(s.emitted, s.next.value);
    }
  }

  lemma PrewarmKeepsInv(s: RotationState, lead: nat, clock: nat, p: Pass)
    requires Inv(s, clock)
    ensures Inv(Prewarm(s, lead, p), clock)
  {
    if s.current.Some? {
      DiscoveredEndsLater(p.ahead, s.current.value.end);
    }
  }

  /** A market adopted by a poll ends after everything announced before. */
  lemma PollKeepsInv(s: RotationState, clock: nat, p: Pass)
    requires Inv(s, clock) && s.current.None? && clock <= p.read <= p.acted <= p.armed
    ensures var t := PollAndEmit(s, p);
            Inv(if t.current.None? then t else t.(deadline := ExpiryAt(t.current.value.end, p.armed)), p.armed)
  {
    DiscoveredEndsLater(p.listing, p.read);
    if Discover(p.listing, p.read).Some? {
      AdoptingKeepsInv(s, clock, Discover(p.listing, p.read).value, p);
    }
  }

  lemma AdoptingKeepsInv(s: RotationState, clock: nat, info: MarketInfo, p: Pass)
    requires Inv(s, clock) && s.current.None? && clock <= p.read <= p.acted <= p.armed && p.read < info.end
    ensures var isNew := s.lastEmitted != Some(info.conditionId) && p.acted < info.end;
            var t := (if isNew then Emit(s, info) else s).(current := Some(info));
            Inv(t.(deadline := ExpiryAt(info.end, p.armed)), p.armed)
  {
    LaterMarketKeepsIncreasing(s.emitted, info);
  }

  lemma WakeupKeepsInv(s: RotationState, lead: nat, clock: nat, w: Wakeup)
    requires Inv(s, clock) && Timely(s, clock, w)
    ensures Inv(Woken(s, lead, w), ClockAfter(w))
  {
    match w
    case Expiry(fired, armed) => ExpiryKeepsInv(s, clock, fired, armed);
    case Housekeeping(p) =>
      PrewarmKeepsInv(s, lead, clock, p);
      if s.current.None? {
        PollKeepsInv(s, clock, p);
      }
  }

  lemma {:induction false} RunKeepsInv(s: RotationState, lead: nat, clock: nat, run: seq<Wakeup>)
    requires Inv(s, clock) && TimelyRun(s, lead, clock, run)
    ensures Inv(AfterRun(s, lead, run), ClockAt(clock, run))
    decreases |run|
  {
    if run != [] {
      WakeupKeepsInv(s, lead, clock, run[0]);
      RunKeepsInv(Woken(s, lead, run[0]), lead, ClockAfter(run[0]), run[1..]);
    }
  }

  /** Announced markets end strictly later and later, so none is announced twice; a pre-warmed market always ends
      strictly after the current one. */
  lemma RotationSafety(lead: nat, start: nat, run: seq<Wakeup>)
    requires TimelyRun(Fresh(start), lead, start, run)
    ensures var s := AfterRun(Fresh(start), lead, run);
            && (forall i, j :: 0 <= i < j < |s.emitted| ==> s.emitted[i].end < s.emitted[j].end)
            && (s.next.Some? ==> s.current.Some? && s.current.value.end < s.next.value.end)
  {
    RunKeepsInv(Fresh(start), lead, start, run);
  }

  // ── The engine trades the current market ──

  /** Listings name every market with the same end date each time. */
  ghost predicate Steady(listing: Option<seq<GammaEvent>>, ends: map<string, nat>) {
    listing.Some? ==> forall cutoff, info :: Offered(listing.value, cutoff, info) ==>
      info.conditionId in ends && ends[info.conditionId] == info.end
  }

  ghost predicate SteadyRun(run: seq<Wakeup>, ends: map<string, nat>) {
    forall w :: w in run && w.Housekeeping? ==> Steady(w.pass.ahead, ends) && Steady(w.pass.listing, ends)
  }

  ghost predicate Known(m: MarketInfo, ends: map<string, nat>) {
    m.conditionId in ends && ends[m.conditionId] == m.end
  }

  /** While the current market has time left, it is the one announced last. */
  ghost predicate Announced(s: RotationState, clock: nat, ends: map<string, nat>) {
    && (forall m :: m in s.emitted ==> Known(m, ends))
    && (s.next.Some? ==> Known(s.next.value, ends))
    && (s.current.Some? && clock < s.current.value.end ==>
          s.emitted != [] && s.emitted[|s.emitted| - 1] == s.current.value)
  }

  lemma DiscoveredIsKnown(listing: Option<seq<GammaEvent>>, cutoff: nat, ends: map<string, nat>)
    requires Steady(listing, ends)
    ensures Discover(listing, cutoff).Some? ==> Known(Discover(listing, cutoff).value, ends)
  {
    if listing.Some? {
      SelectionIsEarliest(listing.value, cutoff);
    }
  }

  lemma WakeupKeepsAnnounced(s: RotationState, lead: nat, clock: nat, w: Wakeup, ends: map<string, nat>)
    requires Inv(s, clock) && Timely(s, clock, w) && Announced(s, clock, ends) && SteadyRun([w], ends)
    ensures Announced(Woken(s, lead, w), ClockAfter(w), ends)
  {
    match w
    case Expiry(_, _) =>
    case Housekeeping(p) =>
      assert w in [w];
      if s.current.Some? {
        DiscoveredIsKnown(p.ahead, s.current.value.end, ends);
      } else {
        DiscoveredIsKnown(p.listing, p.read, ends);
        DiscoveredEndsLater(p.listing, p.read);
        if s.emitted != [] {
          assert s.emitted[|s.emitted| - 1] in s.emitted;
        }
      }
  }

  lemma {:induction false} RunKeepsAnnounced(s: RotationState, lead: nat, clock: nat, run: seq<Wakeup>,
                                             ends: map<string, nat>)
    requires Inv(s, clock) && Announced(s, clock, ends) && TimelyRun(s, lead, clock, run) && SteadyRun(run, ends)
    ensures Announced(AfterRun(s, lead, run), ClockAt(clock, run), ends)
    decreases |run|
  {
    if run != [] {
      assert run[0] in run;
      WakeupKeepsInv(s, lead, clock, run[0]);
      WakeupKeepsAnnounced(s, lead, clock, run[0], ends);
      RunKeepsAnnounced(Woken(s, lead, run[0]), lead, ClockAfter(run[0]), run[1..], ends);
    }
  }

  /** The market the manager holds as current is, as long as it has time left, the last one the engine was told
      about. */
  lemma EngineFollowsTheCurrentMarket(lead: nat, start: nat, run: seq<Wakeup>, ends: map<string, nat>)
    requires TimelyRun(Fresh(start), lead, start, run) && SteadyRun(run, ends)
    ensures var s := AfterRun(Fresh(start), lead, run);
            s.current.Some? && ClockAt(start, run) < s.current.value.end ==>
              s.emitted != [] && s.emitted[|s.emitted| - 1] == s.current.value
  {
    RunKeepsAnnounced(Fresh(start), lead, start, run, ends);
  }
}
