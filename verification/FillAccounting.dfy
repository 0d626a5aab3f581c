/** Exactly-once fills: in every interleaving of user-channel reports and cancel results, what is booked for
    an order approaches, and never passes, what the exchange matched. */
module FillAccounting {
  import opened Common
  import opened Strategy
  import opened Lifecycle
  import opened Protocol
  import opened ProtocolRuns

  /** No share is ever booked that the exchange did not match, and the position is the sum of the bookings. */
  lemma NeverOverbooked(u: Setup, run: seq<Action>, id: OrderId, x: Side)
    requires RunFrom(u, START, run)
    requires id < |After(u, START, run).accounts|
    ensures var s := After(u, START, run);
            && 0.0 <= s.accounts[id].recorded <= s.accounts[id].matched <= s.accounts[id].size
            && s.engine.Shares(x) == Total(s.accounts, x, Recorded) + s.TakerShares(x)
  {
    StartInv();
    RunKeepsInv(u, START, run);
    assert Conserved(After(u, START, run), x);
  }

  // ── Accounts only ever grow ──

  ghost predicate AccountEvolves(a: Account, b: Account) {
    && b.side == a.side && b.price == a.price && b.size == a.size
    && a.recorded <= b.recorded && a.matched <= b.matched
    && (!a.live ==> !b.live && b.matched == a.matched)
  }

  ghost predicate Evolves(a: seq<Account>, b: seq<Account>) {
    |a| <= |b| && forall i :: 0 <= i < |a| ==> AccountEvolves(a[i], b[i])
  }

  lemma NewSharesNonNegative(s: System)
    requires Inv(s) && s.feedback != [] && !s.feedback[0].RebalanceResult?
    ensures NewShares(s.engine.quoter.At(s.feedback[0].side), s.feedback[0]) >= 0.0
  {
    var fb := s.feedback[0];
    var x := fb.side;
    assert SideInv(x, s.engine.quoter.At(x), Flight(s, Maker(x)), s.accounts);
    assert Flight(s, Maker(x))[0] == Answered(fb);
    assert OpFits(x, s.engine.quoter.At(x), Answered(fb), s.accounts);
  }

  lemma CreditEvolves(accounts: seq<Account>, id: OrderId, delta: real)
    requires delta >= 0.0
    ensures Evolves(accounts, Credit(accounts, id, delta))
  {
  }

  lemma DeliverEvolves(s: System, fvYes: real)
    requires Inv(s) && s.feedback != []
    ensures Evolves(s.accounts, DeliverStep(s, fvYes).accounts)
  {
    var fb := s.feedback[0];
    if fb.RebalanceResult? {
      DeliverConsumesTaken(s, fvYes);
    } else {
      DeliverConsumes(s, fvYes);
      NewSharesNonNegative(s);
      if !fb.OrderFailed? {
        CreditEvolves(s.accounts, fb.id, NewShares(s.engine.quoter.At(fb.side), fb));
      }
    }
  }

  lemma ExchangeEvolves(u: Setup, s: System, a: Action)
    requires Enabled(u, s, a) && (a.Match? || a.ExecPost? || a.ExecCancel? || a.ExecRebalance? || a.ExecRotation?)
    ensures Evolves(s.accounts, Next(u, s, a).accounts)
  {
  }

  lemma StepEvolves(u: Setup, s: System, a: Action)
    requires Inv(s) && Enabled(u, s, a)
    ensures Evolves(s.accounts, Next(u, s, a).accounts)
  {
    match a
    case UserUpdate(id, isMatch, size) =>
      UpdateOutcome(s, id, isMatch, size);
      if UpdateStep(s, id, isMatch, size) != s {
        CreditEvolves(s.accounts, id, s.engine.quoter.At(MatchedSide(s.engine.quoter, id).value).WsDelta(size.value));
      }
    case Deliver(fvYes) => DeliverEvolves(s, fvYes);
    case Tick(_) =>
    case Flush =>
    case Heartbeat(_) =>
    case SetPause(_) =>
    case BookUpdate(_, _) =>
    case _ => ExchangeEvolves(u, s, a);
  }

  // ── Settled orders ──

  /** Nothing more can be matched, and everything that was matched is booked. */
  ghost predicate Settled(a: Account) {
    a.recorded == a.matched && (!a.live || a.matched == a.size)
  }

  /** A settled order stays settled whatever happens: late and repeated reports change nothing. */
  lemma {:induction false} SettledForever(u: Setup, s: System, run: seq<Action>, id: OrderId)
    requires Inv(s) && RunFrom(u, s, run)
    requires id < |s.accounts| && Settled(s.accounts[id])
    ensures id < |After(u, s, run).accounts|
    ensures Settled(After(u, s, run).accounts[id])
    ensures After(u, s, run).accounts[id].recorded == s.accounts[id].recorded
    decreases |run|
  {
    if run != [] {
      var t := Next(u, s, run[0]);
      StepEvolves(u, s, run[0]);
      StepKeepsInv(u, s, run[0]);
      assert AccountEvolves(s.accounts[id], t.accounts[id]);
      assert AccountsInv(t.accounts);
      SettledForever(u, t, run[1..], id);
    }
  }

  /** A user report that completes an order settles it. */
  lemma FullUserFillSettles(s: System, id: OrderId, isMatch: bool, size: Option<real>, x: Side)
    requires Inv(s) && TruthfulUpdate(s, id, size)
    requires s.engine.quoter.At(x).order.Some? && s.engine.quoter.At(x).order.value.id == id
    requires UpdateStep(s, id, isMatch, size).engine.quoter.At(x).order.None?
    ensures id < |s.accounts|
    ensures var t := UpdateStep(s, id, isMatch, size);
            Settled(t.accounts[id]) && t.accounts[id].recorded == s.accounts[id].size
  {
    var q, t := s.engine.quoter.At(x), UpdateStep(s, id, isMatch, size);
    UpdateOutcome(s, id, isMatch, size);
    assert SideInv(x, q, Flight(s, Maker(x)), s.accounts);
    NamesOneSide(s, id, x);
    ReportedFits(x, q, Flight(s, Maker(x)), s.accounts, size.value);
  }

  /** An order rests on one side only. */
  lemma NamesOneSide(s: System, id: OrderId, x: Side)
    requires Inv(s) && s.engine.quoter.At(x).order.Some? && s.engine.quoter.At(x).order.value.id == id
    ensures MatchedSide(s.engine.quoter, id) == Some(x)
  {
    assert SideInv(Yes, s.engine.quoter.At(Yes), Flight(s, Maker(Yes)), s.accounts);
    assert SideInv(No, s.engine.quoter.At(No), Flight(s, Maker(No)), s.accounts);
  }

  /** A cancel result books the missing part of what it reports. So the order ends up fully booked exactly
      when the report, or something booked before it, was the final matched size. */
  lemma CancelResultBooksTheRest(u: Setup, s: System, a: Action)
    requires Inv(s) && a.Deliver? && Enabled(u, s, a) && s.feedback[0].CancelResult?
    ensures var fb, t := s.feedback[0], Next(u, s, a);
            && fb.id < |s.accounts| && s.accounts[fb.id].side == fb.side
            && t.engine.quoter.At(fb.side).order.None?
            && t.accounts[fb.id].recorded
               == (if fb.sizeMatched.None? then s.accounts[fb.id].recorded
                   else Max(s.accounts[fb.id].recorded, fb.sizeMatched.value))
            && (t.accounts[fb.id].recorded == t.accounts[fb.id].matched
                <==> fb.sizeMatched == Some(s.accounts[fb.id].matched)
                     || s.accounts[fb.id].recorded == s.accounts[fb.id].matched)
  {
    var fb := s.feedback[0];
    var x := fb.side;
    var q := s.engine.quoter.At(x);
    DeliverConsumes(s, a.fvYes);
    var _, _ := DeliverQuote(s, a.fvYes);
    assert SideInv(x, q, Flight(s, Maker(x)), s.accounts);
    FlightDelivered(s, DeliverStep(s, a.fvYes));
    assert Flight(s, Maker(x)) == [Answered(fb)];
    CancelledFits(x, q, fb, s.accounts);
    assert OpFits(x, q, [Answered(fb)][0], s.accounts);
    assert AccountsInv(s.accounts);
  }
}
