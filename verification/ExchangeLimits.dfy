/** The inventory limits on the exchange's side: with reliable cancels, what was matched and what can still be
    matched obey the limits, not only what the engine has booked so far. */
module ExchangeLimits {
  import opened Common
  import opened Quoting
  import opened Lifecycle
  import opened Protocol
  import opened FillAccounting
  import opened Drain
  import opened InventoryLimits

  /** Size of a post that the exchange has not seen yet. */
  function UnseenSize(flight: seq<Op>): real {
    if |flight| == 1 && flight[0].Sent? && flight[0].command.PostOrder? then flight[0].command.size else 0.0
  }

  /** What order `k` can add to the bookings of side `x`. */
  function Missing(accounts: seq<Account>, x: Side, k: OrderId): real {
    if k < |accounts| then Entry(accounts[k], x, Matchable) - Entry(accounts[k], x, Recorded) else 0.0
  }

  ghost predicate SettledBut(accounts: seq<Account>, x: Side, k: OrderId) {
    forall i :: 0 <= i < |accounts| && accounts[i].side == x && i != k ==> Settled(accounts[i])
  }

  lemma SettledIsBooked(a: Account, x: Side)
    requires a.recorded <= a.matched <= a.size && (a.side == x ==> Settled(a))
    ensures Entry(a, x, Matchable) == Entry(a, x, Recorded)
  {
  }

  /** If only one order is not settled, only that one can still add anything. */
  lemma {:induction false} OneMissing(accounts: seq<Account>, x: Side, k: OrderId)
    requires AccountsInv(accounts) && SettledBut(accounts, x, k)
    ensures Total(accounts, x, Matchable) == Total(accounts, x, Recorded) + Missing(accounts, x, k)
  {
    if accounts != [] {
      var n := |accounts| - 1;
      var front := accounts[..n];
      assert AccountsInv(front) && SettledBut(front, x, k);
      OneMissing(front, x, k);
      if n != k {
        SettledIsBooked(accounts[n], x);
      }
    }
  }

  /** The order a side has open, if any. */
  function OpenOrder(q: SideQuote, flight: seq<Op>, none: OrderId): OrderId {
    if q.order.Some? then q.order.value.id
    else if |flight| == 1 && flight[0].Answered? && flight[0].reply.OrderPosted? then flight[0].reply.id
    else none
  }

  lemma OnlyTheOpenOrder(x: Side, q: SideQuote, flight: seq<Op>, accounts: seq<Account>)
    requires SideInv(x, q, flight, accounts) && SideDrains(x, q, flight, accounts)
    ensures SettledBut(accounts, x, OpenOrder(q, flight, |accounts|))
  {
  }

  lemma OpenOrderIsOpenSize(x: Side, q: SideQuote, flight: seq<Op>, accounts: seq<Account>)
    requires AccountsInv(accounts) && SideInv(x, q, flight, accounts)
    ensures Missing(accounts, x, OpenOrder(q, flight, |accounts|)) + UnseenSize(flight) <= OpenSize(q, flight)
  {
  }

  /** The exchange can match no more than the engine has booked or knows to be open. */
  lemma MatchableIsBookedOrOpen(s: System, x: Side)
    requires Inv(s) && Drains(s)
    ensures Total(s.accounts, x, Matchable) + UnseenSize(Flight(s, Maker(x)))
         <= Total(s.accounts, x, Recorded) + OpenSize(s.engine.quoter.At(x), Flight(s, Maker(x)))
  {
    var q, flight := s.engine.quoter.At(x), Flight(s, Maker(x));
    assert SideInv(x, q, flight, s.accounts) && SideDrains(x, q, flight, s.accounts);
    OnlyTheOpenOrder(x, q, flight, s.accounts);
    OneMissing(s.accounts, x, OpenOrder(q, flight, |s.accounts|));
    OpenOrderIsOpenSize(x, q, flight, s.accounts);
  }

  lemma {:induction false} MatchedBetween(accounts: seq<Account>, x: Side)
    requires AccountsInv(accounts)
    ensures Total(accounts, x, Recorded) <= Total(accounts, x, Matched) <= Total(accounts, x, Matchable)
  {
    if accounts != [] {
      assert AccountsInv(accounts[..|accounts| - 1]);
      MatchedBetween(accounts[..|accounts| - 1], x);
    }
  }

  /** With reliable cancels the maker cap holds for the exchange: matched shares, what live orders can still match
      and a post not yet seen stay within the sum of all batches. */
  lemma MatchedCap(u: Setup, run: seq<Action>, x: Side)
    requires Configured(u) && RunFrom(u, START, run) && ReliableRun(u, START, run)
    ensures var s := After(u, START, run);
            && Total(s.accounts, x, Matched) <= Total(s.accounts, x, Matchable)
            && Total(s.accounts, x, Matchable) + UnseenSize(Flight(s, Maker(x))) <= TotalCap(u.cfg.quoting)
  {
    var s := After(u, START, run);
    StartDrains();
    RunDrains(u, START, run);
    MatchableIsBookedOrOpen(s, x);
    MatchedBetween(s.accounts, x);
    MakerCap(u, run, x);
  }

  lemma MatchedLead(s: System, x: Side, openTaker: real, bound: real)
    requires Inv(s) && Drains(s)
    requires s.engine.Shares(x) - s.engine.Shares(Other(x))
             + OpenSize(s.engine.quoter.At(x), Flight(s, Maker(x))) + openTaker < bound
    ensures Total(s.accounts, x, Matchable) + UnseenSize(Flight(s, Maker(x))) + s.TakerShares(x) + openTaker
          - (Total(s.accounts, Other(x), Matched) + s.TakerShares(Other(x))) < bound
  {
    MatchableIsBookedOrOpen(s, x);
    MatchedBetween(s.accounts, Other(x));
    assert Conserved(s, x) && Conserved(s, Other(x));
  }

  /** And so does the imbalance bound, with matched shares on either side. */
  lemma MatchedImbalance(u: Setup, run: seq<Action>, x: Side)
    requires Configured(u) && RunFrom(u, START, run) && ReliableRun(u, START, run)
    ensures var s := After(u, START, run);
            Total(s.accounts, x, Matchable) + UnseenSize(Flight(s, Maker(x)))
              + s.TakerShares(x) + OpenTaker(u, x, Flight(s, Taker))
              - (Total(s.accounts, Other(x), Matched) + s.TakerShares(Other(x)))
              < u.cfg.risk.maxUnpairedShares + u.cfg.quoting.maxOrderSize + TakerLimit(u)
  {
    var s := After(u, START, run);
    StartDrains();
    RunDrains(u, START, run);
    ImbalanceBound(u, run, x);
    MatchedLead(s, x, OpenTaker(u, x, Flight(s, Taker)),
                u.cfg.risk.maxUnpairedShares + u.cfg.quoting.maxOrderSize + TakerLimit(u));
  }
}
