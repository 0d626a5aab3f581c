/** Position of one market: shares, cost and fees accumulated on each side. */
module Position {
  import opened Common

  datatype Fill = Fill(side: Side, price: real, size: real, taker: bool, fee: real)

  datatype SideTotals = SideTotals(shares: real, cost: real, rebate: real, takerFee: real, fills: nat)

  const FLAT := SideTotals(0.0, 0.0, 0.0, 0.0, 0)

  function Add(t: SideTotals, price: real, size: real, taker: bool, fee: real): SideTotals {
    SideTotals(
      t.shares + size,
      t.cost + price * size,
      if taker then t.rebate else t.rebate + Abs(fee),
      if taker then t.takerFee + fee else t.takerFee,
      t.fills + 1)
  }

  /** Volume-weighted average fill price. */
  function Avg(t: SideTotals): real {
    if t.shares == 0.0 then 0.0 else t.cost / t.shares
  }

  datatype Totals = Totals(yes: SideTotals, no: SideTotals) {

    function At(side: Side): SideTotals {
      if side == Yes then yes else no
    }

    function With(side: Side, t: SideTotals): Totals {
      if side == Yes then this.(yes := t) else this.(no := t)
    }

    function Record(side: Side, price: real, size: real, taker: bool, fee: real): Totals {
      With(side, Add(At(side), price, size, taker, fee))
    }

    function Paired(): real {
      Min(yes.shares, no.shares)
    }

    function AvgPairCost(): real {
      Avg(yes) + Avg(no)
    }

    function LockedProfit(): real {
      if Paired() == 0.0 then 0.0 else (1.0 - AvgPairCost()) * Paired()
    }

    function Unpaired(side: Side): real {
      At(side).shares - Paired()
    }

    function UnpairedUsdc(): real {
      if Unpaired(Yes) > Unpaired(No) then Unpaired(Yes) * Avg(yes) else Unpaired(No) * Avg(no)
    }

    function CapitalDeployed(): real {
      yes.cost + no.cost
    }

    function TakerFees(): real {
      yes.takerFee + no.takerFee
    }

    function FillCount(): nat {
      yes.fills + no.fills
    }
  }

  const EMPTY := Totals(FLAT, FLAT)

  // ── The mutable classes of the program ──

  class SidePosition {
    var totalShares: real
    var totalCost: real
    var totalRebate: real
    var totalTakerFee: real
    var fillCount: nat

    function View(): SideTotals
      reads this
    {
      SideTotals(totalShares, totalCost, totalRebate, totalTakerFee, fillCount)
    }

    constructor ()
      ensures View() == FLAT
    {
      totalShares, totalCost, totalRebate, totalTakerFee, fillCount := 0.0, 0.0, 0.0, 0.0, 0;
    }

    method RecordFill(price: real, size: real, taker: bool, fee: real)
      modifies this
      ensures View() == Add(old(View()), price, size, taker, fee)
    {
      totalShares := totalShares + size;
      totalCost := totalCost + price * size;
      if taker {
        totalTakerFee := totalTakerFee + fee;
      } else {
        totalRebate := totalRebate + Abs(fee);
      }
      fillCount := fillCount + 1;
    }

    method Reset()
      modifies this
      ensures View() == FLAT
    {
      totalShares, totalCost, totalRebate, totalTakerFee, fillCount := 0.0, 0.0, 0.0, 0.0, 0;
    }
  }

  class BilateralPosition {
    const yes: SidePosition
    const no: SidePosition

    ghost const repr: set<object>

    ghost predicate Valid() {
      yes != no && repr == {yes, no}
    }

    function View(): Totals
      reads yes, no
    {
      Totals(yes.View(), no.View())
    }

    constructor ()
      ensures Valid() && fresh(repr)
      ensures View() == EMPTY
    {
      var y := new SidePosition();
      var n := new SidePosition();
      yes, no, repr := y, n, {y, n};
    }

    method RecordFill(side: Side, price: real, size: real, taker: bool, fee: real)
      requires Valid()
      modifies repr
      ensures View() == old(View()).Record(side, price, size, taker, fee)
    {
      match side
      case Yes => yes.RecordFill(price, size, taker, fee);
      case No => no.RecordFill(price, size, taker, fee);
    }

    method Reset()
      requires Valid()
      modifies repr
      ensures View() == EMPTY
    {
      yes.Reset();
      no.Reset();
    }
  }

  // ── Worst-case profit and loss ──

  /** Shares are never negative, and no shares means nothing was paid. */
  ghost predicate Sound(t: SideTotals) {
    t.shares >= 0.0 && (t.shares == 0.0 ==> t.cost == 0.0)
  }

  /** What the market pays when `winner` resolves to one dollar. */
  function Payout(p: Totals, winner: Side): real {
    p.At(winner).shares
  }

  /** Profit after costs and taker fees when `winner` resolves. */
  function Profit(p: Totals, winner: Side): real {
    Payout(p, winner) - p.CapitalDeployed() - p.TakerFees()
  }

  /** The figure the market report calls its worst case. */
  function NetWorst(p: Totals): real {
    p.LockedProfit() - p.TakerFees() - p.UnpairedUsdc()
  }

  lemma AvgTimesShares(t: SideTotals)
    requires Sound(t)
    ensures Avg(t) * t.shares == t.cost
  {
  }

  /** The reported worst case is the worse of the two resolutions, to the cent. */
  lemma NetWorstIsTheWorseResolution(p: Totals)
    requires Sound(p.yes) && Sound(p.no)
    ensures NetWorst(p) == Min(Profit(p, Yes), Profit(p, No))
  {
    var y, n := p.yes.shares, p.no.shares;
    var a, b := Avg(p.yes), Avg(p.no);
    AvgTimesShares(p.yes);
    AvgTimesShares(p.no);
    var m := p.Paired();
    assert (1.0 - (a + b)) * m == m - a * m - b * m;
    assert p.LockedProfit() == m - a * m - b * m;
    if y > n {
      assert (y - n) * a == a * y - a * n;
    } else {
      assert (n - y) * b == b * n - b * y;
    }
  }

  // ── Positions of fill histories ──

  ghost function Apply(p: Totals, f: Fill): Totals {
    p.Record(f.side, f.price, f.size, f.taker, f.fee)
  }

  ghost function PositionOf(fills: seq<Fill>): Totals {
    if fills == [] then EMPTY else Apply(PositionOf(fills[..|fills| - 1]), fills[|fills| - 1])
  }

  ghost predicate Genuine(f: Fill) {
    f.size > 0.0
  }

  lemma {:induction false} PositionOfSound(fills: seq<Fill>)
    requires forall f :: f in fills ==> Genuine(f)
    ensures Sound(PositionOf(fills).yes) && Sound(PositionOf(fills).no)
  {
    if fills != [] {
      PositionOfSound(fills[..|fills| - 1]);
      assert Genuine(fills[|fills| - 1]);
    }
  }

  /** For every history of fills the reported worst case is the worse resolution. */
  lemma NetWorstOfHistory(fills: seq<Fill>)
    requires forall f :: f in fills ==> Genuine(f)
    ensures NetWorst(PositionOf(fills)) == Min(Profit(PositionOf(fills), Yes), Profit(PositionOf(fills), No))
  {
    PositionOfSound(fills);
    NetWorstIsTheWorseResolution(PositionOf(fills));
  }

  lemma ApplyCommutes(p: Totals, f: Fill, g: Fill)
    ensures Apply(Apply(p, f), g) == Apply(Apply(p, g), f)
  {
  }

  function Without<T>(s: seq<T>, i: nat): seq<T>
    requires i < |s|
  {
    s[..i] + s[i + 1..]
  }

  lemma {:induction false} LastFillCanBeAnyFill(fills: seq<Fill>, i: nat)
    requires i < |fills|
    ensures PositionOf(fills) == Apply(PositionOf(Without(fills, i)), fills[i])
  {
    var n := |fills| - 1;
    if i == n {
      assert Without(fills, i) == fills[..n];
    } else {
      var front := fills[..n];
      LastFillCanBeAnyFill(front, i);
      var rest := Without(fills, i);
      assert rest[..|rest| - 1] == Without(front, i);
      assert rest[|rest| - 1] == fills[n];
      ApplyCommutes(PositionOf(Without(front, i)), fills[i], fills[n]);
    }
  }

  /** The position depends only on which fills happened, not on their order. */
  lemma {:induction false} PositionDependsOnlyOnTheFills(a: seq<Fill>, b: seq<Fill>)
    requires multiset(a) == multiset(b)
    ensures PositionOf(a) == PositionOf(b)
    decreases |a|
  {
    if a == [] {
      assert |multiset(b)| == 0;
    } else {
      var n := |a| - 1;
      var f := a[n];
      assert a == a[..n] + [f];
      assert f in multiset(b);
      var i :| 0 <= i < |b| && b[i] == f;
      var rest := Without(b, i);
      assert b == b[..i] + [f] + b[i + 1..];
      assert multiset(a[..n]) == multiset(a) - multiset{f};
      assert multiset(rest) == multiset(b) - multiset{f};
      PositionDependsOnlyOnTheFills(a[..n], rest);
      LastFillCanBeAnyFill(b, i);
    }
  }

  // ── Averages under new fills ──

  lemma QuotientBelow(c: real, n: real, bound: real)
    requires n > 0.0 && c < bound * n
    ensures c / n < bound
  {
    var q := c / n;
    assert q * n == c;
    assert q < bound by {
      if bound <= q {
        MulMono(bound, q, n);
      }
    }
  }

  /** Shares bought at one price have cost that price on average. */
  lemma AvgOfOnePrice(t: SideTotals, price: real)
    requires t.shares > 0.0 && t.cost == price * t.shares
    ensures Avg(t) == price
  {
    QuotientIs(t.cost, t.shares, price);
  }

  /** A fill below a bound keeps an average below that bound. */
  lemma AvgStaysBelow(t: SideTotals, price: real, size: real, taker: bool, fee: real, bound: real)
    requires Sound(t) && size > 0.0
    requires price < bound && (t.shares > 0.0 ==> Avg(t) < bound)
    ensures Avg(Add(t, price, size, taker, fee)) < bound
  {
    var n, c := t.shares + size, t.cost + price * size;
    MulStrict(price, bound, size);
    if t.shares > 0.0 {
      AvgTimesShares(t);
      MulStrict(Avg(t), bound, t.shares);
    }
    assert bound * n == bound * t.shares + bound * size;
    assert c < bound * n;
    QuotientBelow(c, n, bound);
  }

  lemma AvgNonNegative(t: SideTotals)
    requires Sound(t) && t.cost >= 0.0
    ensures Avg(t) >= 0.0
  {
    if t.shares > 0.0 && Avg(t) < 0.0 {
      MulStrict(Avg(t), 0.0, t.shares);
      AvgTimesShares(t);
    }
  }

  /** Paired shares bought below one dollar a pair are locked profit. */
  lemma CheapPairsLockProfit(p: Totals)
    requires p.AvgPairCost() < 1.0 && p.Paired() > 0.0
    ensures p.LockedProfit() > 0.0
  {
    MulStrict(0.0, 1.0 - p.AvgPairCost(), p.Paired());
  }
}
