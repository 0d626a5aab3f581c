/** Decoding of binary market data (FIX Simple Binary Encoding 1.0, section 3: message structure, repeating groups)
    against a reference encoder. */
module Sbe {
  import opened Common
  import opened SbeDecimal

  type Byte = b: nat | b < 256

  // ── Little-endian integers ──

  function FromLe(s: seq<Byte>): nat {
    if s == [] then 0 else s[0] + 256 * FromLe(s[1..])
  }

  function ToLe(n: nat, width: nat): (s: seq<Byte>)
    ensures |s| == width
  {
    if width == 0 then [] else [n % 256] + ToLe(n / 256, width - 1)
  }

  function Pow256(k: nat): nat {
    if k == 0 then 1 else 256 * Pow256(k - 1)
  }

  lemma {:induction false} FromLeToLe(n: nat, width: nat)
    requires n < Pow256(width)
    ensures FromLe(ToLe(n, width)) == n
  {
    if width > 0 {
      FromLeToLe(n / 256, width - 1);
    }
  }

  type U16 = x: nat | x < 65536

  function I64Bytes(x: I64): (s: seq<Byte>)
    ensures |s| == 8
  {
    ToLe(if x < 0 then x + WORD else x, 8)
  }

  function U16Bytes(x: U16): (s: seq<Byte>)
    ensures |s| == 2
  {
    ToLe(x, 2)
  }

  function ReadI64(body: seq<Byte>, offset: nat): Option<I64> {
    if offset + 8 <= |body| then Some(AsSigned(FromLe(body[offset..offset + 8]))) else None
  }

  function ReadU16(body: seq<Byte>, offset: nat): Option<nat> {
    if offset + 2 <= |body| then Some(FromLe(body[offset..offset + 2])) else None
  }

  /** The bytes `s` stand at `offset`. */
  ghost predicate At(body: seq<Byte>, offset: nat, s: seq<Byte>) {
    offset + |s| <= |body| && body[offset..offset + |s|] == s
  }

  lemma SixteenPow()
    ensures Pow256(2) == 65536 && Pow256(8) == WORD
  {
    assert Pow256(4) == 0x1_0000_0000 by {
      assert Pow256(2) == 65536;
    }
    assert Pow256(6) == 65536 * Pow256(4);
  }

  lemma ReadsWhatIsThere(body: seq<Byte>, offset: nat, x: I64)
    requires At(body, offset, I64Bytes(x))
    ensures ReadI64(body, offset) == Some(x)
  {
    SixteenPow();
    FromLeToLe(if x < 0 then x + WORD else x, 8);
  }

  lemma ReadsU16(body: seq<Byte>, offset: nat, x: U16)
    requires At(body, offset, U16Bytes(x))
    ensures ReadU16(body, offset) == Some(x)
  {
    SixteenPow();
    FromLeToLe(x, 2);
  }

  lemma AtPart(body: seq<Byte>, offset: nat, a: seq<Byte>, b: seq<Byte>, c: seq<Byte>)
    requires At(body, offset, a + b + c)
    ensures At(body, offset + |a|, b)
  {
    var s := a + b + c;
    forall k | 0 <= k < |b| ensures body[offset + |a| + k] == b[k] {
      assert body[offset..offset + |s|][|a| + k] == s[|a| + k];
    }
  }

  /** The parts of a message stand one behind the other. */
  lemma Placed(root: seq<Byte>, a: seq<Byte>, b: seq<Byte>, c: seq<Byte>, trailer: seq<Byte>)
    ensures var body := root + a + b + c + trailer;
            && At(body, 0, root) && At(body, |root|, a)
            && At(body, |root| + |a|, b) && At(body, |root| + |a| + |b|, c)
  {
  }

  lemma PlacedTwo(root: seq<Byte>, a: seq<Byte>, b: seq<Byte>, trailer: seq<Byte>)
    ensures var body := root + a + b + trailer;
            At(body, 0, root) && At(body, |root|, a) && At(body, |root| + |a|, b)
  {
  }

  function SignedByte(b: Byte): I8 {
    if b < 128 then b else b - 256
  }

  function ByteOf(x: I8): Byte {
    if x < 0 then x + 256 else x
  }

  // ── Price levels ──

  datatype PriceLevel = PriceLevel(price: real, size: real)

  function MakeLevel(price: I64, qty: I64, priceExp: I8, qtyExp: I8): Result<PriceLevel> {
    match (SbeToDecimal(price, priceExp), SbeToDecimal(qty, qtyExp))
    case (Ok(p), Ok(q)) => Ok(PriceLevel(p, q))
    case _ => Fault
  }

  function LevelAt(body: seq<Byte>, offset: nat, priceExp: I8, qtyExp: I8): Result<PriceLevel> {
    match (ReadI64(body, offset), ReadI64(body, offset + 8))
    case (Some(p), Some(q)) => MakeLevel(p, q, priceExp, qtyExp)
    case _ => Err
  }

  function EntryOffset(start: nat, block: nat, i: nat): nat {
    start + i * block
  }

  lemma EntryOffsetStep(start: nat, block: nat, i: nat)
    ensures EntryOffset(start, block, i + 1) == EntryOffset(start, block, i) + block
  {
  }

  function Append<T>(front: Result<seq<T>>, last: Result<T>): Result<seq<T>> {
    match front
    case Ok(f) => (match last case Ok(x) => Ok(f + [x]) case Err => Err case Fault => Fault)
    case e => e
  }

  /** The first `n` entries; the first failure decides. */
  function LevelsFrom(body: seq<Byte>, start: nat, block: nat, n: nat, priceExp: I8, qtyExp: I8)
    : Result<seq<PriceLevel>>
  {
    if n == 0 then Ok([])
    else Append(LevelsFrom(body, start, block, n - 1, priceExp, qtyExp),
                LevelAt(body, EntryOffset(start, block, n - 1), priceExp, qtyExp))
  }

  lemma {:induction false} FailuresStay(body: seq<Byte>, start: nat, block: nat, k: nat, n: nat,
                                        priceExp: I8, qtyExp: I8)
    requires k <= n && !LevelsFrom(body, start, block, k, priceExp, qtyExp).Ok?
    ensures LevelsFrom(body, start, block, n, priceExp, qtyExp) == LevelsFrom(body, start, block, k, priceExp, qtyExp)
    decreases n
  {
    if k < n {
      FailuresStay(body, start, block, k, n - 1, priceExp, qtyExp);
    }
  }

  /** A group and the offset just behind it. */
  function GroupAt(body: seq<Byte>, offset: nat, priceExp: I8, qtyExp: I8): (Result<seq<PriceLevel>>, nat) {
    match (ReadU16(body, offset), ReadU16(body, offset + 2))
    case (Some(block), Some(n)) =>
      (LevelsFrom(body, offset + 4, block, n, priceExp, qtyExp), EntryOffset(offset + 4, block, n))
    case _ => (Err, offset)
  }

  /** Parses one group and moves the offset past it. */
  method ParsePriceLevels(body: seq<Byte>, start: nat, priceExp: I8, qtyExp: I8)
    returns (r: Result<seq<PriceLevel>>, offset: nat)
    ensures r == GroupAt(body, start, priceExp, qtyExp).0
    ensures r.Ok? ==> offset == GroupAt(body, start, priceExp, qtyExp).1
  {
    offset := start;
    var block := ReadU16(body, offset);
    if block.None? {
      return Err, offset;
    }
    var count := ReadU16(body, offset + 2);
    if count.None? {
      return Err, offset;
    }
    offset := offset + 4;
    var levels := [];
    for i := 0 to count.value
      invariant offset == EntryOffset(start + 4, block.value, i)
      invariant LevelsFrom(body, start + 4, block.value, i, priceExp, qtyExp) == Ok(levels)
    {
      EntryOffsetStep(start + 4, block.value, i);
      var level := LevelAt(body, offset, priceExp, qtyExp);
      if !level.Ok? {
        FailuresStay(body, start + 4, block.value, i + 1, count.value, priceExp, qtyExp);
        return if level.Err? then Err else Fault, offset;
      }
      levels := levels + [level.value];
      offset := offset + block.value;
    }
    r := Ok(levels);
  }

  // ── Depth snapshots ──

  datatype Depth = Depth(bids: seq<PriceLevel>, asks: seq<PriceLevel>, timestampMs: nat)

  /** Microseconds to milliseconds: division towards zero, then a cast to an unsigned word. */
  function ToMillis(micros: I64): nat {
    var m: int := micros;
    (if m < 0 then -(-m / 1000) else m / 1000) % WORD
  }

  function DepthOf(body: seq<Byte>, blockLength: nat): Result<Depth> {
    if |body| < 18 then Err
    else
      var pe, qe := SignedByte(body[16]), SignedByte(body[17]);
      var (bids, next) := GroupAt(body, blockLength, pe, qe);
      match bids
      case Err => Err
      case Fault => Fault
      case Ok(b) =>
        match GroupAt(body, next, pe, qe).0
        case Err => Err
        case Fault => Fault
        case Ok(a) => Ok(Depth(b, a, ToMillis(ReadI64(body, 0).value)))
  }

  method ParseDepth(body: seq<Byte>, blockLength: nat) returns (r: Result<Depth>)
    ensures r == DepthOf(body, blockLength)
  {
    if |body| < 18 {
      return Err;
    }
    var time := ReadI64(body, 0);
    var pe, qe := SignedByte(body[16]), SignedByte(body[17]);
    var bids, next := ParsePriceLevels(body, blockLength, pe, qe);
    if !bids.Ok? {
      return if bids.Err? then Err else Fault;
    }
    var asks, end := ParsePriceLevels(body, next, pe, qe);
    if !asks.Ok? {
      return if asks.Err? then Err else Fault;
    }
    r := Ok(Depth(bids.value, asks.value, ToMillis(time.value)));
  }

  // ── Trades ──

  datatype Trade = Trade(price: real, quantity: real, isBuyerMaker: bool, timestampMs: nat)

  function MakeTrade(price: I64, qty: I64, maker: bool, priceExp: I8, qtyExp: I8, ms: nat): Result<Trade> {
    match (SbeToDecimal(price, priceExp), SbeToDecimal(qty, qtyExp))
    case (Ok(p), Ok(q)) => Ok(Trade(p, q, maker, ms))
    case _ => Fault
  }

  function TradeAt(body: seq<Byte>, offset: nat, priceExp: I8, qtyExp: I8, ms: nat): Result<Trade> {
    if |body| < offset + 26 then Err
    else MakeTrade(ReadI64(body, offset + 8).value, ReadI64(body, offset + 16).value, body[offset + 24] != 0,
                   priceExp, qtyExp, ms)
  }

  function TradesFrom(body: seq<Byte>, start: nat, block: nat, n: nat, priceExp: I8, qtyExp: I8, ms: nat)
    : Result<seq<Trade>>
  {
    if n == 0 then Ok([])
    else Append(TradesFrom(body, start, block, n - 1, priceExp, qtyExp, ms),
                TradeAt(body, EntryOffset(start, block, n - 1), priceExp, qtyExp, ms))
  }

  lemma {:induction false} TradeFailuresStay(body: seq<Byte>, start: nat, block: nat, k: nat, n: nat,
                                             priceExp: I8, qtyExp: I8, ms: nat)
    requires k <= n && !TradesFrom(body, start, block, k, priceExp, qtyExp, ms).Ok?
    ensures TradesFrom(body, start, block, n, priceExp, qtyExp, ms)
         == TradesFrom(body, start, block, k, priceExp, qtyExp, ms)
    decreases n
  {
    if k < n {
      TradeFailuresStay(body, start, block, k, n - 1, priceExp, qtyExp, ms);
    }
  }

  const TRADE_GROUP := 22

  function TradesOf(body: seq<Byte>): Result<seq<Trade>> {
    if |body| < TRADE_GROUP then Err
    else
      var block, n := ReadU16(body, 18).value, ReadU16(body, 20).value;
      if |body| < EntryOffset(TRADE_GROUP, block, n) then Err
      else TradesFrom(body, TRADE_GROUP, block, n, SignedByte(body[16]), SignedByte(body[17]),
                      ToMillis(ReadI64(body, 0).value))
  }

  method ParseTrades(body: seq<Byte>) returns (r: Result<seq<Trade>>)
    ensures r == TradesOf(body)
  {
    if |body| < 18 {
      return Err;
    }
    var time := ReadI64(body, 0);
    var pe, qe := SignedByte(body[16]), SignedByte(body[17]);
    var ms := ToMillis(time.value);
    if |body| < TRADE_GROUP {
      return Err;
    }
    var block, n := ReadU16(body, 18).value, ReadU16(body, 20).value;
    if |body| < EntryOffset(TRADE_GROUP, block, n) {
      return Err;
    }
    var trades := [];
    for i := 0 to n
      invariant TradesFrom(body, TRADE_GROUP, block, i, pe, qe, ms) == Ok(trades)
    {
      var trade := TradeAt(body, EntryOffset(TRADE_GROUP, block, i), pe, qe, ms);
      if !trade.Ok? {
        TradeFailuresStay(body, TRADE_GROUP, block, i + 1, n, pe, qe, ms);
        return if trade.Err? then Err else Fault;
      }
      trades := trades + [trade.value];
    }
    r := Ok(trades);
  }

  // ── The reference encoder ──

  function Flatten(blocks: seq<seq<Byte>>): seq<Byte> {
    if blocks == [] then [] else Flatten(blocks[..|blocks| - 1]) + blocks[|blocks| - 1]
  }

  ghost predicate Uniform(blocks: seq<seq<Byte>>, block: nat) {
    forall i :: 0 <= i < |blocks| ==> |blocks[i]| == block
  }

  lemma {:induction false} FlattenLength(blocks: seq<seq<Byte>>, block: nat)
    requires Uniform(blocks, block)
    ensures |Flatten(blocks)| == EntryOffset(0, block, |blocks|)
  {
    if blocks != [] {
      FlattenLength(blocks[..|blocks| - 1], block);
      EntryOffsetStep(0, block, |blocks| - 1);
    }
  }

  /** Block `i` of a group stands at its entry offset. */
  lemma {:induction false} BlockAt(body: seq<Byte>, start: nat, blocks: seq<seq<Byte>>, block: nat, i: nat)
    requires Uniform(blocks, block) && i < |blocks| && At(body, start, Flatten(blocks))
    ensures At(body, EntryOffset(start, block, i), blocks[i])
    decreases |blocks|
  {
    var n := |blocks| - 1;
    var front := blocks[..n];
    FlattenLength(front, block);
    assert EntryOffset(start, block, n) == start + EntryOffset(0, block, n);
    if i == n {
      assert Flatten(blocks) == Flatten(front) + blocks[n] + [];
      AtPart(body, start, Flatten(front), blocks[n], []);
    } else {
      assert Flatten(blocks) == [] + Flatten(front) + blocks[n];
      AtPart(body, start, [], Flatten(front), blocks[n]);
      BlockAt(body, start, front, block, i);
    }
  }

  /** A repeating group: its header, then its blocks. */
  function GroupBytes(block: U16, blocks: seq<seq<Byte>>): seq<Byte>
    requires |blocks| < 65536
  {
    U16Bytes(block) + U16Bytes(|blocks|) + Flatten(blocks)
  }

  /** The fixed part of every message: time, a word nobody reads, both exponents, and padding up to the block
      length. */
  function RootBytes(time: I64, id: I64, priceExp: I8, qtyExp: I8, padding: seq<Byte>): (s: seq<Byte>)
    ensures |s| == 18 + |padding|
  {
    I64Bytes(time) + I64Bytes(id) + [ByteOf(priceExp), ByteOf(qtyExp)] + padding
  }

  datatype Quote = Quote(price: I64, qty: I64, extra: seq<Byte>)

  function QuoteBytes(q: Quote): seq<Byte> {
    I64Bytes(q.price) + I64Bytes(q.qty) + q.extra
  }

  function QuoteBlocks(quotes: seq<Quote>): (b: seq<seq<Byte>>)
    ensures |b| == |quotes|
  {
    seq(|quotes|, i requires 0 <= i < |quotes| => QuoteBytes(quotes[i]))
  }

  /** Quotes whose entries all have the group's block length; any length from sixteen on will do. */
  ghost predicate QuoteGroup(block: U16, quotes: seq<Quote>) {
    block >= 16 && |quotes| < 65536 && forall i :: 0 <= i < |quotes| ==> |quotes[i].extra| == block - 16
  }

  function DepthBytes(time: I64, id: I64, pe: I8, qe: I8, padding: seq<Byte>,
                      bidBlock: U16, bids: seq<Quote>, askBlock: U16, asks: seq<Quote>, trailer: seq<Byte>): seq<Byte>
    requires |bids| < 65536 && |asks| < 65536
  {
    RootBytes(time, id, pe, qe, padding)
    + GroupBytes(bidBlock, QuoteBlocks(bids)) + GroupBytes(askBlock, QuoteBlocks(asks)) + trailer
  }

  /** The levels that a group of quotes stands for; a fault if one of its numbers cannot be converted. */
  function LevelsOf(quotes: seq<Quote>, pe: I8, qe: I8): (r: Result<seq<PriceLevel>>)
    ensures !r.Err?
  {
    if quotes == [] then Ok([])
    else
      var q := quotes[|quotes| - 1];
      Append(LevelsOf(quotes[..|quotes| - 1], pe, qe), MakeLevel(q.price, q.qty, pe, qe))
  }

  // ── Round trips ──

  lemma QuoteAt(body: seq<Byte>, offset: nat, q: Quote, pe: I8, qe: I8)
    requires At(body, offset, QuoteBytes(q))
    ensures LevelAt(body, offset, pe, qe) == MakeLevel(q.price, q.qty, pe, qe)
  {
    var p, s := I64Bytes(q.price), I64Bytes(q.qty);
    assert QuoteBytes(q) == [] + p + (s + q.extra);
    AtPart(body, offset, [], p, s + q.extra);
    AtPart(body, offset, p, s, q.extra);
    ReadsWhatIsThere(body, offset, q.price);
    ReadsWhatIsThere(body, offset + 8, q.qty);
  }

  lemma {:induction false} QuotesDecode(body: seq<Byte>, start: nat, block: U16, quotes: seq<Quote>, n: nat,
                                        pe: I8, qe: I8)
    requires QuoteGroup(block, quotes) && At(body, start, Flatten(QuoteBlocks(quotes))) && n <= |quotes|
    ensures LevelsFrom(body, start, block, n, pe, qe) == LevelsOf(quotes[..n], pe, qe)
  {
    if n > 0 {
      QuotesDecode(body, start, block, quotes, n - 1, pe, qe);
      BlockAt(body, start, QuoteBlocks(quotes), block, n - 1);
      QuoteAt(body, EntryOffset(start, block, n - 1), quotes[n - 1], pe, qe);
      assert quotes[..n][..n - 1] == quotes[..n - 1];
    }
  }

  lemma ThreeParts(body: seq<Byte>, start: nat, a: seq<Byte>, b: seq<Byte>, c: seq<Byte>)
    requires At(body, start, a + b + c)
    ensures At(body, start, a) && At(body, start + |a|, b) && At(body, start + |a| + |b|, c)
  {
    assert a + b + c == [] + a + (b + c);
    assert a + b + c == (a + b) + c + [];
    AtPart(body, start, [], a, b + c);
    AtPart(body, start, a, b, c);
    AtPart(body, start, a + b, c, []);
  }

  lemma GroupParts(body: seq<Byte>, start: nat, block: U16, blocks: seq<seq<Byte>>)
    requires |blocks| < 65536 && At(body, start, GroupBytes(block, blocks))
    ensures ReadU16(body, start) == Some(block) && ReadU16(body, start + 2) == Some(|blocks|)
    ensures At(body, start + 4, Flatten(blocks)) && |GroupBytes(block, blocks)| == 4 + |Flatten(blocks)|
  {
    ThreeParts(body, start, U16Bytes(block), U16Bytes(|blocks|), Flatten(blocks));
    ReadsU16(body, start, block);
    ReadsU16(body, start + 2, |blocks|);
  }

  /** A group in place decodes to its quotes, and the offset ends right behind it. */
  lemma GroupDecodes(body: seq<Byte>, start: nat, block: U16, quotes: seq<Quote>, pe: I8, qe: I8)
    requires QuoteGroup(block, quotes) && At(body, start, GroupBytes(block, QuoteBlocks(quotes)))
    ensures GroupAt(body, start, pe, qe).0 == LevelsOf(quotes, pe, qe)
    ensures GroupAt(body, start, pe, qe).1 == start + |GroupBytes(block, QuoteBlocks(quotes))|
  {
    var blocks, n := QuoteBlocks(quotes), |quotes|;
    GroupParts(body, start, block, blocks);
    QuotesDecode(body, start + 4, block, quotes, n, pe, qe);
    assert quotes[..n] == quotes;
    FlattenLength(blocks, block);
    assert EntryOffset(start + 4, block, n) == start + 4 + EntryOffset(0, block, n);
  }

  lemma RootDecodes(body: seq<Byte>, time: I64, id: I64, pe: I8, qe: I8, padding: seq<Byte>)
    requires At(body, 0, RootBytes(time, id, pe, qe, padding))
    ensures ReadI64(body, 0) == Some(time) && SignedByte(body[16]) == pe && SignedByte(body[17]) == qe
  {
    var root := RootBytes(time, id, pe, qe, padding);
    var exps := [ByteOf(pe), ByteOf(qe)];
    assert root == [] + I64Bytes(time) + (I64Bytes(id) + exps + padding);
    assert root == (I64Bytes(time) + I64Bytes(id)) + exps + padding;
    AtPart(body, 0, [], I64Bytes(time), I64Bytes(id) + exps + padding);
    AtPart(body, 0, I64Bytes(time) + I64Bytes(id), exps, padding);
    ReadsWhatIsThere(body, 0, time);
    assert body[16] == body[16..18][0] && body[17] == body[16..18][1];
  }

  /** The parts of an encoded snapshot stand where the decoder looks for them. */
  lemma DepthStands(time: I64, id: I64, pe: I8, qe: I8, padding: seq<Byte>,
                    bidBlock: U16, bids: seq<Quote>, askBlock: U16, asks: seq<Quote>, trailer: seq<Byte>)
    returns (body: seq<Byte>)
    requires |bids| < 65536 && |asks| < 65536
    ensures body == DepthBytes(time, id, pe, qe, padding, bidBlock, bids, askBlock, asks, trailer)
    ensures HasExponents(body, pe, qe) && ReadI64(body, 0) == Some(time)
    ensures var b := GroupBytes(bidBlock, QuoteBlocks(bids));
            && At(body, 18 + |padding|, b)
            && At(body, 18 + |padding| + |b|, GroupBytes(askBlock, QuoteBlocks(asks)))
  {
    var root := RootBytes(time, id, pe, qe, padding);
    var b, a := GroupBytes(bidBlock, QuoteBlocks(bids)), GroupBytes(askBlock, QuoteBlocks(asks));
    PlacedTwo(root, b, a, trailer);
    body := root + b + a + trailer;
    RootDecodes(body, time, id, pe, qe, padding);
  }

  lemma EncodedDepth(time: I64, id: I64, pe: I8, qe: I8, padding: seq<Byte>,
                     bidBlock: U16, bids: seq<Quote>, askBlock: U16, asks: seq<Quote>, trailer: seq<Byte>)
    returns (body: seq<Byte>)
    requires QuoteGroup(bidBlock, bids) && QuoteGroup(askBlock, asks)
    ensures body == DepthBytes(time, id, pe, qe, padding, bidBlock, bids, askBlock, asks, trailer)
    ensures HasExponents(body, pe, qe)
    ensures DepthOf(body, 18 + |padding|) == JoinSides(LevelsOf(bids, pe, qe), LevelsOf(asks, pe, qe), ToMillis(time))
  {
    body := DepthStands(time, id, pe, qe, padding, bidBlock, bids, askBlock, asks, trailer);
    var next := GroupsDecode(body, 18 + |padding|, pe, qe, bidBlock, bids, askBlock, asks);
    DepthOfGroups(body, 18 + |padding|, next, time, pe, qe);
  }

  /** Decoding an encoded depth snapshot gives back exactly its levels, whatever the entry lengths, the padding of
      the root block and the bytes behind the last group. */
  lemma DepthRoundTrip(time: I64, id: I64, pe: I8, qe: I8, padding: seq<Byte>,
                       bidBlock: U16, bids: seq<Quote>, askBlock: U16, asks: seq<Quote>, trailer: seq<Byte>)
    requires QuoteGroup(bidBlock, bids) && QuoteGroup(askBlock, asks)
    ensures DepthOf(DepthBytes(time, id, pe, qe, padding, bidBlock, bids, askBlock, asks, trailer), 18 + |padding|)
         == JoinSides(LevelsOf(bids, pe, qe), LevelsOf(asks, pe, qe), ToMillis(time))
  {
    var _ := EncodedDepth(time, id, pe, qe, padding, bidBlock, bids, askBlock, asks, trailer);
  }

  /** The asks group starts exactly where the bids group ends. */
  lemma GroupsDecode(body: seq<Byte>, start: nat, pe: I8, qe: I8,
                     bidBlock: U16, bids: seq<Quote>, askBlock: U16, asks: seq<Quote>) returns (next: nat)
    requires QuoteGroup(bidBlock, bids) && QuoteGroup(askBlock, asks)
    requires var b := GroupBytes(bidBlock, QuoteBlocks(bids));
             At(body, start, b) && At(body, start + |b|, GroupBytes(askBlock, QuoteBlocks(asks)))
    ensures GroupAt(body, start, pe, qe).1 == next
    ensures GroupAt(body, start, pe, qe).0 == LevelsOf(bids, pe, qe)
    ensures GroupAt(body, next, pe, qe).0 == LevelsOf(asks, pe, qe)
  {
    next := start + |GroupBytes(bidBlock, QuoteBlocks(bids))|;
    GroupDecodes(body, start, bidBlock, bids, pe, qe);
    GroupDecodes(body, next, askBlock, asks, pe, qe);
  }

  lemma DepthOfGroups(body: seq<Byte>, start: nat, next: nat, time: I64, pe: I8, qe: I8)
    requires HasExponents(body, pe, qe) && ReadI64(body, 0) == Some(time)
    requires GroupAt(body, start, pe, qe).1 == next
    requires !GroupAt(body, start, pe, qe).0.Err? && !GroupAt(body, next, pe, qe).0.Err?
    ensures DepthOf(body, start)
         == JoinSides(GroupAt(body, start, pe, qe).0, GroupAt(body, next, pe, qe).0, ToMillis(time))
  {
  }

  ghost predicate HasExponents(body: seq<Byte>, pe: I8, qe: I8) {
    |body| >= 18 && SignedByte(body[16]) == pe && SignedByte(body[17]) == qe
  }

  function JoinSides(bids: Result<seq<PriceLevel>>, asks: Result<seq<PriceLevel>>, ms: nat): Result<Depth> {
    match (bids, asks)
    case (Ok(b), Ok(a)) => Ok(Depth(b, a, ms))
    case _ => Fault
  }

  ghost predicate Ordinary(pe: I8, qe: I8) {
    -28 <= pe <= 0 && -28 <= qe <= 0
  }

  /** With ordinary exponents every number is converted, to exactly what was meant. */
  lemma {:induction false} OrdinaryLevels(quotes: seq<Quote>, pe: I8, qe: I8)
    requires Ordinary(pe, qe)
    ensures LevelsOf(quotes, pe, qe).Ok? && |LevelsOf(quotes, pe, qe).value| == |quotes|
    ensures forall i :: 0 <= i < |quotes| ==>
              LevelsOf(quotes, pe, qe).value[i] == PriceLevel(Exact(quotes[i].price, pe), Exact(quotes[i].qty, qe))
  {
    if quotes != [] {
      OrdinaryLevels(quotes[..|quotes| - 1], pe, qe);
    }
  }

  // ── Faults ──

  /** The conversion is the only thing that can panic. */
  lemma {:induction false} LevelsNeverFault(body: seq<Byte>, start: nat, block: nat, n: nat, pe: I8, qe: I8)
    requires Safe(pe) && Safe(qe)
    ensures !LevelsFrom(body, start, block, n, pe, qe).Fault?
  {
    if n > 0 {
      LevelsNeverFault(body, start, block, n - 1, pe, qe);
      LevelNeverFaults(body, EntryOffset(start, block, n - 1), pe, qe);
    }
  }

  lemma LevelNeverFaults(body: seq<Byte>, offset: nat, pe: I8, qe: I8)
    requires Safe(pe) && Safe(qe)
    ensures !LevelAt(body, offset, pe, qe).Fault?
  {
    match (ReadI64(body, offset), ReadI64(body, offset + 8))
    case (Some(p), Some(q)) =>
      SafeNeverFaults(p, pe);
      SafeNeverFaults(q, qe);
    case _ =>
  }

  lemma GroupNeverFaults(body: seq<Byte>, offset: nat, pe: I8, qe: I8)
    requires Safe(pe) && Safe(qe)
    ensures !GroupAt(body, offset, pe, qe).0.Fault?
  {
    if ReadU16(body, offset).Some? && ReadU16(body, offset + 2).Some? {
      LevelsNeverFault(body, offset + 4, ReadU16(body, offset).value, ReadU16(body, offset + 2).value, pe, qe);
    }
  }

  lemma SafeDepth(body: seq<Byte>, blockLength: nat, pe: I8, qe: I8)
    requires HasExponents(body, pe, qe) && Safe(pe) && Safe(qe)
    ensures !DepthOf(body, blockLength).Fault?
  {
    GroupNeverFaults(body, blockLength, pe, qe);
    GroupNeverFaults(body, GroupAt(body, blockLength, pe, qe).1, pe, qe);
  }

  /** Mantissas that one unsafe exponent cannot take. */
  lemma UnsafeMantissas(pe: I8, qe: I8) returns (price: I64, qty: I64)
    requires !(Safe(pe) && Safe(qe))
    ensures MakeLevel(price, qty, pe, qe).Fault?
  {
    price, qty := 0, 0;
    if !Safe(pe) {
      price := UnsafeFaults(pe);
    } else {
      qty := UnsafeFaults(qe);
    }
  }

  lemma OneQuote(q: Quote, pe: I8, qe: I8)
    ensures LevelsOf([q], pe, qe).Fault? <==> MakeLevel(q.price, q.qty, pe, qe).Fault?
  {
    assert [q][..0] == [];
  }

  lemma FaultyDepth(time: I64, block: U16, bids: seq<Quote>, rest: seq<Byte>, asks: seq<Quote>, pe: I8, qe: I8)
    returns (body: seq<Byte>)
    requires QuoteGroup(block, bids) && QuoteGroup(block, asks) && LevelsOf(bids, pe, qe).Fault?
    ensures HasExponents(body, pe, qe) && DepthOf(body, 18 + |rest|).Fault?
  {
    body := EncodedDepth(time, time, pe, qe, rest, block, bids, block, asks, rest);
  }

  lemma UnsafeDepth(pe: I8, qe: I8) returns (body: seq<Byte>, start: nat)
    requires !(Safe(pe) && Safe(qe))
    ensures HasExponents(body, pe, qe) && DepthOf(body, start).Fault?
  {
    var price, qty := UnsafeMantissas(pe, qe);
    OneQuote(Quote(price, qty, []), pe, qe);
    body := FaultyDepth(0, 16, [Quote(price, qty, [])], [], [], pe, qe);
    start := 18;
  }

  /** No snapshot with these exponents makes the decoder panic exactly when both are safe. */
  lemma DepthNeverFaultsExactly(pe: I8, qe: I8)
    ensures (forall body, blockLength :: HasExponents(body, pe, qe) ==> !DepthOf(body, blockLength).Fault?)
       <==> Safe(pe) && Safe(qe)
  {
    if Safe(pe) && Safe(qe) {
      forall body, blockLength | HasExponents(body, pe, qe) ensures !DepthOf(body, blockLength).Fault? {
        SafeDepth(body, blockLength, pe, qe);
      }
    } else {
      var body, start := UnsafeDepth(pe, qe);
    }
  }

  // ── Trades ──

  datatype Print = Print(id: I64, price: I64, qty: I64, maker: Byte, bestMatch: Byte, extra: seq<Byte>)

  function PrintBytes(p: Print): seq<Byte> {
    I64Bytes(p.id) + I64Bytes(p.price) + I64Bytes(p.qty) + [p.maker, p.bestMatch] + p.extra
  }

  function PrintBlocks(prints: seq<Print>): (b: seq<seq<Byte>>)
    ensures |b| == |prints|
  {
    seq(|prints|, i requires 0 <= i < |prints| => PrintBytes(prints[i]))
  }

  ghost predicate PrintGroup(block: U16, prints: seq<Print>) {
    block >= 26 && |prints| < 65536 && forall i :: 0 <= i < |prints| ==> |prints[i].extra| == block - 26
  }

  function TradeBytes(time: I64, id: I64, pe: I8, qe: I8, block: U16, prints: seq<Print>, trailer: seq<Byte>): seq<Byte>
    requires |prints| < 65536
  {
    RootBytes(time, id, pe, qe, []) + GroupBytes(block, PrintBlocks(prints)) + trailer
  }

  function TradesMeant(prints: seq<Print>, pe: I8, qe: I8, ms: nat): Result<seq<Trade>> {
    if prints == [] then Ok([])
    else
      var p := prints[|prints| - 1];
      Append(TradesMeant(prints[..|prints| - 1], pe, qe, ms), MakeTrade(p.price, p.qty, p.maker != 0, pe, qe, ms))
  }

  lemma PrintAt(body: seq<Byte>, offset: nat, p: Print, pe: I8, qe: I8, ms: nat)
    requires At(body, offset, PrintBytes(p))
    ensures TradeAt(body, offset, pe, qe, ms) == MakeTrade(p.price, p.qty, p.maker != 0, pe, qe, ms)
  {
    var i, x, q, flags := I64Bytes(p.id), I64Bytes(p.price), I64Bytes(p.qty), [p.maker, p.bestMatch];
    assert PrintBytes(p) == i + x + (q + flags + p.extra) == (i + x) + q + (flags + p.extra)
        == (i + x + q) + flags + p.extra;
    AtPart(body, offset, i, x, q + flags + p.extra);
    AtPart(body, offset, i + x, q, flags + p.extra);
    AtPart(body, offset, i + x + q, flags, p.extra);
    ReadsWhatIsThere(body, offset + 8, p.price);
    ReadsWhatIsThere(body, offset + 16, p.qty);
    assert body[offset + 24] == body[offset + 24..offset + 26][0];
  }

  lemma {:induction false} PrintsDecode(body: seq<Byte>, start: nat, block: U16, prints: seq<Print>, n: nat,
                                        pe: I8, qe: I8, ms: nat)
    requires PrintGroup(block, prints) && At(body, start, Flatten(PrintBlocks(prints))) && n <= |prints|
    ensures TradesFrom(body, start, block, n, pe, qe, ms) == TradesMeant(prints[..n], pe, qe, ms)
  {
    if n > 0 {
      PrintsDecode(body, start, block, prints, n - 1, pe, qe, ms);
      BlockAt(body, start, PrintBlocks(prints), block, n - 1);
      PrintAt(body, EntryOffset(start, block, n - 1), prints[n - 1], pe, qe, ms);
      assert prints[..n][..n - 1] == prints[..n - 1];
    }
  }

  /** Decoding an encoded trade batch gives back exactly its trades. The root block is not padded: the decoder
      looks for the group at a fixed place. */
  lemma TradesRoundTrip(time: I64, id: I64, pe: I8, qe: I8, block: U16, prints: seq<Print>, trailer: seq<Byte>)
    requires PrintGroup(block, prints)
    ensures TradesOf(TradeBytes(time, id, pe, qe, block, prints, trailer))
         == TradesMeant(prints, pe, qe, ToMillis(time))
  {
    var body := TradesStand(time, id, pe, qe, block, prints, trailer);
    FlattenLength(PrintBlocks(prints), block);
    assert EntryOffset(TRADE_GROUP, block, |prints|) == TRADE_GROUP + EntryOffset(0, block, |prints|);
    PrintsDecode(body, TRADE_GROUP, block, prints, |prints|, pe, qe, ToMillis(time));
    assert prints[..|prints|] == prints;
  }

  lemma TradesStand(time: I64, id: I64, pe: I8, qe: I8, block: U16, prints: seq<Print>, trailer: seq<Byte>)
    returns (body: seq<Byte>)
    requires |prints| < 65536
    ensures body == TradeBytes(time, id, pe, qe, block, prints, trailer)
    ensures HasExponents(body, pe, qe) && ReadI64(body, 0) == Some(time)
    ensures ReadU16(body, 18) == Some(block) && ReadU16(body, 20) == Some(|prints|)
    ensures At(body, TRADE_GROUP, Flatten(PrintBlocks(prints)))
  {
    var root, blocks := RootBytes(time, id, pe, qe, []), PrintBlocks(prints);
    var a, b, c := U16Bytes(block), U16Bytes(|blocks|), Flatten(blocks);
    Placed(root, a, b, c, trailer);
    body := root + a + b + c + trailer;
    assert body == TradeBytes(time, id, pe, qe, block, prints, trailer);
    RootDecodes(body, time, id, pe, qe, []);
    ReadsU16(body, 18, block);
    ReadsU16(body, 20, |blocks|);
  }

  /** With ordinary exponents every trade carries exactly the price, the quantity and the flag that were encoded. */
  lemma {:induction false} OrdinaryTrades(prints: seq<Print>, pe: I8, qe: I8, ms: nat)
    requires Ordinary(pe, qe)
    ensures TradesMeant(prints, pe, qe, ms).Ok? && |TradesMeant(prints, pe, qe, ms).value| == |prints|
    ensures forall i :: 0 <= i < |prints| ==>
              TradesMeant(prints, pe, qe, ms).value[i]
                == Trade(Exact(prints[i].price, pe), Exact(prints[i].qty, qe), prints[i].maker != 0, ms)
  {
    if prints != [] {
      OrdinaryTrades(prints[..|prints| - 1], pe, qe, ms);
    }
  }

  lemma {:induction false} TradesFromNeverFault(body: seq<Byte>, start: nat, block: nat, n: nat,
                                                pe: I8, qe: I8, ms: nat)
    requires Safe(pe) && Safe(qe)
    ensures !TradesFrom(body, start, block, n, pe, qe, ms).Fault?
  {
    if n > 0 {
      TradesFromNeverFault(body, start, block, n - 1, pe, qe, ms);
      TradeNeverFaults(body, EntryOffset(start, block, n - 1), pe, qe, ms);
    }
  }

  lemma TradeNeverFaults(body: seq<Byte>, offset: nat, pe: I8, qe: I8, ms: nat)
    requires Safe(pe) && Safe(qe)
    ensures !TradeAt(body, offset, pe, qe, ms).Fault?
  {
    if |body| >= offset + 26 {
      SafeNeverFaults(ReadI64(body, offset + 8).value, pe);
      SafeNeverFaults(ReadI64(body, offset + 16).value, qe);
    }
  }

  lemma SafeTrades(body: seq<Byte>, pe: I8, qe: I8)
    requires HasExponents(body, pe, qe) && Safe(pe) && Safe(qe)
    ensures !TradesOf(body).Fault?
  {
    if |body| >= TRADE_GROUP {
      TradesFromNeverFault(body, TRADE_GROUP, ReadU16(body, 18).value, ReadU16(body, 20).value, pe, qe,
                           ToMillis(ReadI64(body, 0).value));
    }
  }

  lemma OnePrint(p: Print, pe: I8, qe: I8, ms: nat)
    ensures TradesMeant([p], pe, qe, ms).Fault? <==> MakeTrade(p.price, p.qty, p.maker != 0, pe, qe, ms).Fault?
  {
    assert [p][..0] == [];
  }

  lemma FaultyTrades(time: I64, block: U16, p: Print, pe: I8, qe: I8) returns (body: seq<Byte>)
    requires PrintGroup(block, [p]) && MakeLevel(p.price, p.qty, pe, qe).Fault?
    ensures HasExponents(body, pe, qe) && TradesOf(body).Fault?
  {
    OnePrint(p, pe, qe, ToMillis(time));
    body := TradesStand(time, time, pe, qe, block, [p], []);
    TradesRoundTrip(time, time, pe, qe, block, [p], []);
  }

  lemma UnsafeTrades(pe: I8, qe: I8) returns (body: seq<Byte>)
    requires !(Safe(pe) && Safe(qe))
    ensures HasExponents(body, pe, qe) && TradesOf(body).Fault?
  {
    var price, qty := UnsafeMantissas(pe, qe);
    body := FaultyTrades(0, 26, Print(0, price, qty, 0, 0, []), pe, qe);
  }

  /** The same for trade batches. */
  lemma TradesNeverFaultExactly(pe: I8, qe: I8)
    ensures (forall body :: HasExponents(body, pe, qe) ==> !TradesOf(body).Fault?) <==> Safe(pe) && Safe(qe)
  {
    if Safe(pe) && Safe(qe) {
      forall body | HasExponents(body, pe, qe) ensures !TradesOf(body).Fault? {
        SafeTrades(body, pe, qe);
      }
    } else {
      var body := UnsafeTrades(pe, qe);
    }
  }
}
