/** The binary payloads of the event log: little-endian fixed-width integers, strings with a 16-bit
    length, and one layout per event type. Doubles are their 64-bit patterns. */
module EventCodec {
  type byte = x: int | 0 <= x < 256

  datatype Result<+T> = Ok(value: T) | Fail {
    predicate IsFailure() {
      Fail?
    }

    function PropagateFailure<U>(): Result<U>
      requires Fail?
    {
      Fail
    }

    function Extract(): T
      requires Ok?
    {
      value
    }
  }

  // ----- Integers

  function Pow256(n: nat): (r: nat)
    ensures r > 0
  {
    if n == 0 then 1 else 256 * Pow256(n - 1)
  }

  /** The low `n` bytes of `v`, lowest first. */
  function Bytes(n: nat, v: nat): (bs: seq<byte>)
    ensures |bs| == n
  {
    if n == 0 then [] else [v % 256] + Bytes(n - 1, v / 256)
  }

  function Value(bs: seq<byte>): nat {
    if bs == [] then 0 else bs[0] + 256 * Value(bs[1..])
  }

  lemma {:induction false} BytesValue(n: nat, v: nat)
    ensures v < Pow256(n) ==> Value(Bytes(n, v)) == v
    ensures Value(Bytes(n, v)) < Pow256(n)
  {
    if n > 0 {
      BytesValue(n - 1, v / 256);
      assert Bytes(n, v)[1..] == Bytes(n - 1, v / 256);
    }
  }

  const TWO_63: int := 0x8000_0000_0000_0000
  const TWO_64: int := 0x1_0000_0000_0000_0000
  const TWO_32: int := 0x1_0000_0000
  const TWO_16: int := 0x1_0000

  type u64 = x: int | 0 <= x < 0x1_0000_0000_0000_0000
  type i64 = x: int | -0x8000_0000_0000_0000 <= x < 0x8000_0000_0000_0000

  lemma Widths()
    ensures Pow256(1) == 256 && Pow256(2) == TWO_16 && Pow256(4) == TWO_32 && Pow256(8) == TWO_64
  {
    assert Pow256(2) == 256 * Pow256(1);
    assert Pow256(3) == 256 * Pow256(2);
    assert Pow256(4) == 256 * Pow256(3);
    assert Pow256(5) == 256 * Pow256(4);
    assert Pow256(6) == 256 * Pow256(5);
    assert Pow256(7) == 256 * Pow256(6);
    assert Pow256(8) == 256 * Pow256(7);
  }

  /** Two's complement. */
  function Wrap(v: i64): u64 {
    if v < 0 then v + TWO_64 else v
  }

  function Unwrap(u: u64): i64 {
    if u >= TWO_63 then u - TWO_64 else u
  }

  // ----- Writing and reading fields

  function PutU8(v: byte): seq<byte> {
    [v]
  }

  function PutU64(v: u64): seq<byte> {
    Bytes(8, v)
  }

  function PutI64(v: i64): seq<byte> {
    Bytes(8, Wrap(v))
  }

  /** The length is cut to 16 bits, and only that many bytes are written. */
  function PutStr(s: seq<byte>): seq<byte> {
    var n := |s| % TWO_16;
    Bytes(2, n) + s[..n]
  }

  /** A value and the bytes after it. */
  datatype Read<+T> = Read(value: T, rest: seq<byte>)

  function GetUint(bs: seq<byte>, n: nat): Result<Read<nat>> {
    if |bs| < n then Fail else Ok(Read(Value(bs[..n]), bs[n..]))
  }

  function GetU8(bs: seq<byte>): Result<Read<byte>> {
    if bs == [] then Fail else Ok(Read(bs[0], bs[1..]))
  }

  function GetU64(bs: seq<byte>): Result<Read<u64>> {
    var r :- GetUint(bs, 8);
    if r.value < TWO_64 then Ok(Read(r.value, r.rest)) else Fail
  }

  function GetI64(bs: seq<byte>): Result<Read<i64>> {
    var r :- GetU64(bs);
    Ok(Read(Unwrap(r.value), r.rest))
  }

  function GetStr(bs: seq<byte>): Result<Read<seq<byte>>> {
    var n :- GetUint(bs, 2);
    if |n.rest| < n.value then Fail else Ok(Read(n.rest[..n.value], n.rest[n.value..]))
  }

  lemma {:induction false} UintRoundTrip(n: nat, v: nat, rest: seq<byte>)
    requires v < Pow256(n)
    ensures GetUint(Bytes(n, v) + rest, n) == Ok(Read(v, rest))
  {
    BytesValue(n, v);
    assert (Bytes(n, v) + rest)[..n] == Bytes(n, v) && (Bytes(n, v) + rest)[n..] == rest;
  }

  lemma {:induction false} U8RoundTrip(v: byte, rest: seq<byte>)
    ensures GetU8(PutU8(v) + rest) == Ok(Read(v, rest))
  {
    assert (PutU8(v) + rest)[1..] == rest;
  }

  lemma {:induction false} U64RoundTrip(v: u64, rest: seq<byte>)
    ensures GetU64(PutU64(v) + rest) == Ok(Read(v, rest))
  {
    Widths();
    UintRoundTrip(8, v, rest);
  }

  lemma {:induction false} I64RoundTrip(v: i64, rest: seq<byte>)
    ensures GetI64(PutI64(v) + rest) == Ok(Read(v, rest))
  {
    U64RoundTrip(Wrap(v), rest);
  }

  /** A string comes back exactly when its length fits in 16 bits. */
  lemma {:induction false} StrRoundTrip(s: seq<byte>, rest: seq<byte>)
    ensures GetStr(PutStr(s) + rest) == Ok(Read(s[..|s| % TWO_16], rest))
    ensures GetStr(PutStr(s) + rest) == Ok(Read(s, rest)) <==> |s| < TWO_16
  {
    var n := |s| % TWO_16;
    Widths();
    assert PutStr(s) + rest == Bytes(2, n) + (s[..n] + rest);
    UintRoundTrip(2, n, s[..n] + rest);
    assert (s[..n] + rest)[..n] == s[..n] && (s[..n] + rest)[n..] == rest;
    assert |s| < TWO_16 ==> s[..n] == s;
  }

  /** A string of 65536 bytes comes back empty. */
  lemma {:induction false} LongStringIsCut(rest: seq<byte>)
    ensures var s := seq(TWO_16, i => 0 as byte);
      GetStr(PutStr(s) + rest) == Ok(Read([], rest)) && GetStr(PutStr(s) + rest) != Ok(Read(s, rest))
  {
    StrRoundTrip(seq(TWO_16, i => 0 as byte), rest);
  }

  // ----- Events

  datatype Row = Row(price: u64, qty: i64)

  datatype Body =
    | Market(open: u64, high: u64, low: u64, close: u64, volume: i64)
    | Signal(signal: byte, strength: u64)
    | Order(kind: byte, side: byte, qty: u64, price: u64, tif: byte, stop: u64, order: u64, eligible: i64)
    | Fill(order: u64, side: byte, qty: u64, price: u64, commission: u64, remaining: u64, fill: u64, source: byte)
    | Tick(price: u64, size: i64, side: byte)
    | L2Snapshot(bids: seq<Row>, asks: seq<Row>)
    | L2Update(side: byte, price: u64, size: i64)
    | Cancel(order: u64, reason: seq<byte>)
    | Amend(order: u64, price: u64, qty: u64)
    | Rejection(order: u64, reason: seq<byte>)
    | Funding(qty: u64, cash: u64, reason: seq<byte>)

  /** Timestamp in microseconds. */
  datatype Event = Event(ts: i64, symbol: seq<byte>, body: Body)

  function TypeOf(b: Body): byte {
    match b
    case Market(_, _, _, _, _) => 0
    case Signal(_, _) => 1
    case Order(_, _, _, _, _, _, _, _) => 2
    case Fill(_, _, _, _, _, _, _, _) => 3
    case Tick(_, _, _) => 4
    case L2Snapshot(_, _) => 5
    case L2Update(_, _, _) => 6
    case Cancel(_, _) => 7
    case Amend(_, _, _) => 8
    case Rejection(_, _) => 9
    case Funding(_, _, _) => 10
  }

  const MAX_LEVELS: nat := 20
  const MARKET_ORDER: byte := 0
  const IOC: byte := 0
  const GTC: byte := 2

  function PutRows(rows: seq<Row>): seq<byte> {
    if rows == [] then [] else PutU64(rows[0].price) + (PutI64(rows[0].qty) + PutRows(rows[1..]))
  }

  function PutSide(rows: seq<Row>): seq<byte> {
    Bytes(4, |rows|) + PutRows(rows)
  }

  function PutBody(b: Body): seq<byte> {
    match b
    case Market(open, high, low, close, volume) =>
      PutU64(open) + (PutU64(high) + (PutU64(low) + (PutU64(close) + (PutI64(volume) + []))))
    case Signal(signal, strength) => PutU8(signal) + (PutU64(strength) + [])
    case Order(kind, side, qty, price, tif, stop, order, eligible) =>
      PutU8(kind) + (PutU8(side) + (PutU64(qty) + (PutU64(price)
        + (PutU8(tif) + (PutU64(stop) + (PutU64(order) + (PutI64(eligible) + [])))))))
    case Fill(order, side, qty, price, commission, remaining, fill, source) =>
      PutU64(order) + (PutU8(side) + (PutU64(qty) + (PutU64(price)
        + (PutU64(commission) + (PutU64(remaining) + (PutU64(fill) + (PutU8(source) + [])))))))
    case Tick(price, size, side) => PutU64(price) + (PutI64(size) + (PutU8(side) + []))
    case L2Snapshot(bids, asks) => PutSide(bids) + (PutSide(asks) + [])
    case L2Update(side, price, size) => PutU8(side) + (PutU64(price) + (PutI64(size) + []))
    case Cancel(order, reason) => PutU64(order) + (PutStr(reason) + [])
    case Amend(order, price, qty) => PutU64(order) + (PutU64(price) + (PutU64(qty) + []))
    case Rejection(order, reason) => PutU64(order) + (PutStr(reason) + [])
    case Funding(qty, cash, reason) => PutU64(qty) + (PutU64(cash) + (PutStr(reason) + []))
  }

  function Serialise(e: Event): seq<byte> {
    PutI64(e.ts) + (PutStr(e.symbol) + PutBody(e.body))
  }

  /** Reads `n` rows and keeps the first `keep`. */
  function GetRows(bs: seq<byte>, n: nat, keep: nat): Result<Read<seq<Row>>>
    decreases n
  {
    if n == 0 then Ok(Read([], bs))
    else
      var price :- GetU64(bs);
      var qty :- GetI64(price.rest);
      var more :- GetRows(qty.rest, n - 1, if keep > 0 then keep - 1 else 0);
      Ok(Read(if keep > 0 then [Row(price.value, qty.value)] + more.value else [], more.rest))
  }

  function GetSide(bs: seq<byte>): Result<Read<seq<Row>>> {
    var n :- GetUint(bs, 4);
    GetRows(n.rest, n.value, MAX_LEVELS)
  }

  /** A market order that is good till cancelled becomes immediate-or-cancel when it is built. */
  function BuildOrder(kind: byte, side: byte, qty: u64, price: u64, tif: byte, stop: u64, order: u64,
                      eligible: i64): Body {
    Order(kind, side, qty, price, if kind == MARKET_ORDER && tif == GTC then IOC else tif, stop, order, eligible)
  }

  function GetMarket(bs: seq<byte>): Result<Body> {
    var open :- GetU64(bs);
    var high :- GetU64(open.rest);
    var low :- GetU64(high.rest);
    var close :- GetU64(low.rest);
    var volume :- GetI64(close.rest);
    Ok(Market(open.value, high.value, low.value, close.value, volume.value))
  }

  function GetOrder(bs: seq<byte>): Result<Body> {
    var kind :- GetU8(bs);
    var side :- GetU8(kind.rest);
    var qty :- GetU64(side.rest);
    var price :- GetU64(qty.rest);
    var tif :- GetU8(price.rest);
    var stop :- GetU64(tif.rest);
    var order :- GetU64(stop.rest);
    var eligible :- GetI64(order.rest);
    Ok(BuildOrder(kind.value, side.value, qty.value, price.value, tif.value, stop.value, order.value, eligible.value))
  }

  /** The last three fields of a fill; older logs may end before any of them. */
  function GetFillTail(bs: seq<byte>): (u64, u64, byte) {
    var remaining := GetU64(bs);
    if remaining.Fail? then (0, 0, 0)
    else
      var fill := GetU64(remaining.value.rest);
      if fill.Fail? then (remaining.value.value, 0, 0)
      else
        var source := GetU8(fill.value.rest);
        (remaining.value.value, fill.value.value, if source.Ok? then source.value.value else 0)
  }

  function GetFill(bs: seq<byte>): Result<Body> {
    var order :- GetU64(bs);
    var side :- GetU8(order.rest);
    var qty :- GetU64(side.rest);
    var price :- GetU64(qty.rest);
    var commission :- GetU64(price.rest);
    var tail := GetFillTail(commission.rest);
    Ok(Fill(order.value, side.value, qty.value, price.value, commission.value, tail.0, tail.1, tail.2))
  }

  function GetTick(bs: seq<byte>): Result<Body> {
    var price :- GetU64(bs);
    var size :- GetI64(price.rest);
    var side :- GetU8(size.rest);
    Ok(Tick(price.value, size.value, side.value))
  }

  function GetSnapshot(bs: seq<byte>): Result<Body> {
    var bids :- GetSide(bs);
    var asks :- GetSide(bids.rest);
    Ok(L2Snapshot(bids.value, asks.value))
  }

  function GetUpdate(bs: seq<byte>): Result<Body> {
    var side :- GetU8(bs);
    var price :- GetU64(side.rest);
    var size :- GetI64(price.rest);
    Ok(L2Update(side.value, price.value, size.value))
  }

  function GetAmend(bs: seq<byte>): Result<Body> {
    var order :- GetU64(bs);
    var price :- GetU64(order.rest);
    var qty :- GetU64(price.rest);
    Ok(Amend(order.value, price.value, qty.value))
  }

  function GetFunding(bs: seq<byte>): Result<Body> {
    var qty :- GetU64(bs);
    var cash :- GetU64(qty.rest);
    var reason :- GetStr(cash.rest);
    Ok(Funding(qty.value, cash.value, reason.value))
  }

  function GetSignal(bs: seq<byte>): Result<Body> {
    var signal :- GetU8(bs);
    var strength :- GetU64(signal.rest);
    Ok(Signal(signal.value, strength.value))
  }

  function GetBody(kind: byte, bs: seq<byte>): Result<Body> {
    match kind
    case 0 => GetMarket(bs)
    case 1 => GetSignal(bs)
    case 2 => GetOrder(bs)
    case 3 => GetFill(bs)
    case 4 => GetTick(bs)
    case 5 => GetSnapshot(bs)
    case 6 => GetUpdate(bs)
    case 7 =>
      var order :- GetU64(bs);
      var reason :- GetStr(order.rest);
      Ok(Cancel(order.value, reason.value))
    case 8 => GetAmend(bs)
    case 9 =>
      var order :- GetU64(bs);
      var reason :- GetStr(order.rest);
      Ok(Rejection(order.value, reason.value))
    case 10 => GetFunding(bs)
    case _ => Fail
  }

  function Deserialise(kind: byte, bs: seq<byte>): Result<Event> {
    var ts :- GetI64(bs);
    var symbol :- GetStr(ts.rest);
    var body :- GetBody(kind, symbol.rest);
    Ok(Event(ts.value, symbol.value, body))
  }

  // ----- Round trip

  /** What an event object can hold: strings with a 16-bit length, snapshots within the level limit,
      and no market order that is good till cancelled. */
  predicate Representable(e: Event) {
    |e.symbol| < TWO_16 && BodyFits(e.body)
  }

  predicate BodyFits(b: Body) {
    match b
    case Order(kind, _, _, _, tif, _, _, _) => !(kind == MARKET_ORDER && tif == GTC)
    case L2Snapshot(bids, asks) => |bids| <= MAX_LEVELS && |asks| <= MAX_LEVELS
    case Cancel(_, reason) => |reason| < TWO_16
    case Rejection(_, reason) => |reason| < TWO_16
    case Funding(_, _, reason) => |reason| < TWO_16
    case _ => true
  }

  lemma {:induction false} RowsRoundTrip(rows: seq<Row>, keep: nat, rest: seq<byte>)
    requires |rows| <= keep
    ensures GetRows(PutRows(rows) + rest, |rows|, keep) == Ok(Read(rows, rest))
  {
    if rows == [] {
      assert [] + rest == rest;
    } else {
      var tail := PutRows(rows[1..]);
      assert PutRows(rows) + rest == PutU64(rows[0].price) + (PutI64(rows[0].qty) + (tail + rest));
      U64RoundTrip(rows[0].price, PutI64(rows[0].qty) + (tail + rest));
      I64RoundTrip(rows[0].qty, tail + rest);
      RowsRoundTrip(rows[1..], keep - 1, rest);
      assert [Row(rows[0].price, rows[0].qty)] + rows[1..] == rows;
    }
  }

  lemma {:induction false} RowsKept(bs: seq<byte>, n: nat, keep: nat)
    ensures GetRows(bs, n, keep).Ok? ==> |GetRows(bs, n, keep).value.value| <= keep
    decreases n
  {
    if n > 0 && GetU64(bs).Ok? && GetI64(GetU64(bs).value.rest).Ok? {
      RowsKept(GetI64(GetU64(bs).value.rest).value.rest, n - 1, if keep > 0 then keep - 1 else 0);
    }
  }

  lemma {:induction false} SideKept(bs: seq<byte>)
    ensures GetSide(bs).Ok? ==> |GetSide(bs).value.value| <= MAX_LEVELS
  {
    var n := GetUint(bs, 4);
    if n.Ok? {
      RowsKept(n.value.rest, n.value.value, MAX_LEVELS);
    }
  }

  lemma {:induction false} SideRoundTrip(rows: seq<Row>, rest: seq<byte>)
    requires |rows| <= MAX_LEVELS
    ensures GetSide(PutSide(rows) + rest) == Ok(Read(rows, rest))
  {
    Widths();
    assert PutSide(rows) + rest == Bytes(4, |rows|) + (PutRows(rows) + rest);
    UintRoundTrip(4, |rows|, PutRows(rows) + rest);
    RowsRoundTrip(rows, MAX_LEVELS, rest);
  }

  lemma {:induction false} MarketRoundTrip(b: Body)
    requires b.Market?
    ensures GetBody(TypeOf(b), PutBody(b)) == Ok(b)
  {
    var r4 := PutI64(b.volume) + [];
    var r3 := PutU64(b.close) + r4;
    var r2 := PutU64(b.low) + r3;
    var r1 := PutU64(b.high) + r2;
    U64RoundTrip(b.open, r1);
    U64RoundTrip(b.high, r2);
    U64RoundTrip(b.low, r3);
    U64RoundTrip(b.close, r4);
    I64RoundTrip(b.volume, []);
  }

  lemma {:induction false} OrderRoundTrip(b: Body)
    requires b.Order?
    ensures GetBody(TypeOf(b), PutBody(b))
            == Ok(BuildOrder(b.kind, b.side, b.qty, b.price, b.tif, b.stop, b.order, b.eligible))
  {
    var r7 := PutI64(b.eligible) + [];
    var r6 := PutU64(b.order) + r7;
    var r5 := PutU64(b.stop) + r6;
    var r4 := PutU8(b.tif) + r5;
    var r3 := PutU64(b.price) + r4;
    var r2 := PutU64(b.qty) + r3;
    var r1 := PutU8(b.side) + r2;
    U8RoundTrip(b.kind, r1);
    U8RoundTrip(b.side, r2);
    U64RoundTrip(b.qty, r3);
    U64RoundTrip(b.price, r4);
    U8RoundTrip(b.tif, r5);
    U64RoundTrip(b.stop, r6);
    U64RoundTrip(b.order, r7);
    I64RoundTrip(b.eligible, []);
  }

  lemma {:induction false} FillRoundTrip(b: Body)
    requires b.Fill?
    ensures GetBody(TypeOf(b), PutBody(b)) == Ok(b)
  {
    var r7 := PutU8(b.source) + [];
    var r6 := PutU64(b.fill) + r7;
    var r5 := PutU64(b.remaining) + r6;
    var r4 := PutU64(b.commission) + r5;
    var r3 := PutU64(b.price) + r4;
    var r2 := PutU64(b.qty) + r3;
    var r1 := PutU8(b.side) + r2;
    U64RoundTrip(b.order, r1);
    U8RoundTrip(b.side, r2);
    U64RoundTrip(b.qty, r3);
    U64RoundTrip(b.price, r4);
    U64RoundTrip(b.commission, r5);
    U64RoundTrip(b.remaining, r6);
    U64RoundTrip(b.fill, r7);
    U8RoundTrip(b.source, []);
  }

  lemma {:induction false} SignalRoundTrip(b: Body)
    requires b.Signal?
    ensures GetBody(TypeOf(b), PutBody(b)) == Ok(b)
  {
    U8RoundTrip(b.signal, PutU64(b.strength) + []);
    U64RoundTrip(b.strength, []);
  }

  lemma {:induction false} TickRoundTrip(b: Body)
    requires b.Tick?
    ensures GetBody(TypeOf(b), PutBody(b)) == Ok(b)
  {
    var r2 := PutU8(b.side) + [];
    U64RoundTrip(b.price, PutI64(b.size) + r2);
    I64RoundTrip(b.size, r2);
    U8RoundTrip(b.side, []);
  }

  lemma {:induction false} UpdateRoundTrip(b: Body)
    requires b.L2Update?
    ensures GetBody(TypeOf(b), PutBody(b)) == Ok(b)
  {
    var r2 := PutI64(b.size) + [];
    U8RoundTrip(b.side, PutU64(b.price) + r2);
    U64RoundTrip(b.price, r2);
    I64RoundTrip(b.size, []);
  }

  lemma {:induction false} AmendRoundTrip(b: Body)
    requires b.Amend?
    ensures GetBody(TypeOf(b), PutBody(b)) == Ok(b)
  {
    var r2 := PutU64(b.qty) + [];
    U64RoundTrip(b.order, PutU64(b.price) + r2);
    U64RoundTrip(b.price, r2);
    U64RoundTrip(b.qty, []);
  }

  lemma {:induction false} SnapshotRoundTrip(b: Body)
    requires b.L2Snapshot?
    ensures GetBody(TypeOf(b), PutBody(b)) == Ok(b) <==> BodyFits(b)
  {
    if BodyFits(b) {
      SideRoundTrip(b.bids, PutSide(b.asks) + []);
      SideRoundTrip(b.asks, []);
    } else {
      var bids := GetSide(PutBody(b));
      SideKept(PutBody(b));
      if bids.Ok? {
        SideKept(bids.value.rest);
      }
    }
  }

  lemma {:induction false} CancelRoundTrip(b: Body)
    requires b.Cancel?
    ensures GetBody(TypeOf(b), PutBody(b)) == Ok(b) <==> BodyFits(b)
  {
    U64RoundTrip(b.order, PutStr(b.reason) + []);
    StrRoundTrip(b.reason, []);
  }

  lemma {:induction false} RejectionRoundTrip(b: Body)
    requires b.Rejection?
    ensures GetBody(TypeOf(b), PutBody(b)) == Ok(b) <==> BodyFits(b)
  {
    U64RoundTrip(b.order, PutStr(b.reason) + []);
    StrRoundTrip(b.reason, []);
  }

  lemma {:induction false} FundingRoundTrip(b: Body)
    requires b.Funding?
    ensures GetBody(TypeOf(b), PutBody(b)) == Ok(b) <==> BodyFits(b)
  {
    U64RoundTrip(b.qty, PutU64(b.cash) + (PutStr(b.reason) + []));
    U64RoundTrip(b.cash, PutStr(b.reason) + []);
    StrRoundTrip(b.reason, []);
  }

  lemma {:induction false} BodyReturns(b: Body)
    requires BodyFits(b)
    ensures GetBody(TypeOf(b), PutBody(b)) == Ok(b)
  {
    match b
    case Market(_, _, _, _, _) => MarketRoundTrip(b);
    case Order(_, _, _, _, _, _, _, _) => OrderRoundTrip(b);
    case Fill(_, _, _, _, _, _, _, _) => FillRoundTrip(b);
    case L2Snapshot(_, _) => SnapshotRoundTrip(b);
    case Cancel(_, _) => CancelRoundTrip(b);
    case Rejection(_, _) => RejectionRoundTrip(b);
    case Funding(_, _, _) => FundingRoundTrip(b);
    case Signal(_, _) => SignalRoundTrip(b);
    case Tick(_, _, _) => TickRoundTrip(b);
    case L2Update(_, _, _) => UpdateRoundTrip(b);
    case Amend(_, _, _) => AmendRoundTrip(b);
  }

  lemma {:induction false} BodyAltered(b: Body)
    requires !BodyFits(b)
    ensures GetBody(TypeOf(b), PutBody(b)) != Ok(b)
  {
    match b
    case Order(_, _, _, _, _, _, _, _) => OrderRoundTrip(b);
    case L2Snapshot(_, _) => SnapshotRoundTrip(b);
    case Cancel(_, _) => CancelRoundTrip(b);
    case Rejection(_, _) => RejectionRoundTrip(b);
    case Funding(_, _, _) => FundingRoundTrip(b);
    case _ => assert false;
  }

  lemma {:induction false} BodyRoundTrip(b: Body)
    ensures GetBody(TypeOf(b), PutBody(b)) == Ok(b) <==> BodyFits(b)
  {
    if BodyFits(b) {
      BodyReturns(b);
    } else {
      BodyAltered(b);
    }
  }

  /** An event comes back from its payload exactly when it is representable. */
  lemma {:induction false} EventRoundTrip(e: Event)
    ensures Deserialise(TypeOf(e.body), Serialise(e)) == Ok(e) <==> Representable(e)
  {
    I64RoundTrip(e.ts, PutStr(e.symbol) + PutBody(e.body));
    StrRoundTrip(e.symbol, PutBody(e.body));
    BodyRoundTrip(e.body);
  }
}
