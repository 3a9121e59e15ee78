/** The bytes of the event log, field by field: which value stands where and in how many bytes, each
    lowest byte first. What was written by one release can be read by another only as long as this holds.
 */
module EventLayout {
  import opened EventCodec
  import opened EventLog

  /** A number in `n` bytes, lowest first. */
  function Little(n: nat, v: nat): seq<byte> {
    seq(n, i requires 0 <= i < n => (v / Pow256(i)) % 256)
  }

  lemma {:induction false} DivDiv(v: nat, p: nat)
    requires p > 0
    ensures v / 256 / p == v / (256 * p)
  {
    var q, r := v / (256 * p), v % (256 * p);
    assert v == 256 * (p * q) + r;
    assert v / 256 == p * q + r / 256;
    assert r / 256 < p;
    DivUnique(v / 256, p, q, r / 256);
  }

  lemma {:induction false} DivUnique(v: nat, p: nat, q: nat, r: nat)
    requires p > 0 && v == p * q + r && r < p
    ensures v / p == q
  {
    var d := v / p;
    assert v == p * d + v % p;
    if d > q {
      Multiples(p, q + 1, d);
      assert false;
    } else if d < q {
      Multiples(p, d + 1, q);
      assert false;
    }
  }

  lemma {:induction false} Multiples(p: nat, a: nat, b: nat)
    requires 0 < a <= b
    ensures p * (a - 1) + p <= p * b
  {
    assert p * (b - a) >= 0;
    assert p * b == p * (a - 1) + p + p * (b - a);
  }

  lemma {:induction false} BytesAreLittle(n: nat, v: nat)
    ensures Bytes(n, v) == Little(n, v)
  {
    if n > 0 {
      BytesAreLittle(n - 1, v / 256);
      forall i | 0 < i < n
        ensures Little(n, v)[i] == Little(n - 1, v / 256)[i - 1]
      {
        DivDiv(v, Pow256(i - 1));
      }
      assert Bytes(n, v)[0] == v % 256 == Little(n, v)[0];
      assert forall i :: 0 < i < n ==> Bytes(n, v)[i] == Bytes(n - 1, v / 256)[i - 1];
    }
  }

  /** A signed number as the unsigned one with the same 64 bits. */
  function Twos(v: i64): nat {
    if v >= 0 then v else v + 0x1_0000_0000_0000_0000
  }

  /** Fields of a width and a value each. */
  function Laid(fields: seq<(nat, nat)>): seq<byte> {
    if fields == [] then [] else Little(fields[0].0, fields[0].1) + Laid(fields[1..])
  }

  function RowFields(rows: seq<Row>): seq<(nat, nat)> {
    if rows == [] then [] else [(8, rows[0].price), (8, Twos(rows[0].qty))] + RowFields(rows[1..])
  }

  /** The fields of each kind of event in their order. */
  function Fields(b: Body): seq<(nat, nat)> {
    match b
    case Market(open, high, low, close, volume) => [(8, open), (8, high), (8, low), (8, close), (8, Twos(volume))]
    case Signal(signal, strength) => [(1, signal), (8, strength)]
    case Order(kind, side, qty, price, tif, stop, order, eligible) =>
      [(1, kind), (1, side), (8, qty), (8, price), (1, tif), (8, stop), (8, order), (8, Twos(eligible))]
    case Fill(order, side, qty, price, commission, remaining, fill, source) =>
      [(8, order), (1, side), (8, qty), (8, price), (8, commission), (8, remaining), (8, fill), (1, source)]
    case Tick(price, size, side) => [(8, price), (8, Twos(size)), (1, side)]
    case L2Snapshot(bids, asks) => [(4, |bids|)] + RowFields(bids) + [(4, |asks|)] + RowFields(asks)
    case L2Update(side, price, size) => [(1, side), (8, price), (8, Twos(size))]
    case Cancel(order, _) => [(8, order)]
    case Amend(order, price, qty) => [(8, order), (8, price), (8, qty)]
    case Rejection(order, _) => [(8, order)]
    case Funding(qty, cash, _) => [(8, qty), (8, cash)]
  }

  /** The number that stands for a kind of event. */
  function Number(b: Body): byte {
    if b.Market? then 0 else if b.Signal? then 1 else if b.Order? then 2 else if b.Fill? then 3
    else if b.Tick? then 4 else if b.L2Snapshot? then 5 else if b.L2Update? then 6 else if b.Cancel? then 7
    else if b.Amend? then 8 else if b.Rejection? then 9 else 10
  }

  predicate HasReason(b: Body) {
    b.Cancel? || b.Rejection? || b.Funding?
  }

  /** A text: its length in two bytes and then its bytes. */
  function Text(s: seq<byte>): seq<byte> {
    Little(2, |s|) + s
  }

  predicate Short(b: Body) {
    HasReason(b) ==> |b.reason| < 0x1_0000
  }

  lemma {:induction false} TextIs(s: seq<byte>)
    requires |s| < 0x1_0000
    ensures PutStr(s) == Text(s)
  {
    BytesAreLittle(2, |s|);
    assert s[..|s|] == s;
  }

  lemma {:induction false} ByteIs(v: byte)
    ensures PutU8(v) == Little(1, v)
  {
    assert Pow256(0) == 1;
  }

  lemma {:induction false} LaidConcat(f: seq<(nat, nat)>, g: seq<(nat, nat)>)
    ensures Laid(f + g) == Laid(f) + Laid(g)
  {
    if f == [] {
      assert f + g == g;
    } else {
      assert (f + g)[1..] == f[1..] + g;
      LaidConcat(f[1..], g);
    }
  }

  lemma {:induction false} LaidFirst(n: nat, v: nat, fields: seq<(nat, nat)>)
    ensures Laid([(n, v)] + fields) == Bytes(n, v) + Laid(fields)
  {
    assert ([(n, v)] + fields)[1..] == fields;
    BytesAreLittle(n, v);
  }

  lemma {:induction false} RowsAre(rows: seq<Row>)
    ensures PutRows(rows) == Laid(RowFields(rows))
  {
    if rows != [] {
      RowsAre(rows[1..]);
      var rest := RowFields(rows[1..]);
      LaidFirst(8, Twos(rows[0].qty), rest);
      LaidFirst(8, rows[0].price, [(8, Twos(rows[0].qty))] + rest);
      assert RowFields(rows) == [(8, rows[0].price)] + ([(8, Twos(rows[0].qty))] + rest);
    }
  }

  lemma {:induction false} SideIs(rows: seq<Row>)
    ensures PutSide(rows) == Laid([(4, |rows|)] + RowFields(rows))
  {
    RowsAre(rows);
    LaidFirst(4, |rows|, RowFields(rows));
  }

  lemma {:induction false} LaidEight(fs: seq<(nat, nat)>)
    requires 0 < |fs| <= 8
    ensures Laid(fs) == Bytes(fs[0].0, fs[0].1) + Laid(fs[1..])
  {
    BytesAreLittle(fs[0].0, fs[0].1);
  }

  lemma {:induction false} LaidNone(fs: seq<(nat, nat)>)
    requires |fs| == 1
    ensures Laid(fs[1..]) == []
  {
  }

  lemma {:induction false} MarketIs(b: Body)
    requires b.Market?
    ensures PutBody(b) == Laid(Fields(b))
  {
    FourMore(Fields(b));
  }

  lemma {:induction false} FourMore(fs: seq<(nat, nat)>)
    requires |fs| == 5
    ensures Laid(fs) == Bytes(fs[0].0, fs[0].1) + (Bytes(fs[1].0, fs[1].1) + (Bytes(fs[2].0, fs[2].1)
      + (Bytes(fs[3].0, fs[3].1) + (Bytes(fs[4].0, fs[4].1) + []))))
  {
    LaidEight(fs);
    LaidEight(fs[1..]);
    LaidEight(fs[2..]);
    LaidEight(fs[3..]);
    LaidEight(fs[4..]);
    LaidNone(fs[4..]);
    assert fs[1..][1..] == fs[2..] && fs[2..][1..] == fs[3..] && fs[3..][1..] == fs[4..];
  }

  lemma {:induction false} OrderIs(b: Body)
    requires b.Order?
    ensures PutBody(b) == Laid(Fields(b))
  {
    var fs := Fields(b);
    ByteIs(b.kind);
    ByteIs(b.side);
    ByteIs(b.tif);
    BytesAreLittle(1, b.kind);
    BytesAreLittle(1, b.side);
    BytesAreLittle(1, b.tif);
    SevenMore(fs);
  }

  lemma {:induction false} FillIs(b: Body)
    requires b.Fill?
    ensures PutBody(b) == Laid(Fields(b))
  {
    var fs := Fields(b);
    ByteIs(b.side);
    ByteIs(b.source);
    BytesAreLittle(1, b.side);
    BytesAreLittle(1, b.source);
    SevenMore(fs);
  }

  lemma {:induction false} SevenMore(fs: seq<(nat, nat)>)
    requires |fs| == 8
    ensures Laid(fs) == Bytes(fs[0].0, fs[0].1) + (Bytes(fs[1].0, fs[1].1) + (Bytes(fs[2].0, fs[2].1)
      + (Bytes(fs[3].0, fs[3].1) + (Bytes(fs[4].0, fs[4].1) + (Bytes(fs[5].0, fs[5].1)
      + (Bytes(fs[6].0, fs[6].1) + (Bytes(fs[7].0, fs[7].1) + [])))))))
  {
    LaidEight(fs);
    LaidEight(fs[1..]);
    LaidEight(fs[2..]);
    LaidEight(fs[3..]);
    LaidEight(fs[4..]);
    LaidEight(fs[5..]);
    LaidEight(fs[6..]);
    LaidEight(fs[7..]);
    assert fs[1..][1..] == fs[2..] && fs[2..][1..] == fs[3..] && fs[3..][1..] == fs[4..] && fs[4..][1..] == fs[5..];
    assert fs[5..][1..] == fs[6..] && fs[6..][1..] == fs[7..];
    LaidNone(fs[7..]);
  }

  lemma {:induction false} ThreeFields(fs: seq<(nat, nat)>)
    requires |fs| == 3
    ensures Laid(fs) == Bytes(fs[0].0, fs[0].1) + (Bytes(fs[1].0, fs[1].1) + (Bytes(fs[2].0, fs[2].1) + []))
  {
    LaidEight(fs);
    LaidEight(fs[1..]);
    LaidEight(fs[2..]);
    assert fs[1..][1..] == fs[2..];
    LaidNone(fs[2..]);
  }

  lemma {:induction false} TwoFields(fs: seq<(nat, nat)>)
    requires |fs| == 2
    ensures Laid(fs) == Bytes(fs[0].0, fs[0].1) + Bytes(fs[1].0, fs[1].1)
  {
    LaidEight(fs);
    LaidEight(fs[1..]);
    LaidNone(fs[1..]);
  }

  lemma {:induction false} OneField(fs: seq<(nat, nat)>)
    requires |fs| == 1
    ensures Laid(fs) == Bytes(fs[0].0, fs[0].1)
  {
    LaidEight(fs);
    LaidNone(fs);
  }

  lemma {:induction false} SnapshotIs(b: Body)
    requires b.L2Snapshot?
    ensures PutBody(b) == Laid(Fields(b))
  {
    SideIs(b.bids);
    SideIs(b.asks);
    var x, y := [(4, |b.bids|)] + RowFields(b.bids), [(4, |b.asks|)] + RowFields(b.asks);
    LaidConcat(x, y);
    assert Fields(b) == x + y;
    assert PutSide(b.asks) + [] == PutSide(b.asks);
  }

  lemma {:induction false} SmallIs(b: Body)
    requires b.Signal? || b.Tick? || b.L2Update? || b.Amend?
    ensures PutBody(b) == Laid(Fields(b))
  {
    var fs := Fields(b);
    match b
    case Signal(signal, strength) =>
      ByteIs(signal);
      BytesAreLittle(1, signal);
      TwoFields(fs);
    case Tick(price, size, side) =>
      ByteIs(side);
      BytesAreLittle(1, side);
      ThreeFields(fs);
    case L2Update(side, price, size) =>
      ByteIs(side);
      BytesAreLittle(1, side);
      ThreeFields(fs);
    case Amend(_, _, _) => ThreeFields(fs);
  }

  lemma {:induction false} ReasonedIs(b: Body)
    requires HasReason(b) && Short(b)
    ensures PutBody(b) == Laid(Fields(b)) + Text(b.reason)
  {
    TextIs(b.reason);
    assert PutStr(b.reason) + [] == PutStr(b.reason);
    if b.Funding? {
      TwoFields(Fields(b));
      assert PutU64(b.qty) + (PutU64(b.cash) + PutStr(b.reason)) == PutU64(b.qty) + PutU64(b.cash) + PutStr(b.reason);
    } else {
      OneField(Fields(b));
    }
  }

  /** The body of every kind of event is its fields in their order, and then its reason if it has one. */
  lemma {:induction false} BodyLayout(b: Body)
    requires Short(b)
    ensures PutBody(b) == Laid(Fields(b)) + if HasReason(b) then Text(b.reason) else []
  {
    if HasReason(b) {
      ReasonedIs(b);
    } else {
      assert Laid(Fields(b)) + [] == Laid(Fields(b));
      match b
      case Market(_, _, _, _, _) => MarketIs(b);
      case Order(_, _, _, _, _, _, _, _) => OrderIs(b);
      case Fill(_, _, _, _, _, _, _, _) => FillIs(b);
      case L2Snapshot(_, _) => SnapshotIs(b);
      case _ => SmallIs(b);
    }
  }

  /** The time in eight bytes, the symbol, the fields and the reason if there is one. */
  function Payload(e: Event): seq<byte> {
    Little(8, Twos(e.ts)) + Text(e.symbol) + Laid(Fields(e.body))
    + if HasReason(e.body) then Text(e.body.reason) else []
  }

  lemma {:induction false} Joined(a: seq<byte>, b: seq<byte>, c: seq<byte>, d: seq<byte>)
    ensures a + (b + (c + d)) == a + b + c + d
  {
  }

  lemma {:induction false} PayloadLayout(e: Event)
    requires |e.symbol| < 0x1_0000 && Short(e.body)
    ensures Serialise(e) == Payload(e)
  {
    BodyLayout(e.body);
    TextIs(e.symbol);
    BytesAreLittle(8, Twos(e.ts));
    Joined(PutI64(e.ts), PutStr(e.symbol), Laid(Fields(e.body)), if HasReason(e.body) then Text(e.body.reason) else []);
  }

  /** A frame: the number of the kind, the size of the payload in four bytes, and the payload. */
  lemma {:induction false} FrameLayout(e: Event)
    requires |e.symbol| < 0x1_0000 && Short(e.body)
    ensures Frame(e) == [Number(e.body)] + Little(4, |Payload(e)|) + Payload(e)
  {
    PayloadLayout(e);
    FrameBytes(TypeOf(e.body), Payload(e));
    assert TypeOf(e.body) == Number(e.body);
  }

  lemma {:induction false} FrameBytes(kind: byte, payload: seq<byte>)
    ensures FrameOf(kind, payload) == [kind] + Little(4, |payload|) + payload
  {
    BytesAreLittle(4, |payload|);
  }

  function EntryFields(ix: seq<Entry>): seq<(nat, nat)> {
    if ix == [] then [] else [(8, Twos(ix[0].ts)), (8, ix[0].offset)] + EntryFields(ix[1..])
  }

  lemma {:induction false} IndexIs(ix: seq<Entry>)
    ensures PutIndex(ix) == Laid(EntryFields(ix))
  {
    if ix != [] {
      IndexIs(ix[1..]);
      var rest := EntryFields(ix[1..]);
      LaidFirst(8, ix[0].offset, rest);
      LaidFirst(8, Twos(ix[0].ts), [(8, ix[0].offset)] + rest);
      assert EntryFields(ix) == [(8, Twos(ix[0].ts))] + ([(8, ix[0].offset)] + rest);
    }
  }

  /** The four letters that end a finished log. */
  const TTIX: seq<byte> := [0x54, 0x54, 0x49, 0x58]

  lemma {:induction false} MagicIs()
    ensures Bytes(4, INDEX_MAGIC) == TTIX
  {
    assert Bytes(1, 0x58) == [0x58];
    assert Bytes(2, 0x5849) == [0x49] + Bytes(1, 0x58);
    assert Bytes(3, 0x584954) == [0x54] + Bytes(2, 0x5849);
    assert Bytes(4, 0x58495454) == [0x54] + Bytes(3, 0x584954);
  }

  /** A finished log: the frames, the index entries of time and offset, where the index begins, the number
      of its entries, and the four letters. */
  lemma {:induction false} FileLayout(es: seq<Event>)
    ensures File(es) == Frames(es) + Laid(EntryFields(IndexOf(es))) + Little(8, |Frames(es)|)
                        + Little(4, |IndexOf(es)|) + TTIX
  {
    IndexIs(IndexOf(es));
    BytesAreLittle(8, |Frames(es)|);
    BytesAreLittle(4, |IndexOf(es)|);
    MagicIs();
  }

  // ----- Older logs

  /** A fill that ends after its commission, its remaining quantity or its fill id reads as zero for what
      is missing. */
  lemma {:induction false} OldFills(b: Body)
    requires b.Fill?
    ensures GetFill(PutBody(b)[..33]) == Ok(b.(remaining := 0, fill := 0, source := 0))
    ensures GetFill(PutBody(b)[..41]) == Ok(b.(fill := 0, source := 0))
    ensures GetFill(PutBody(b)[..49]) == Ok(b.(source := 0))
  {
    OldFill(b, [], 33);
    OldFill(b, PutU64(b.remaining), 41);
    OldFill(b, PutU64(b.remaining) + PutU64(b.fill), 49);
    OldTail(b);
  }

  lemma {:induction false} OldTail(b: Body)
    requires b.Fill?
    ensures GetFillTail([]) == (0, 0, 0)
    ensures GetFillTail(PutU64(b.remaining)) == (b.remaining, 0, 0)
    ensures GetFillTail(PutU64(b.remaining) + PutU64(b.fill)) == (b.remaining, b.fill, 0)
  {
    U64RoundTrip(b.remaining, []);
    U64RoundTrip(b.fill, []);
    U64RoundTrip(b.remaining, PutU64(b.fill));
    assert PutU64(b.remaining) + [] == PutU64(b.remaining) && PutU64(b.fill) + [] == PutU64(b.fill);
  }

  lemma {:induction false} OldFill(b: Body, tail: seq<byte>, n: nat)
    requires b.Fill? && n == 33 + |tail| && n <= 50
    requires tail <= PutU64(b.remaining) + (PutU64(b.fill) + (PutU8(b.source) + []))
    ensures |PutBody(b)| == 50
    ensures var t := GetFillTail(tail);
      GetFill(PutBody(b)[..n]) == Ok(b.(remaining := t.0, fill := t.1, source := t.2))
  {
    var s4 := PutU64(b.commission) + tail;
    var s3 := PutU64(b.price) + s4;
    var s2 := PutU64(b.qty) + s3;
    var s1 := PutU8(b.side) + s2;
    assert PutBody(b)[..n] == PutU64(b.order) + s1;
    U64RoundTrip(b.order, s1);
    U8RoundTrip(b.side, s2);
    U64RoundTrip(b.qty, s3);
    U64RoundTrip(b.price, s4);
    U64RoundTrip(b.commission, tail);
  }
}
