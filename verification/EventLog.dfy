/** The event log file: framed events, a sparse index of timestamps and offsets, and a footer. The
    results are that an uncompressed log replays to the events logged, and how a replay that seeks
    by the index relates to a scan from the start.
 */
module EventLog {
  import opened EventCodec

  const INDEX_MAGIC: nat := 0x58495454
  const ZSTD_MAGIC: nat := 0xFD2FB528
  const INTERVAL: nat := 1000
  const MAX_TS: i64 := 0x7FFF_FFFF_FFFF_FFFF

  // ----- Writing

  /** Type, payload size and payload. */
  function FrameOf(kind: byte, payload: seq<byte>): seq<byte> {
    PutU8(kind) + (Bytes(4, |payload|) + payload)
  }

  function Frame(e: Event): seq<byte> {
    FrameOf(TypeOf(e.body), Serialise(e))
  }

  function Chunks(es: seq<Event>): seq<seq<byte>> {
    seq(|es|, i requires 0 <= i < |es| => Frame(es[i]))
  }

  function Concat(cs: seq<seq<byte>>): seq<byte> {
    if cs == [] then [] else cs[0] + Concat(cs[1..])
  }

  function Frames(es: seq<Event>): seq<byte> {
    Concat(Chunks(es))
  }

  datatype Entry = Entry(ts: i64, offset: nat)

  /** Where the frame of event `i` starts. */
  function Offset(es: seq<Event>, i: nat): nat
    requires i <= |es|
  {
    |Concat(Chunks(es)[..i])|
  }

  function EntryAt(es: seq<Event>): nat -> Entry {
    (i: nat) => if i < |es| then Entry(es[i].ts, Offset(es, i)) else Entry(0, 0)
  }

  /** One entry for every thousandth of `n` events, starting with the first. */
  function Marks(n: nat, entry: nat -> Entry): seq<Entry> {
    if n == 0 then [] else Marks(n - 1, entry) + if (n - 1) % INTERVAL == 0 then [entry(n - 1)] else []
  }

  function IndexOf(es: seq<Event>): seq<Entry> {
    Marks(|es|, EntryAt(es))
  }

  function PutIndex(ix: seq<Entry>): seq<byte> {
    if ix == [] then [] else PutI64(ix[0].ts) + (Bytes(8, ix[0].offset) + PutIndex(ix[1..]))
  }

  function PutFooter(offset: nat, count: nat): seq<byte> {
    Bytes(8, offset) + (Bytes(4, count) + (Bytes(4, INDEX_MAGIC) + []))
  }

  /** The finished file. */
  function File(es: seq<Event>): seq<byte> {
    Frames(es) + (PutIndex(IndexOf(es)) + PutFooter(|Frames(es)|, |IndexOf(es)|))
  }

  // ----- Reading

  datatype Opened = Opened(hasIndex: bool, dataEnd: nat, index: seq<Entry>)

  function GetIndex(bs: seq<byte>, count: nat): Result<seq<Entry>>
    decreases count
  {
    if count == 0 then Ok([])
    else
      var ts :- GetI64(bs);
      var offset :- GetUint(ts.rest, 8);
      var more :- GetIndex(offset.rest, count - 1);
      Ok([Entry(ts.value, offset.value)] + more)
  }

  datatype Footer = Footer(offset: nat, count: nat, magic: nat)

  function GetFooter(bs: seq<byte>): Result<Footer> {
    var offset :- GetUint(bs, 8);
    var count :- GetUint(offset.rest, 4);
    var magic :- GetUint(count.rest, 4);
    Ok(Footer(offset.value, count.value, magic.value))
  }

  /** Looks for the footer and, if it is there, reads the index. */
  function Open(file: seq<byte>): Result<Opened> {
    if |file| < 16 then Ok(Opened(false, 0, []))
    else
      var foot :- GetFooter(file[|file| - 16..]);
      if foot.magic != INDEX_MAGIC then Ok(Opened(false, |file|, []))
      else if foot.offset > |file| then Fail
      else
        var ix :- GetIndex(file[foot.offset..], foot.count);
        Ok(Opened(true, foot.offset, ix))
  }

  /** The halving search of `upper_bound` among `len` entries from `first` on. */
  function Halve(ix: seq<Entry>, from: i64, first: nat, len: nat): (k: nat)
    requires first + len <= |ix|
    ensures first <= k <= first + len
    ensures (k > first ==> ix[k - 1].ts <= from) && (k < first + len ==> ix[k].ts > from)
    decreases len
  {
    if len == 0 then first
    else
      var half := len / 2;
      if from < ix[first + half].ts then Halve(ix, from, first, half)
      else Halve(ix, from, first + half + 1, len - half - 1)
  }

  function UpperBound(ix: seq<Entry>, from: i64): (k: nat)
    ensures k <= |ix| && (k > 0 ==> ix[k - 1].ts <= from) && (k < |ix| ==> ix[k].ts > from)
  {
    Halve(ix, from, 0, |ix|)
  }

  /** Where a replay starts: at the last entry not later than `from`, if a start time is given. */
  function StartOf(o: Opened, from: i64): nat {
    if o.hasIndex && from > 0 && o.index != [] then
      var k := UpperBound(o.index, from);
      o.index[if k > 0 then k - 1 else 0].offset
    else 0
  }

  /** Whether the payload at `pos` begins like a Zstandard frame. */
  predicate Compressed(file: seq<byte>, pos: nat) {
    && pos + 9 <= |file| && Value(file[pos + 1..pos + 5]) >= 4
    && Value(file[pos + 5..pos + 9]) == ZSTD_MAGIC
  }

  /** A frame read at the start of `bs`; nothing if the stream ends within it. */
  datatype Framed = Ended | Got(kind: byte, payload: seq<byte>)

  function GetFrame(bs: seq<byte>): Framed {
    var kind := GetU8(bs);
    if kind.Fail? then Ended
    else
      var size := GetUint(kind.value.rest, 4);
      if size.Fail? || |size.value.rest| < size.value.value then Ended
      else Got(kind.value.value, size.value.rest[..size.value.value])
  }

  /** The event at the start of `bs` and the size of its frame; an unreadable payload is an error. */
  datatype Fetched = Done | Broken | Fetched(event: Event, size: nat)

  function Fetch(bs: seq<byte>): Fetched {
    match GetFrame(bs)
    case Ended => Done
    case Got(kind, payload) =>
      var e := Deserialise(kind, payload);
      if e.Ok? then Fetched(e.value, 5 + |payload|) else Broken
  }

  /** The events `next` delivers one after the other from `pos` on; `fetch` reads one of them. */
  function Scan(fetch: seq<byte> -> Fetched, file: seq<byte>, pos: nat, o: Opened,
                from: i64, to: i64): Result<seq<Event>>
    decreases |file| - pos
  {
    if (o.hasIndex && pos >= o.dataEnd) || pos > |file| then Ok([])
    else
      match fetch(file[pos..])
      case Done => Ok([])
      case Broken => Fail
      case Fetched(e, size) =>
        if e.ts > to || size == 0 then Ok([])
        else
          var more :- Scan(fetch, file, pos + size, o, from, to);
          Ok(if e.ts < from then more else [e] + more)
  }

  /** Replay of an uncompressed log; compressed ones are not read here. */
  function Replay(file: seq<byte>, from: i64, to: i64): Result<seq<Event>> {
    var o :- Open(file);
    var pos := StartOf(o, from);
    if Compressed(file, pos) then Fail else Scan(Fetch, file, pos, o, from, to)
  }

  // ----- The events a scan from the start delivers

  function Linear(es: seq<Event>, from: i64, to: i64): seq<Event> {
    if es == [] || es[0].ts > to then []
    else (if es[0].ts < from then [] else [es[0]]) + Linear(es[1..], from, to)
  }

  // ----- Frames are read back

  lemma {:induction false} RowsLength(rows: seq<Row>)
    ensures |PutRows(rows)| == 16 * |rows|
  {
    if rows != [] {
      RowsLength(rows[1..]);
    }
  }

  /** Payloads of representable events are far below the 32-bit size limit. */
  lemma {:induction false} PayloadFits(e: Event)
    requires Representable(e)
    ensures 8 <= |Serialise(e)| < TWO_32
  {
    match e.body
    case L2Snapshot(bids, asks) =>
      RowsLength(bids);
      RowsLength(asks);
    case _ =>
  }

  lemma {:induction false} FrameRead(kind: byte, payload: seq<byte>, rest: seq<byte>)
    requires |payload| < TWO_32
    ensures GetFrame(FrameOf(kind, payload) + rest) == Got(kind, payload) && |FrameOf(kind, payload)| == 5 + |payload|
  {
    Widths();
    assert FrameOf(kind, payload) + rest == PutU8(kind) + (Bytes(4, |payload|) + (payload + rest));
    U8RoundTrip(kind, Bytes(4, |payload|) + (payload + rest));
    UintRoundTrip(4, |payload|, payload + rest);
    assert (payload + rest)[..|payload|] == payload;
  }

  lemma {:induction false} FrameRoundTrip(e: Event, rest: seq<byte>)
    requires Representable(e)
    ensures Fetch(Frame(e) + rest) == Fetched(e, |Frame(e)|) && |Frame(e)| >= 13
  {
    PayloadFits(e);
    FrameRead(TypeOf(e.body), Serialise(e), rest);
    EventRoundTrip(e);
  }

  lemma {:induction false} ConcatSplit(cs: seq<seq<byte>>, i: nat)
    requires i <= |cs|
    ensures Concat(cs) == Concat(cs[..i]) + Concat(cs[i..])
  {
    if i == 0 {
      assert cs[..0] == [] && cs[0..] == cs;
    } else {
      ConcatSplit(cs[1..], i - 1);
      assert cs[..i][1..] == cs[1..][..i - 1] && cs[1..][i - 1..] == cs[i..];
    }
  }

  lemma {:induction false} ConcatOne(c: seq<byte>)
    ensures Concat([c]) == c
  {
    var cs := [c];
    assert cs[1..] == [];
  }

  /** What stands in a file from chunk `i` on. */
  lemma {:induction false} ChunkAt(cs: seq<seq<byte>>, i: nat, tail: seq<byte>)
    requires i < |cs|
    ensures Concat(cs) + tail == Concat(cs[..i]) + (cs[i] + (Concat(cs[i + 1..]) + tail))
    ensures |Concat(cs[..i + 1])| == |Concat(cs[..i])| + |cs[i]|
    ensures |Concat(cs[..i + 1])| <= |Concat(cs)|
  {
    ConcatSplit(cs, i);
    ConcatSplit(cs, i + 1);
    ConcatSplit(cs[..i + 1], i);
    assert cs[i..][1..] == cs[i + 1..];
    assert cs[..i + 1][..i] == cs[..i] && cs[..i + 1][i..] == [cs[i]];
    ConcatOne(cs[i]);
  }

  /** A file with the frames of `es` at the given offsets. */
  predicate Laid(fetch: seq<byte> -> Fetched, file: seq<byte>, es: seq<Event>, offs: seq<nat>) {
    && |offs| == |es| + 1
    && (forall j :: 0 <= j < |es| ==> EventAt(fetch, file, es[j], offs[j], offs[j + 1]) && offs[j] < offs[|es|])
  }

  predicate EventAt(fetch: seq<byte> -> Fetched, file: seq<byte>, e: Event, at: nat, next: nat) {
    at < next <= |file| && fetch(file[at..]) == Fetched(e, next - at)
  }

  function Delivered(e: Event, from: i64, to: i64, more: seq<Event>): seq<Event> {
    if e.ts > to then [] else if e.ts < from then more else [e] + more
  }

  lemma {:induction false} ScanOne(fetch: seq<byte> -> Fetched, file: seq<byte>, e: Event, at: nat, next: nat,
                                   o: Opened, from: i64, to: i64, more: seq<Event>)
    requires EventAt(fetch, file, e, at, next) && o.hasIndex && at < o.dataEnd
             && Scan(fetch, file, next, o, from, to) == Ok(more)
    ensures Scan(fetch, file, at, o, from, to) == Ok(Delivered(e, from, to, more))
  {
  }

  /** Reading on from event `i` delivers what a scan of the remaining events delivers. */
  lemma {:induction false} ScanLaid(fetch: seq<byte> -> Fetched, file: seq<byte>, es: seq<Event>, offs: seq<nat>,
                                    i: nat, o: Opened, from: i64, to: i64)
    requires Laid(fetch, file, es, offs) && i <= |es| && o.hasIndex && o.dataEnd == offs[|es|]
    ensures Scan(fetch, file, offs[i], o, from, to) == Ok(Linear(es[i..], from, to))
    decreases |es| - i
  {
    if i < |es| {
      assert EventAt(fetch, file, es[i], offs[i], offs[i + 1]);
      assert es[i..][0] == es[i] && es[i..][1..] == es[i + 1..];
      ScanLaid(fetch, file, es, offs, i + 1, o, from, to);
      ScanOne(fetch, file, es[i], offs[i], offs[i + 1], o, from, to, Linear(es[i + 1..], from, to));
      assert Linear(es[i..], from, to) == Delivered(es[i], from, to, Linear(es[i + 1..], from, to));
    } else {
      assert es[i..] == [];
    }
  }

  lemma {:induction false} LaidAt(cs: seq<seq<byte>>, e: Event, tail: seq<byte>, i: nat)
    requires i < |cs| && cs[i] == Frame(e) && Representable(e)
    ensures EventAt(Fetch, Concat(cs) + tail, e, |Concat(cs[..i])|, |Concat(cs[..i + 1])|)
            && |Concat(cs[..i])| < |Concat(cs)|
  {
    var file, at, rest := Concat(cs) + tail, |Concat(cs[..i])|, Concat(cs[i + 1..]) + tail;
    ChunkAt(cs, i, tail);
    FrameRoundTrip(e, rest);
    assert file[at..] == cs[i] + rest;
  }

  function Offsets(es: seq<Event>): seq<nat> {
    seq(|es| + 1, i requires 0 <= i <= |es| => Offset(es, i))
  }

  lemma {:induction false} FileLaid(es: seq<Event>, tail: seq<byte>)
    requires forall j :: 0 <= j < |es| ==> Representable(es[j])
    ensures Laid(Fetch, Frames(es) + tail, es, Offsets(es)) && Offsets(es)[|es|] == |Frames(es)|
  {
    var cs := Chunks(es);
    assert cs[..|es|] == cs;
    forall j | 0 <= j < |es|
      ensures EventAt(Fetch, Concat(cs) + tail, es[j], Offsets(es)[j], Offsets(es)[j + 1])
              && Offsets(es)[j] < Offsets(es)[|es|]
    {
      LaidAt(cs, es[j], tail, j);
    }
  }

  // ----- The footer and the index are read back

  predicate EntriesFit(ix: seq<Entry>) {
    forall i :: 0 <= i < |ix| ==> ix[i].offset < TWO_64
  }

  lemma {:induction false} IndexRoundTrip(ix: seq<Entry>, rest: seq<byte>)
    requires EntriesFit(ix)
    ensures GetIndex(PutIndex(ix) + rest, |ix|) == Ok(ix)
  {
    if ix != [] {
      var more := PutIndex(ix[1..]) + rest;
      Widths();
      assert PutIndex(ix) + rest == PutI64(ix[0].ts) + (Bytes(8, ix[0].offset) + more);
      I64RoundTrip(ix[0].ts, Bytes(8, ix[0].offset) + more);
      UintRoundTrip(8, ix[0].offset, more);
      IndexRoundTrip(ix[1..], rest);
      assert [Entry(ix[0].ts, ix[0].offset)] + ix[1..] == ix;
    }
  }

  lemma {:induction false} FooterRoundTrip(offset: nat, count: nat)
    requires offset < TWO_64 && count < TWO_32
    ensures |PutFooter(offset, count)| == 16
    ensures GetFooter(PutFooter(offset, count)) == Ok(Footer(offset, count, INDEX_MAGIC))
  {
    Widths();
    UintRoundTrip(8, offset, Bytes(4, count) + (Bytes(4, INDEX_MAGIC) + []));
    UintRoundTrip(4, count, Bytes(4, INDEX_MAGIC) + []);
    UintRoundTrip(4, INDEX_MAGIC, []);
  }

  /** The log fits the widths of the footer. */
  predicate Fits(es: seq<Event>) {
    |Frames(es)| < TWO_63 && |IndexOf(es)| < TWO_32
  }

  lemma {:induction false} OffsetWithin(es: seq<Event>, n: nat)
    requires n <= |es|
    ensures Offset(es, n) <= |Frames(es)|
  {
    ConcatSplit(Chunks(es), n);
  }

  lemma {:induction false} IndexOffsets(es: seq<Event>)
    ensures forall k: nat :: k < |IndexOf(es)| ==> IndexOf(es)[k].offset <= |Frames(es)|
  {
    forall i: nat
      ensures EntryAt(es)(i).offset <= |Frames(es)|
    {
      if i < |es| {
        OffsetWithin(es, i);
      }
    }
    MarksWithin(|es|, EntryAt(es), |Frames(es)|);
  }

  lemma {:induction false} MarksWithin(n: nat, entry: nat -> Entry, bound: nat)
    requires forall i: nat :: entry(i).offset <= bound
    ensures forall k: nat :: k < |Marks(n, entry)| ==> Marks(n, entry)[k].offset <= bound
  {
    if n > 0 {
      MarksWithin(n - 1, entry, bound);
    }
  }

  lemma {:induction false} LastOf(a: seq<byte>, b: seq<byte>, c: seq<byte>)
    ensures (a + (b + c))[|a| + |b|..] == c
  {
  }

  lemma {:induction false} FirstOf(a: seq<byte>, b: seq<byte>)
    ensures (a + b)[|a|..] == b
  {
  }

  lemma {:induction false} OpenIs(frames: seq<byte>, index: seq<byte>, foot: seq<byte>, count: nat, ix: seq<Entry>)
    requires |foot| == 16 && GetFooter(foot) == Ok(Footer(|frames|, count, INDEX_MAGIC))
    requires GetIndex(index + foot, count) == Ok(ix)
    ensures Open(frames + (index + foot)) == Ok(Opened(true, |frames|, ix))
  {
    LastOf(frames, index, foot);
    FirstOf(frames, index + foot);
  }

  lemma {:induction false} OpenParts(frames: seq<byte>, ix: seq<Entry>)
    requires |frames| < TWO_63 && |ix| < TWO_32 && EntriesFit(ix)
    ensures Open(frames + (PutIndex(ix) + PutFooter(|frames|, |ix|))) == Ok(Opened(true, |frames|, ix))
  {
    var foot := PutFooter(|frames|, |ix|);
    FooterRoundTrip(|frames|, |ix|);
    IndexRoundTrip(ix, foot);
    OpenIs(frames, PutIndex(ix), foot, |ix|, ix);
  }

  lemma {:induction false} OpenFile(es: seq<Event>)
    requires Fits(es)
    ensures Open(File(es)) == Ok(Opened(true, |Frames(es)|, IndexOf(es)))
  {
    IndexOffsets(es);
    OpenParts(Frames(es), IndexOf(es));
  }

  // ----- Replaying all

  /** The low 32 bits of a timestamp: the first bytes of a payload. */
  function LowWord(ts: i64): nat {
    Wrap(ts) % TWO_32
  }

  lemma {:induction false} BytesPrefix(m: nat, n: nat, v: nat)
    requires m <= n
    ensures Bytes(n, v)[..m] == Bytes(m, v)
  {
    if m > 0 {
      BytesPrefix(m - 1, n - 1, v / 256);
      assert Bytes(n, v)[..m] == [v % 256] + Bytes(n - 1, v / 256)[..m - 1];
    }
  }

  lemma {:induction false} FourBytes(v: nat)
    ensures Value(Bytes(4, v)) == v % TWO_32
  {
    var a, b, c := v / 256, v / 256 / 256, v / 256 / 256 / 256;
    assert Bytes(1, c) == [c % 256] && Value([c % 256]) == c % 256;
    ValueMore(b % 256, Bytes(1, c));
    ValueMore(a % 256, Bytes(2, b));
    ValueMore(v % 256, Bytes(3, a));
  }

  lemma {:induction false} ValueMore(x: byte, bs: seq<byte>)
    ensures Value([x] + bs) == x + 256 * Value(bs)
  {
    assert ([x] + bs)[1..] == bs;
  }

  /** Whether the frame of an event looks compressed: its timestamp begins like a Zstandard frame. */
  lemma {:induction false} LooksCompressedIff(kind: byte, ts: i64, more: seq<byte>, before: seq<byte>, rest: seq<byte>)
    requires |PutI64(ts) + more| < TWO_32
    ensures Compressed(before + (FrameOf(kind, PutI64(ts) + more) + rest), |before|) <==> LowWord(ts) == ZSTD_MAGIC
  {
    var payload, n := PutI64(ts) + more, |before|;
    var file := before + (FrameOf(kind, payload) + rest);
    Widths();
    BytesValue(4, |payload|);
    assert file[n + 1..n + 5] == Bytes(4, |payload|);
    BytesPrefix(4, 8, Wrap(ts));
    assert file[n + 5..n + 9] == PutI64(ts)[..4];
    FourBytes(Wrap(ts));
  }

  lemma {:induction false} LooksCompressedAt(cs: seq<seq<byte>>, e: Event, i: nat, tail: seq<byte>)
    requires i < |cs| && cs[i] == Frame(e) && Representable(e)
    ensures Compressed(Concat(cs) + tail, |Concat(cs[..i])|) <==> LowWord(e.ts) == ZSTD_MAGIC
  {
    ChunkAt(cs, i, tail);
    EventLooksCompressed(e, Concat(cs[..i]), Concat(cs[i + 1..]) + tail);
  }

  lemma {:induction false} EventLooksCompressed(e: Event, before: seq<byte>, rest: seq<byte>)
    requires Representable(e)
    ensures Compressed(before + (Frame(e) + rest), |before|) <==> LowWord(e.ts) == ZSTD_MAGIC
  {
    PayloadFits(e);
    LooksCompressedIff(TypeOf(e.body), e.ts, PutStr(e.symbol) + PutBody(e.body), before, rest);
  }

  predicate Loggable(es: seq<Event>) {
    Fits(es) && forall j :: 0 <= j < |es| ==> Representable(es[j]) && es[j].ts >= 0
  }

  lemma {:induction false} LinearAll(es: seq<Event>)
    requires forall j :: 0 <= j < |es| ==> es[j].ts >= 0
    ensures Linear(es, 0, MAX_TS) == es
  {
    if es != [] {
      LinearAll(es[1..]);
    }
  }

  /** A log without events does not look compressed. */
  lemma {:induction false} EmptyNotCompressed()
    ensures !Compressed(File([]), 0)
  {
    var file := File([]);
    assert file == PutFooter(0, 0) by {
      assert [] + ([] + PutFooter(0, 0)) == PutFooter(0, 0);
    }
    assert file[1..5] == Bytes(8, 0)[1..5];
    assert Bytes(8, 0)[1] == 0 && Bytes(8, 0)[2] == 0 && Bytes(8, 0)[3] == 0 && Bytes(8, 0)[4] == 0;
  }

  /** Logging and replaying everything gives back the events exactly when the first payload does not
      begin with the Zstandard magic number. */
  lemma {:induction false} ReplayAllIff(es: seq<Event>)
    requires Loggable(es)
    ensures Replay(File(es), 0, MAX_TS) == Ok(es) <==> es == [] || LowWord(es[0].ts) != ZSTD_MAGIC
  {
    var tail := PutIndex(IndexOf(es)) + PutFooter(|Frames(es)|, |IndexOf(es)|);
    var o := Opened(true, |Frames(es)|, IndexOf(es));
    OpenFile(es);
    FileLaid(es, tail);
    assert Offsets(es)[0] == 0 && es[0..] == es;
    ScanLaid(Fetch, File(es), es, Offsets(es), 0, o, 0, MAX_TS);
    LinearAll(es);
    if es == [] {
      EmptyNotCompressed();
    } else {
      LooksCompressedAt(Chunks(es), es[0], 0, tail);
      assert Chunks(es)[..0] == [];
    }
  }

  // ----- Replaying from an index entry

  predicate NonDecreasing(es: seq<Event>) {
    forall i, j :: 0 <= i < j < |es| ==> es[i].ts <= es[j].ts
  }

  /** The index has an entry for every thousandth event. */
  lemma {:induction false} MarksAt(n: nat, entry: nat -> Entry)
    ensures |Marks(n, entry)| == (n + INTERVAL - 1) / INTERVAL
    ensures forall k: nat :: k < |Marks(n, entry)| ==> k * INTERVAL < n && Marks(n, entry)[k] == entry(k * INTERVAL)
  {
    if n > 0 {
      MarksAt(n - 1, entry);
    }
  }

  /** The event at which a replay from `from` starts. */
  function JumpIn(ix: seq<Entry>, from: i64): nat {
    var k := UpperBound(ix, from);
    if from > 0 && k > 0 then (k - 1) * INTERVAL else 0
  }

  function JumpTo(es: seq<Event>, from: i64): nat {
    JumpIn(IndexOf(es), from)
  }

  lemma {:induction false} JumpInIs(n: nat, entry: nat -> Entry, dataEnd: nat, from: i64)
    requires entry(0).offset == 0
    ensures var ix := Marks(n, entry); var j := JumpIn(ix, from);
      && StartOf(Opened(true, dataEnd, ix), from) == entry(j).offset
      && j <= n && (n > 0 ==> j < n) && (j > 0 ==> entry(j).ts <= from)
      && (from > 0 && j + INTERVAL < n && entry(j).ts <= from ==> entry(j + INTERVAL).ts > from)
  {
    MarksAt(n, entry);
    var ix := Marks(n, entry);
    var k := UpperBound(ix, from);
    if from > 0 && k > 0 {
      assert ix[k - 1] == entry((k - 1) * INTERVAL);
      if k * INTERVAL < n {
        assert ix[k] == entry(k * INTERVAL);
      }
    } else if ix != [] {
      assert ix[0] == entry(0 * INTERVAL);
    }
  }

  lemma {:induction false} JumpToIs(es: seq<Event>, from: i64)
    ensures JumpTo(es, from) <= |es|
    ensures StartOf(Opened(true, |Frames(es)|, IndexOf(es)), from) == Offset(es, JumpTo(es, from))
    ensures es != [] ==> JumpTo(es, from) < |es|
    ensures JumpTo(es, from) > 0 ==> es[JumpTo(es, from)].ts <= from
    ensures from > 0 && JumpTo(es, from) + INTERVAL < |es| && es[JumpTo(es, from)].ts <= from ==>
      es[JumpTo(es, from) + INTERVAL].ts > from
  {
    assert Chunks(es)[..0] == [];
    JumpInIs(|es|, EntryAt(es), |Frames(es)|, from);
  }

  /** A replay with a start time delivers what a scan from the indexed event delivers, unless that
      event's payload begins with the Zstandard magic number. */
  lemma {:induction false} IndexedReplay(es: seq<Event>, i: nat, from: i64, to: i64)
    requires Loggable(es) && i == JumpTo(es, from) && i < |es| && LowWord(es[i].ts) != ZSTD_MAGIC
    ensures Replay(File(es), from, to) == Ok(Linear(es[i..], from, to))
  {
    var tail := PutIndex(IndexOf(es)) + PutFooter(|Frames(es)|, |IndexOf(es)|);
    JumpToIs(es, from);
    OpenFile(es);
    FileLaid(es, tail);
    LooksCompressedAt(Chunks(es), es[i], i, tail);
    ReplayFrom(File(es), Opened(true, |Frames(es)|, IndexOf(es)), es, Offsets(es), i, from, to);
  }

  lemma {:induction false} ReplayFrom(file: seq<byte>, o: Opened, es: seq<Event>, offs: seq<nat>, i: nat, from: i64,
                                      to: i64)
    requires Open(file) == Ok(o) && o.hasIndex && Laid(Fetch, file, es, offs) && o.dataEnd == offs[|es|]
    requires i <= |es| && StartOf(o, from) == offs[i] && !Compressed(file, offs[i])
    ensures Replay(file, from, to) == Ok(Linear(es[i..], from, to))
  {
    ScanLaid(Fetch, file, es, offs, i, o, from, to);
  }

  // ----- Indexed against linear

  lemma {:induction false} LinearConcat(xs: seq<Event>, ys: seq<Event>, from: i64, to: i64)
    requires forall i :: 0 <= i < |xs| ==> xs[i].ts <= to
    ensures Linear(xs + ys, from, to) == Linear(xs, from, to) + Linear(ys, from, to)
  {
    if xs == [] {
      assert xs + ys == ys;
    } else {
      assert (xs + ys)[1..] == xs[1..] + ys;
      LinearConcat(xs[1..], ys, from, to);
      var first, a, b := if xs[0].ts < from then [] else [xs[0]], Linear(xs[1..], from, to), Linear(ys, from, to);
      assert Linear(xs + ys, from, to) == first + (a + b);
      assert Linear(xs, from, to) == first + a;
    }
  }

  lemma {:induction false} LinearSplit(es: seq<Event>, j: nat, from: i64, to: i64)
    requires j <= |es| && forall i :: 0 <= i < j ==> es[i].ts <= to
    ensures Linear(es, from, to) == Linear(es[..j], from, to) + Linear(es[j..], from, to)
  {
    assert es == es[..j] + es[j..];
    LinearConcat(es[..j], es[j..], from, to);
  }

  lemma {:induction false} LinearNone(es: seq<Event>, from: i64, to: i64)
    requires forall i :: 0 <= i < |es| ==> es[i].ts < from
    ensures Linear(es, from, to) == []
  {
    if es != [] {
      LinearNone(es[1..], from, to);
    }
  }

  lemma {:induction false} LinearSome(es: seq<Event>, from: i64, to: i64, i: nat)
    requires i < |es| && es[i].ts >= from && forall k :: 0 <= k < |es| ==> es[k].ts <= to
    ensures Linear(es, from, to) != []
  {
    if i > 0 {
      LinearSome(es[1..], from, to, i - 1);
    }
  }

  lemma {:induction false} LinearPast(es: seq<Event>, from: i64, to: i64)
    requires from > to
    ensures Linear(es, from, to) == []
  {
    if es != [] {
      LinearPast(es[1..], from, to);
    }
  }

  predicate IsSuffix(xs: seq<Event>, all: seq<Event>) {
    |xs| <= |all| && xs == all[|all| - |xs|..]
  }

  /** On a log in order of time, the indexed replay is a suffix of the linear one. */
  lemma {:induction false} IndexedIsSuffix(es: seq<Event>, from: i64, to: i64)
    requires NonDecreasing(es)
    ensures JumpTo(es, from) <= |es|
    ensures IsSuffix(Linear(es[JumpTo(es, from)..], from, to), Linear(es, from, to))
  {
    JumpToIs(es, from);
    var j := JumpTo(es, from);
    if from > to {
      LinearPast(es, from, to);
      LinearPast(es[j..], from, to);
    } else {
      LinearSplit(es, j, from, to);
    }
  }

  /** On a log in order of time, the indexed replay is the linear one exactly when no event before
      the indexed one happened at the start time itself, or the interval is empty. */
  lemma {:induction false} IndexedIsLinearIff(es: seq<Event>, from: i64, to: i64)
    requires NonDecreasing(es)
    ensures JumpTo(es, from) <= |es|
    ensures Linear(es[JumpTo(es, from)..], from, to) == Linear(es, from, to)
       <==> from > to || forall i :: 0 <= i < JumpTo(es, from) ==> es[i].ts != from
  {
    JumpToIs(es, from);
    var j := JumpTo(es, from);
    if from > to {
      LinearPast(es, from, to);
      LinearPast(es[j..], from, to);
    } else {
      LinearSplit(es, j, from, to);
      if forall i :: 0 <= i < j ==> es[i].ts != from {
        LinearNone(es[..j], from, to);
      } else {
        var i :| 0 <= i < j && es[i].ts == from;
        LinearSome(es[..j], from, to, i);
      }
    }
  }

  // ----- The replay of a file against its linear scan

  /** What reading the file from its first byte delivers. */
  function ScanAll(es: seq<Event>, from: i64, to: i64): Result<seq<Event>> {
    Scan(Fetch, File(es), 0, Opened(true, |Frames(es)|, IndexOf(es)), from, to)
  }

  lemma {:induction false} ScanAllIs(es: seq<Event>, from: i64, to: i64)
    requires Loggable(es)
    ensures ScanAll(es, from, to) == Ok(Linear(es, from, to))
  {
    FileLaid(es, PutIndex(IndexOf(es)) + PutFooter(|Frames(es)|, |IndexOf(es)|));
    assert Offsets(es)[0] == 0 && es[0..] == es;
    ScanLaid(Fetch, File(es), es, Offsets(es), 0, Opened(true, |Frames(es)|, IndexOf(es)), from, to);
  }

  /** In a log in order of time, an indexed replay that reads its file as uncompressed delivers a
      suffix of the linear scan. */
  lemma {:induction false} ReplayIsSuffix(es: seq<Event>, from: i64, to: i64)
    requires Loggable(es) && NonDecreasing(es) && es != []
    requires JumpTo(es, from) < |es| ==> LowWord(es[JumpTo(es, from)].ts) != ZSTD_MAGIC
    ensures Replay(File(es), from, to).Ok? && ScanAll(es, from, to).Ok?
    ensures IsSuffix(Replay(File(es), from, to).value, ScanAll(es, from, to).value)
  {
    JumpToIs(es, from);
    IndexedReplay(es, JumpTo(es, from), from, to);
    ScanAllIs(es, from, to);
    IndexedIsSuffix(es, from, to);
  }

  /** And it delivers the whole linear scan exactly when no event that it skips happened at the start
      time itself, or the interval is empty. */
  lemma {:induction false} ReplayIsLinearIff(es: seq<Event>, from: i64, to: i64)
    requires Loggable(es) && NonDecreasing(es) && es != []
    requires JumpTo(es, from) < |es| ==> LowWord(es[JumpTo(es, from)].ts) != ZSTD_MAGIC
    ensures JumpTo(es, from) < |es|
    ensures Replay(File(es), from, to) == ScanAll(es, from, to)
       <==> from > to || forall i :: 0 <= i < JumpTo(es, from) ==> es[i].ts != from
  {
    JumpToIs(es, from);
    IndexedReplay(es, JumpTo(es, from), from, to);
    ScanAllIs(es, from, to);
    IndexedIsLinearIff(es, from, to);
  }

  /** With strictly increasing timestamps the two always agree. */
  lemma {:induction false} StrictlyIncreasingAgrees(es: seq<Event>, from: i64, to: i64)
    requires Loggable(es) && es != [] && forall i, j :: 0 <= i < j < |es| ==> es[i].ts < es[j].ts
    requires JumpTo(es, from) < |es| ==> LowWord(es[JumpTo(es, from)].ts) != ZSTD_MAGIC
    ensures Replay(File(es), from, to) == ScanAll(es, from, to)
  {
    JumpToIs(es, from);
    ReplayIsLinearIff(es, from, to);
  }

  // ----- Logs that do not come back

  lemma {:induction false} ConcatBound(cs: seq<seq<byte>>, n: nat)
    requires forall i :: 0 <= i < |cs| ==> |cs[i]| <= n
    ensures |Concat(cs)| <= |cs| * n
  {
    if cs != [] {
      ConcatBound(cs[1..], n);
    }
  }

  lemma {:induction false} CopiesLoggable(e: Event, n: nat)
    requires Representable(e) && e.ts >= 0 && n <= 10000
    ensures Loggable(seq(n, i => e))
  {
    var es := seq(n, i => e);
    PayloadFits(e);
    ConcatBound(Chunks(es), TWO_32 + 5);
    MarksAt(n, EntryAt(es));
  }

  lemma {:induction false} LinearOf(es: seq<Event>, ts: i64)
    requires forall i :: 0 <= i < |es| ==> es[i].ts == ts
    ensures Linear(es, ts, ts) == es
  {
    if es != [] {
      LinearOf(es[1..], ts);
    }
  }

  lemma {:induction false} JumpsToLast(es: seq<Event>, ts: i64)
    requires |es| == 1001 && ts > 0 && forall i :: 0 <= i < |es| ==> es[i].ts == ts
    ensures JumpTo(es, ts) == 1000
  {
    MarksAt(1001, EntryAt(es));
    var ix := IndexOf(es);
    assert ix[0] == EntryAt(es)(0 * INTERVAL) && ix[1] == EntryAt(es)(1 * INTERVAL);
    assert UpperBound(ix, ts) == 2;
  }

  /** A thousand and one events at the same time: a replay from that time delivers the last one only. */
  lemma {:induction false} SkipsEventsAtStart()
    ensures var es := seq(1001, i => Event(5, [], Signal(0, 0)));
      && Loggable(es) && NonDecreasing(es) && JumpTo(es, 5) == 1000
      && Replay(File(es), 5, 5) == Ok([es[1000]]) && ScanAll(es, 5, 5) == Ok(es)
  {
    var e := Event(5, [], Signal(0, 0));
    var es := seq(1001, i => e);
    CopiesLoggable(e, 1001);
    JumpsToLast(es, 5);
    IndexedReplay(es, 1000, 5, 5);
    assert es[1000..] == [es[1000]];
    LinearOf(es, 5);
    LinearOf([es[1000]], 5);
    ScanAllIs(es, 5, 5);
  }

  lemma {:induction false} MagicLowWord()
    ensures LowWord(0xFD2FB528) == ZSTD_MAGIC
  {
  }

  /** A single event whose timestamp begins with the Zstandard magic number. */
  lemma {:induction false} MagicTimestampIsLost()
    ensures var es := seq(1, i => Event(0xFD2FB528, [], Signal(0, 0)));
      Loggable(es) && Replay(File(es), 0, MAX_TS) != Ok(es)
  {
    var e := Event(0xFD2FB528, [], Signal(0, 0));
    var es := seq(1, i => e);
    CopiesLoggable(e, 1);
    ReplayAllIff(es);
    assert es[0] == e;
    MagicLowWord();
  }
}
