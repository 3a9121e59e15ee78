/** Logs that were never finished, or were cut off at any byte: what a replay delivers without the
    index and footer that finishing writes.
 */
module EventCuts {
  import opened EventCodec
  import opened EventLog

  // ----- The whole frames within a length

  function Whole(cs: seq<seq<byte>>, n: nat): nat {
    if cs == [] || |cs[0]| > n then 0 else 1 + Whole(cs[1..], n - |cs[0]|)
  }

  lemma {:induction false} ConcatTake(cs: seq<seq<byte>>, k: nat)
    requires cs != [] && k < |cs|
    ensures Concat(cs[..k + 1]) == cs[0] + Concat(cs[1..][..k])
  {
    assert cs[..k + 1][0] == cs[0] && cs[..k + 1][1..] == cs[1..][..k];
  }

  /** A cut consists of the whole chunks and a proper beginning of the next one. */
  lemma {:induction false} WholeSplits(cs: seq<seq<byte>>, n: nat)
    requires n <= |Concat(cs)|
    ensures var k := Whole(cs, n);
      && k <= |cs| && |Concat(cs[..k])| <= n
      && (k < |cs| ==> n - |Concat(cs[..k])| < |cs[k]|)
      && Concat(cs)[..n] == Concat(cs[..k]) + if k < |cs| then cs[k][..n - |Concat(cs[..k])|] else []
  {
    var k := Whole(cs, n);
    if k == 0 {
      assert cs[..0] == [];
      if cs != [] {
        assert (cs[0] + Concat(cs[1..]))[..n] == cs[0][..n];
      }
    } else {
      var rest, m := cs[1..], n - |cs[0]|;
      WholeSplits(rest, m);
      ConcatTake(cs, k - 1);
      assert (cs[0] + Concat(rest))[..n] == cs[0] + Concat(rest)[..m];
    }
  }

  /** A frame that breaks off ends the stream. */
  lemma {:induction false} BrokenFrameEnds(kind: byte, payload: seq<byte>, m: nat)
    requires |payload| < TWO_32 && m < |FrameOf(kind, payload)|
    ensures Fetch(FrameOf(kind, payload)[..m]) == Done
  {
    var frame := FrameOf(kind, payload);
    Widths();
    if m >= 5 {
      var rest := frame[..m][1..];
      UintRoundTrip(4, |payload|, payload[..m - 5]);
      assert rest == Bytes(4, |payload|) + payload[..m - 5];
    }
  }

  // ----- Scanning what there is

  /** How far a scan from event `i` comes: to the end of the data that the footer names, if any. */
  function Seen(offs: seq<nat>, i: nat, n: nat, o: Opened): (r: nat)
    requires i <= n < |offs|
    ensures i <= r <= n
    ensures r == n <==> !o.hasIndex || forall j :: i <= j < n ==> offs[j] < o.dataEnd
    decreases n - i
  {
    if i == n || (o.hasIndex && offs[i] >= o.dataEnd) then i else Seen(offs, i + 1, n, o)
  }

  lemma {:induction false} ScanBroken(fetch: seq<byte> -> Fetched, file: seq<byte>, es: seq<Event>, offs: seq<nat>,
                                      i: nat, o: Opened)
    requires Laid(fetch, file, es, offs) && i <= |es| && offs[|es|] <= |file| && fetch(file[offs[|es|]..]) == Done
    requires forall j :: 0 <= j < |es| ==> es[j].ts >= 0
    ensures Scan(fetch, file, offs[i], o, 0, MAX_TS) == Ok(es[i..Seen(offs, i, |es|, o)])
    decreases |es| - i
  {
    var r := Seen(offs, i, |es|, o);
    if r == i {
      assert es[i..r] == [];
    } else {
      assert EventAt(fetch, file, es[i], offs[i], offs[i + 1]);
      ScanBroken(fetch, file, es, offs, i + 1, o);
      assert [es[i]] + es[i + 1..r] == es[i..r];
    }
  }

  // ----- Replaying a cut

  function Cut(es: seq<Event>, n: nat): seq<byte>
    requires n <= |Frames(es)|
  {
    Frames(es)[..n]
  }

  /** What follows the whole frames of a cut. */
  lemma {:induction false} LeftOver(es: seq<Event>, k: nat, m: nat)
    requires k < |es| && Representable(es[k]) && m < |Chunks(es)[k]|
    ensures Fetch(Chunks(es)[k][..m]) == Done
  {
    PayloadFits(es[k]);
    BrokenFrameEnds(TypeOf(es[k].body), Serialise(es[k]), m);
  }

  lemma {:induction false} PrefixLaid(es: seq<Event>, k: nat, rest: seq<byte>)
    requires k <= |es| && (forall j :: 0 <= j < k ==> Representable(es[j])) && Fetch(rest) == Done
    ensures var file := Concat(Chunks(es)[..k]) + rest;
      && Laid(Fetch, file, es[..k], Offsets(es[..k])) && Offsets(es[..k])[k] <= |file|
      && Fetch(file[Offsets(es[..k])[k]..]) == Done
  {
    assert Chunks(es[..k]) == Chunks(es)[..k];
    FileLaid(es[..k], rest);
    FirstOf(Frames(es[..k]), rest);
  }

  lemma {:induction false} CutLaid(es: seq<Event>, n: nat)
    requires (forall j :: 0 <= j < |es| ==> Representable(es[j])) && n <= |Frames(es)|
    ensures var k := Whole(Chunks(es), n);
      && k <= |es| && Laid(Fetch, Cut(es, n), es[..k], Offsets(es[..k]))
      && Offsets(es[..k])[k] <= n && Fetch(Cut(es, n)[Offsets(es[..k])[k]..]) == Done
  {
    var cs, k := Chunks(es), Whole(Chunks(es), n);
    WholeSplits(cs, n);
    if k < |es| {
      LeftOver(es, k, n - |Concat(cs[..k])|);
      PrefixLaid(es, k, cs[k][..n - |Concat(cs[..k])|]);
    } else {
      PrefixLaid(es, k, []);
    }
  }

  lemma {:induction false} CutLooksCompressed(es: seq<Event>, n: nat)
    requires (forall j :: 0 <= j < |es| ==> Representable(es[j])) && n <= |Frames(es)|
    ensures Compressed(Cut(es, n), 0) <==> n >= 9 && es != [] && LowWord(es[0].ts) == ZSTD_MAGIC
  {
    if es != [] {
      var file := Frames(es) + [];
      assert Chunks(es)[..0] == [] && file == Frames(es);
      LooksCompressedAt(Chunks(es), es[0], 0, []);
      if n >= 9 {
        assert Cut(es, n)[1..5] == file[1..5] && Cut(es, n)[5..9] == file[5..9];
      }
    }
  }

  /** The replay of a cut that can be opened delivers its whole frames, as far as the scan comes. */
  lemma {:induction false} CutReplay(es: seq<Event>, n: nat)
    requires (forall j :: 0 <= j < |es| ==> Representable(es[j]) && es[j].ts >= 0) && n <= |Frames(es)|
    requires Open(Cut(es, n)).Ok? && !Compressed(Cut(es, n), 0)
    ensures var k := Whole(Chunks(es), n);
      k <= |es| && Replay(Cut(es, n), 0, MAX_TS) == Ok(es[..Seen(Offsets(es[..k]), 0, k, Open(Cut(es, n)).value)])
  {
    var k, o := Whole(Chunks(es), n), Open(Cut(es, n)).value;
    CutLaid(es, n);
    ScanBroken(Fetch, Cut(es, n), es[..k], Offsets(es[..k]), 0, o);
    assert Chunks(es[..k])[..0] == [] && Offsets(es[..k])[0] == 0;
    var r := Seen(Offsets(es[..k]), 0, k, o);
    assert es[..k][0..r] == es[..r];
  }

  /** The last four bytes are those of a footer. */
  predicate LooksIndexed(file: seq<byte>) {
    |file| >= 16 && Value(file[|file| - 4..]) == INDEX_MAGIC
  }

  function FooterOffset(file: seq<byte>): nat
    requires |file| >= 16
  {
    Value(file[|file| - 16..|file| - 8])
  }

  lemma {:induction false} OpenUnfinished(file: seq<byte>)
    ensures !LooksIndexed(file) ==> Open(file).Ok? && !Open(file).value.hasIndex
    ensures LooksIndexed(file) && Open(file).Ok? ==>
              Open(file).value.hasIndex && Open(file).value.dataEnd == FooterOffset(file)
  {
    if |file| >= 16 {
      var foot := file[|file| - 16..];
      assert foot[..8] == file[|file| - 16..|file| - 8];
      assert foot[8..][4..][..4] == file[|file| - 4..];
    }
  }

  lemma {:induction false} OffsetsGrow(es: seq<Event>, i: nat, j: nat)
    requires i <= j <= |es|
    ensures Offset(es, i) <= Offset(es, j)
  {
    var cs := Chunks(es);
    ConcatSplit(cs[..j], i);
    assert cs[..j][..i] == cs[..i];
  }

  /** A cut looks finished where it must not: it ends like a footer whose index cannot be read or that
      ends the data before the last whole frame. */
  predicate Misleading(es: seq<Event>, n: nat)
    requires n <= |Frames(es)| && Whole(Chunks(es), n) <= |es|
  {
    var k := Whole(Chunks(es), n);
    LooksIndexed(Cut(es, n)) && (Open(Cut(es, n)).Fail? || (k > 0 && FooterOffset(Cut(es, n)) <= Offset(es, k - 1)))
  }

  lemma {:induction false} SeenAllIff(es: seq<Event>, k: nat, o: Opened)
    requires k <= |es|
    ensures Seen(Offsets(es[..k]), 0, k, o) == k <==> !o.hasIndex || k == 0 || Offset(es, k - 1) < o.dataEnd
  {
    forall j | 0 <= j < k
      ensures Offsets(es[..k])[j] == Offset(es, j) <= Offset(es, k - 1)
    {
      assert Chunks(es[..k])[..j] == Chunks(es)[..j];
      OffsetsGrow(es, j, k - 1);
    }
  }

  lemma {:induction false} WholeEnds(cs: seq<seq<byte>>, n: nat)
    requires n <= |Concat(cs)|
    ensures var k := Whole(cs, n);
      k <= |cs| && |Concat(cs[..k])| <= n && (k < |cs| ==> n < |Concat(cs[..k + 1])|)
  {
    WholeSplits(cs, n);
    if Whole(cs, n) < |cs| {
      ChunkAt(cs, Whole(cs, n), []);
    }
  }

  /** `Whole` counts the frames that end within the cut. */
  lemma {:induction false} WholeIs(es: seq<Event>, n: nat)
    requires n <= |Frames(es)|
    ensures var k := Whole(Chunks(es), n);
      k <= |es| && Offset(es, k) <= n && (k < |es| ==> n < Offset(es, k + 1))
  {
    WholeEnds(Chunks(es), n);
  }

  lemma {:induction false} UnreadableFails(file: seq<byte>)
    requires Open(file).Fail? || Compressed(file, 0)
    ensures Replay(file, 0, MAX_TS) == Fail
  {
  }

  lemma {:induction false} PrefixSame(es: seq<Event>, r: nat, k: nat)
    requires r <= k <= |es|
    ensures es[..r] == es[..k] <==> r == k
  {
    assert |es[..r]| == r && |es[..k]| == k;
  }

  lemma {:induction false} ReadableIff(es: seq<Event>, n: nat, k: nat)
    requires (forall j :: 0 <= j < |es| ==> Representable(es[j]) && es[j].ts >= 0) && n <= |Frames(es)|
    requires k == Whole(Chunks(es), n) <= |es| && Open(Cut(es, n)).Ok? && !Compressed(Cut(es, n), 0)
    ensures Replay(Cut(es, n), 0, MAX_TS) == Ok(es[..k]) <==> !Misleading(es, n)
  {
    var o := Open(Cut(es, n)).value;
    CutReplay(es, n);
    SeenAllIff(es, k, o);
    PrefixSame(es, Seen(Offsets(es[..k]), 0, k, o), k);
    OpenUnfinished(Cut(es, n));
  }

  /** A log that was cut off at any byte, or never finished, replays to the events whose frames are
      whole, exactly when it neither looks compressed nor misleads by its last bytes. */
  lemma {:induction false} CutReplayIff(es: seq<Event>, n: nat)
    requires (forall j :: 0 <= j < |es| ==> Representable(es[j]) && es[j].ts >= 0) && n <= |Frames(es)|
    ensures Whole(Chunks(es), n) <= |es|
    ensures Replay(Cut(es, n), 0, MAX_TS) == Ok(es[..Whole(Chunks(es), n)]) <==>
            !(n >= 9 && es != [] && LowWord(es[0].ts) == ZSTD_MAGIC) && !Misleading(es, n)
  {
    WholeIs(es, n);
    CutLooksCompressed(es, n);
    if Open(Cut(es, n)).Fail? || Compressed(Cut(es, n), 0) {
      UnreadableFails(Cut(es, n));
      OpenUnfinished(Cut(es, n));
    } else {
      ReadableIff(es, n, Whole(Chunks(es), n));
    }
  }

  /** In particular every cut does that does not end in the four bytes of the index magic. */
  lemma {:induction false} CutWithoutMagic(es: seq<Event>, n: nat)
    requires (forall j :: 0 <= j < |es| ==> Representable(es[j]) && es[j].ts >= 0) && n <= |Frames(es)|
    requires !LooksIndexed(Cut(es, n)) && (es != [] ==> LowWord(es[0].ts) != ZSTD_MAGIC)
    ensures Whole(Chunks(es), n) <= |es| && Replay(Cut(es, n), 0, MAX_TS) == Ok(es[..Whole(Chunks(es), n)])
  {
    CutReplayIff(es, n);
  }

  // ----- A log that misleads

  predicate EndsWith(bs: seq<byte>, t: seq<byte>) {
    |bs| >= |t| && bs[|bs| - |t|..] == t
  }

  lemma {:induction false} EndsAfter(a: seq<byte>, b: seq<byte>, t: seq<byte>)
    requires EndsWith(b, t)
    ensures EndsWith(a + b, t)
  {
    assert (a + b)[|a + b| - |t|..] == b[|b| - |t|..];
  }

  /** The frame of a cancellation ends with its reason. */
  lemma {:induction false} ReasonAtEnd(e: Event, order: u64, t: seq<byte>)
    requires e.body == Cancel(order, t) && |t| < TWO_16
    ensures EndsWith(Frame(e), t)
  {
    assert t[..|t|] == t && PutStr(t) + [] == Bytes(2, |t|) + t;
    EndsAfter(Bytes(2, |t|), t, t);
    EndsAfter(PutU64(order), PutStr(t) + [], t);
    EndsAfter(PutStr(e.symbol), PutBody(e.body), t);
    EndsAfter(PutI64(e.ts), PutStr(e.symbol) + PutBody(e.body), t);
    EndsAfter(Bytes(4, |Serialise(e)|), Serialise(e), t);
    EndsAfter(PutU8(TypeOf(e.body)), Bytes(4, |Serialise(e)|) + Serialise(e), t);
  }

  lemma {:induction false} OpenByText(file: seq<byte>, t: seq<byte>)
    requires EndsWith(file, t) && |t| == 16 && GetFooter(t) == Ok(Footer(0, 0, INDEX_MAGIC))
    ensures Open(file) == Ok(Opened(true, 0, []))
  {
  }

  /** An unfinished log of one cancellation, whose reason reads like a footer, replays to nothing. */
  lemma {:induction false} FooterTextHides(e: Event, order: u64, t: seq<byte>)
    requires e.body == Cancel(order, t) && Representable(e) && e.ts >= 0 && LowWord(e.ts) != ZSTD_MAGIC
    requires |t| == 16 && GetFooter(t) == Ok(Footer(0, 0, INDEX_MAGIC))
    ensures Replay(Frames([e]), 0, MAX_TS) == Ok([])
  {
    assert Chunks([e]) == [Frame(e)];
    ConcatOne(Frame(e));
    var n := |Frames([e])|;
    assert Cut([e], n) == Frame(e);
    ReasonAtEnd(e, order, t);
    OpenByText(Frame(e), t);
    CutLooksCompressed([e], n);
    CutReplay([e], n);
  }

  lemma {:induction false} FooterTextHidesEvents()
    ensures var e := Event(5, [], Cancel(0, PutFooter(0, 0)));
      Representable(e) && Replay(Frames([e]), 0, MAX_TS) == Ok([])
  {
    FooterRoundTrip(0, 0);
    FooterTextHides(Event(5, [], Cancel(0, PutFooter(0, 0))), 0, PutFooter(0, 0));
  }
}
