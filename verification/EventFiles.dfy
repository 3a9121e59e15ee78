/** The logger and the replayer as objects over a byte file. */
module EventFiles {
  import opened EventCodec
  import opened EventLog

  lemma {:induction false} FramesMore(es: seq<Event>, e: Event)
    ensures Frames(es + [e]) == Frames(es) + Frame(e)
  {
    var cs := Chunks(es + [e]);
    ConcatSplit(cs, |es|);
    assert cs[..|es|] == Chunks(es);
    assert cs[|es|..] == [Frame(e)];
    ConcatOne(Frame(e));
  }

  lemma {:induction false} MarksSame(n: nat, f: nat -> Entry, g: nat -> Entry)
    requires forall i: nat :: i < n ==> f(i) == g(i)
    ensures Marks(n, f) == Marks(n, g)
  {
    if n > 0 {
      MarksSame(n - 1, f, g);
    }
  }

  lemma {:induction false} IndexMore(es: seq<Event>, e: Event)
    ensures IndexOf(es + [e]) == IndexOf(es) + if |es| % INTERVAL == 0 then [Entry(e.ts, |Frames(es)|)] else []
  {
    var all := es + [e];
    forall i: nat | i <= |es|
      ensures Chunks(all)[..i] == Chunks(es)[..i]
    {
    }
    assert Chunks(es)[..|es|] == Chunks(es);
    forall i: nat | i < |es|
      ensures EntryAt(all)(i) == EntryAt(es)(i)
    {
      assert Chunks(all)[..i] == Chunks(es)[..i];
    }
    MarksSame(|es|, EntryAt(all), EntryAt(es));
  }

  class EventLogger {
    var out: seq<byte>
    var index: seq<Entry>
    var eventCount: nat
    var finalized: bool
    ghost var logged: seq<Event>

    ghost predicate Valid()
      reads this
    {
      && index == IndexOf(logged) && eventCount == |logged|
      && out == if finalized then File(logged) else Frames(logged)
    }

    constructor ()
      ensures Valid() && logged == [] && !finalized
    {
      out, index, eventCount, finalized, logged := [], [], 0, false, [];
    }

    method WriteFrame(kind: byte, payload: seq<byte>)
      modifies this`out
      ensures out == old(out) + FrameOf(kind, payload)
    {
      out := out + PutU8(kind);
      out := out + Bytes(4, |payload|);
      out := out + payload;
    }

    /** `log`: an index entry for every thousandth event, then the frame. */
    method Log(e: Event)
      requires Valid() && !finalized
      modifies this
      ensures Valid() && !finalized && logged == old(logged) + [e]
    {
      FramesMore(logged, e);
      IndexMore(logged, e);
      if eventCount % INTERVAL == 0 {
        index := index + [Entry(e.ts, |out|)];
      }
      eventCount := eventCount + 1;
      WriteFrame(TypeOf(e.body), Serialise(e));
      logged := logged + [e];
    }

    method WriteEntry(x: Entry)
      modifies this`out
      ensures out == old(out) + (PutI64(x.ts) + Bytes(8, x.offset))
    {
      out := out + PutI64(x.ts);
      out := out + Bytes(8, x.offset);
    }

    method WriteIndex()
      modifies this`out
      ensures out == old(out) + PutIndex(index)
    {
      ghost var start := out;
      for i := 0 to |index|
        invariant out == start + PutIndex(index[..i])
      {
        assert index[..i + 1] == index[..i] + [index[i]];
        PutIndexMore(index[..i], index[i]);
        WriteEntry(index[i]);
        assert out == start + (PutIndex(index[..i]) + (PutI64(index[i].ts) + Bytes(8, index[i].offset)));
      }
      assert index[..|index|] == index;
    }

    method WriteFooter(offset: nat, count: nat)
      modifies this`out
      ensures out == old(out) + PutFooter(offset, count)
    {
      out := out + Bytes(8, offset);
      out := out + Bytes(4, count);
      out := out + Bytes(4, INDEX_MAGIC);
    }

    /** `finalize`: the index and the footer, once. */
    method Finalize()
      requires Valid()
      modifies this
      ensures Valid() && finalized && logged == old(logged) && out == File(logged)
    {
      if finalized {
        return;
      }
      finalized := true;
      WriteTail();
    }

    method WriteTail()
      modifies this`out
      ensures out == old(out) + (PutIndex(index) + PutFooter(|old(out)|, |index|))
    {
      var offset := |out|;
      WriteIndex();
      WriteFooter(offset, |index|);
    }
  }

  lemma {:induction false} PutIndexMore(ix: seq<Entry>, x: Entry)
    ensures PutIndex(ix + [x]) == PutIndex(ix) + (PutI64(x.ts) + Bytes(8, x.offset))
  {
    if ix == [] {
      assert ix + [x] == [x] && [x][1..] == [];
    } else {
      assert (ix + [x])[1..] == ix[1..] + [x];
      PutIndexMore(ix[1..], x);
    }
  }

  /** What `next` gives: an event, the end, or an error for an unreadable payload. */
  datatype Answer = Delivers(event: Event) | Ends | Fails

  /** A way of reading one event from the front of a file. */
  ghost predicate Sized(fetch: seq<byte> -> Fetched) {
    forall bs: seq<byte> :: fetch(bs).Fetched? ==> 5 <= fetch(bs).size <= |bs|
  }

  /** `upper_bound` on the index. */
  method FindEntry(ix: seq<Entry>, from: i64) returns (k: nat)
    ensures k == UpperBound(ix, from)
  {
    k := 0;
    var len: nat := |ix|;
    while len > 0
      invariant k + len <= |ix|
      invariant Halve(ix, from, k, len) == UpperBound(ix, from)
    {
      var half := len / 2;
      if from < ix[k + half].ts {
        len := half;
      } else {
        k, len := k + half + 1, len - half - 1;
      }
    }
  }

  /** Where a replay starts. */
  method Seek(o: Opened, from: i64) returns (pos: nat)
    ensures pos == StartOf(o, from)
  {
    if !(o.hasIndex && from > 0 && o.index != []) {
      return 0;
    }
    var k := FindEntry(o.index, from);
    if k > 0 {
      k := k - 1;
    }
    pos := o.index[k].offset;
  }

  /** Where `next` leaves the file: behind the event it delivers, or behind the one past the end time. */
  function NextPos(fetch: seq<byte> -> Fetched, file: seq<byte>, pos: nat, o: Opened, from: i64, to: i64): nat
    decreases |file| - pos
  {
    if (o.hasIndex && pos >= o.dataEnd) || pos > |file| then pos
    else
      var f := fetch(file[pos..]);
      if !f.Fetched? || f.size == 0 then pos
      else if from <= f.event.ts || f.event.ts > to then pos + f.size
      else NextPos(fetch, file, pos + f.size, o, from, to)
  }

  class EventReplayer {
    const fetch: seq<byte> -> Fetched
    const file: seq<byte>
    const head: Opened
    const from: i64
    const to: i64
    var pos: nat

    /** The constructor of an uncompressed replay on a readable file. */
    constructor (file: seq<byte>, from: i64, to: i64)
      requires Open(file).Ok? && !Compressed(file, StartOf(Open(file).value, from))
      ensures fetch == Fetch && Sized(fetch)
      ensures Rest() == Replay(file, from, to)
    {
      this.fetch := Fetch;
      this.file, this.from, this.to := file, from, to;
      head := Open(file).value;
      var start := Seek(Open(file).value, from);
      pos := start;
      new;
      FetchIsSized();
    }

    /** What is still to be delivered. */
    function Rest(): Result<seq<Event>>
      reads this
    {
      Scan(fetch, file, pos, head, from, to)
    }

    /** `next`: skips events before the start time and ends at the first one past the end time. */
    method Next() returns (a: Answer)
      requires Sized(fetch)
      modifies this
      ensures match a
        case Delivers(e) => old(Rest()) == (if Rest().Ok? then Ok([e] + Rest().value) else Fail)
        case Ends => old(Rest()) == Ok([])
        case Fails => old(Rest()) == Fail
      ensures a.Delivers? ==> old(pos) < pos <= |file|
      ensures pos == NextPos(fetch, file, old(pos), head, from, to)
    {
      while true
        invariant Rest() == old(Rest()) && old(pos) <= pos
        invariant NextPos(fetch, file, pos, head, from, to) == NextPos(fetch, file, old(pos), head, from, to)
        decreases |file| - pos
      {
        if (head.hasIndex && pos >= head.dataEnd) || pos > |file| {
          return Ends;
        }
        var f := fetch(file[pos..]);
        if f.Done? {
          return Ends;
        }
        if f.Broken? {
          return Fails;
        }
        pos := pos + f.size;
        if f.event.ts > to {
          return Ends;
        }
        if f.event.ts >= from {
          return Delivers(f.event);
        }
      }
    }

    /** All that `next` delivers until it ends. */
    method ReplayAll() returns (r: Result<seq<Event>>)
      requires Sized(fetch)
      modifies this
      ensures r == old(Rest())
    {
      var es: seq<Event> := [];
      assert Rest().Ok? ==> es + Rest().value == Rest().value;
      while true
        invariant old(Rest()) == if Rest().Ok? then Ok(es + Rest().value) else Fail
        decreases if pos <= |file| then |file| - pos + 1 else 0
      {
        var a := Next();
        match a {
          case Ends =>
            assert es + [] == es;
            return Ok(es);
          case Fails =>
            return Fail;
          case Delivers(e) =>
            assert Rest().Ok? ==> es + ([e] + Rest().value) == es + [e] + Rest().value;
            es := es + [e];
        }
      }
    }
  }

  lemma {:induction false} FetchIsSized()
    ensures Sized(Fetch)
  {
    forall bs: seq<byte> | Fetch(bs).Fetched?
      ensures 5 <= Fetch(bs).size <= |bs|
    {
      FetchedSize(bs);
    }
  }

  lemma {:induction false} FetchedSize(bs: seq<byte>)
    requires Fetch(bs).Fetched?
    ensures 5 <= Fetch(bs).size <= |bs|
  {
  }

  /** Logging events and finishing the log. */
  method LogAll(es: seq<Event>) returns (file: seq<byte>)
    ensures file == File(es)
  {
    var logger := new EventLogger();
    for i := 0 to |es|
      invariant fresh(logger) && logger.Valid() && !logger.finalized && logger.logged == es[..i]
    {
      assert es[..i + 1] == es[..i] + [es[i]];
      logger.Log(es[i]);
    }
    assert es[..|es|] == es;
    logger.Finalize();
    file := logger.out;
  }

  lemma {:induction false} ReplayReads(file: seq<byte>, from: i64, to: i64)
    requires Replay(file, from, to).Ok?
    ensures Open(file).Ok? && !Compressed(file, StartOf(Open(file).value, from))
  {
  }

  /** Logging, finishing and replaying gives back the events, unless the first payload begins with
      the Zstandard magic number. */
  method LogAndReplay(es: seq<Event>) returns (r: Result<seq<Event>>)
    requires Loggable(es) && (es == [] || LowWord(es[0].ts) != ZSTD_MAGIC)
    ensures r == Ok(es)
  {
    var file := LogAll(es);
    ReplayAllIff(es);
    ReplayReads(file, 0, MAX_TS);
    var replayer := new EventReplayer(file, 0, MAX_TS);
    r := replayer.ReplayAll();
  }
}
