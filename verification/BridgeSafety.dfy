/** What every interleaving of the bridge's threads keeps. */
module BridgeSafety {
  import opened BridgeModel

  // ----- What each thread leaves alone

  lemma {:induction false} EngineFrame(s: State, a: EngineAction)
    ensures var s' := EngineStep(s, a);
      && s'.transport == s.transport && s'.fill == s.fill && s'.nextFillId == s.nextFillId
      && s'.log == s.log.(clientOf := s'.log.clientOf, totalOf := s'.log.totalOf, accepted := s'.log.accepted)
  {
  }

  function InFlight(t: TransportAt): seq<Request> {
    if t == Waiting then [] else [t.req]
  }

  /** Result `r` answers request `q`. */
  predicate Answers(r: Result, q: Request) {
    r.engine == q.engine && r.cancel == q.cancel
  }

  predicate ResultMatches(at: TransportAt) {
    && (at.Cancelling? ==> at.req.cancel)
    && (at.Posting? ==> Answers(at.result, at.req))
  }

  /** Tracked orders may go and learn their exchange id, but none is added and no amount changes. */
  predicate Shrinks(byEngine: map<nat, Tracked>, byEngine': map<nat, Tracked>) {
    forall e :: e in byEngine' ==>
      e in byEngine && byEngine'[e].total == byEngine[e].total && byEngine'[e].cumulative == byEngine[e].cumulative
  }

  /** The transport thread works on the same request and changes nothing but the maps. */
  predicate Working(s: State, s': State) {
    && s' == s.(byEngine := s'.byEngine, byClient := s'.byClient, transport := s'.transport)
    && Shrinks(s.byEngine, s'.byEngine)
    && InFlight(s'.transport) == InFlight(s.transport)
    && (ResultMatches(s.transport) ==> ResultMatches(s'.transport))
  }

  lemma {:induction false} LookupWorks(s: State)
    ensures Working(s, DoLookup(s))
  {
  }

  lemma {:induction false} SubmitWorks(s: State, ok: bool, exchange: string)
    ensures Working(s, DoSubmitDone(s, ok, exchange))
  {
  }

  lemma {:induction false} CancelWorks(s: State, ok: bool, exchange: string)
    ensures Working(s, DoCancelDone(s, ok, exchange))
  {
  }

  lemma {:induction false} ThrowWorks(s: State)
    ensures Working(s, DoThrow(s))
  {
  }

  lemma {:induction false} TransportWorks(s: State, a: TransportAction)
    requires !a.Pop? && !a.Post?
    ensures Working(s, TransportStep(s, a))
  {
    match a
    case Lookup => LookupWorks(s);
    case SubmitDone(ok, exchange) => SubmitWorks(s, ok, exchange);
    case CancelDone(ok, exchange) => CancelWorks(s, ok, exchange);
    case Throw => ThrowWorks(s);
  }

  lemma {:induction false} TransportFrame(s: State, a: TransportAction)
    ensures var s' := TransportStep(s, a);
      && s'.engine == s.engine && s'.fill == s.fill && s'.nextFillId == s.nextFillId
      && s'.fills == s.fills && s'.metas == s.metas
      && s'.log == s.log.(answered := s'.log.answered, results := s'.log.results)
  {
    if !a.Pop? && !a.Post? {
      TransportWorks(s, a);
    }
  }

  lemma {:induction false} FillFrame(s: State, a: FillAction)
    ensures var s' := FillStep(s, a);
      && s'.engine == s.engine && s'.transport == s.transport && s'.queue == s.queue && s'.results == s.results
      && s'.log == s.log.(taken := s'.log.taken, fills := s'.log.fills, metas := s'.log.metas)
  {
  }

  // ----- The two maps

  predicate EntryOk(byEngine: map<nat, Tracked>, byClient: map<string, nat>, e: nat)
    requires e in byEngine
  {
    byEngine[e].engine == e && byEngine[e].client in byClient && byClient[byEngine[e].client] == e
  }

  predicate ClientOk(byEngine: map<nat, Tracked>, byClient: map<string, nat>, c: string)
    requires c in byClient
  {
    byClient[c] in byEngine && byEngine[byClient[c]].client == c
  }

  /** The two maps are inverses of each other. */
  predicate Inverse(byEngine: map<nat, Tracked>, byClient: map<string, nat>) {
    && (forall e {:trigger EntryOk(byEngine, byClient, e)} :: e in byEngine ==> EntryOk(byEngine, byClient, e))
    && (forall c {:trigger ClientOk(byEngine, byClient, c)} :: c in byClient ==> ClientOk(byEngine, byClient, c))
  }

  /** Client ids are non-empty and never shared. */
  predicate Injective(names: map<nat, string>) {
    && (forall e :: e in names ==> names[e] != "")
    && (forall e, d :: e in names && d in names && names[e] == names[d] ==> e == d)
  }

  /** An order is called by the client id it was given. */
  predicate Named(names: map<nat, string>, engine: nat, client: string) {
    engine in names && names[engine] == client
  }

  predicate TrackedNamed(names: map<nat, string>, byEngine: map<nat, Tracked>) {
    forall e :: e in byEngine ==> Named(names, e, byEngine[e].client)
  }

  predicate QueueNamed(names: map<nat, string>, queue: seq<Request>) {
    forall i :: 0 <= i < |queue| ==> Named(names, queue[i].engine, queue[i].client)
  }

  predicate EngineNamed(names: map<nat, string>, at: EngineAt) {
    at.Pushing? ==> Named(names, at.req.engine, at.req.client)
  }

  predicate TransportNamed(names: map<nat, string>, at: TransportAt) {
    && (at.Popped? || at.Cancelling? ==> Named(names, at.req.engine, at.req.client))
    && (at.Cancelling? ==> at.client == at.req.client)
  }

  /** The maps are inverses, and everything in flight calls its order by its name. */
  predicate Maps(s: State) {
    && Inverse(s.byEngine, s.byClient)
    && Injective(s.log.clientOf)
    && TrackedNamed(s.log.clientOf, s.byEngine)
    && QueueNamed(s.log.clientOf, s.queue)
    && EngineNamed(s.log.clientOf, s.engine)
    && TransportNamed(s.log.clientOf, s.transport)
  }

  lemma {:induction false} ForgetKeepsMaps(s: State, order: nat, client: string)
    requires Maps(s) && Named(s.log.clientOf, order, client)
    ensures Maps(Forget(s, order, client))
  {
    var s' := Forget(s, order, client);
    assert client != "";
    forall e | e in s'.byEngine
      ensures EntryOk(s'.byEngine, s'.byClient, e)
    {
      assert EntryOk(s.byEngine, s.byClient, e) && Named(s.log.clientOf, e, s.byEngine[e].client);
    }
    forall c | c in s'.byClient
      ensures ClientOk(s'.byEngine, s'.byClient, c)
    {
      assert ClientOk(s.byEngine, s.byClient, c) && Named(s.log.clientOf, s.byClient[c], c);
    }
  }

  /** Changing a tracked order without changing its ids. */
  lemma {:induction false} UpdateKeepsMaps(s: State, e: nat, t: Tracked)
    requires Maps(s) && e in s.byEngine && t.engine == e && t.client == s.byEngine[e].client
    ensures Maps(s.(byEngine := s.byEngine[e := t]))
  {
    var m := s.byEngine[e := t];
    forall d | d in m
      ensures EntryOk(m, s.byClient, d)
    {
      assert EntryOk(s.byEngine, s.byClient, d);
    }
    forall c | c in s.byClient
      ensures ClientOk(m, s.byClient, c)
    {
      assert ClientOk(s.byEngine, s.byClient, c);
    }
  }

  lemma {:induction false} InsertKeepsMaps(s: State, order: nat, client: string, symbol: string, total: real)
    requires Maps(s) && FreshOrder(s, order, client) && s.engine == Idle
    ensures Maps(DoInsert(s, order, client, symbol, total))
  {
    var s' := DoInsert(s, order, client, symbol, total);
    assert order !in s.byEngine;
    forall e | e in s'.byEngine
      ensures EntryOk(s'.byEngine, s'.byClient, e)
    {
      if e != order {
        assert EntryOk(s.byEngine, s.byClient, e) && Named(s.log.clientOf, e, s.byEngine[e].client);
        assert s.log.clientOf[e] in s.log.clientOf.Values;
      }
    }
    forall c | c in s'.byClient
      ensures ClientOk(s'.byEngine, s'.byClient, c)
    {
      if c != client {
        assert ClientOk(s.byEngine, s.byClient, c);
      }
    }
    forall e, d | e in s'.log.clientOf && d in s'.log.clientOf && s'.log.clientOf[e] == s'.log.clientOf[d]
      ensures e == d
    {
      assert e in s.log.clientOf ==> s.log.clientOf[e] in s.log.clientOf.Values;
      assert d in s.log.clientOf ==> s.log.clientOf[d] in s.log.clientOf.Values;
    }
  }

  lemma {:induction false} CommitKeepsMaps(s: State)
    requires Maps(s)
    ensures Maps(DoCommit(s))
  {
    if s.fill.Known? && s.fill.msg.client in s.byClient {
      var c := s.fill.msg.client;
      var e := s.byClient[c];
      assert ClientOk(s.byEngine, s.byClient, c);
      assert EntryOk(s.byEngine, s.byClient, e) && Named(s.log.clientOf, e, c);
      if IsTerminal(s.fill.msg.kind) {
        ForgetKeepsMaps(s, e, c);
      } else {
        UpdateKeepsMaps(s, e, Noted(s.byEngine[e], s.fill.msg));
      }
    }
  }

  lemma {:induction false} SubmitDoneKeepsMaps(s: State, ok: bool, exchange: string)
    requires Maps(s)
    ensures Maps(DoSubmitDone(s, ok, exchange))
  {
    if s.transport.Popped? && !s.transport.req.cancel {
      var e := s.transport.req.engine;
      if !ok {
        ForgetKeepsMaps(s, e, s.transport.req.client);
      } else if e in s.byEngine {
        assert EntryOk(s.byEngine, s.byClient, e);
        UpdateKeepsMaps(s, e, s.byEngine[e].(exchange := exchange));
      }
    }
  }

  lemma {:induction false} PopKeepsMaps(s: State)
    requires Maps(s)
    ensures Maps(DoPop(s))
  {
    if s.queue != [] {
      assert forall i :: 0 <= i < |s.queue[1..]| ==> s.queue[1..][i] == s.queue[i + 1];
    }
  }

  lemma {:induction false} EngineKeepsMaps(s: State, a: EngineAction)
    requires Maps(s) && Fresh(s, ByEngine(a))
    ensures Maps(EngineStep(s, a))
  {
    if a.Insert? && s.engine == Idle {
      InsertKeepsMaps(s, a.order, a.client, a.symbol, a.total);
    }
  }

  lemma {:induction false} TransportKeepsMaps(s: State, a: TransportAction)
    requires Maps(s)
    ensures Maps(TransportStep(s, a))
  {
    match a
    case Pop => PopKeepsMaps(s);
    case SubmitDone(ok, exchange) => SubmitDoneKeepsMaps(s, ok, exchange);
    case CancelDone(ok, exchange) =>
      if s.transport.Cancelling? && ok {
        ForgetKeepsMaps(s, s.transport.req.engine, s.transport.client);
      }
    case _ =>
  }

  /** Every step keeps the two maps inverse to each other. */
  lemma {:induction false} StepKeepsMaps(s: State, a: Action)
    requires Maps(s) && Fresh(s, a)
    ensures Maps(Step(s, a))
  {
    match a
    case ByEngine(e) => EngineKeepsMaps(s, e);
    case ByTransport(t) => TransportKeepsMaps(s, t);
    case ByFills(f) =>
      FillFrame(s, f);
      if f == Commit {
        CommitKeepsMaps(s);
      }
  }

  // ----- Requests

  predicate IsSuffix<T(==)>(xs: seq<T>, all: seq<T>) {
    |xs| <= |all| && xs == all[|all| - |xs|..]
  }

  /** The accepted requests are those answered, then at most one in flight, then the queue. */
  predicate InOrder(accepted: seq<Request>, answered: seq<Request>, at: TransportAt, queue: seq<Request>) {
    accepted == answered + InFlight(at) + queue
  }

  /** Every answered request has its result, in the same order. */
  predicate AllAnswered(results: seq<Result>, answered: seq<Request>) {
    && |results| == |answered|
    && forall i :: 0 <= i < |results| ==> Answers(results[i], answered[i])
  }

  /** No request is lost, duplicated or reordered. */
  predicate Fifo(s: State) {
    && InOrder(s.log.accepted, s.log.answered, s.transport, s.queue)
    && AllAnswered(s.log.results, s.log.answered)
    && IsSuffix(s.results, s.log.results)
    && ResultMatches(s.transport)
  }

  lemma {:induction false} SuffixAppend<T>(xs: seq<T>, all: seq<T>, x: T)
    requires IsSuffix(xs, all)
    ensures IsSuffix(xs + [x], all + [x])
  {
    assert (all + [x])[|all| - |xs|..] == all[|all| - |xs|..] + [x];
  }

  lemma {:induction false} SuffixEmpty<T>(all: seq<T>)
    ensures IsSuffix([], all)
  {
    assert all[|all|..] == [];
  }

  lemma {:induction false} PushKeepsOrder(accepted: seq<Request>, answered: seq<Request>, at: TransportAt,
                                          queue: seq<Request>, req: Request)
    requires InOrder(accepted, answered, at, queue)
    ensures InOrder(accepted + [req], answered, at, queue + [req])
  {
    assert answered + InFlight(at) + (queue + [req]) == answered + InFlight(at) + queue + [req];
  }

  lemma {:induction false} PopKeepsOrder(accepted: seq<Request>, answered: seq<Request>, queue: seq<Request>)
    requires InOrder(accepted, answered, Waiting, queue) && queue != []
    ensures InOrder(accepted, answered, Popped(queue[0]), queue[1..])
  {
    assert answered + [] + queue == answered + [queue[0]] + queue[1..];
  }

  lemma {:induction false} PostKeepsOrder(accepted: seq<Request>, answered: seq<Request>, at: TransportAt,
                                          queue: seq<Request>)
    requires InOrder(accepted, answered, at, queue) && at != Waiting
    ensures InOrder(accepted, answered + [at.req], Waiting, queue)
  {
    assert answered + [at.req] + queue == (answered + [at.req]) + [] + queue;
  }

  lemma {:induction false} PopKeepsFifo(s: State)
    requires Fifo(s)
    ensures Fifo(DoPop(s))
  {
    if s.transport == Waiting && s.queue != [] {
      PopKeepsOrder(s.log.accepted, s.log.answered, s.queue);
    }
  }

  lemma {:induction false} PostKeepsFifo(s: State)
    requires Fifo(s)
    ensures Fifo(DoPost(s))
  {
    if s.transport.Posting? {
      PostKeepsOrder(s.log.accepted, s.log.answered, s.transport, s.queue);
      SuffixAppend(s.results, s.log.results, s.transport.result);
    }
  }

  lemma {:induction false} TransportKeepsFifo(s: State, a: TransportAction)
    requires Fifo(s)
    ensures Fifo(TransportStep(s, a))
  {
    match a
    case Pop => PopKeepsFifo(s);
    case Post => PostKeepsFifo(s);
    case _ => TransportWorks(s, a);
  }

  /** Every step keeps the requests in order. */
  lemma {:induction false} StepKeepsFifo(s: State, a: Action)
    requires Fifo(s)
    ensures Fifo(Step(s, a))
  {
    match a
    case ByEngine(e) =>
      EngineFrame(s, e);
      SuffixEmpty(s.log.results);
      if e.Push? && s.engine.Pushing? {
        PushKeepsOrder(s.log.accepted, s.log.answered, s.transport, s.queue, s.engine.req);
      }
    case ByTransport(t) => TransportKeepsFifo(s, t);
    case ByFills(f) => FillFrame(s, f);
  }

  // ----- Fill ids

  function PendingId(at: FillAt): set<nat> {
    if at.Calling? then {at.id} else if at.Publishing? then {at.fill.id} else {}
  }

  /** Fill ids are handed out once: published fills differ in theirs, and an id still in the hands
      of the fill thread was not published yet. */
  predicate UniqueIds(fills: seq<Fill>, at: FillAt, next: nat) {
    && (forall i :: 0 <= i < |fills| ==> fills[i].id < next && fills[i].id !in PendingId(at))
    && (forall i, j :: 0 <= i < j < |fills| ==> fills[i].id != fills[j].id)
    && (forall id :: id in PendingId(at) ==> id < next)
  }

  lemma {:induction false} PublishKeepsIds(fills: seq<Fill>, at: FillAt, next: nat, f: Fill, next': nat)
    requires UniqueIds(fills, at, next) && next <= next'
    requires PendingId(at) == {f.id} || (f.id == next && next < next')
    ensures UniqueIds(fills + [f], Listening, next')
  {
    assert f.id in PendingId(at) || f.id == next;
  }

  lemma {:induction false} HoldKeepsIds(fills: seq<Fill>, at: FillAt, next: nat, at': FillAt, next': nat)
    requires UniqueIds(fills, at, next) && next <= next'
    requires PendingId(at') <= PendingId(at) || (PendingId(at') == {next} && next < next')
    ensures UniqueIds(fills, at', next')
  {
    forall id | id in PendingId(at')
      ensures id < next' && forall i :: 0 <= i < |fills| ==> fills[i].id != id
    {
      assert id in PendingId(at) || id == next;
    }
  }

  lemma {:induction false} FillsKeepIds(s: State, a: FillAction)
    requires UniqueIds(s.log.fills, s.fill, s.nextFillId)
    ensures var s' := FillStep(s, a); UniqueIds(s'.log.fills, s'.fill, s'.nextFillId)
  {
    match a
    case Emit =>
      if s.fill.Emitting? {
        PublishKeepsIds(s.log.fills, s.fill, s.nextFillId, s.fill.fill.(id := s.nextFillId), s.nextFillId + 1);
      }
    case Publish =>
      if s.fill.Publishing? {
        assert PendingId(s.fill) == {s.fill.fill.id};
        PublishKeepsIds(s.log.fills, s.fill, s.nextFillId, s.fill.fill, s.nextFillId);
      }
    case _ =>
      var s' := FillStep(s, a);
      assert a == Allocate && s'.fill != s.fill ==> PendingId(s'.fill) == {s.nextFillId};
      assert a != Allocate ==> PendingId(s'.fill) <= PendingId(s.fill);
      HoldKeepsIds(s.log.fills, s.fill, s.nextFillId, s'.fill, s'.nextFillId);
  }

  /** Every step keeps the fill ids unique. */
  lemma {:induction false} StepKeepsIds(s: State, a: Action)
    requires UniqueIds(s.log.fills, s.fill, s.nextFillId)
    ensures UniqueIds(Step(s, a).log.fills, Step(s, a).fill, Step(s, a).nextFillId)
  {
    match a
    case ByEngine(e) => EngineFrame(s, e);
    case ByTransport(t) => TransportFrame(s, t);
    case ByFills(f) => FillsKeepIds(s, f);
  }

  // ----- Synthesized fills

  predicate HasMeta(metas: seq<Meta>, order: nat) {
    exists i :: 0 <= i < |metas| && metas[i].order == order
  }

  /** Every synthesized fill, published or about to be, has meta that was published before. */
  predicate MetaFirst(fills: seq<Fill>, metas: seq<Meta>, at: FillAt) {
    && (forall i :: 0 <= i < |fills| && fills[i].synthesized ==> HasMeta(metas, fills[i].order))
    && (at.Publishing? ==> HasMeta(metas, at.fill.order))
    && (at.Emitting? ==> !at.fill.synthesized)
  }

  predicate Synthesized(s: State) {
    && MetaFirst(s.log.fills, s.log.metas, s.fill)
    && IsSuffix(s.fills, s.log.fills) && IsSuffix(s.metas, s.log.metas)
  }

  lemma {:induction false} MetaGrows(metas: seq<Meta>, m: Meta)
    ensures HasMeta(metas + [m], m.order)
    ensures forall o :: HasMeta(metas, o) ==> HasMeta(metas + [m], o)
  {
    assert (metas + [m])[|metas|] == m;
    forall o | HasMeta(metas, o)
      ensures HasMeta(metas + [m], o)
    {
      var i :| 0 <= i < |metas| && metas[i].order == o;
      assert (metas + [m])[i].order == o;
    }
  }

  lemma {:induction false} FillsKeepMeta(s: State, a: FillAction)
    requires Synthesized(s)
    ensures Synthesized(FillStep(s, a))
  {
    match a
    case Emit =>
      if s.fill.Emitting? {
        SuffixAppend(s.fills, s.log.fills, s.fill.fill.(id := s.nextFillId));
      }
    case Publish =>
      if s.fill.Publishing? {
        SuffixAppend(s.fills, s.log.fills, s.fill.fill);
      }
    case Handle(_, order, opener, _, _, _) =>
      if s.fill.Calling? {
        MetaGrows(s.log.metas, Meta(order, opener));
        SuffixAppend(s.metas, s.log.metas, Meta(order, opener));
      }
    case _ =>
  }

  /** Every step keeps the meta of synthesized fills ahead of them. */
  lemma {:induction false} StepKeepsMeta(s: State, a: Action)
    requires Synthesized(s)
    ensures Synthesized(Step(s, a))
  {
    match a
    case ByEngine(e) =>
      EngineFrame(s, e);
      SuffixEmpty(s.log.fills);
      SuffixEmpty(s.log.metas);
    case ByTransport(t) => TransportFrame(s, t);
    case ByFills(f) => FillsKeepMeta(s, f);
  }

  // ----- Messages taken in and the fills they cause

  /** Quantity filled on an order by the messages taken in. */
  function FilledQty(taken: seq<Taken>, order: nat): real {
    if taken == [] then 0.0
    else
      var t := taken[|taken| - 1];
      FilledQty(taken[..|taken| - 1], order) + if t.engine == order && IsFill(t.kind) then t.qty else 0.0
  }

  /** What an ordinary fill says. */
  datatype Leg = Leg(order: nat, qty: real, price: real, remaining: real)

  /** The fill due for the last message: what remains is the total less everything filled so far. */
  function DueLeg(taken: seq<Taken>, totals: map<nat, real>): Leg
    requires taken != []
  {
    var t := taken[|taken| - 1];
    var total := if t.engine in totals then totals[t.engine] else 0.0;
    Leg(t.engine, t.qty, t.price,
        if t.kind == PartialFill && total > 0.0 then Max(0.0, total - FilledQty(taken, t.engine)) else 0.0)
  }

  /** The ordinary fills due for the messages taken in, in order. */
  function DueLegs(taken: seq<Taken>, totals: map<nat, real>): seq<Leg> {
    if taken == [] then []
    else
      var before := DueLegs(taken[..|taken| - 1], totals);
      if IsFill(taken[|taken| - 1].kind) then before + [DueLeg(taken, totals)] else before
  }

  function LegOf(f: Fill): Leg {
    Leg(f.order, f.qty, f.price, f.remaining)
  }

  /** The ordinary fills among those published. */
  function OrdinaryLegs(fills: seq<Fill>): seq<Leg> {
    if fills == [] then []
    else
      var before := OrdinaryLegs(fills[..|fills| - 1]);
      var f := fills[|fills| - 1];
      if f.synthesized then before else before + [LegOf(f)]
  }

  function PendingLeg(at: FillAt): seq<Leg> {
    if at.Emitting? then [LegOf(at.fill)] else []
  }

  /** Tracked orders know their total and what was filled so far. */
  predicate Tracks(byEngine: map<nat, Tracked>, taken: seq<Taken>, totals: map<nat, real>) {
    forall e :: e in byEngine ==>
      e in totals && byEngine[e].total == totals[e] && byEngine[e].cumulative == FilledQty(taken, e)
  }

  predicate TakenKnown(taken: seq<Taken>, totals: map<nat, real>) {
    forall i :: 0 <= i < |taken| ==> taken[i].engine in totals
  }

  /** Nothing is taken in for an order after its terminal message. */
  predicate NoneAfterTerminal(taken: seq<Taken>) {
    forall i, j :: 0 <= i < j < |taken| && IsTerminal(taken[i].kind) ==> taken[i].engine != taken[j].engine
  }

  predicate TerminalGone(taken: seq<Taken>, byEngine: map<nat, Tracked>) {
    forall i :: 0 <= i < |taken| && IsTerminal(taken[i].kind) ==> taken[i].engine !in byEngine
  }

  /** Ordinary fills are exactly those due for the messages taken in, in order, and none is due
      after a terminal message. */
  predicate Accounted(s: State) {
    && s.log.totalOf.Keys == s.log.clientOf.Keys
    && Tracks(s.byEngine, s.log.taken, s.log.totalOf)
    && TakenKnown(s.log.taken, s.log.totalOf)
    && NoneAfterTerminal(s.log.taken)
    && TerminalGone(s.log.taken, s.byEngine)
    && OrdinaryLegs(s.log.fills) + PendingLeg(s.fill) == DueLegs(s.log.taken, s.log.totalOf)
    && (s.fill.Publishing? ==> s.fill.fill.synthesized)
  }

  lemma {:induction false} FilledNone(taken: seq<Taken>, totals: map<nat, real>, order: nat)
    requires TakenKnown(taken, totals) && order !in totals
    ensures FilledQty(taken, order) == 0.0
  {
    if taken != [] {
      FilledNone(taken[..|taken| - 1], totals, order);
    }
  }

  lemma {:induction false} DueLegsStable(taken: seq<Taken>, totals: map<nat, real>, order: nat, total: real)
    requires TakenKnown(taken, totals) && order !in totals
    ensures DueLegs(taken, totals[order := total]) == DueLegs(taken, totals)
  {
    if taken != [] {
      DueLegsStable(taken[..|taken| - 1], totals, order, total);
    }
  }

  lemma {:induction false} InsertKeepsAccounts(s: State, order: nat, client: string, symbol: string, total: real)
    requires Accounted(s) && FreshOrder(s, order, client) && s.engine == Idle
    ensures Accounted(DoInsert(s, order, client, symbol, total))
  {
    assert order !in s.log.totalOf;
    FilledNone(s.log.taken, s.log.totalOf, order);
    DueLegsStable(s.log.taken, s.log.totalOf, order, total);
    var s' := DoInsert(s, order, client, symbol, total);
    assert s'.log.totalOf.Keys == s.log.totalOf.Keys + {order} && s'.log.clientOf.Keys == s.log.clientOf.Keys + {order};
  }

  lemma {:induction false} ShrinkKeepsAccounts(s: State, s': State)
    requires Accounted(s) && Shrinks(s.byEngine, s'.byEngine) && s'.fill == s.fill
    requires s'.log == s.log.(answered := s'.log.answered, results := s'.log.results)
    ensures Accounted(s')
  {
  }

  lemma {:induction false} TransportKeepsAccounts(s: State, a: TransportAction)
    requires Accounted(s)
    ensures Accounted(TransportStep(s, a))
  {
    TransportFrame(s, a);
    if !a.Pop? && !a.Post? {
      TransportWorks(s, a);
    }
    ShrinkKeepsAccounts(s, TransportStep(s, a));
  }

  /** Taking in one more message. */
  lemma {:induction false} TakeOne(taken: seq<Taken>, t: Taken, order: nat)
    ensures FilledQty(taken + [t], order)
            == FilledQty(taken, order) + if t.engine == order && IsFill(t.kind) then t.qty else 0.0
  {
    assert (taken + [t])[..|taken|] == taken;
  }

  lemma {:induction false} CommitKeepsOrders(s: State, e: nat, msg: Message)
    requires Accounted(s) && e in s.byEngine
    ensures var taken := s.log.taken + [Taken(e, msg.kind, msg.qty, msg.price)];
      var byEngine := if IsTerminal(msg.kind) then s.byEngine - {e} else s.byEngine[e := Noted(s.byEngine[e], msg)];
      && Tracks(byEngine, taken, s.log.totalOf) && TakenKnown(taken, s.log.totalOf)
      && NoneAfterTerminal(taken) && TerminalGone(taken, byEngine)
  {
    var taken := s.log.taken + [Taken(e, msg.kind, msg.qty, msg.price)];
    var byEngine := if IsTerminal(msg.kind) then s.byEngine - {e} else s.byEngine[e := Noted(s.byEngine[e], msg)];
    forall d | d in byEngine
      ensures d in s.log.totalOf && byEngine[d].total == s.log.totalOf[d]
              && byEngine[d].cumulative == FilledQty(taken, d)
    {
      assert d in s.byEngine;
      TakeOne(s.log.taken, Taken(e, msg.kind, msg.qty, msg.price), d);
    }
  }

  lemma {:induction false} CommitDue(s: State, e: nat, msg: Message)
    requires Accounted(s) && e in s.byEngine && !s.fill.Emitting?
    ensures var taken := s.log.taken + [Taken(e, msg.kind, msg.qty, msg.price)];
      DueLegs(taken, s.log.totalOf) == OrdinaryLegs(s.log.fills) +
        if IsFill(msg.kind) then [Leg(e, msg.qty, msg.price, Left(Noted(s.byEngine[e], msg), msg.kind))] else []
  {
    var t := Taken(e, msg.kind, msg.qty, msg.price);
    DueOne(s.log.taken, t, s.log.totalOf);
    assert PendingLeg(s.fill) == [];
    assert OrdinaryLegs(s.log.fills) + [] == OrdinaryLegs(s.log.fills);
    if IsFill(msg.kind) {
      assert s.byEngine[e].total == s.log.totalOf[e] && s.byEngine[e].cumulative == FilledQty(s.log.taken, e);
    }
  }

  lemma {:induction false} DueOne(taken: seq<Taken>, t: Taken, totals: map<nat, real>)
    requires t.engine in totals
    ensures DueLegs(taken + [t], totals) == DueLegs(taken, totals) +
      if !IsFill(t.kind) then []
      else [Leg(t.engine, t.qty, t.price,
                if t.kind == PartialFill && totals[t.engine] > 0.0
                then Max(0.0, totals[t.engine] - (FilledQty(taken, t.engine) + t.qty)) else 0.0)]
  {
    assert (taken + [t])[..|taken|] == taken;
    TakeOne(taken, t, t.engine);
  }

  lemma {:induction false} CommitKeepsAccounts(s: State)
    requires Accounted(s)
    ensures Accounted(DoCommit(s))
  {
    if s.fill.Known? {
      var msg := s.fill.msg;
      if msg.client in s.byClient && s.byClient[msg.client] in s.byEngine {
        var e := s.byClient[msg.client];
        CommitKeepsOrders(s, e, msg);
        CommitDue(s, e, msg);
      }
    }
  }

  lemma {:induction false} OrdinaryAppend(fills: seq<Fill>, f: Fill)
    ensures OrdinaryLegs(fills + [f]) == OrdinaryLegs(fills) + if f.synthesized then [] else [LegOf(f)]
  {
    assert (fills + [f])[..|fills|] == fills;
  }

  lemma {:induction false} EmitKeepsAccounts(s: State)
    requires Accounted(s) && Synthesized(s)
    ensures Accounted(DoEmit(s))
  {
    if s.fill.Emitting? {
      OrdinaryAppend(s.log.fills, s.fill.fill.(id := s.nextFillId));
    }
  }

  lemma {:induction false} PublishKeepsAccounts(s: State)
    requires Accounted(s) && Synthesized(s)
    ensures Accounted(DoPublish(s))
  {
    if s.fill.Publishing? {
      OrdinaryAppend(s.log.fills, s.fill.fill);
    }
  }

  lemma {:induction false} QuietFills(s: State, a: FillAction)
    requires !a.Commit? && !a.Emit? && !a.Publish? && (s.fill.Publishing? ==> s.fill.fill.synthesized)
    ensures var s' := FillStep(s, a);
      && s'.byEngine == s.byEngine && PendingLeg(s'.fill) == PendingLeg(s.fill)
      && s'.log == s.log.(metas := s'.log.metas) && (s'.fill.Publishing? ==> s'.fill.fill.synthesized)
  {
  }

  lemma {:induction false} QuietKeepsAccounts(s: State, s': State)
    requires Accounted(s) && s'.byEngine == s.byEngine && PendingLeg(s'.fill) == PendingLeg(s.fill)
    requires s'.log == s.log.(metas := s'.log.metas) && (s'.fill.Publishing? ==> s'.fill.fill.synthesized)
    ensures Accounted(s')
  {
  }

  lemma {:induction false} FillsKeepAccounts(s: State, a: FillAction)
    requires Accounted(s) && Synthesized(s)
    ensures Accounted(FillStep(s, a))
  {
    match a
    case Commit => CommitKeepsAccounts(s);
    case Emit => EmitKeepsAccounts(s);
    case Publish => PublishKeepsAccounts(s);
    case _ =>
      QuietFills(s, a);
      QuietKeepsAccounts(s, FillStep(s, a));
  }

  lemma {:induction false} EngineKeepsAccounts(s: State, a: EngineAction)
    requires Accounted(s) && Fresh(s, ByEngine(a))
    ensures Accounted(EngineStep(s, a))
  {
    if a.Insert? && s.engine == Idle {
      InsertKeepsAccounts(s, a.order, a.client, a.symbol, a.total);
    }
  }

  // ----- Every interleaving

  predicate Safe(s: State) {
    Maps(s) && Fifo(s) && UniqueIds(s.log.fills, s.fill, s.nextFillId) && Synthesized(s) && Accounted(s)
  }

  lemma {:induction false} StepKeepsSafe(s: State, a: Action)
    requires Safe(s) && Fresh(s, a)
    ensures Safe(Step(s, a))
  {
    StepKeepsMaps(s, a);
    StepKeepsFifo(s, a);
    StepKeepsIds(s, a);
    StepKeepsMeta(s, a);
    match a
    case ByEngine(e) => EngineKeepsAccounts(s, e);
    case ByTransport(t) => TransportKeepsAccounts(s, t);
    case ByFills(f) => FillsKeepAccounts(s, f);
  }

  lemma {:induction false} StartMaps()
    ensures Maps(START)
  {
  }

  lemma {:induction false} StartFifo()
    ensures Fifo(START)
  {
    assert InOrder([], [], Waiting, []);
  }

  lemma {:induction false} StartAccounted()
    ensures Synthesized(START) && Accounted(START)
  {
  }

  lemma {:induction false} StartIsSafe()
    ensures Safe(START)
  {
    StartMaps();
    StartFifo();
    StartAccounted();
  }

  lemma {:induction false} FreshPrefix(s: State, actions: seq<Action>, n: nat)
    requires FreshRun(s, actions) && n <= |actions|
    ensures FreshRun(s, actions[..n])
  {
    forall i | 0 <= i < n
      ensures Fresh(Run(s, actions[..n][..i]), actions[..n][i])
    {
      assert actions[..n][..i] == actions[..i];
      assert Fresh(Run(s, actions[..i]), actions[i]);
    }
  }

  lemma {:induction false} RunKeepsSafe(s: State, actions: seq<Action>)
    requires Safe(s) && FreshRun(s, actions)
    ensures Safe(Run(s, actions))
    decreases |actions|
  {
    if actions != [] {
      var n := |actions| - 1;
      FreshPrefix(s, actions, n);
      RunKeepsSafe(s, actions[..n]);
      assert Fresh(Run(s, actions[..n]), actions[n]);
      StepKeepsSafe(Run(s, actions[..n]), actions[n]);
    }
  }

  /** In every interleaving: the maps are inverses, requests are answered in order and none is lost,
      fill ids are unique, synthesized fills follow their meta, and ordinary fills are exactly those
      due, none after a terminal message. */
  lemma {:induction false} RunIsSafe(actions: seq<Action>)
    requires FreshRun(START, actions)
    ensures Safe(Run(START, actions))
  {
    StartIsSafe();
    RunKeepsSafe(START, actions);
  }

  // ----- Draining meta and fills

  lemma {:induction false} MetasOnlyGrow(s: State, actions: seq<Action>)
    ensures s.log.metas <= Run(s, actions).log.metas
    decreases |actions|
  {
    if actions != [] {
      var n := |actions| - 1;
      MetasOnlyGrow(s, actions[..n]);
      StepGrowsMetas(Run(s, actions[..n]), actions[n]);
    }
  }

  lemma {:induction false} StepGrowsMetas(s: State, a: Action)
    ensures s.log.metas <= Step(s, a).log.metas
  {
    match a
    case ByEngine(e) => EngineFrame(s, e);
    case ByTransport(t) => TransportFrame(s, t);
    case ByFills(f) =>
  }

  /** The metas that the engine has drained: all but the ones still queued. */
  function Drained(s: State): seq<Meta>
    requires Synthesized(s)
  {
    s.log.metas[..|s.log.metas| - |s.metas|]
  }

  lemma {:induction false} HasMetaGrows(metas: seq<Meta>, more: seq<Meta>, order: nat)
    requires metas <= more && HasMeta(metas, order)
    ensures HasMeta(more, order)
  {
    var i :| 0 <= i < |metas| && metas[i].order == order;
    assert more[i] == metas[i];
  }

  lemma {:induction false} RunKeepsSynthesized(s: State, actions: seq<Action>)
    requires Synthesized(s)
    ensures Synthesized(Run(s, actions))
    decreases |actions|
  {
    if actions != [] {
      var n := |actions| - 1;
      RunKeepsSynthesized(s, actions[..n]);
      StepKeepsMeta(Run(s, actions[..n]), actions[n]);
    }
  }

  /** Draining the fills first and the metas at any later time, every synthesized fill drained has
      its meta drained as well, whatever the other threads do in between. */
  lemma {:induction false} FillsThenMetasIsSafe(s: State, between: seq<Action>, f: Fill)
    requires Synthesized(s) && f in s.fills && f.synthesized
    ensures var later := Step(Run(s, between), ByEngine(PollMetas));
      Synthesized(later) && HasMeta(Drained(later), f.order)
  {
    assert f in s.log.fills;
    var i :| 0 <= i < |s.log.fills| && s.log.fills[i] == f;
    assert HasMeta(s.log.metas, f.order);
    MetasOnlyGrow(s, between);
    RunKeepsSynthesized(s, between);
    var mid := Run(s, between);
    StepKeepsMeta(mid, ByEngine(PollMetas));
    HasMetaGrows(s.log.metas, mid.log.metas, f.order);
    var later := Step(mid, ByEngine(PollMetas));
    assert Drained(later) == mid.log.metas;
  }

  /** The meta a step publishes. */
  function AnnouncedBy(s: State, a: Action): seq<Meta> {
    if a.ByFills? && a.f.Handle? && a.f.accepted && s.fill.Calling? then [Meta(a.f.order, a.f.opener)] else []
  }

  lemma {:induction false} FillMetas(s: State, a: FillAction)
    ensures FillStep(s, a).metas == s.metas + AnnouncedBy(s, ByFills(a))
    ensures FillStep(s, a).log.metas == s.log.metas + AnnouncedBy(s, ByFills(a))
  {
  }

  /** Metas are published at the end and drained by polling only. */
  lemma {:induction false} StepMetas(s: State, a: Action)
    requires a != ByEngine(PollMetas)
    ensures Step(s, a).metas == s.metas + AnnouncedBy(s, a) && Step(s, a).log.metas == s.log.metas + AnnouncedBy(s, a)
  {
    match a
    case ByEngine(e) => EngineFrame(s, e);
    case ByTransport(t) => TransportFrame(s, t);
    case ByFills(f) => FillMetas(s, f);
  }

  lemma {:induction false} StepKeepsDrained(s: State, a: Action)
    requires Synthesized(s) && a != ByEngine(PollMetas)
    ensures Synthesized(Step(s, a)) && Drained(Step(s, a)) == Drained(s)
  {
    StepKeepsMeta(s, a);
    StepMetas(s, a);
    var more := AnnouncedBy(s, a);
    assert (s.log.metas + more)[..|s.log.metas| - |s.metas|] == s.log.metas[..|s.log.metas| - |s.metas|];
  }

  lemma {:induction false} RunKeepsDrained(s: State, between: seq<Action>)
    requires Synthesized(s) && ByEngine(PollMetas) !in between
    ensures Synthesized(Run(s, between)) && Drained(Run(s, between)) == Drained(s)
    decreases |between|
  {
    if between != [] {
      var n := |between| - 1;
      RunKeepsDrained(s, between[..n]);
      StepKeepsDrained(Run(s, between[..n]), between[n]);
    }
  }

  /** The metas a run publishes. */
  function Announced(s: State, actions: seq<Action>): seq<Meta>
    decreases |actions|
  {
    if actions == [] then []
    else
      var n := |actions| - 1;
      Announced(s, actions[..n]) + AnnouncedBy(Run(s, actions[..n]), actions[n])
  }

  lemma {:induction false} RunMetas(s: State, between: seq<Action>)
    requires ByEngine(PollMetas) !in between
    ensures Run(s, between).log.metas == s.log.metas + Announced(s, between)
    decreases |between|
  {
    if between != [] {
      var n := |between| - 1;
      RunMetas(s, between[..n]);
      StepMetas(Run(s, between[..n]), between[n]);
    }
  }

  lemma {:induction false} HasMetaConcat(metas: seq<Meta>, more: seq<Meta>, order: nat)
    ensures HasMeta(metas + more, order) <==> HasMeta(metas, order) || HasMeta(more, order)
  {
    if HasMeta(metas, order) {
      HasMetaGrows(metas, metas + more, order);
    }
    if HasMeta(more, order) {
      var i :| 0 <= i < |more| && more[i].order == order;
      assert (metas + more)[|metas| + i] == more[i];
    }
  }

  /** Draining the metas first, as the engine does: of the synthesized fills there are at a later
      drain, exactly those announced in between lack their meta. The handler takes a new order id for
      each. */
  lemma {:induction false} MetasThenFillsIff(s: State, between: seq<Action>, f: Fill)
    requires Synthesized(s) && ByEngine(PollMetas) !in between
    requires forall o :: HasMeta(Announced(Step(s, ByEngine(PollMetas)), between), o) ==> !HasMeta(s.log.metas, o)
    requires f in Run(Step(s, ByEngine(PollMetas)), between).fills && f.synthesized
    ensures var polled := Step(s, ByEngine(PollMetas));
      && Synthesized(Run(polled, between))
      && (HasMeta(Drained(Run(polled, between)), f.order) <==> !HasMeta(Announced(polled, between), f.order))
  {
    var polled := Step(s, ByEngine(PollMetas));
    StepKeepsMeta(s, ByEngine(PollMetas));
    assert Drained(polled) == s.log.metas;
    RunKeepsDrained(polled, between);
    RunMetas(polled, between);
    HasMetaConcat(s.log.metas, Announced(polled, between), f.order);
    var later := Run(polled, between);
    assert f in later.log.fills;
    var i :| 0 <= i < |later.log.fills| && later.log.fills[i] == f;
    assert HasMeta(later.log.metas, f.order);
  }

  lemma {:induction false} RunOne(s: State, a: Action)
    ensures Run(s, [a]) == Step(s, a)
  {
    assert [a][..0] == [];
    assert Run(s, []) == s;
  }

  lemma {:induction false} RunMore(s: State, actions: seq<Action>, a: Action)
    ensures Run(s, actions + [a]) == Step(Run(s, actions), a)
  {
    assert (actions + [a])[..|actions|] == actions;
  }

  /** Draining in the engine's own order, metas and then fills, a synthesized fill can come out while
      its meta is still queued. */
  lemma {:induction false} MetasThenFillsCanMiss(msg: Message, order: nat, opener: nat)
    requires msg.exchange != ""
    ensures var s := Run(START, [ByEngine(SetHandler(true))] + [ByEngine(PollMetas)] + [ByFills(Receive(msg))]
                                + [ByFills(ReadHandler)] + [ByFills(Allocate)]
                                + [ByFills(Handle(true, order, opener, 1.0, 1.0, 0.0))] + [ByFills(Publish)]);
      && s.metas == [Meta(order, opener)] && s.log.metas == s.metas
      && s.fills == [Fill(order, 1.0, 1.0, 0.0, 1, true)]
  {
    var as0 := [ByEngine(SetHandler(true))] + [ByEngine(PollMetas)];
    var s0 := Run(START, as0);
    RunOne(START, ByEngine(SetHandler(true)));
    RunMore(START, [ByEngine(SetHandler(true))], ByEngine(PollMetas));
    assert s0 == START.(handler := true);
    var as1 := as0 + [ByFills(Receive(msg))];
    RunMore(START, as0, ByFills(Receive(msg)));
    assert Run(START, as1) == s0.(fill := Unknown(msg));
    var as2 := as1 + [ByFills(ReadHandler)];
    RunMore(START, as1, ByFills(ReadHandler));
    assert Run(START, as2) == s0.(fill := Allocating(msg));
    var as3 := as2 + [ByFills(Allocate)];
    RunMore(START, as2, ByFills(Allocate));
    assert Run(START, as3) == s0.(fill := Calling(msg, 1), nextFillId := 2);
    var h := ByFills(Handle(true, order, opener, 1.0, 1.0, 0.0));
    RunMore(START, as3, h);
    assert Run(START, as3 + [h]) == s0.(fill := Publishing(Fill(order, 1.0, 1.0, 0.0, 1, true)), nextFillId := 2,
                                        metas := [Meta(order, opener)], log := s0.log.(metas := [Meta(order, opener)]));
    RunMore(START, as3 + [h], ByFills(Publish));
  }

  // ----- Empty client ids

  predicate NoInsert(actions: seq<Action>) {
    forall i :: 0 <= i < |actions| ==> !(actions[i].ByEngine? && actions[i].e.Insert?)
  }

  /** `s'` follows from `s` without a new order. */
  ghost predicate Reaches(s: State, s': State) {
    exists actions :: NoInsert(actions) && Run(s, actions) == s'
  }

  lemma {:induction false} ReachesStep(s: State, s': State, a: Action)
    requires Reaches(s, s') && !(a.ByEngine? && a.e.Insert?)
    ensures Reaches(s, Step(s', a))
  {
    var actions :| NoInsert(actions) && Run(s, actions) == s';
    RunMore(s, actions, a);
    assert NoInsert(actions + [a]);
  }

  predicate SameMaps(s: State, s': State) {
    s'.byEngine == s.byEngine && s'.byClient == s.byClient
  }

  /** The transport thread can give up the request it works on. */
  lemma {:induction false} ReachesWaiting(s: State, s1: State) returns (s2: State)
    requires Reaches(s, s1)
    ensures Reaches(s, s2) && SameMaps(s1, s2) && s2.queue == s1.queue && s2.transport == Waiting
  {
    s2 := s1;
    if s2.transport.Popped? || s2.transport.Cancelling? {
      ReachesStep(s, s2, ByTransport(Throw));
      s2 := Step(s2, ByTransport(Throw));
    }
    if s2.transport.Posting? {
      ReachesStep(s, s2, ByTransport(Post));
      s2 := Step(s2, ByTransport(Post));
    }
  }

  /** The transport thread can come to the last request of the queue with the maps as they are. */
  lemma {:induction false} ReachesLast(s: State, s1: State) returns (s2: State)
    requires Reaches(s, s1) && s1.queue != []
    ensures Reaches(s, s2) && SameMaps(s1, s2) && s2.transport == Popped(s1.queue[|s1.queue| - 1])
    decreases |s1.queue|
  {
    var w := ReachesWaiting(s, s1);
    ReachesStep(s, w, ByTransport(Pop));
    s2 := Step(w, ByTransport(Pop));
    if s2.queue != [] {
      s2 := ReachesLast(s, s2);
    }
  }

  ghost predicate AlwaysInverse(s: State) {
    forall actions :: FreshRun(s, actions) ==> Inverse(Run(s, actions).byEngine, Run(s, actions).byClient)
  }

  /** An order with an empty client id can be left behind in one of the maps: its submission fails. */
  lemma {:induction false} EmptyClientBreaksInverse(s: State)
    requires s.engine.Pushing? && !s.engine.req.cancel && s.engine.req.client == ""
    requires "" in s.byClient && s.byClient[""] == s.engine.req.engine
    ensures !AlwaysInverse(s)
  {
    assert Run(s, []) == s && NoInsert([]);
    var pushed, fail := Step(s, ByEngine(Push)), ByTransport(SubmitDone(false, ""));
    ReachesStep(s, s, ByEngine(Push));
    var popped := ReachesLast(s, pushed);
    ReachesStep(s, popped, fail);
    var end := Step(popped, fail);
    assert "" in end.byClient && end.byClient[""] !in end.byEngine;
    assert !ClientOk(end.byEngine, end.byClient, "");
    var actions :| NoInsert(actions) && Run(s, actions) == end;
    assert FreshRun(s, actions);
  }

  /** A new order under unused ids leaves the maps inverse to each other for good exactly when its
      client id is not empty. */
  lemma {:induction false} InverseIffNamed(s: State, order: nat, client: string, symbol: string, total: real)
    requires Safe(s) && s.engine == Idle && order !in s.log.clientOf && client !in s.log.clientOf.Values
    ensures AlwaysInverse(Step(s, ByEngine(Insert(order, client, symbol, total)))) <==> client != ""
  {
    var insert := ByEngine(Insert(order, client, symbol, total));
    var s' := Step(s, insert);
    if client == "" {
      EmptyClientBreaksInverse(s');
    } else {
      StepKeepsSafe(s, insert);
      forall actions | FreshRun(s', actions)
        ensures Inverse(Run(s', actions).byEngine, Run(s', actions).byClient)
      {
        RunKeepsSafe(s', actions);
      }
    }
  }
}
