/** What the three threads of the bridge make of what happens outside: what the engine asked for, what
    the venue answered, what messages came in and what the unknown-fill handler made. The history is
    read off the actions of a run, and everything the bridge reports is compared with it.
 */
module BridgeHistory {
  import opened BridgeModel
  import opened BridgeSafety

  /** A deed from outside that took effect: a request of the engine, an answer of the venue (`thrown` if
      the call failed on the way), a message for a tracked order, a fill made by the handler. */
  datatype Deed =
    | Asked(engine: nat, client: string, symbol: string, cancel: bool)
    | Replied(engine: nat, cancel: bool, ok: bool, exchange: string, thrown: bool)
    | Came(engine: nat, kind: Kind, qty: real, price: real, exchange: string)
    | Made(order: nat, opener: nat, qty: real, price: real, remaining: real)

  function DeedOf(s: State, a: Action): seq<Deed> {
    match a
    case ByEngine(Insert(order, client, symbol, _)) =>
      if s.engine == Idle then [Asked(order, client, symbol, false)] else []
    case ByEngine(CancelLookup(order)) =>
      if s.engine == Idle && order in s.byEngine
      then [Asked(order, s.byEngine[order].client, s.byEngine[order].symbol, true)] else []
    case ByTransport(SubmitDone(ok, exchange)) =>
      if s.transport.Popped? && !s.transport.req.cancel
      then [Replied(s.transport.req.engine, false, ok, exchange, false)] else []
    case ByTransport(CancelDone(ok, exchange)) =>
      if s.transport.Cancelling? then [Replied(s.transport.req.engine, true, ok, exchange, false)] else []
    case ByTransport(Throw) =>
      if s.transport.Popped? || s.transport.Cancelling?
      then [Replied(s.transport.req.engine, s.transport.req.cancel, false, "", true)] else []
    case ByFills(Commit) =>
      if s.fill.Known? && s.fill.msg.client in s.byClient && s.byClient[s.fill.msg.client] in s.byEngine
      then [Came(s.byClient[s.fill.msg.client], s.fill.msg.kind, s.fill.msg.qty, s.fill.msg.price,
                 s.fill.msg.exchange)]
      else []
    case ByFills(Handle(accepted, order, opener, qty, price, remaining)) =>
      if s.fill.Calling? && accepted then [Made(order, opener, qty, price, remaining)] else []
    case _ => []
  }

  function History(actions: seq<Action>): seq<Deed>
    decreases |actions|
  {
    if actions == [] then []
    else
      var before := actions[..|actions| - 1];
      History(before) + DeedOf(Run(START, before), actions[|actions| - 1])
  }

  // ----- The kinds of deeds in a history

  function Asks(h: seq<Deed>): seq<Deed> {
    if h == [] then [] else Asks(h[..|h| - 1]) + if h[|h| - 1].Asked? then [h[|h| - 1]] else []
  }

  function Replies(h: seq<Deed>): seq<Deed> {
    if h == [] then [] else Replies(h[..|h| - 1]) + if h[|h| - 1].Replied? then [h[|h| - 1]] else []
  }

  function Messages(h: seq<Deed>): seq<Deed> {
    if h == [] then [] else Messages(h[..|h| - 1]) + if h[|h| - 1].Came? then [h[|h| - 1]] else []
  }

  function Makings(h: seq<Deed>): seq<Deed> {
    if h == [] then [] else Makings(h[..|h| - 1]) + if h[|h| - 1].Made? then [h[|h| - 1]] else []
  }

  lemma {:induction false} AsksMore(h: seq<Deed>, d: Deed)
    ensures Asks(h + [d]) == Asks(h) + if d.Asked? then [d] else []
  {
    assert (h + [d])[..|h|] == h;
  }

  lemma {:induction false} RepliesMore(h: seq<Deed>, d: Deed)
    ensures Replies(h + [d]) == Replies(h) + if d.Replied? then [d] else []
  {
    assert (h + [d])[..|h|] == h;
  }

  lemma {:induction false} MessagesMore(h: seq<Deed>, d: Deed)
    ensures Messages(h + [d]) == Messages(h) + if d.Came? then [d] else []
  {
    assert (h + [d])[..|h|] == h;
  }

  lemma {:induction false} MakingsMore(h: seq<Deed>, d: Deed)
    ensures Makings(h + [d]) == Makings(h) + if d.Made? then [d] else []
  {
    assert (h + [d])[..|h|] == h;
  }

  /** What kind of deed each thread lets in. */
  lemma {:induction false} DeedKinds(s: State, a: Action)
    ensures |DeedOf(s, a)| <= 1
    ensures DeedOf(s, a) != [] ==>
      match a
      case ByEngine(_) => DeedOf(s, a)[0].Asked?
      case ByTransport(_) => DeedOf(s, a)[0].Replied?
      case ByFills(f) => (f.Commit? && DeedOf(s, a)[0].Came?) || (f.Handle? && DeedOf(s, a)[0].Made?)
  {
  }

  lemma {:induction false} NoDeed(h: seq<Deed>, ds: seq<Deed>)
    requires |ds| <= 1
    ensures ds == [] ==> h + ds == h
    ensures ds != [] ==> ds == [ds[0]]
  {
  }

  // ----- Requests: what the engine asked for, in order

  /** A request as it was asked for. */
  function AskOf(q: Request): Deed {
    Asked(q.engine, q.client, q.symbol, q.cancel)
  }

  predicate AreAsks(qs: seq<Request>, asks: seq<Deed>) {
    |qs| == |asks| && forall i :: 0 <= i < |qs| ==> AskOf(qs[i]) == asks[i]
  }

  function Pushed(at: EngineAt): seq<Request> {
    if at.Pushing? then [at.req] else []
  }

  lemma {:induction false} MoreAsks(qs: seq<Request>, asks: seq<Deed>, q: Request)
    requires AreAsks(qs, asks)
    ensures AreAsks(qs + [q], asks + [AskOf(q)])
  {
  }

  lemma {:induction false} EngineAsks(s: State, e: EngineAction)
    ensures var s', ds := EngineStep(s, e), DeedOf(s, ByEngine(e));
      if ds == [] then s'.log.accepted + Pushed(s'.engine) == s.log.accepted + Pushed(s.engine)
      else s'.log.accepted == s.log.accepted && s.engine == Idle && s'.engine.Pushing? && ds == [AskOf(s'.engine.req)]
  {
  }

  lemma {:induction false} AsksEngine(s: State, e: EngineAction, h: seq<Deed>)
    requires AreAsks(s.log.accepted + Pushed(s.engine), Asks(h))
    ensures AreAsks(EngineStep(s, e).log.accepted + Pushed(EngineStep(s, e).engine), Asks(h + DeedOf(s, ByEngine(e))))
  {
    var s', ds := EngineStep(s, e), DeedOf(s, ByEngine(e));
    EngineAsks(s, e);
    if ds == [] {
      assert h + ds == h;
    } else {
      AsksMore(h, ds[0]);
      assert s.log.accepted + [] == s.log.accepted;
      MoreAsks(s.log.accepted, Asks(h), s'.engine.req);
    }
  }

  lemma {:induction false} AsksStep(s: State, a: Action, h: seq<Deed>)
    requires AreAsks(s.log.accepted + Pushed(s.engine), Asks(h))
    ensures AreAsks(Step(s, a).log.accepted + Pushed(Step(s, a).engine), Asks(h + DeedOf(s, a)))
  {
    var ds := DeedOf(s, a);
    DeedKinds(s, a);
    NoDeed(h, ds);
    match a
    case ByEngine(e) => AsksEngine(s, e, h);
    case ByTransport(t) =>
      TransportFrame(s, t);
      if ds != [] {
        AsksMore(h, ds[0]);
      }
    case ByFills(f) =>
      FillFrame(s, f);
      if ds != [] {
        AsksMore(h, ds[0]);
      }
  }

  // ----- Results: what the venue replied, in order

  /** Result `r` says what the venue replied; a call that threw counts as a refusal. */
  predicate SaysReply(r: Result, d: Deed) {
    d.Replied? && r.engine == d.engine && r.cancel == d.cancel && r.ok == d.ok && r.exchange == d.exchange
  }

  predicate AreReplies(rs: seq<Result>, replies: seq<Deed>) {
    |rs| == |replies| && forall i :: 0 <= i < |rs| ==> SaysReply(rs[i], replies[i])
  }

  function Posted(at: TransportAt): seq<Result> {
    if at.Posting? then [at.result] else []
  }

  lemma {:induction false} MoreReplies(rs: seq<Result>, replies: seq<Deed>, r: Result, d: Deed)
    requires AreReplies(rs, replies) && SaysReply(r, d)
    ensures AreReplies(rs + [r], replies + [d])
  {
  }

  /** A step of the transport thread either leaves what it has to post and hears nothing, or has nothing
      to post, hears a reply and is about to post it. */
  lemma {:induction false} TransportHears(s: State, t: TransportAction)
    requires !t.Post? && ResultMatches(s.transport)
    ensures var s', ds := TransportStep(s, t), DeedOf(s, ByTransport(t));
      if ds == [] then Posted(s'.transport) == Posted(s.transport)
      else |ds| == 1 && ds[0].Replied? && Posted(s.transport) == [] && |Posted(s'.transport)| == 1
           && SaysReply(Posted(s'.transport)[0], ds[0])
  {
  }

  lemma {:induction false} ReplyTransport(s: State, t: TransportAction, h: seq<Deed>)
    requires AreReplies(s.log.results + Posted(s.transport), Replies(h)) && ResultMatches(s.transport) && !t.Post?
    ensures var s' := TransportStep(s, t);
      AreReplies(s'.log.results + Posted(s'.transport), Replies(h + DeedOf(s, ByTransport(t))))
  {
    var s', ds := TransportStep(s, t), DeedOf(s, ByTransport(t));
    LogKept(s, t);
    TransportHears(s, t);
    NoDeed(h, ds);
    if ds != [] {
      RepliesMore(h, ds[0]);
      assert s.log.results + [] == s.log.results;
      assert Posted(s'.transport) == [Posted(s'.transport)[0]];
      MoreReplies(s.log.results, Replies(h), Posted(s'.transport)[0], ds[0]);
    }
  }

  lemma {:induction false} PostKeepsReplies(s: State)
    ensures DoPost(s).log.results + Posted(DoPost(s).transport) == s.log.results + Posted(s.transport)
    ensures DeedOf(s, ByTransport(Post)) == []
  {
  }

  lemma {:induction false} RepliesStep(s: State, a: Action, h: seq<Deed>)
    requires AreReplies(s.log.results + Posted(s.transport), Replies(h)) && ResultMatches(s.transport)
    ensures AreReplies(Step(s, a).log.results + Posted(Step(s, a).transport), Replies(h + DeedOf(s, a)))
  {
    var ds := DeedOf(s, a);
    DeedKinds(s, a);
    NoDeed(h, ds);
    match a
    case ByEngine(e) =>
      EngineFrame(s, e);
      if ds != [] {
        RepliesMore(h, ds[0]);
      }
    case ByTransport(t) =>
      if t.Post? {
        PostKeepsReplies(s);
      } else {
        ReplyTransport(s, t, h);
      }
    case ByFills(f) =>
      FillFrame(s, f);
      if ds != [] {
        RepliesMore(h, ds[0]);
      }
  }

  lemma {:induction false} LogKept(s: State, t: TransportAction)
    requires !t.Post?
    ensures TransportStep(s, t).log == s.log
  {
    if !t.Pop? {
      TransportWorks(s, t);
    }
  }

  // ----- Messages and made fills

  predicate AreTaken(ts: seq<Taken>, messages: seq<Deed>) {
    && |ts| == |messages|
    && forall i :: 0 <= i < |ts| ==>
         && messages[i].Came?
         && ts[i] == Taken(messages[i].engine, messages[i].kind, messages[i].qty, messages[i].price)
  }

  lemma {:induction false} FillsTake(s: State, f: FillAction)
    ensures var s', ds := FillStep(s, f), DeedOf(s, ByFills(f));
      s'.log.taken == s.log.taken + if ds != [] && ds[0].Came?
                                    then [Taken(ds[0].engine, ds[0].kind, ds[0].qty, ds[0].price)] else []
  {
  }

  lemma {:induction false} MessagesStep(s: State, a: Action, h: seq<Deed>)
    requires AreTaken(s.log.taken, Messages(h))
    ensures AreTaken(Step(s, a).log.taken, Messages(h + DeedOf(s, a)))
  {
    var ds := DeedOf(s, a);
    DeedKinds(s, a);
    NoDeed(h, ds);
    if ds != [] {
      MessagesMore(h, ds[0]);
    }
    match a
    case ByEngine(e) => EngineFrame(s, e);
    case ByTransport(t) => TransportFrame(s, t);
    case ByFills(f) => FillsTake(s, f);
  }

  /** Published fill `f` is the one the handler made. */
  predicate IsMade(f: Fill, d: Deed) {
    d.Made? && f.order == d.order && f.qty == d.qty && f.price == d.price && f.remaining == d.remaining
  }

  function Synthetic(fills: seq<Fill>): seq<Fill> {
    if fills == [] then []
    else Synthetic(fills[..|fills| - 1]) + if fills[|fills| - 1].synthesized then [fills[|fills| - 1]] else []
  }

  function Publishes(at: FillAt): seq<Fill> {
    if at.Publishing? then [at.fill] else []
  }

  predicate AreMade(fills: seq<Fill>, makings: seq<Deed>) {
    |fills| == |makings| && forall i :: 0 <= i < |fills| ==> IsMade(fills[i], makings[i])
  }

  predicate AreAnnounced(metas: seq<Meta>, makings: seq<Deed>) {
    && |metas| == |makings|
    && forall i :: 0 <= i < |metas| ==> makings[i].Made? && metas[i] == Meta(makings[i].order, makings[i].opener)
  }

  lemma {:induction false} SyntheticMore(fills: seq<Fill>, f: Fill)
    ensures Synthetic(fills + [f]) == Synthetic(fills) + if f.synthesized then [f] else []
  {
    assert (fills + [f])[..|fills|] == fills;
  }

  /** Ordinary fills on their way are told from made ones. */
  predicate Sorted(at: FillAt) {
    && (at.Publishing? ==> at.fill.synthesized)
    && (at.Emitting? ==> !at.fill.synthesized)
  }

  /** What the fill thread does with made fills: it takes one on, or publishes what it has, or neither. */
  lemma {:induction false} FillsMake(s: State, f: FillAction)
    requires Sorted(s.fill)
    ensures var s', ds := FillStep(s, f), DeedOf(s, ByFills(f));
      && Sorted(s'.fill)
      && if ds == [] || !ds[0].Made?
         then Synthetic(s'.log.fills) + Publishes(s'.fill) == Synthetic(s.log.fills) + Publishes(s.fill)
              && s'.log.metas == s.log.metas
         else s'.log.fills == s.log.fills && Publishes(s.fill) == [] && s'.fill.Publishing?
              && IsMade(s'.fill.fill, ds[0]) && s'.log.metas == s.log.metas + [Meta(ds[0].order, ds[0].opener)]
  {
    match f
    case Emit => EmitMakesNothing(s);
    case Publish => PublishMakesNothing(s);
    case Commit => CommitMakesNothing(s);
    case _ =>
  }

  /** No fill is taken on or published by a step to `s'`, or one that was taken on is published. */
  predicate MakesNothing(s: State, s': State) {
    && Sorted(s'.fill) && s'.log.metas == s.log.metas
    && Synthetic(s'.log.fills) + Publishes(s'.fill) == Synthetic(s.log.fills) + Publishes(s.fill)
  }

  lemma {:induction false} EmitMakesNothing(s: State)
    requires Sorted(s.fill)
    ensures MakesNothing(s, DoEmit(s))
  {
    if s.fill.Emitting? {
      SyntheticMore(s.log.fills, s.fill.fill.(id := s.nextFillId));
    }
  }

  lemma {:induction false} PublishMakesNothing(s: State)
    requires Sorted(s.fill)
    ensures MakesNothing(s, DoPublish(s))
  {
    if s.fill.Publishing? {
      SyntheticMore(s.log.fills, s.fill.fill);
    }
  }

  lemma {:induction false} CommitMakesNothing(s: State)
    requires Sorted(s.fill)
    ensures MakesNothing(s, DoCommit(s))
  {
  }

  lemma {:induction false} MoreMade(fills: seq<Fill>, metas: seq<Meta>, makings: seq<Deed>, f: Fill, d: Deed)
    requires AreMade(fills, makings) && AreAnnounced(metas, makings) && IsMade(f, d)
    ensures AreMade(fills + [f], makings + [d]) && AreAnnounced(metas + [Meta(d.order, d.opener)], makings + [d])
  {
  }

  lemma {:induction false} MakingsFill(s: State, f: FillAction, h: seq<Deed>)
    requires Sorted(s.fill)
    requires AreMade(Synthetic(s.log.fills) + Publishes(s.fill), Makings(h)) && AreAnnounced(s.log.metas, Makings(h))
    ensures var s' := FillStep(s, f);
      var ms := Makings(h + DeedOf(s, ByFills(f)));
      Sorted(s'.fill) && AreMade(Synthetic(s'.log.fills) + Publishes(s'.fill), ms) && AreAnnounced(s'.log.metas, ms)
  {
    var s', ds := FillStep(s, f), DeedOf(s, ByFills(f));
    FillsMake(s, f);
    DeedKinds(s, ByFills(f));
    NoDeed(h, ds);
    if ds != [] {
      MakingsMore(h, ds[0]);
      if ds[0].Made? {
        assert Synthetic(s.log.fills) + [] == Synthetic(s.log.fills);
        MoreMade(Synthetic(s.log.fills), s.log.metas, Makings(h), s'.fill.fill, ds[0]);
      }
    }
  }

  lemma {:induction false} MakingsStep(s: State, a: Action, h: seq<Deed>)
    requires Sorted(s.fill)
    requires AreMade(Synthetic(s.log.fills) + Publishes(s.fill), Makings(h)) && AreAnnounced(s.log.metas, Makings(h))
    ensures var s' := Step(s, a);
      var ms := Makings(h + DeedOf(s, a));
      Sorted(s'.fill) && AreMade(Synthetic(s'.log.fills) + Publishes(s'.fill), ms) && AreAnnounced(s'.log.metas, ms)
  {
    var ds := DeedOf(s, a);
    DeedKinds(s, a);
    NoDeed(h, ds);
    if ds != [] {
      MakingsMore(h, ds[0]);
    }
    match a
    case ByEngine(e) => EngineFrame(s, e);
    case ByTransport(t) => TransportFrame(s, t);
    case ByFills(f) => MakingsFill(s, f, h);
  }

  // ----- Which orders are tracked, and under what

  /** The symbol each order was sent with. */
  function Symbols(h: seq<Deed>): map<nat, string> {
    if h == [] then map[]
    else
      var before, d := Symbols(h[..|h| - 1]), h[|h| - 1];
      if d.Asked? && !d.cancel then before[d.engine := d.symbol] else before
  }

  /** What ends an order: a submission refused or a cancel accepted by the venue itself, or a terminal
      message. */
  predicate Ends(d: Deed) {
    || (d.Replied? && !d.thrown && d.ok == d.cancel)
    || (d.Came? && IsTerminal(d.kind))
  }

  function Ended(h: seq<Deed>): set<nat> {
    if h == [] then {}
    else Ended(h[..|h| - 1]) + if Ends(h[|h| - 1]) then {h[|h| - 1].engine} else {}
  }

  /** The exchange id a deed tells for order `e`. */
  function Tells(d: Deed, e: nat): string {
    if d.Replied? && d.engine == e && !d.cancel && d.ok then d.exchange
    else if d.Came? && d.engine == e then d.exchange
    else ""
  }

  /** The first exchange id that was told for an order. */
  function Exchange(h: seq<Deed>, e: nat): string {
    if h == [] then ""
    else
      var before := Exchange(h[..|h| - 1], e);
      if before != "" then before else Tells(h[|h| - 1], e)
  }

  predicate KnownDeeds(h: seq<Deed>, names: map<nat, string>) {
    forall i :: 0 <= i < |h| && !h[i].Made? ==> h[i].engine in names
  }

  /** The tracked orders are those sent and not ended, each with its symbol and first exchange id. */
  ghost predicate TracksHistory(s: State, h: seq<Deed>) {
    && Symbols(h).Keys == s.log.clientOf.Keys && KnownDeeds(h, s.log.clientOf)
    && (forall e :: e in s.byEngine <==> e in Symbols(h) && e !in Ended(h))
    && (forall e :: e in s.byEngine ==>
          s.byEngine[e].symbol == Symbols(h)[e] && s.byEngine[e].exchange == Exchange(h, e))
  }

  lemma {:induction false} DeedMore(h: seq<Deed>, d: Deed)
    ensures Symbols(h + [d]) == if d.Asked? && !d.cancel then Symbols(h)[d.engine := d.symbol] else Symbols(h)
    ensures Ended(h + [d]) == Ended(h) + if Ends(d) then {d.engine} else {}
    ensures forall e :: Exchange(h + [d], e) == if Exchange(h, e) != "" then Exchange(h, e) else Tells(d, e)
  {
    assert (h + [d])[..|h|] == h;
  }

  lemma {:induction false} EndedKnown(h: seq<Deed>, names: map<nat, string>)
    requires KnownDeeds(h, names)
    ensures forall e :: e in Ended(h) ==> e in names
    ensures forall e :: e !in names ==> Exchange(h, e) == ""
  {
    if h != [] {
      assert KnownDeeds(h[..|h| - 1], names);
      EndedKnown(h[..|h| - 1], names);
    }
  }

  lemma {:induction false} InsertTracks(s: State, h: seq<Deed>, order: nat, client: string, symbol: string, total: real)
    requires TracksHistory(s, h) && FreshOrder(s, order, client) && s.engine == Idle
    ensures TracksHistory(DoInsert(s, order, client, symbol, total), h + [Asked(order, client, symbol, false)])
  {
    DeedMore(h, Asked(order, client, symbol, false));
    EndedKnown(h, s.log.clientOf);
  }

  /** A deed that neither sends nor ends an order nor tells an exchange id, and leaves the orders alone. */
  lemma {:induction false} QuietTracks(s: State, s': State, h: seq<Deed>, d: Deed)
    requires TracksHistory(s, h) && s'.byEngine == s.byEngine && s'.log.clientOf == s.log.clientOf
    requires (d.Asked? ==> d.cancel) && !Ends(d) && (forall e :: Tells(d, e) == "")
    requires !d.Made? ==> d.engine in s.log.clientOf
    ensures TracksHistory(s', h + [d])
  {
    DeedMore(h, d);
  }

  lemma {:induction false} EndTracks(s: State, s': State, h: seq<Deed>, d: Deed)
    requires TracksHistory(s, h) && s'.log.clientOf == s.log.clientOf
    requires !d.Asked? && !d.Made? && Ends(d) && d.engine in s.log.clientOf && s'.byEngine == s.byEngine - {d.engine}
    ensures TracksHistory(s', h + [d])
  {
    DeedMore(h, d);
  }

  /** The same orders, each with the exchange id that `d` tells if it had none. */
  ghost predicate Told(m: map<nat, Tracked>, m': map<nat, Tracked>, d: Deed) {
    && m'.Keys == m.Keys
    && forall e :: e in m ==>
         && m'[e].symbol == m[e].symbol
         && m'[e].exchange == if m[e].exchange != "" then m[e].exchange else Tells(d, e)
  }

  lemma {:induction false} TellTracks(s: State, s': State, h: seq<Deed>, d: Deed)
    requires TracksHistory(s, h) && s'.log.clientOf == s.log.clientOf
    requires !d.Asked? && !d.Made? && !Ends(d) && d.engine in s.log.clientOf
    requires Told(s.byEngine, s'.byEngine, d)
    ensures TracksHistory(s', h + [d])
  {
    DeedMore(h, d);
    assert forall e :: e in s'.byEngine <==> e in s'.byEngine.Keys;
  }

  lemma {:induction false} SameTracks(s: State, s': State, h: seq<Deed>)
    requires TracksHistory(s, h) && s'.byEngine == s.byEngine && s'.log.clientOf == s.log.clientOf
    ensures TracksHistory(s', h + [])
  {
    assert h + [] == h;
  }

  lemma {:induction false} EngineTracks(s: State, e: EngineAction, h: seq<Deed>)
    requires TracksHistory(s, h) && Maps(s) && Fresh(s, ByEngine(e))
    ensures TracksHistory(EngineStep(s, e), h + DeedOf(s, ByEngine(e)))
  {
    var ds := DeedOf(s, ByEngine(e));
    if ds == [] {
      SameTracks(s, EngineStep(s, e), h);
    } else if e.Insert? {
      InsertTracks(s, h, e.order, e.client, e.symbol, e.total);
    } else {
      assert Named(s.log.clientOf, e.order, s.byEngine[e.order].client);
      QuietTracks(s, EngineStep(s, e), h, ds[0]);
    }
  }

  /** What a step from state `s` does to the tracked orders: nothing without a deed, takes out the order
      that a deed ends, and otherwise notes the exchange id it tells. */
  ghost predicate Heeds(s: State, s': State, ds: seq<Deed>) {
    && s'.log.clientOf == s.log.clientOf && |ds| <= 1
    && (ds == [] ==> s'.byEngine == s.byEngine)
    && (ds != [] ==>
          && !ds[0].Asked? && (!ds[0].Made? ==> ds[0].engine in s.log.clientOf)
          && (Ends(ds[0]) ==> s'.byEngine == s.byEngine - {ds[0].engine})
          && (!Ends(ds[0]) ==> Told(s.byEngine, s'.byEngine, ds[0])))
  }

  lemma {:induction false} SubmitHeeds(s: State, ok: bool, exchange: string)
    requires TransportNamed(s.log.clientOf, s.transport)
    ensures Heeds(s, DoSubmitDone(s, ok, exchange), DeedOf(s, ByTransport(SubmitDone(ok, exchange))))
  {
  }

  lemma {:induction false} CancelHeeds(s: State, ok: bool, exchange: string)
    requires TransportNamed(s.log.clientOf, s.transport)
    ensures Heeds(s, DoCancelDone(s, ok, exchange), DeedOf(s, ByTransport(CancelDone(ok, exchange))))
  {
  }

  lemma {:induction false} ThrowHeeds(s: State)
    requires TransportNamed(s.log.clientOf, s.transport)
    ensures Heeds(s, DoThrow(s), DeedOf(s, ByTransport(Throw)))
  {
  }

  lemma {:induction false} TransportHeeds(s: State, t: TransportAction)
    requires TransportNamed(s.log.clientOf, s.transport)
    ensures Heeds(s, TransportStep(s, t), DeedOf(s, ByTransport(t)))
  {
    match t
    case SubmitDone(ok, exchange) => SubmitHeeds(s, ok, exchange);
    case CancelDone(ok, exchange) => CancelHeeds(s, ok, exchange);
    case Throw => ThrowHeeds(s);
    case _ =>
  }

  lemma {:induction false} CommitHeeds(s: State)
    requires Maps(s)
    ensures Heeds(s, DoCommit(s), DeedOf(s, ByFills(Commit)))
  {
    var ds := DeedOf(s, ByFills(Commit));
    if ds != [] {
      assert Named(s.log.clientOf, ds[0].engine, s.byEngine[ds[0].engine].client);
    }
  }

  lemma {:induction false} OthersHeed(s: State, f: FillAction)
    requires !f.Commit?
    ensures FillStep(s, f).byEngine == s.byEngine && FillStep(s, f).log.clientOf == s.log.clientOf
  {
  }

  lemma {:induction false} FillsHeed(s: State, f: FillAction)
    requires Maps(s)
    ensures Heeds(s, FillStep(s, f), DeedOf(s, ByFills(f)))
  {
    DeedKinds(s, ByFills(f));
    if f.Commit? {
      CommitHeeds(s);
    } else {
      OthersHeed(s, f);
    }
  }

  lemma {:induction false} HeedTracks(s: State, s': State, h: seq<Deed>, ds: seq<Deed>)
    requires TracksHistory(s, h) && Heeds(s, s', ds)
    ensures TracksHistory(s', h + ds)
  {
    if ds == [] {
      SameTracks(s, s', h);
    } else {
      assert ds == [ds[0]];
      if ds[0].Made? {
        MadeTracks(s, s', h, ds[0]);
      } else if Ends(ds[0]) {
        EndTracks(s, s', h, ds[0]);
      } else {
        TellTracks(s, s', h, ds[0]);
      }
    }
  }

  lemma {:induction false} MadeTracks(s: State, s': State, h: seq<Deed>, d: Deed)
    requires TracksHistory(s, h) && s'.log.clientOf == s.log.clientOf && d.Made? && Told(s.byEngine, s'.byEngine, d)
    ensures TracksHistory(s', h + [d])
  {
    DeedMore(h, d);
    assert forall e :: e in s'.byEngine <==> e in s'.byEngine.Keys;
  }

  lemma {:induction false} StepTracks(s: State, a: Action, h: seq<Deed>)
    requires TracksHistory(s, h) && Maps(s) && Fresh(s, a)
    ensures TracksHistory(Step(s, a), h + DeedOf(s, a))
  {
    match a
    case ByEngine(e) => EngineTracks(s, e, h);
    case ByTransport(t) =>
      TransportHeeds(s, t);
      HeedTracks(s, TransportStep(s, t), h, DeedOf(s, a));
    case ByFills(f) =>
      FillsHeed(s, f);
      HeedTracks(s, FillStep(s, f), h, DeedOf(s, a));
  }

  // ----- Every interleaving

  /** Results name the symbol their order was sent with. */
  ghost predicate SymbolsKept(s: State, h: seq<Deed>) {
    && (forall i :: 0 <= i < |s.queue| ==> SentWith(h, s.queue[i].engine, s.queue[i].symbol))
    && (s.engine.Pushing? ==> SentWith(h, s.engine.req.engine, s.engine.req.symbol))
    && (s.transport.Popped? || s.transport.Cancelling? ==> SentWith(h, s.transport.req.engine, s.transport.req.symbol))
    && (s.transport.Cancelling? ==> SentWith(h, s.transport.req.engine, s.transport.symbol))
    && (s.transport.Posting? ==> SentWith(h, s.transport.result.engine, s.transport.result.symbol))
    && (forall i :: 0 <= i < |s.log.results| ==> SentWith(h, s.log.results[i].engine, s.log.results[i].symbol))
  }

  predicate SentWith(h: seq<Deed>, e: nat, symbol: string) {
    e in Symbols(h) && Symbols(h)[e] == symbol
  }

  lemma {:induction false} SymbolsGrow(s: State, a: Action, h: seq<Deed>)
    requires TracksHistory(s, h) && Fresh(s, a)
    ensures forall e, symbol :: SentWith(h, e, symbol) ==> SentWith(h + DeedOf(s, a), e, symbol)
  {
    var ds := DeedOf(s, a);
    DeedKinds(s, a);
    NoDeed(h, ds);
    if ds != [] {
      NewOrder(s, a);
      SymbolsMore(h, ds[0]);
    }
  }

  lemma {:induction false} NewOrder(s: State, a: Action)
    requires Fresh(s, a) && DeedOf(s, a) != []
    ensures var d := DeedOf(s, a)[0]; d.Asked? && !d.cancel ==> d.engine !in s.log.clientOf
  {
  }

  lemma {:induction false} SymbolsMore(h: seq<Deed>, d: Deed)
    requires d.Asked? && !d.cancel ==> d.engine !in Symbols(h)
    ensures forall e, symbol :: SentWith(h, e, symbol) ==> SentWith(h + [d], e, symbol)
  {
    DeedMore(h, d);
  }

  lemma {:induction false} SymbolsSame(s: State, h: seq<Deed>, h': seq<Deed>)
    requires SymbolsKept(s, h) && forall e, symbol :: SentWith(h, e, symbol) ==> SentWith(h', e, symbol)
    ensures SymbolsKept(s, h')
  {
  }

  lemma {:induction false} EngineSymbols(s: State, e: EngineAction, h: seq<Deed>)
    requires SymbolsKept(s, h)
    requires e.Insert? && s.engine == Idle ==> SentWith(h, e.order, e.symbol)
    requires e.CancelLookup? && e.order in s.byEngine ==> SentWith(h, e.order, s.byEngine[e.order].symbol)
    ensures SymbolsKept(EngineStep(s, e), h)
  {
  }

  lemma {:induction false} TransportSymbols(s: State, t: TransportAction, h: seq<Deed>)
    requires SymbolsKept(s, h)
    requires forall e :: e in s.byEngine ==> SentWith(h, e, s.byEngine[e].symbol)
    ensures SymbolsKept(TransportStep(s, t), h)
  {
    if t.Pop? || t.Post? {
    } else {
      TransportWorks(s, t);
    }
  }

  lemma {:induction false} StepSymbols(s: State, a: Action, h: seq<Deed>)
    requires SymbolsKept(s, h) && TracksHistory(s, h) && Fresh(s, a)
    ensures SymbolsKept(Step(s, a), h + DeedOf(s, a))
  {
    var h' := h + DeedOf(s, a);
    SymbolsGrow(s, a, h);
    SymbolsSame(s, h, h');
    match a
    case ByEngine(e) =>
      if e.Insert? && s.engine == Idle {
        DeedMore(h, Asked(e.order, e.client, e.symbol, false));
      }
      EngineSymbols(s, e, h');
    case ByTransport(t) => TransportSymbols(s, t, h');
    case ByFills(f) => FillFrame(s, f);
  }

  /** Everything the bridge tells is what was asked, replied, received and made, in that order: its
      requests, its results, the messages behind its fills, the fills of the handler and their metas. */
  ghost predicate TellsHistory(s: State, h: seq<Deed>) {
    && AreAsks(s.log.accepted + Pushed(s.engine), Asks(h))
    && AreReplies(s.log.results + Posted(s.transport), Replies(h))
    && AreTaken(s.log.taken, Messages(h))
    && Sorted(s.fill) && AreMade(Synthetic(s.log.fills) + Publishes(s.fill), Makings(h))
    && AreAnnounced(s.log.metas, Makings(h))
  }

  lemma {:induction false} StepTells(s: State, a: Action, h: seq<Deed>)
    requires TellsHistory(s, h) && ResultMatches(s.transport)
    ensures TellsHistory(Step(s, a), h + DeedOf(s, a))
  {
    AsksStep(s, a, h);
    RepliesStep(s, a, h);
    MessagesStep(s, a, h);
    MakingsStep(s, a, h);
  }

  /** In every interleaving the bridge tells exactly the history of the run, tracks exactly the orders
      that were sent and not ended, and names their symbols in its results. */
  lemma {:induction false} RunTellsHistory(actions: seq<Action>)
    requires FreshRun(START, actions)
    ensures var s, h := Run(START, actions), History(actions);
      TellsHistory(s, h) && TracksHistory(s, h) && SymbolsKept(s, h)
    decreases |actions|
  {
    if actions != [] {
      var n := |actions| - 1;
      var s, a := Run(START, actions[..n]), actions[n];
      FreshPrefix(START, actions, n);
      RunTellsHistory(actions[..n]);
      RunIsSafe(actions[..n]);
      assert Fresh(s, a);
      StepTells(s, a, History(actions[..n]));
      StepTracks(s, a, History(actions[..n]));
      StepSymbols(s, a, History(actions[..n]));
    }
  }

  /** In every interleaving an order is in both maps from its submission until the venue itself refuses
      it or accepts its cancel, or a terminal message comes; before and after it is in neither. */
  lemma {:induction false} InMapsIff(actions: seq<Action>, e: nat)
    requires FreshRun(START, actions)
    ensures var s, h := Run(START, actions), History(actions);
      && (e in s.byEngine <==> e in Symbols(h) && e !in Ended(h))
      && (e in s.byClient.Values <==> e in s.byEngine)
  {
    RunTellsHistory(actions);
    RunIsSafe(actions);
    var s := Run(START, actions);
    if e in s.byClient.Values {
      var c :| c in s.byClient && s.byClient[c] == e;
      assert ClientOk(s.byEngine, s.byClient, c);
    }
    if e in s.byEngine {
      assert EntryOk(s.byEngine, s.byClient, e);
    }
  }

  /** A failed result does not mean that the order is forgotten: a submission whose call throws is
      reported as failed and stays in both maps. */
  lemma {:induction false} ThrownSubmitStays(order: nat, client: string, symbol: string, total: real)
    ensures var s1 := Step(START, ByEngine(Insert(order, client, symbol, total)));
      var s2 := Step(Step(s1, ByEngine(Push)), ByTransport(Pop));
      var s := Step(Step(s2, ByTransport(Throw)), ByTransport(Post));
      && s.results == [Result(order, symbol, false, false, "")]
      && order in s.byEngine && s.byClient == map[client := order]
  {
  }

  // ----- What the engine is handed

  /** What the engine was handed over a run: at each poll everything queued. */
  function PolledResults(actions: seq<Action>): seq<Result>
    decreases |actions|
  {
    if actions == [] then []
    else
      var before := actions[..|actions| - 1];
      PolledResults(before) + if actions[|actions| - 1] == ByEngine(PollResults) then Run(START, before).results else []
  }

  function PolledFills(actions: seq<Action>): seq<Fill>
    decreases |actions|
  {
    if actions == [] then []
    else
      var before := actions[..|actions| - 1];
      PolledFills(before) + if actions[|actions| - 1] == ByEngine(PollFills) then Run(START, before).fills else []
  }

  function PolledMetas(actions: seq<Action>): seq<Meta>
    decreases |actions|
  {
    if actions == [] then []
    else
      var before := actions[..|actions| - 1];
      PolledMetas(before) + if actions[|actions| - 1] == ByEngine(PollMetas) then Run(START, before).metas else []
  }

  /** A step adds to a queue what it adds to the log, or empties it. */
  predicate Queued<T(==)>(queue: seq<T>, all: seq<T>, queue': seq<T>, all': seq<T>, polled: bool) {
    if polled then queue' == [] && all' == all
    else |all'| >= |all| && all' == all + all'[|all|..] && queue' == queue + all'[|all|..]
  }

  lemma {:induction false} QueuedEngine(s: State, e: EngineAction)
    ensures var s' := EngineStep(s, e);
      && Queued(s.results, s.log.results, s'.results, s'.log.results, e == PollResults)
      && Queued(s.fills, s.log.fills, s'.fills, s'.log.fills, e == PollFills)
      && Queued(s.metas, s.log.metas, s'.metas, s'.log.metas, e == PollMetas)
  {
    EngineFrame(s, e);
  }

  lemma {:induction false} QueuedTransport(s: State, t: TransportAction)
    ensures var s' := TransportStep(s, t);
      && Queued(s.results, s.log.results, s'.results, s'.log.results, false)
      && s'.fills == s.fills && s'.log.fills == s.log.fills && s'.metas == s.metas && s'.log.metas == s.log.metas
  {
    TransportFrame(s, t);
    if !t.Post? && !t.Pop? {
      TransportWorks(s, t);
    }
  }

  lemma {:induction false} QueuedFills(s: State, f: FillAction)
    ensures var s' := FillStep(s, f);
      && Queued(s.fills, s.log.fills, s'.fills, s'.log.fills, false)
      && Queued(s.metas, s.log.metas, s'.metas, s'.log.metas, false)
      && s'.results == s.results && s'.log.results == s.log.results
  {
    FillFrame(s, f);
    match f
    case Emit => EmitQueues(s);
    case Publish => PublishQueues(s);
    case Handle(accepted, order, opener, qty, price, remaining) =>
      HandleQueues(s, accepted, order, opener, qty, price, remaining);
    case Commit => CommitQueues(s);
    case _ =>
  }

  /** The fill thread's two queues against the log. */
  predicate BothQueued(s: State, s': State) {
    && Queued(s.fills, s.log.fills, s'.fills, s'.log.fills, false)
    && Queued(s.metas, s.log.metas, s'.metas, s'.log.metas, false)
  }

  lemma {:induction false} OneQueued<T>(queue: seq<T>, all: seq<T>, x: T)
    ensures Queued(queue, all, queue + [x], all + [x], false) && Queued(queue, all, queue, all, false)
  {
    assert (all + [x])[|all|..] == [x] && all[|all|..] == [];
  }

  lemma {:induction false} EmitQueues(s: State)
    ensures BothQueued(s, DoEmit(s))
  {
    OneQueued(s.metas, s.log.metas, Meta(0, 0));
    if s.fill.Emitting? {
      OneQueued(s.fills, s.log.fills, s.fill.fill.(id := s.nextFillId));
    }
  }

  lemma {:induction false} PublishQueues(s: State)
    ensures BothQueued(s, DoPublish(s))
  {
    OneQueued(s.metas, s.log.metas, Meta(0, 0));
    if s.fill.Publishing? {
      OneQueued(s.fills, s.log.fills, s.fill.fill);
    }
  }

  lemma {:induction false} HandleQueues(s: State, accepted: bool, order: nat, opener: nat, qty: real, price: real,
                                        remaining: real)
    ensures BothQueued(s, DoHandle(s, accepted, order, opener, qty, price, remaining))
  {
    OneQueued(s.metas, s.log.metas, Meta(order, opener));
    OneQueued(s.fills, s.log.fills, Fill(0, 0.0, 0.0, 0.0, 0, false));
  }

  lemma {:induction false} CommitQueues(s: State)
    ensures BothQueued(s, DoCommit(s))
  {
    OneQueued(s.metas, s.log.metas, Meta(0, 0));
    OneQueued(s.fills, s.log.fills, Fill(0, 0.0, 0.0, 0.0, 0, false));
  }

  lemma {:induction false} QueuedStep(s: State, a: Action)
    ensures var s' := Step(s, a);
      && Queued(s.results, s.log.results, s'.results, s'.log.results, a == ByEngine(PollResults))
      && Queued(s.fills, s.log.fills, s'.fills, s'.log.fills, a == ByEngine(PollFills))
      && Queued(s.metas, s.log.metas, s'.metas, s'.log.metas, a == ByEngine(PollMetas))
  {
    match a
    case ByEngine(e) => QueuedEngine(s, e);
    case ByTransport(t) => QueuedTransport(s, t);
    case ByFills(f) => QueuedFills(s, f);
  }

  lemma {:induction false} HandedMore<T>(handed: seq<T>, queue: seq<T>, all: seq<T>, queue': seq<T>, all': seq<T>,
                                         polled: bool)
    requires handed + queue == all && Queued(queue, all, queue', all', polled)
    ensures handed + (if polled then queue else []) + queue' == all'
  {
    if !polled {
      assert handed + [] == handed;
      assert handed + (queue + all'[|all|..]) == handed + queue + all'[|all|..];
    }
  }

  /** In every interleaving what the engine was handed and what is still queued are together, in order and
      each once, all that was ever posted: results, fills and metas. */
  lemma {:induction false} RunHandsOver(actions: seq<Action>)
    ensures var s := Run(START, actions);
      && PolledResults(actions) + s.results == s.log.results
      && PolledFills(actions) + s.fills == s.log.fills
      && PolledMetas(actions) + s.metas == s.log.metas
    decreases |actions|
  {
    if actions != [] {
      var n := |actions| - 1;
      var s, s', a := Run(START, actions[..n]), Run(START, actions), actions[n];
      RunHandsOver(actions[..n]);
      QueuedStep(s, a);
      HandedMore(PolledResults(actions[..n]), s.results, s.log.results, s'.results, s'.log.results,
                 a == ByEngine(PollResults));
      HandedMore(PolledFills(actions[..n]), s.fills, s.log.fills, s'.fills, s'.log.fills, a == ByEngine(PollFills));
      HandedMore(PolledMetas(actions[..n]), s.metas, s.log.metas, s'.metas, s'.log.metas, a == ByEngine(PollMetas));
    }
  }

  // ----- One thread at work while the others pause

  /** A submission that meets an empty queue is answered with what the venue replies. */
  lemma {:induction false} QuietSubmit(s: State, order: nat, client: string, symbol: string, total: real, ok: bool,
                                       exchange: string)
    requires s.engine == Idle && s.transport == Waiting && s.queue == []
    ensures var s1 := Step(s, ByEngine(Insert(order, client, symbol, total)));
      var s2 := Step(Step(s1, ByEngine(Push)), ByTransport(Pop));
      var s' := Step(Step(s2, ByTransport(SubmitDone(ok, exchange))), ByTransport(Post));
      s'.results == s.results + [Result(order, symbol, false, ok, exchange)]
  {
    var s1 := Step(s, ByEngine(Insert(order, client, symbol, total)));
    var req := Request(order, client, symbol, false, "");
    assert s1.engine == Pushing(req) && s1.queue == [];
    var s2 := Step(Step(s1, ByEngine(Push)), ByTransport(Pop));
    assert s2.transport == Popped(req) && s2.results == s.results;
  }

  /** So is a cancel of a tracked order. */
  lemma {:induction false} QuietCancel(s: State, order: nat, ok: bool, exchange: string)
    requires s.engine == Idle && s.transport == Waiting && s.queue == [] && order in s.byEngine
    ensures var s1 := Step(Step(s, ByEngine(CancelLookup(order))), ByEngine(Push));
      var s2 := Step(Step(s1, ByTransport(Pop)), ByTransport(Lookup));
      var s' := Step(Step(s2, ByTransport(CancelDone(ok, exchange))), ByTransport(Post));
      s'.results == s.results + [Result(order, s.byEngine[order].symbol, true, ok, exchange)]
  {
    var t := s.byEngine[order];
    var req := Request(order, t.client, t.symbol, true, t.exchange);
    var s0 := Step(s, ByEngine(CancelLookup(order)));
    assert s0.engine == Pushing(req);
    var s1 := Step(s0, ByEngine(Push));
    assert s1.queue == [req];
    var s2 := Step(Step(s1, ByTransport(Pop)), ByTransport(Lookup));
    assert s2.transport == Cancelling(req, t.symbol, t.client) && s2.results == s.results;
  }

  /** A cancel whose order is gone by the time the transport looks it up is still sent and answered. */
  lemma {:induction false} LateCancel(s: State, ok: bool, exchange: string)
    requires s.transport.Popped? && s.transport.req.cancel && s.transport.req.engine !in s.byEngine
    ensures var req := s.transport.req;
      var s' := Step(Step(Step(s, ByTransport(Lookup)), ByTransport(CancelDone(ok, exchange))), ByTransport(Post));
      s'.results == s.results + [Result(req.engine, req.symbol, true, ok, exchange)] && s'.transport == Waiting
  {
    var s1 := Step(s, ByTransport(Lookup));
    assert s1.transport == Cancelling(s.transport.req, s.transport.req.symbol, s.transport.req.client);
    assert s1.results == s.results;
  }

  /** A message for a tracked order becomes a fill if it is one, with the next fill id and what is left
      of the order: nothing for a full fill or an order without a total. */
  lemma {:induction false} QuietMessage(s: State, msg: Message)
    requires s.fill == Listening && msg.client in s.byClient && s.byClient[msg.client] in s.byEngine
    ensures var e := s.byClient[msg.client];
      var t := s.byEngine[e];
      var left := if msg.kind == PartialFill && t.total > 0.0 && t.total > t.cumulative + msg.qty
                  then t.total - t.cumulative - msg.qty else 0.0;
      var s' := Step(Step(Step(s, ByFills(Receive(msg))), ByFills(Commit)), ByFills(Emit));
      && s'.fill == Listening && (|s'.fills| > |s.fills| ==> s'.nextFillId == s.nextFillId + 1)
      && s'.fills == s.fills + (if msg.kind == PartialFill || msg.kind == FullFill
                                then [Fill(e, msg.qty, msg.price, left, s.nextFillId, false)] else [])
      && (e in s'.byEngine <==> msg.kind == Acknowledged || msg.kind == PartialFill)
  {
    var s1 := Step(Step(s, ByFills(Receive(msg))), ByFills(Commit));
    if IsFill(msg.kind) {
      assert s1.fill.Emitting? && s1.fills == s.fills && s1.nextFillId == s.nextFillId;
    } else {
      assert s1.fill == Listening && s1.fills == s.fills;
    }
  }

  /** A message for an order that is not tracked is offered to the handler if there is one and the
      message has an exchange id; what the handler makes is announced and published, and
      if it declines nothing happens but that a fill id is used up. */
  lemma {:induction false} QuietUnknown(s: State, msg: Message, order: nat, opener: nat, qty: real, price: real,
                                        remaining: real)
    requires s.fill == Listening && msg.client !in s.byClient
    ensures var s1 := Step(Step(s, ByFills(Receive(msg))), ByFills(ReadHandler));
      if s.handler && msg.exchange != "" then
        var s2 := Step(Step(s1, ByFills(Allocate)), ByFills(Handle(true, order, opener, qty, price, remaining)));
        var s' := Step(s2, ByFills(Publish));
        var declined := Step(Step(s1, ByFills(Allocate)), ByFills(Handle(false, order, opener, qty, price, remaining)));
        && s'.metas == s.metas + [Meta(order, opener)] && s'.fill == Listening
        && s'.fills == s.fills + [Fill(order, qty, price, remaining, s.nextFillId, true)]
        && declined == s.(nextFillId := s.nextFillId + 1)
      else s1 == s
  {
    var s1 := Step(Step(s, ByFills(Receive(msg))), ByFills(ReadHandler));
    if s.handler && msg.exchange != "" {
      assert s1.fill == Allocating(msg);
      var s2 := Step(Step(s1, ByFills(Allocate)), ByFills(Handle(true, order, opener, qty, price, remaining)));
      assert s2.fill == Publishing(Fill(order, qty, price, remaining, s.nextFillId, true)) && s2.fills == s.fills;
    }
  }
}
