/** The bridge object: its fields are what the threads share, plus where each thread is between two
    critical sections. Each method is one critical section. */
module ExecutionBridge {
  import opened BridgeModel
  import opened BridgeSafety
  import opened BridgeHistory

  class ExecutionBridge {
    var byEngineId: map<nat, Tracked>
    var byClientId: map<string, nat>
    var submitQueue: seq<Request>
    var pendingResults: seq<Result>
    var pendingFills: seq<Fill>
    var nextFillId: nat
    var pendingMetas: seq<Meta>
    var handlerSet: bool

    var engineAt: EngineAt
    var transportAt: TransportAt
    var fillAt: FillAt

    ghost var log: Log

    ghost function Now(): State
      reads this
    {
      State(byEngineId, byClientId, submitQueue, pendingResults, pendingFills, nextFillId, pendingMetas, handlerSet,
            engineAt, transportAt, fillAt, log)
    }

    constructor ()
      ensures Now() == START
    {
      byEngineId, byClientId, submitQueue, pendingResults := map[], map[], [], [];
      pendingFills, nextFillId, pendingMetas, handlerSet := [], 1, [], false;
      engineAt, transportAt, fillAt := Idle, Waiting, Listening;
      log := START.log;
      new;
      assert Now() == START;
    }

    // ----- Engine thread

    /** `submit_order`, map section */
    method InsertOrder(order: nat, client: string, symbol: string, total: real)
      requires engineAt == Idle
      modifies this
      ensures Now() == DoInsert(old(Now()), order, client, symbol, total)
    {
      ghost var s := Now();
      byEngineId := byEngineId[order := Tracked(order, client, "", symbol, total, 0.0)];
      byClientId := byClientId[client := order];
      engineAt := Pushing(Request(order, client, symbol, false, ""));
      log := log.(clientOf := log.clientOf[order := client], totalOf := log.totalOf[order := total]);
      assert Now() == DoInsert(s, order, client, symbol, total);
    }

    /** `cancel_order`, map section */
    method FindForCancel(order: nat) returns (found: bool)
      requires engineAt == Idle
      modifies this`engineAt
      ensures Now() == DoCancelLookup(old(Now()), order) && (found <==> order in byEngineId)
    {
      ghost var s := Now();
      if order !in byEngineId {
        return false;
      }
      var t := byEngineId[order];
      engineAt := Pushing(Request(order, t.client, t.symbol, true, t.exchange));
      assert Now() == DoCancelLookup(s, order);
      found := true;
    }

    /** Queue section of both */
    method PushRequest()
      requires engineAt.Pushing?
      modifies this
      ensures Now() == DoPush(old(Now()))
    {
      ghost var s := Now();
      submitQueue := submitQueue + [engineAt.req];
      log := log.(accepted := log.accepted + [engineAt.req]);
      engineAt := Idle;
      assert Now() == DoPush(s);
    }

    method TakeFills() returns (out: seq<Fill>)
      modifies this`pendingFills
      ensures out == old(pendingFills) && Now() == old(Now()).(fills := [])
    {
      out := pendingFills;
      pendingFills := [];
    }

    method TakeMetas() returns (out: seq<Meta>)
      modifies this`pendingMetas
      ensures out == old(pendingMetas) && Now() == old(Now()).(metas := [])
    {
      out := pendingMetas;
      pendingMetas := [];
    }

    method TakeResults() returns (out: seq<Result>)
      modifies this`pendingResults
      ensures out == old(pendingResults) && Now() == old(Now()).(results := [])
    {
      out := pendingResults;
      pendingResults := [];
    }

    method SetUnknownFillHandler(present: bool)
      modifies this`handlerSet
      ensures Now() == old(Now()).(handler := present)
    {
      handlerSet := present;
    }

    // ----- Transport thread

    /** Queue section of `transport_loop` */
    method PopRequest() returns (work: bool)
      requires transportAt == Waiting
      modifies this`submitQueue, this`transportAt
      ensures Now() == DoPop(old(Now())) && (work <==> old(submitQueue) != [])
    {
      work := submitQueue != [];
      if work {
        transportAt := Popped(submitQueue[0]);
        submitQueue := submitQueue[1..];
      }
    }

    /** Lookup section of a cancel in `process_one_submit` */
    method FindCancelTarget()
      requires transportAt.Popped? && transportAt.req.cancel
      modifies this`transportAt
      ensures Now() == DoLookup(old(Now()))
    {
      var req := transportAt.req;
      var symbol, client := req.symbol, req.client;
      if req.engine in byEngineId {
        var t := byEngineId[req.engine];
        if t.symbol != "" {
          symbol := t.symbol;
        }
        if t.client != "" {
          client := t.client;
        }
      }
      transportAt := Cancelling(req, symbol, client);
    }

    method ForgetOrder(order: nat, client: string)
      modifies this`byEngineId, this`byClientId
      ensures Now() == Forget(old(Now()), order, client)
    {
      byEngineId := byEngineId - {order};
      if client != "" {
        byClientId := byClientId - {client};
      }
    }

    /** Map sections after the venue answered a submission */
    method SubmitAnswered(ok: bool, exchange: string)
      requires transportAt.Popped? && !transportAt.req.cancel
      modifies this`byEngineId, this`byClientId, this`transportAt
      ensures Now() == DoSubmitDone(old(Now()), ok, exchange)
    {
      ghost var s := Now();
      var req := transportAt.req;
      if !ok {
        ForgetOrder(req.engine, req.client);
      } else if exchange != "" {
        if req.engine in byEngineId && byEngineId[req.engine].exchange == "" {
          byEngineId := byEngineId[req.engine := byEngineId[req.engine].(exchange := exchange)];
        }
      }
      transportAt := Posting(req, Result(req.engine, req.symbol, false, ok, exchange));
      assert Now() == DoSubmitDone(s, ok, exchange);
    }

    /** Map section after the venue answered a cancel */
    method CancelAnswered(ok: bool, exchange: string)
      requires transportAt.Cancelling?
      modifies this`byEngineId, this`byClientId, this`transportAt
      ensures Now() == DoCancelDone(old(Now()), ok, exchange)
    {
      ghost var s := Now();
      var req, symbol := transportAt.req, transportAt.symbol;
      if ok {
        ForgetOrder(req.engine, transportAt.client);
      }
      transportAt := Posting(req, Result(req.engine, symbol, true, ok, exchange));
      assert Now() == DoCancelDone(s, ok, exchange);
    }

    /** The exception path of `transport_loop` */
    method SendThrew()
      requires (transportAt.Popped? || transportAt.Cancelling?)
      modifies this`transportAt
      ensures Now() == DoThrow(old(Now()))
    {
      var req := transportAt.req;
      transportAt := Posting(req, Result(req.engine, req.symbol, req.cancel, false, ""));
    }

    method PostResult()
      requires transportAt.Posting?
      modifies this`pendingResults, this`transportAt, this`log
      ensures Now() == DoPost(old(Now()))
    {
      ghost var s := Now();
      pendingResults := pendingResults + [transportAt.result];
      log := log.(answered := log.answered + [transportAt.req], results := log.results + [transportAt.result]);
      transportAt := Waiting;
      assert Now() == DoPost(s);
    }

    // ----- Fill thread

    /** First lookup of `handle_message` */
    method ReceiveMessage(msg: Message)
      requires fillAt == Listening
      modifies this`fillAt
      ensures Now() == DoReceive(old(Now()), msg)
    {
      fillAt := if msg.client in byClientId then Known(msg) else Unknown(msg);
    }

    /** Second section of `handle_message` */
    method CommitMessage()
      requires fillAt.Known?
      modifies this`byEngineId, this`byClientId, this`fillAt, this`log
      ensures Now() == DoCommit(old(Now()))
    {
      ghost var s := Now();
      var msg := fillAt.msg;
      fillAt := Listening;
      if msg.client !in byClientId {
        return;
      }
      var e := byClientId[msg.client];
      if e !in byEngineId {
        return;
      }
      var t := byEngineId[e];
      if msg.exchange != "" && t.exchange == "" {
        t := t.(exchange := msg.exchange);
      }
      if IsFill(msg.kind) {
        t := t.(cumulative := t.cumulative + msg.qty);
        fillAt := Emitting(Fill(e, msg.qty, msg.price, Left(t, msg.kind), 0, false));
      }
      if IsTerminal(msg.kind) {
        byClientId := byClientId - {msg.client};
        byEngineId := byEngineId - {e};
      } else {
        byEngineId := byEngineId[e := t];
      }
      log := log.(taken := log.taken + [Taken(e, msg.kind, msg.qty, msg.price)]);
      assert Now() == DoCommit(s);
    }

    /** Fill section of `handle_message` */
    method EmitFill()
      requires fillAt.Emitting?
      modifies this`pendingFills, this`nextFillId, this`fillAt, this`log
      ensures Now() == DoEmit(old(Now()))
    {
      ghost var s := Now();
      var f := fillAt.fill.(id := nextFillId);
      nextFillId := nextFillId + 1;
      pendingFills := pendingFills + [f];
      log := log.(fills := log.fills + [f]);
      fillAt := Listening;
      assert Now() == DoEmit(s);
    }

    /** Handler section of `dispatch_unknown_fill` */
    method CheckHandler()
      requires fillAt.Unknown?
      modifies this`fillAt
      ensures Now() == DoReadHandler(old(Now()))
    {
      fillAt := if handlerSet && fillAt.msg.exchange != "" then Allocating(fillAt.msg) else Listening;
    }

    method AllocateFillId()
      requires fillAt.Allocating?
      modifies this`fillAt, this`nextFillId
      ensures Now() == DoAllocate(old(Now()))
    {
      fillAt := Calling(fillAt.msg, nextFillId);
      nextFillId := nextFillId + 1;
    }

    /** Meta section of `dispatch_unknown_fill` */
    method HandlerReturned(accepted: bool, order: nat, opener: nat, qty: real, price: real, remaining: real)
      requires fillAt.Calling?
      modifies this`pendingMetas, this`fillAt, this`log
      ensures Now() == DoHandle(old(Now()), accepted, order, opener, qty, price, remaining)
    {
      ghost var s := Now();
      if !accepted {
        fillAt := Listening;
        return;
      }
      pendingMetas := pendingMetas + [Meta(order, opener)];
      log := log.(metas := log.metas + [Meta(order, opener)]);
      fillAt := Publishing(Fill(order, qty, price, remaining, fillAt.id, true));
      assert Now() == DoHandle(s, accepted, order, opener, qty, price, remaining);
    }

    /** Fill section of `dispatch_unknown_fill` */
    method PublishFill()
      requires fillAt.Publishing?
      modifies this`pendingFills, this`fillAt, this`log
      ensures Now() == DoPublish(old(Now()))
    {
      ghost var s := Now();
      pendingFills := pendingFills + [fillAt.fill];
      log := log.(fills := log.fills + [fillAt.fill]);
      fillAt := Listening;
      assert Now() == DoPublish(s);
    }

    // ----- Runs

    method EngineActs(a: EngineAction)
      modifies this
      ensures Now() == EngineStep(old(Now()), a)
    {
      match a {
        case Insert(order, client, symbol, total) =>
          if engineAt == Idle {
            InsertOrder(order, client, symbol, total);
          }
        case CancelLookup(order) =>
          if engineAt == Idle {
            var found := FindForCancel(order);
          }
        case Push =>
          if engineAt.Pushing? {
            PushRequest();
          }
        case PollFills =>
          var out := TakeFills();
        case PollMetas =>
          var out := TakeMetas();
        case PollResults =>
          var out := TakeResults();
        case SetHandler(present) =>
          SetUnknownFillHandler(present);
      }
    }

    method TransportActs(a: TransportAction)
      modifies this
      ensures Now() == TransportStep(old(Now()), a)
    {
      match a {
        case Pop =>
          if transportAt == Waiting {
            var work := PopRequest();
          }
        case Lookup =>
          if transportAt.Popped? && transportAt.req.cancel {
            FindCancelTarget();
          }
        case SubmitDone(ok, exchange) =>
          if transportAt.Popped? && !transportAt.req.cancel {
            SubmitAnswered(ok, exchange);
          }
        case CancelDone(ok, exchange) =>
          if transportAt.Cancelling? {
            CancelAnswered(ok, exchange);
          }
        case Throw =>
          if transportAt.Popped? || transportAt.Cancelling? {
            SendThrew();
          }
        case Post =>
          if transportAt.Posting? {
            PostResult();
          }
      }
    }

    method FillsAct(a: FillAction)
      modifies this
      ensures Now() == FillStep(old(Now()), a)
    {
      match a {
        case Receive(msg) =>
          if fillAt == Listening {
            ReceiveMessage(msg);
          }
        case Commit =>
          if fillAt.Known? {
            CommitMessage();
          }
        case Emit =>
          if fillAt.Emitting? {
            EmitFill();
          }
        case ReadHandler =>
          if fillAt.Unknown? {
            CheckHandler();
          }
        case Allocate =>
          if fillAt.Allocating? {
            AllocateFillId();
          }
        case Handle(accepted, order, opener, qty, price, remaining) =>
          if fillAt.Calling? {
            HandlerReturned(accepted, order, opener, qty, price, remaining);
          }
        case Publish =>
          if fillAt.Publishing? {
            PublishFill();
          }
      }
    }

    /** Any interleaving of critical sections with fresh ids leaves the bridge safe. */
    method Interleave(actions: seq<Action>)
      requires Now() == START && FreshRun(START, actions)
      modifies this
      ensures Now() == Run(START, actions) && Safe(Now())
      ensures TellsHistory(Now(), History(actions)) && TracksHistory(Now(), History(actions))
      ensures SymbolsKept(Now(), History(actions))
    {
      for i := 0 to |actions|
        invariant Now() == Run(START, actions[..i])
      {
        assert actions[..i + 1][..i] == actions[..i];
        match actions[i] {
          case ByEngine(e) => EngineActs(e);
          case ByTransport(t) => TransportActs(t);
          case ByFills(f) => FillsAct(f);
        }
      }
      assert actions[..|actions|] == actions;
      RunIsSafe(actions);
      RunTellsHistory(actions);
    }
  }
}
