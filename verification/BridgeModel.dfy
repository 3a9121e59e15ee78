/** The execution bridge between the engine thread, the transport thread and the fill thread.
    Every critical section is one atomic step, and a run is any interleaving of such steps.
    The answers of the venue, incoming messages and the unknown-fill handler are arbitrary.
 */
module BridgeModel {
  datatype Kind = Acknowledged | PartialFill | FullFill | Canceled | Rejected | Expired

  datatype Message = Message(client: string, exchange: string, kind: Kind, qty: real, price: real)

  /** An order the bridge tracks, under its engine id and its client id. */
  datatype Tracked = Tracked(engine: nat, client: string, exchange: string, symbol: string, total: real,
                             cumulative: real)

  datatype Request = Request(engine: nat, client: string, symbol: string, cancel: bool, exchange: string)

  datatype Result = Result(engine: nat, symbol: string, cancel: bool, ok: bool, exchange: string)

  /** `synthesized` tells the fills made by the unknown-fill handler from the ordinary ones. */
  datatype Fill = Fill(order: nat, qty: real, price: real, remaining: real, id: nat, synthesized: bool)

  datatype Meta = Meta(order: nat, opener: nat)

  /** A message taken in for a tracked order: the order, its kind and the filled quantity. */
  datatype Taken = Taken(engine: nat, kind: Kind, qty: real, price: real)

  // ----- Where each thread is between two critical sections

  datatype EngineAt = Idle | Pushing(req: Request)

  datatype TransportAt =
    | Waiting
    | Popped(req: Request)
    | Cancelling(req: Request, symbol: string, client: string)
    | Posting(req: Request, result: Result)

  datatype FillAt =
    | Listening
    | Known(msg: Message)
    | Emitting(fill: Fill)
    | Unknown(msg: Message)
    | Allocating(msg: Message)
    | Calling(msg: Message, id: nat)
    | Publishing(fill: Fill)

  /** What happened so far: ids handed out, requests accepted and answered, messages taken in, and
      everything that ever entered the outgoing queues. */
  datatype Log = Log(clientOf: map<nat, string>, totalOf: map<nat, real>, accepted: seq<Request>,
                     answered: seq<Request>,
                     taken: seq<Taken>, results: seq<Result>, fills: seq<Fill>, metas: seq<Meta>)

  datatype State = State(
    byEngine: map<nat, Tracked>, byClient: map<string, nat>,
    queue: seq<Request>, results: seq<Result>, fills: seq<Fill>, nextFillId: nat, metas: seq<Meta>, handler: bool,
    engine: EngineAt, transport: TransportAt, fill: FillAt, log: Log)

  const START := State(map[], map[], [], [], [], 1, [], false, Idle, Waiting, Listening,
                       Log(map[], map[], [], [], [], [], [], []))

  datatype EngineAction =
    | Insert(order: nat, client: string, symbol: string, total: real)
    | CancelLookup(order: nat)
    | Push
    | PollFills
    | PollMetas
    | PollResults
    | SetHandler(present: bool)

  datatype TransportAction =
    | Pop
    | Lookup
    | SubmitDone(ok: bool, exchange: string)
    | CancelDone(ok: bool, exchange: string)
    | Throw
    | Post

  datatype FillAction =
    | Receive(msg: Message)
    | Commit
    | Emit
    | ReadHandler
    | Allocate
    | Handle(accepted: bool, order: nat, opener: nat, qty: real, price: real, remaining: real)
    | Publish

  datatype Action = ByEngine(e: EngineAction) | ByTransport(t: TransportAction) | ByFills(f: FillAction)

  predicate IsFill(k: Kind) {
    k == PartialFill || k == FullFill
  }

  predicate IsTerminal(k: Kind) {
    k == FullFill || k == Canceled || k == Rejected || k == Expired
  }

  function Max(a: real, b: real): real {
    if a >= b then a else b
  }

  // ----- The engine thread

  /** First critical section of `submit_order`: both maps get the new order. */
  function DoInsert(s: State, order: nat, client: string, symbol: string, total: real): State {
    if s.engine != Idle then s
    else s.(byEngine := s.byEngine[order := Tracked(order, client, "", symbol, total, 0.0)],
            byClient := s.byClient[client := order],
            engine := Pushing(Request(order, client, symbol, false, "")),
            log := s.log.(clientOf := s.log.clientOf[order := client], totalOf := s.log.totalOf[order := total]))
  }

  /** First critical section of `cancel_order`: an unknown order is refused. */
  function DoCancelLookup(s: State, order: nat): State {
    if s.engine != Idle || order !in s.byEngine then s
    else
      var t := s.byEngine[order];
      s.(engine := Pushing(Request(order, t.client, t.symbol, true, t.exchange)))
  }

  /** The request enters the outgoing queue. */
  function DoPush(s: State): State {
    if !s.engine.Pushing? then s
    else s.(queue := s.queue + [s.engine.req], engine := Idle,
            log := s.log.(accepted := s.log.accepted + [s.engine.req]))
  }

  // ----- The transport thread

  function DoPop(s: State): State {
    if s.transport != Waiting || s.queue == [] then s
    else s.(transport := Popped(s.queue[0]), queue := s.queue[1..])
  }

  /** A cancel looks up the latest symbol and client id of its order. */
  function DoLookup(s: State): State {
    if !s.transport.Popped? || !s.transport.req.cancel then s
    else
      var req := s.transport.req;
      if req.engine in s.byEngine then
        var t := s.byEngine[req.engine];
        s.(transport := Cancelling(req, if t.symbol != "" then t.symbol else req.symbol,
                                   if t.client != "" then t.client else req.client))
      else s.(transport := Cancelling(req, req.symbol, req.client))
  }

  /** Takes an order out of both maps; an empty client id is not looked for. */
  function Forget(s: State, order: nat, client: string): State {
    s.(byEngine := s.byEngine - {order}, byClient := if client != "" then s.byClient - {client} else s.byClient)
  }

  /** The venue's answer to a submission: a failure forgets the order, a success notes the exchange id. */
  function DoSubmitDone(s: State, ok: bool, exchange: string): State {
    if !s.transport.Popped? || s.transport.req.cancel then s
    else
      var req := s.transport.req;
      var r := Result(req.engine, req.symbol, false, ok, exchange);
      if !ok then Forget(s, req.engine, req.client).(transport := Posting(req, r))
      else if exchange != "" && req.engine in s.byEngine && s.byEngine[req.engine].exchange == "" then
        s.(byEngine := s.byEngine[req.engine := s.byEngine[req.engine].(exchange := exchange)],
           transport := Posting(req, r))
      else s.(transport := Posting(req, r))
  }

  function DoCancelDone(s: State, ok: bool, exchange: string): State {
    if !s.transport.Cancelling? then s
    else
      var req := s.transport.req;
      var r := Result(req.engine, s.transport.symbol, true, ok, exchange);
      (if ok then Forget(s, req.engine, s.transport.client) else s).(transport := Posting(req, r))
  }

  /** An exception on the way to the venue becomes a failed result. */
  function DoThrow(s: State): State {
    if !s.transport.Popped? && !s.transport.Cancelling? then s
    else
      var req := s.transport.req;
      s.(transport := Posting(req, Result(req.engine, req.symbol, req.cancel, false, "")))
  }

  function DoPost(s: State): State {
    if !s.transport.Posting? then s
    else
      var r := s.transport.result;
      s.(results := s.results + [r], transport := Waiting,
         log := s.log.(answered := s.log.answered + [s.transport.req], results := s.log.results + [r]))
  }

  // ----- The fill thread

  function DoReceive(s: State, msg: Message): State {
    if s.fill != Listening then s
    else s.(fill := if msg.client in s.byClient then Known(msg) else Unknown(msg))
  }

  /** Second lookup of a known message: the order may be gone by now; a terminal message ends it. */
  function DoCommit(s: State): State {
    if !s.fill.Known? then s
    else
      var msg := s.fill.msg;
      if msg.client !in s.byClient || s.byClient[msg.client] !in s.byEngine then s.(fill := Listening)
      else
        var e := s.byClient[msg.client];
        var t := Noted(s.byEngine[e], msg);
        var taken := s.log.taken + [Taken(e, msg.kind, msg.qty, msg.price)];
        var s' := if IsTerminal(msg.kind)
                  then s.(byEngine := s.byEngine - {e}, byClient := s.byClient - {msg.client})
                  else s.(byEngine := s.byEngine[e := t]);
        s'.(log := s.log.(taken := taken),
            fill := if IsFill(msg.kind) then Emitting(Fill(e, msg.qty, msg.price, Left(t, msg.kind), 0, false))
                    else Listening)
  }

  /** The tracked order with the exchange id and the filled quantity of a message. */
  function Noted(t: Tracked, msg: Message): Tracked {
    t.(exchange := if msg.exchange != "" && t.exchange == "" then msg.exchange else t.exchange,
       cumulative := if IsFill(msg.kind) then t.cumulative + msg.qty else t.cumulative)
  }

  function Left(t: Tracked, k: Kind): real {
    if k == PartialFill && t.total > 0.0 then Max(0.0, t.total - t.cumulative) else 0.0
  }

  function DoEmit(s: State): State {
    if !s.fill.Emitting? then s
    else
      var f := s.fill.fill.(id := s.nextFillId);
      s.(fills := s.fills + [f], nextFillId := s.nextFillId + 1, fill := Listening,
         log := s.log.(fills := s.log.fills + [f]))
  }

  function DoReadHandler(s: State): State {
    if !s.fill.Unknown? then s
    else s.(fill := if s.handler && s.fill.msg.exchange != "" then Allocating(s.fill.msg) else Listening)
  }

  function DoAllocate(s: State): State {
    if !s.fill.Allocating? then s
    else s.(fill := Calling(s.fill.msg, s.nextFillId), nextFillId := s.nextFillId + 1)
  }

  /** The handler declines, or supplies a fill with the given fill id; its meta is recorded first. */
  function DoHandle(s: State, accepted: bool, order: nat, opener: nat, qty: real, price: real, remaining: real): State {
    if !s.fill.Calling? then s
    else if !accepted then s.(fill := Listening)
    else
      var m := Meta(order, opener);
      s.(metas := s.metas + [m], fill := Publishing(Fill(order, qty, price, remaining, s.fill.id, true)),
         log := s.log.(metas := s.log.metas + [m]))
  }

  function DoPublish(s: State): State {
    if !s.fill.Publishing? then s
    else
      var f := s.fill.fill;
      s.(fills := s.fills + [f], fill := Listening, log := s.log.(fills := s.log.fills + [f]))
  }

  // ----- Runs

  function EngineStep(s: State, a: EngineAction): State {
    match a
    case Insert(order, client, symbol, total) => DoInsert(s, order, client, symbol, total)
    case CancelLookup(order) => DoCancelLookup(s, order)
    case Push => DoPush(s)
    case PollFills => s.(fills := [])
    case PollMetas => s.(metas := [])
    case PollResults => s.(results := [])
    case SetHandler(present) => s.(handler := present)
  }

  function TransportStep(s: State, a: TransportAction): State {
    match a
    case Pop => DoPop(s)
    case Lookup => DoLookup(s)
    case SubmitDone(ok, exchange) => DoSubmitDone(s, ok, exchange)
    case CancelDone(ok, exchange) => DoCancelDone(s, ok, exchange)
    case Throw => DoThrow(s)
    case Post => DoPost(s)
  }

  function FillStep(s: State, a: FillAction): State {
    match a
    case Receive(msg) => DoReceive(s, msg)
    case Commit => DoCommit(s)
    case Emit => DoEmit(s)
    case ReadHandler => DoReadHandler(s)
    case Allocate => DoAllocate(s)
    case Handle(accepted, order, opener, qty, price, remaining) =>
      DoHandle(s, accepted, order, opener, qty, price, remaining)
    case Publish => DoPublish(s)
  }

  function Step(s: State, a: Action): State {
    match a
    case ByEngine(e) => EngineStep(s, e)
    case ByTransport(t) => TransportStep(s, t)
    case ByFills(f) => FillStep(s, f)
  }

  function Run(s: State, actions: seq<Action>): State
    decreases |actions|
  {
    if actions == [] then s else Step(Run(s, actions[..|actions| - 1]), actions[|actions| - 1])
  }

  /** New orders come with an unused engine id and an unused, non-empty client id. */
  predicate Fresh(s: State, a: Action) {
    a.ByEngine? && a.e.Insert? ==> FreshOrder(s, a.e.order, a.e.client)
  }

  predicate FreshOrder(s: State, order: nat, client: string) {
    order !in s.log.clientOf && client != "" && client !in s.log.clientOf.Values
  }

  ghost predicate FreshRun(s: State, actions: seq<Action>) {
    forall i :: 0 <= i < |actions| ==> Fresh(Run(s, actions[..i]), actions[i])
  }
}
