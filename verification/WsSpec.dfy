/**
 The WebSocket session as a step system. A step is one completion handler, one
 posted strand task, or one call a client thread makes under the lock. State
 holds the session's own fields and what the rest of the world owes it: the
 asynchronous operations in progress, the tasks posted to the strand, and what
 has been handed to the current connection.
 */
module WsSpec {
  import opened Common
  import opened WsProtocol

  const PONG_TIMEOUT_IN_S: int := 40
  const RECONNECT_DELAY_MAX_IN_S: int := 30
  const AUTH_ACK_TIMEOUT_IN_MS: int := 15000

  datatype OpKind =
    | Resolve | TcpConnect | TlsHandshake | WsHandshake
    | Read | Write | PingWait | ReconnectWait | CloseHandshake

  /** An asynchronous operation in progress, with the generation its handler captured. */
  datatype Op = Op(kind: OpKind, gen: int)

  datatype Task = ConnectTask | FlushTask | UnsubscribeTask(topic: Request) | CloseTask

  /** What a received frame turns out to be. Unparsable covers every JSON exception. */
  datatype Inbound =
    | Unparsable | NotAnObject | Data | Pong | Greeting
    | LoginAccepted | LoginRefused | VenueError | SubscriptionAck(ok: bool)

  datatype Outcome = Failed | Completed | Received(msg: Inbound)

  datatype State = State(
    // session fields
    authRequired: bool,
    generation: int,
    connected: bool,
    authenticated: bool,
    authenticatedFlag: bool,
    reconnectScheduled: bool,
    userClosed: bool,
    writeInFlight: bool,
    writeBuffer: Payload,
    outboundQueue: seq<Payload>,
    subscriptions: seq<Request>,
    pendingTopics: seq<Request>,
    reconnectDelayS: int,
    lastPongTime: int,
    authDeadline: Option<int>,
    reconnectWaitS: int,       // what the reconnect timer was last set to
    // the world around it
    ops: multiset<Op>,         // asynchronous operations in progress
    tasks: multiset<Task>,     // posted to the strand, not yet run
    enqueued: seq<Payload>,    // every frame queued since this generation began
    wire: seq<Payload>,        // every frame handed to async_write in this generation
    delivered: seq<Payload>,   // every frame whose write completed in this generation
    ackGen: int,               // generation whose login ack was read last
    started: bool,             // run() was called
    failures: nat              // reconnects scheduled since the last proof of life
  )

  /** Time stamps (in ms) and is_open() are oracles: a step may see any value. */
  datatype Step =
    | Run(first: Option<Request>)
    | Subscribe(topic: Request)
    | Unsubscribe(topic: Request)
    | Close
    | RunTask(task: Task, now: int, open: bool)
    | Complete(op: Op, outcome: Outcome, now: int, open: bool)
    | PongFrame(now: int)

  function Init(authRequired: bool): State {
    State(authRequired, 0, false, false, false, false, false, false, Ping, [], [], [], 1, 0, None, 0,
          multiset{}, multiset{}, [], [], [], 0, false, 0)
  }

  // ---- primitives ----

  function Begin(s: State, kind: OpKind): State {
    s.(ops := s.ops + multiset{Op(kind, s.generation)})
  }

  function Post(s: State, task: Task): State {
    s.(tasks := s.tasks + multiset{task})
  }

  function EnqueueOp(s: State, p: Payload): State {
    s.(outboundQueue := s.outboundQueue + [p], enqueued := s.enqueued + [p])
  }

  function EnqueueAll(s: State, ps: seq<Payload>): State {
    s.(outboundQueue := s.outboundQueue + ps, enqueued := s.enqueued + ps)
  }

  function Pump(s: State, open: bool): State {
    if s.writeInFlight || !s.connected || !open || s.outboundQueue == [] then s
    else Begin(s.(writeBuffer := s.outboundQueue[0], outboundQueue := s.outboundQueue[1..],
                  writeInFlight := true, wire := s.wire + [s.outboundQueue[0]]), Write)
  }

  // ---- subscription bookkeeping ----

  function AddTopic(s: State, t: Request): State {
    if t in s.subscriptions || t in s.pendingTopics then s
    else s.(pendingTopics := s.pendingTopics + [t])
  }

  function RemoveTopic(s: State, t: Request): State {
    s.(pendingTopics := Without(s.pendingTopics, t), subscriptions := WithoutFirst(s.subscriptions, t))
  }

  predicate Flushes(s: State) {
    s.connected && (s.authRequired ==> s.authenticated)
  }

  function FlushTopics(s: State, open: bool): State {
    if !Flushes(s) then s
    else Pump(EnqueueAll(s.(subscriptions := s.subscriptions + s.pendingTopics, pendingTopics := []),
                         Messages(s.pendingTopics)), open)
  }

  function SendLogin(s: State, now: int, open: bool): State {
    Pump(EnqueueOp(s.(authDeadline := Some(now + AUTH_ACK_TIMEOUT_IN_MS)), Login(now)), open)
  }

  // ---- errors, reconnecting, closing ----

  function HandleError(s: State, gen: int): State {
    if gen != s.generation || s.reconnectScheduled || s.userClosed then s
    else Begin(s.(reconnectScheduled := true, connected := false, authenticated := false,
                  authenticatedFlag := false, writeInFlight := false, authDeadline := None,
                  outboundQueue := [], pendingTopics := s.subscriptions + s.pendingTopics, subscriptions := [],
                  reconnectWaitS := s.reconnectDelayS,
                  reconnectDelayS := Min(s.reconnectDelayS * 2, RECONNECT_DELAY_MAX_IN_S),
                  failures := s.failures + 1), ReconnectWait)
  }

  function StartConnect(s: State): State {
    if s.userClosed then s
    else Begin(s.(generation := s.generation + 1, connected := false, authenticated := false,
                  authenticatedFlag := false, writeInFlight := false, authDeadline := None,
                  enqueued := [], wire := [], delivered := []), Resolve)
  }

  function CloseByUser(s: State, open: bool): State {
    if s.userClosed then s
    else
      var closed := s.(userClosed := true);
      // the stream exists from the first startConnect on
      if s.generation > 0 && open && !s.writeInFlight then Begin(closed, CloseHandshake) else closed
  }

  // ---- completion handlers (the operation itself has already left ops) ----

  function OnChainStep(s: State, gen: int, failed: bool, next: OpKind): State {
    if failed then HandleError(s, gen) else Begin(s, next)
  }

  function OnHandshake(s: State, gen: int, failed: bool, now: int, open: bool): State {
    if failed then HandleError(s, gen)
    else if s.userClosed then s
    else
      var up := Begin(s.(connected := true, lastPongTime := now), PingWait);
      Begin(if s.authRequired then SendLogin(up, now, open) else FlushTopics(up, open), Read)
  }

  function HandleInbound(s: State, gen: int, msg: Inbound, now: int, open: bool): State {
    match msg
    case Unparsable => HandleError(s, gen)
    case Pong => s.(lastPongTime := now)
    case LoginAccepted =>
      FlushTopics(s.(authenticated := true, authenticatedFlag := true, authDeadline := None,
                     reconnectDelayS := 1, failures := 0, ackGen := s.generation), open)
    case LoginRefused => HandleError(s, gen)
    case NotAnObject => s
    case Data => s
    case Greeting => s
    case VenueError => s
    case SubscriptionAck(_) => s
  }

  function ReadAgain(s: State, gen: int): State {
    if gen != s.generation || s.reconnectScheduled || !s.connected then s
    else if !s.authRequired || s.authenticated then Begin(s.(reconnectDelayS := 1, failures := 0), Read)
    else Begin(s, Read)
  }

  function OnRead(s: State, gen: int, outcome: Outcome, now: int, open: bool): State {
    if !outcome.Received? then HandleError(s, gen)
    else if outcome.msg.Unparsable? then HandleError(s, gen)
    else ReadAgain(HandleInbound(s, gen, outcome.msg, now, open), gen)
  }

  function OnWritten(s: State, gen: int, failed: bool, open: bool): State {
    var done := s.(writeInFlight := false);
    if failed then HandleError(done, gen)
    else Pump(done.(delivered := s.delivered + [s.writeBuffer]), open)
  }

  function OnPingTimer(s: State, gen: int, failed: bool, now: int, open: bool): State {
    if failed || gen != s.generation || s.userClosed then s
    else if s.connected && (now - s.lastPongTime) / 1000 > PONG_TIMEOUT_IN_S then HandleError(s, gen)
    else if s.connected && s.authRequired && !s.authenticated && s.authDeadline.Some? && now > s.authDeadline.value
      then HandleError(s, gen)
    else Begin(if s.connected then Pump(EnqueueOp(s, Ping), open) else s, PingWait)
  }

  function OnReconnectTimer(s: State, failed: bool): State {
    var woken := s.(reconnectScheduled := false);
    if failed || s.userClosed then woken else StartConnect(woken)
  }

  /** A completion whose generation has passed is dropped; otherwise its handler runs. */
  function OnComplete(s: State, op: Op, outcome: Outcome, now: int, open: bool): State {
    var s0 := s.(ops := s.ops - multiset{op});
    if op.gen != s.generation then s0
    else match op.kind
      case Resolve => OnChainStep(s0, op.gen, outcome.Failed?, TcpConnect)
      case TcpConnect => OnChainStep(s0, op.gen, outcome.Failed?, TlsHandshake)
      case TlsHandshake => OnChainStep(s0, op.gen, outcome.Failed?, WsHandshake)
      case WsHandshake => OnHandshake(s0, op.gen, outcome.Failed?, now, open)
      case Read => OnRead(s0, op.gen, outcome, now, open)
      case Write => OnWritten(s0, op.gen, outcome.Failed?, open)
      case PingWait => OnPingTimer(s0, op.gen, outcome.Failed?, now, open)
      case ReconnectWait => OnReconnectTimer(s0, outcome.Failed?)
      case CloseHandshake => s0
  }

  // ---- posted tasks ----

  function RunUnsubscribe(s: State, t: Request, open: bool): State {
    if !s.connected then s else Pump(EnqueueOp(s, Message(ToUnsubscribe(t))), open)
  }

  function OnTask(s: State, task: Task, now: int, open: bool): State {
    var s0 := s.(tasks := s.tasks - multiset{task});
    match task
    case ConnectTask => StartConnect(s0)
    case FlushTask => FlushTopics(s0, open)
    case UnsubscribeTask(t) => RunUnsubscribe(s0, t, open)
    case CloseTask => CloseByUser(s0, open)
  }

  /** One step of the session. */
  function Next(s: State, step: Step): State {
    match step
    case Run(first) =>
      Post((if first.Some? then AddTopic(s, first.value) else s).(started := true), ConnectTask)
    case Subscribe(t) => Post(AddTopic(s, t), FlushTask)
    case Unsubscribe(t) =>
      if t in s.subscriptions then Post(RemoveTopic(s, t), UnsubscribeTask(t)) else RemoveTopic(s, t)
    case Close => Post(s, CloseTask)
    case RunTask(task, now, open) => OnTask(s, task, now, open)
    case Complete(op, outcome, now, open) => OnComplete(s, op, outcome, now, open)
    case PongFrame(now) => s.(lastPongTime := now)
  }

  /**
   run() is called once; only tasks that were posted run and only operations in
   progress complete; the reconnect timer reports an error only when it was
   cancelled, which closeByUser alone does.
   */
  predicate Enabled(s: State, step: Step) {
    match step
    case Run(_) => !s.started
    case RunTask(task, _, _) => task in s.tasks
    case Complete(op, outcome, _, _) =>
      && op in s.ops
      && (if op.kind.Read? then !outcome.Completed? else !outcome.Received?)
      && (op.kind.ReconnectWait? && outcome.Failed? ==> s.userClosed)
    case _ => true
  }

  function Exec(s: State, steps: seq<Step>): State {
    if steps == [] then s else Next(Exec(s, steps[..|steps| - 1]), steps[|steps| - 1])
  }

  /** Every step of the run was possible when it was taken. */
  ghost predicate Feasible(s: State, steps: seq<Step>) {
    forall i :: 0 <= i < |steps| ==> Enabled(Exec(s, steps[..i]), steps[i])
  }
}
