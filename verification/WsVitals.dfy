/**
 The session without its queues, lists and operations: what is left is a small machine of
 flags and times that every step moves on its own. The step system projects onto it.
 */
module WsVitals {
  import opened Common
  import opened WsProtocol
  import opened WsSpec
  import opened WsInvariants
  import opened WsTheorems

  datatype Vitals = Vitals(generation: int, userClosed: bool, connected: bool, reconnectScheduled: bool, authenticated: bool,
                           authDeadline: Option<int>, lastPongTime: int, reconnectDelayS: int, reconnectWaitS: int)

  function VitalsOf(s: State): Vitals {
    Vitals(s.generation, s.userClosed, s.connected, s.reconnectScheduled, s.authenticated,
           s.authDeadline, s.lastPongTime, s.reconnectDelayS, s.reconnectWaitS)
  }

  function Dropped(v: Vitals): Vitals {
    if v.reconnectScheduled || v.userClosed then v
    else v.(reconnectScheduled := true, connected := false, authenticated := false, authDeadline := None,
            reconnectWaitS := v.reconnectDelayS, reconnectDelayS := Min(v.reconnectDelayS * 2, RECONNECT_DELAY_MAX_IN_S))
  }

  function Dialled(v: Vitals): Vitals {
    if v.userClosed then v
    else v.(generation := v.generation + 1, connected := false, authenticated := false, authDeadline := None)
  }

  function Up(v: Vitals, auth: bool, now: int): Vitals {
    if v.userClosed then v
    else v.(connected := true, lastPongTime := now,
            authDeadline := if auth then Some(now + AUTH_ACK_TIMEOUT_IN_MS) else v.authDeadline)
  }

  /** What a control frame alone does to flags and times. */
  function Handled(v: Vitals, msg: Inbound, now: int): Vitals {
    match msg
    case Pong => v.(lastPongTime := now)
    case LoginAccepted => v.(authenticated := true, authDeadline := None, reconnectDelayS := 1)
    case LoginRefused => Dropped(v)
    case Unparsable => Dropped(v)
    case _ => v
  }

  /** A frame read on the connection, and what follows when reading goes on. */
  function Heard(v: Vitals, auth: bool, msg: Inbound, now: int): Vitals {
    var u := Handled(v, msg, now);
    if msg.Unparsable? then u
    else if u.reconnectScheduled || !u.connected then u
    else if !auth || u.authenticated then u.(reconnectDelayS := 1)
    else u
  }

  predicate Overdue(v: Vitals, auth: bool, now: int) {
    v.connected &&
    (|| (now - v.lastPongTime) / 1000 > PONG_TIMEOUT_IN_S
     || (auth && !v.authenticated && v.authDeadline.Some? && now > v.authDeadline.value))
  }

  function AfterOp(v: Vitals, auth: bool, kind: OpKind, outcome: Outcome, now: int): Vitals {
    match kind
    case Resolve => if outcome.Failed? then Dropped(v) else v
    case TcpConnect => if outcome.Failed? then Dropped(v) else v
    case TlsHandshake => if outcome.Failed? then Dropped(v) else v
    case WsHandshake => if outcome.Failed? then Dropped(v) else Up(v, auth, now)
    case Read => if outcome.Received? then Heard(v, auth, outcome.msg, now) else Dropped(v)
    case Write => if outcome.Failed? then Dropped(v) else v
    case PingWait => if outcome.Failed? || v.userClosed || !Overdue(v, auth, now) then v else Dropped(v)
    case ReconnectWait =>
      var woken := v.(reconnectScheduled := false);
      if outcome.Failed? then woken else Dialled(woken)
    case CloseHandshake => v
  }

  function NextVitals(v: Vitals, auth: bool, step: Step): Vitals {
    match step
    case PongFrame(now) => v.(lastPongTime := now)
    case RunTask(task, _, _) =>
      if task.ConnectTask? then Dialled(v) else if task.CloseTask? then v.(userClosed := true) else v
    case Complete(op, outcome, now, _) =>
      if op.gen == v.generation then AfterOp(v, auth, op.kind, outcome, now) else v
    case _ => v
  }

  // ---- the projection ----

  lemma PumpVitals(s: State, open: bool)
    ensures VitalsOf(Pump(s, open)) == VitalsOf(s) && Pump(s, open).authRequired == s.authRequired
    ensures Pump(s, open).enqueued == s.enqueued
  {
  }

  lemma FlushVitals(s: State, open: bool)
    ensures VitalsOf(FlushTopics(s, open)) == VitalsOf(s) && FlushTopics(s, open).authRequired == s.authRequired
    ensures s.enqueued <= FlushTopics(s, open).enqueued
  {
    hide Pump, Messages;
    PumpVitals(EnqueueAll(s.(subscriptions := s.subscriptions + s.pendingTopics, pendingTopics := []), Messages(s.pendingTopics)), open);
  }

  lemma ErrorVitals(s: State, gen: int)
    requires gen == s.generation
    ensures VitalsOf(HandleError(s, gen)) == Dropped(VitalsOf(s)) && HandleError(s, gen).authRequired == s.authRequired
    ensures HandleError(s, gen).enqueued == s.enqueued
  {
  }

  lemma ConnectVitals(s: State)
    ensures VitalsOf(StartConnect(s)) == Dialled(VitalsOf(s))
  {
  }

  lemma LoginVitals(s: State, now: int, open: bool)
    ensures var t := SendLogin(s, now, open);
      && VitalsOf(t) == VitalsOf(s).(authDeadline := Some(now + AUTH_ACK_TIMEOUT_IN_MS))
      && t.authRequired == s.authRequired && t.enqueued == s.enqueued + [Login(now)]
  {
    hide Pump;
    PumpVitals(EnqueueOp(s.(authDeadline := Some(now + AUTH_ACK_TIMEOUT_IN_MS)), Login(now)), open);
  }

  lemma HandshakeVitals(s: State, gen: int, failed: bool, now: int, open: bool)
    requires gen == s.generation
    ensures VitalsOf(OnHandshake(s, gen, failed, now, open)) == (if failed then Dropped(VitalsOf(s)) else Up(VitalsOf(s), s.authRequired, now))
  {
    hide HandleError, Pump, SendLogin, FlushTopics, Dropped;
    ErrorVitals(s, gen);
    var up := Begin(s.(connected := true, lastPongTime := now), PingWait);
    LoginVitals(up, now, open);
    FlushVitals(up, open);
  }

  lemma InboundVitals(s: State, gen: int, msg: Inbound, now: int, open: bool)
    requires gen == s.generation && !msg.Unparsable?
    ensures VitalsOf(ReadAgain(HandleInbound(s, gen, msg, now, open), gen)) == Heard(VitalsOf(s), s.authRequired, msg, now)
  {
    hide Dropped, ReadAgain;
    HandledVitals(s, gen, msg, now, open);
    hide HandleInbound;
    DroppedSame(VitalsOf(s));
    AgainVitals(HandleInbound(s, gen, msg, now, open), gen);
  }

  lemma HandledVitals(s: State, gen: int, msg: Inbound, now: int, open: bool)
    requires gen == s.generation
    ensures var t := HandleInbound(s, gen, msg, now, open);
      VitalsOf(t) == Handled(VitalsOf(s), msg, now) && t.authRequired == s.authRequired && t.generation == gen
  {
    hide HandleError, FlushTopics, Dropped;
    DroppedSame(VitalsOf(s));
    ErrorVitals(s, gen);
    var acked := s.(authenticated := true, authenticatedFlag := true, authDeadline := None,
                    reconnectDelayS := 1, failures := 0, ackGen := s.generation);
    FlushVitals(acked, open);
  }

  lemma DroppedSame(v: Vitals)
    ensures Dropped(v).generation == v.generation
  {
  }

  lemma AgainVitals(s: State, gen: int)
    requires gen == s.generation
    ensures var v := VitalsOf(s);
      VitalsOf(ReadAgain(s, gen)) ==
        if v.reconnectScheduled || !v.connected then v
        else if !s.authRequired || v.authenticated then v.(reconnectDelayS := 1)
        else v
  {
  }

  lemma ReadVitals(s: State, gen: int, outcome: Outcome, now: int, open: bool)
    requires gen == s.generation
    ensures VitalsOf(OnRead(s, gen, outcome, now, open)) ==
      if outcome.Received? then Heard(VitalsOf(s), s.authRequired, outcome.msg, now) else Dropped(VitalsOf(s))
  {
    hide HandleError, HandleInbound, ReadAgain, Dropped;
    ErrorVitals(s, gen);
    if outcome.Received? && !outcome.msg.Unparsable? {
      InboundVitals(s, gen, outcome.msg, now, open);
    }
  }

  lemma WrittenVitals(s: State, gen: int, failed: bool, open: bool)
    requires gen == s.generation
    ensures VitalsOf(OnWritten(s, gen, failed, open)) == (if failed then Dropped(VitalsOf(s)) else VitalsOf(s))
  {
    hide HandleError, Pump, Dropped;
    ErrorVitals(s.(writeInFlight := false), gen);
    PumpVitals(s.(writeInFlight := false, delivered := s.delivered + [s.writeBuffer]), open);
  }

  lemma PingVitals(s: State, gen: int, failed: bool, now: int, open: bool)
    requires gen == s.generation
    ensures var v := VitalsOf(s);
      VitalsOf(OnPingTimer(s, gen, failed, now, open)) == (if failed || v.userClosed || !Overdue(v, s.authRequired, now) then v else Dropped(v))
  {
    hide HandleError, Pump, Dropped;
    ErrorVitals(s, gen);
    PumpVitals(EnqueueOp(s, Ping), open);
  }

  lemma ReconnectVitals(s: State, failed: bool)
    ensures var woken := VitalsOf(s).(reconnectScheduled := false);
      VitalsOf(OnReconnectTimer(s, failed)) == (if failed then woken else Dialled(woken))
  {
    hide StartConnect;
    ConnectVitals(s.(reconnectScheduled := false));
  }

  lemma ChainVitals(s: State, gen: int, failed: bool, next: OpKind)
    requires gen == s.generation
    ensures VitalsOf(OnChainStep(s, gen, failed, next)) == (if failed then Dropped(VitalsOf(s)) else VitalsOf(s))
  {
    hide HandleError, Dropped;
    ErrorVitals(s, gen);
  }

  lemma SameVitals(s: State, s0: State)
    requires s0 == s.(ops := s0.ops, tasks := s0.tasks)
    ensures VitalsOf(s0) == VitalsOf(s) && s0.authRequired == s.authRequired && s0.generation == s.generation
  {
  }

  lemma VitalsFields(s: State)
    ensures VitalsOf(s).generation == s.generation && VitalsOf(s).userClosed == s.userClosed
  {
  }

  lemma CompletionVitals(s: State, op: Op, outcome: Outcome, now: int, open: bool)
    ensures VitalsOf(OnComplete(s, op, outcome, now, open)) ==
      if op.gen == s.generation then AfterOp(VitalsOf(s), s.authRequired, op.kind, outcome, now) else VitalsOf(s)
  {
    var s0 := s.(ops := s.ops - multiset{op});
    SameVitals(s, s0);
    hide OnChainStep, OnHandshake, OnRead, OnWritten, OnPingTimer, OnReconnectTimer, Dropped, Up, Heard, Dialled, Overdue, VitalsOf;
    VitalsFields(s);
    if op.gen == s.generation {
      match op.kind {
        case Resolve => ChainVitals(s0, op.gen, outcome.Failed?, TcpConnect);
        case TcpConnect => ChainVitals(s0, op.gen, outcome.Failed?, TlsHandshake);
        case TlsHandshake => ChainVitals(s0, op.gen, outcome.Failed?, WsHandshake);
        case WsHandshake => HandshakeVitals(s0, op.gen, outcome.Failed?, now, open);
        case Read => ReadVitals(s0, op.gen, outcome, now, open);
        case Write => WrittenVitals(s0, op.gen, outcome.Failed?, open);
        case PingWait => PingVitals(s0, op.gen, outcome.Failed?, now, open);
        case ReconnectWait => ReconnectVitals(s0, outcome.Failed?);
        case CloseHandshake =>
      }
    }
  }

  lemma TaskVitals(s: State, task: Task, now: int, open: bool)
    ensures VitalsOf(OnTask(s, task, now, open)) ==
      if task.ConnectTask? then Dialled(VitalsOf(s))
      else if task.CloseTask? then VitalsOf(s).(userClosed := true)
      else VitalsOf(s)
  {
    var s0 := s.(tasks := s.tasks - multiset{task});
    SameVitals(s, s0);
    hide StartConnect, FlushTopics, RunUnsubscribe, CloseByUser, Dialled, VitalsOf;
    match task {
      case ConnectTask => ConnectVitals(s0);
      case FlushTask => FlushVitals(s0, open);
      case UnsubscribeTask(t) => UnsubscribeVitals(s0, t, open);
      case CloseTask => CloseVitals(s0, open);
    }
  }

  lemma UnsubscribeVitals(s: State, t: Request, open: bool)
    ensures VitalsOf(RunUnsubscribe(s, t, open)) == VitalsOf(s)
  {
    hide Pump, ToUnsubscribe;
    PumpVitals(EnqueueOp(s, Message(ToUnsubscribe(t))), open);
  }

  lemma CloseVitals(s: State, open: bool)
    ensures VitalsOf(CloseByUser(s, open)) == VitalsOf(s).(userClosed := true)
  {
  }

  lemma ListVitals(s: State, t: Request)
    ensures VitalsOf(AddTopic(s, t)) == VitalsOf(RemoveTopic(s, t)) == VitalsOf(s)
  {
    hide Without, WithoutFirst;
  }

  lemma PostVitals(s: State, task: Task)
    ensures VitalsOf(Post(s, task)) == VitalsOf(s) && VitalsOf(s.(started := true)) == VitalsOf(s)
  {
  }

  lemma RunVitals(s: State, first: Option<Request>)
    ensures VitalsOf(Next(s, Run(first))) == VitalsOf(s)
  {
    hide AddTopic, RemoveTopic, OnTask, OnComplete;
    var s1 := if first.Some? then AddTopic(s, first.value) else s;
    if first.Some? {
      ListVitals(s, first.value);
    }
    PostVitals(s1, ConnectTask);
    PostVitals(s1.(started := true), ConnectTask);
  }

  lemma SubscribeVitals(s: State, t: Request)
    ensures VitalsOf(Next(s, Subscribe(t))) == VitalsOf(s) && VitalsOf(Next(s, Unsubscribe(t))) == VitalsOf(s)
  {
    hide AddTopic, RemoveTopic, OnTask, OnComplete, VitalsOf, Post;
    ListVitals(s, t);
    PostVitals(AddTopic(s, t), FlushTask);
    PostVitals(RemoveTopic(s, t), UnsubscribeTask(t));
  }

  lemma CloseCallVitals(s: State, now: int)
    ensures VitalsOf(Next(s, Close)) == VitalsOf(s)
    ensures VitalsOf(Next(s, PongFrame(now))) == VitalsOf(s).(lastPongTime := now)
  {
    hide AddTopic, RemoveTopic, OnTask, OnComplete;
  }

  lemma CallVitals(s: State, step: Step)
    requires ClientCall(step) || step.PongFrame?
    ensures VitalsOf(Next(s, step)) == NextVitals(VitalsOf(s), s.authRequired, step)
  {
    hide Next, VitalsOf;
    match step {
      case Run(first) => RunVitals(s, first);
      case Subscribe(t) => SubscribeVitals(s, t);
      case Unsubscribe(t) => SubscribeVitals(s, t);
      case Close => CloseCallVitals(s, 0);
      case PongFrame(now) => CloseCallVitals(s, now);
      case _ => assert false;
    }
  }

  /** The flags and times of a session move as the small machine does. */
  lemma StepVitals(s: State, step: Step)
    ensures VitalsOf(Next(s, step)) == NextVitals(VitalsOf(s), s.authRequired, step)
  {
    hide OnComplete, OnTask, AddTopic, RemoveTopic, AfterOp, Dialled, VitalsOf;
    VitalsFields(s);
    match step
    case Complete(op, outcome, now, open) => CompletionVitals(s, op, outcome, now, open);
    case RunTask(task, now, open) => TaskVitals(s, task, now, open);
    case _ => CallVitals(s, step);
  }
}
