/** What holds in every reachable state of the session, over every run. */
module WsTheorems {
  import opened Common
  import opened WsProtocol
  import opened WsSpec
  import opened WsInvariants

  lemma FeasiblePrefix(s: State, steps: seq<Step>, k: nat)
    requires Feasible(s, steps) && k <= |steps|
    ensures Feasible(s, steps[..k])
    ensures k < |steps| ==> Enabled(Exec(s, steps[..k]), steps[k])
  {
    forall i | 0 <= i < k
      ensures Enabled(Exec(s, steps[..k][..i]), steps[..k][i])
    {
      assert steps[..k][..i] == steps[..i];
    }
  }

  lemma {:induction false} ReachableInv(authRequired: bool, steps: seq<Step>)
    requires Feasible(Init(authRequired), steps)
    ensures Inv(Exec(Init(authRequired), steps))
  {
    hide Inv, Init, Next;
    if steps == [] {
      InitInv(authRequired);
    } else {
      var k := |steps| - 1;
      FeasiblePrefix(Init(authRequired), steps, k);
      ReachableInv(authRequired, steps[..k]);
      StepInv(Exec(Init(authRequired), steps[..k]), steps[k]);
    }
  }

  // ---- the topic lists are one ordered set ----

  function TopicsOf(steps: seq<Step>): seq<Request> {
    if steps == [] then [] else TopicsAfter(TopicsOf(steps[..|steps| - 1]), steps[|steps| - 1])
  }

  /**
   However client calls, flushes, errors and reconnects interleave, subscriptions
   followed by pendingTopics is the insertion-ordered set the client calls alone
   describe. What is replayed after a reconnect is therefore in the original order.
   */
  lemma {:induction false} TopicsAreOneOrderedSet(authRequired: bool, steps: seq<Step>)
    requires Feasible(Init(authRequired), steps)
    ensures Topics(Exec(Init(authRequired), steps)) == TopicsOf(steps)
    ensures NoDuplicates(TopicsOf(steps))
  {
    if steps != [] {
      hide Next, Topics, TopicsAfter;
      var k := |steps| - 1;
      FeasiblePrefix(Init(authRequired), steps, k);
      TopicsAreOneOrderedSet(authRequired, steps[..k]);
      ReachableInv(authRequired, steps[..k]);
      StepInv(Exec(Init(authRequired), steps[..k]), steps[k]);
    }
    ReachableInv(authRequired, steps);
  }

  // ---- never stuck, never doubled ----

  predicate Connecting(s: State) {
    exists k | k in {Resolve, TcpConnect, TlsHandshake, WsHandshake} :: Op(k, s.generation) in s.ops
  }

  predicate Live(s: State) { s.connected && Op(Read, s.generation) in s.ops }

  predicate Waiting(s: State) { s.reconnectScheduled && Op(ReconnectWait, s.generation) in s.ops }

  /**
   Once the first connect has begun and until the user closes the session, exactly
   one of these holds: a connect operation is in progress, the session is connected
   with a read in progress, or a reconnect is scheduled with its timer running.
   Nothing of the current generation is in progress twice, and nothing belongs to a
   generation still to come.
   */
  lemma NeverStuckNeverDoubled(authRequired: bool, steps: seq<Step>)
    requires Feasible(Init(authRequired), steps)
    ensures var s := Exec(Init(authRequired), steps);
      && (s.started && !s.userClosed && s.generation == 0 ==> s.tasks[ConnectTask] == 1)
      && (!s.userClosed && s.generation > 0 ==>
            Bit(Connecting(s)) + Bit(Live(s)) + Bit(Waiting(s)) == 1)
      && Chain(s) <= 1
      && (forall op :: op in s.ops && !op.kind.CloseHandshake? ==> s.ops[op] == 1 && 1 <= op.gen <= s.generation)
  {
    ReachableInv(authRequired, steps);
    Phases(Exec(Init(authRequired), steps));
    hide Pipe, Gate, Lists, NotForgotten, Exec;
  }

  lemma Phases(s: State)
    requires Shape(s)
    ensures Connecting(s) <==> Chain(s) == 1
    ensures Live(s) <==> s.connected && InProgress(s, Read) == 1
    ensures Waiting(s) <==> s.reconnectScheduled
    ensures Chain(s) <= 1
  {
    if Connecting(s) {
      var k :| k in {Resolve, TcpConnect, TlsHandshake, WsHandshake} && Op(k, s.generation) in s.ops;
      assert s.ops[Op(k, s.generation)] == 1;
    }
    if Chain(s) == 1 {
      assert Op(Resolve, s.generation) in s.ops || Op(TcpConnect, s.generation) in s.ops
          || Op(TlsHandshake, s.generation) in s.ops || Op(WsHandshake, s.generation) in s.ops;
    }
  }

  // ---- one writer, one heartbeat, frames in order ----

  /**
   A generation never has two writes or two ping waits in progress; what has been
   handed to the connection is, frame for frame, the front of what was queued; and
   everything but the frame in flight has been written completely.
   */
  lemma FramesInOrder(authRequired: bool, steps: seq<Step>)
    requires Feasible(Init(authRequired), steps)
    ensures var s := Exec(Init(authRequired), steps);
      && (forall g :: s.ops[Op(Write, g)] <= 1 && s.ops[Op(PingWait, g)] <= 1)
      && (s.connected ==> s.wire + s.outboundQueue == s.enqueued)
      && (s.connected && !s.userClosed ==>
            s.delivered + (if s.writeInFlight then [s.writeBuffer] else []) + s.outboundQueue == s.enqueued)
      && (!s.connected ==> s.outboundQueue == [] && !s.writeInFlight)
  {
    ReachableInv(authRequired, steps);
    var s := Exec(Init(authRequired), steps);
    hide Exec, Gate, Lists, NotForgotten;
    forall g
      ensures s.ops[Op(Write, g)] <= 1 && s.ops[Op(PingWait, g)] <= 1
    {
      assert Op(Write, g) in s.ops ==> s.ops[Op(Write, g)] == 1;
      assert Op(PingWait, g) in s.ops ==> s.ops[Op(PingWait, g)] == 1;
    }
  }

  /** A completion of an earlier generation changes nothing and starts nothing. */
  lemma StaleCompletionIsInert(s: State, step: Step)
    requires step.Complete? && step.op.gen != s.generation
    ensures Next(s, step) == s.(ops := s.ops - multiset{step.op})
  {
    hide OnChainStep, OnHandshake, OnRead, OnWritten, OnPingTimer, OnReconnectTimer;
  }

  /** On the way from s to t operations were only started, none of a generation before s's, and frames only queued. */
  ghost predicate NoOldStart(s: State, t: State) {
    && s.generation <= t.generation && s.ops <= t.ops && FewerOld(s.generation, s.ops, t.ops)
    && (t.generation == s.generation ==> s.enqueued <= t.enqueued)
  }

  /** The state a step's handler starts from: the operation it completes has left ops. */
  function Before(s: State, step: Step): State {
    if step.Complete? then s.(ops := s.ops - multiset{step.op}) else s
  }

  ghost predicate FewerOld(gen: int, before: multiset<Op>, after: multiset<Op>) {
    forall op: Op :: op.gen < gen ==> after[op] <= before[op]
  }

  lemma StartsOne(s: State, t: State, kind: OpKind)
    requires s.generation <= t.generation && t.ops in {s.ops, s.ops + multiset{Op(kind, t.generation)}}
    requires t.generation == s.generation ==> s.enqueued <= t.enqueued
    ensures NoOldStart(s, t)
  {
  }

  lemma InTurn(s: State, t: State, u: State)
    requires NoOldStart(s, t) && NoOldStart(t, u)
    ensures NoOldStart(s, u)
  {
  }

  lemma PumpStartsNothingOld(s: State, open: bool)
    ensures NoOldStart(s, Pump(s, open))
  {
    hide NoOldStart;
    StartsOne(s, Pump(s, open), Write);
  }

  lemma ErrorStartsNothingOld(s: State, gen: int)
    ensures NoOldStart(s, HandleError(s, gen))
  {
    hide NoOldStart;
    StartsOne(s, HandleError(s, gen), ReconnectWait);
  }

  lemma ConnectStartsNothingOld(s: State)
    ensures NoOldStart(s, StartConnect(s))
  {
    hide NoOldStart;
    StartsOne(s, StartConnect(s), Resolve);
  }

  lemma CloseStartsNothingOld(s: State, open: bool)
    ensures NoOldStart(s, CloseByUser(s, open))
  {
    hide NoOldStart;
    StartsOne(s, CloseByUser(s, open), CloseHandshake);
  }

  lemma BeginStartsNothingOld(s: State, kind: OpKind)
    ensures NoOldStart(s, s) && NoOldStart(s, Begin(s, kind))
  {
    hide NoOldStart;
    StartsOne(s, s, kind);
    StartsOne(s, Begin(s, kind), kind);
  }

  /** Only generation, operations and frames matter. */
  lemma SameStart(s: State, s': State, t: State)
    requires s.generation == s'.generation && s.ops == s'.ops && s.enqueued <= s'.enqueued && NoOldStart(s', t)
    ensures NoOldStart(s, t)
  {
  }

  lemma FlushStartsNothingOld(s: State, open: bool)
    ensures NoOldStart(s, FlushTopics(s, open))
  {
    hide NoOldStart, Pump, Messages;
    var moved := EnqueueAll(s.(subscriptions := s.subscriptions + s.pendingTopics, pendingTopics := []), Messages(s.pendingTopics));
    BeginStartsNothingOld(s, Read);
    PumpStartsNothingOld(moved, open);
    SameStart(s, moved, Pump(moved, open));
  }

  lemma HandshakeStartsNothingOld(s: State, gen: int, failed: bool, now: int, open: bool)
    ensures NoOldStart(s, OnHandshake(s, gen, failed, now, open))
  {
    hide NoOldStart, HandleError, SendLogin, FlushTopics, Begin;
    ErrorStartsNothingOld(s, gen);
    BeginStartsNothingOld(s, PingWait);
    var live := s.(connected := true, lastPongTime := now);
    BeginStartsNothingOld(live, PingWait);
    SameStart(s, live, Begin(live, PingWait));
    var up := Begin(live, PingWait);
    LoginStartsNothingOld(up, now, open);
    FlushStartsNothingOld(up, open);
    var ready := if s.authRequired then SendLogin(up, now, open) else FlushTopics(up, open);
    BeginStartsNothingOld(ready, Read);
    InTurn(s, up, ready);
    InTurn(s, ready, Begin(ready, Read));
  }

  lemma LoginStartsNothingOld(s: State, now: int, open: bool)
    ensures NoOldStart(s, SendLogin(s, now, open))
  {
    hide NoOldStart, Pump;
    var queued := EnqueueOp(s.(authDeadline := Some(now + AUTH_ACK_TIMEOUT_IN_MS)), Login(now));
    PumpStartsNothingOld(queued, open);
    SameStart(s, queued, Pump(queued, open));
  }

  lemma InboundStartsNothingOld(s: State, gen: int, msg: Inbound, now: int, open: bool)
    ensures NoOldStart(s, HandleInbound(s, gen, msg, now, open))
  {
    hide NoOldStart, HandleError, FlushTopics;
    ErrorStartsNothingOld(s, gen);
    BeginStartsNothingOld(s, Read);
    BeginStartsNothingOld(s.(lastPongTime := now), Read);
    SameStart(s, s.(lastPongTime := now), s.(lastPongTime := now));
    var acked := s.(authenticated := true, authenticatedFlag := true, authDeadline := None,
                    reconnectDelayS := 1, failures := 0, ackGen := s.generation);
    FlushStartsNothingOld(acked, open);
    SameStart(s, acked, FlushTopics(acked, open));
  }

  lemma ReadStartsNothingOld(s: State, gen: int, outcome: Outcome, now: int, open: bool)
    ensures NoOldStart(s, OnRead(s, gen, outcome, now, open))
  {
    hide NoOldStart, HandleError, HandleInbound, ReadAgain;
    ErrorStartsNothingOld(s, gen);
    if outcome.Received? {
      var t := HandleInbound(s, gen, outcome.msg, now, open);
      InboundStartsNothingOld(s, gen, outcome.msg, now, open);
      AgainStartsNothingOld(t, gen);
      InTurn(s, t, ReadAgain(t, gen));
    }
  }

  lemma AgainStartsNothingOld(s: State, gen: int)
    ensures NoOldStart(s, ReadAgain(s, gen))
  {
    hide NoOldStart;
    StartsOne(s, ReadAgain(s, gen), Read);
  }

  lemma WrittenStartsNothingOld(s: State, gen: int, failed: bool, open: bool)
    ensures NoOldStart(s, OnWritten(s, gen, failed, open))
  {
    hide NoOldStart, HandleError, Pump;
    var free := s.(writeInFlight := false);
    ErrorStartsNothingOld(free, gen);
    SameStart(s, free, HandleError(free, gen));
    var done := free.(delivered := s.delivered + [s.writeBuffer]);
    PumpStartsNothingOld(done, open);
    SameStart(s, done, Pump(done, open));
  }

  lemma PingStartsNothingOld(s: State, gen: int, failed: bool, now: int, open: bool)
    ensures NoOldStart(s, OnPingTimer(s, gen, failed, now, open))
  {
    hide NoOldStart, HandleError, Pump, Begin, EnqueueOp;
    ErrorStartsNothingOld(s, gen);
    BeginStartsNothingOld(s, PingWait);
    PingedStartsNothingOld(s, open);
    var pinged := Pump(EnqueueOp(s, Ping), open);
    BeginStartsNothingOld(pinged, PingWait);
    InTurn(s, pinged, Begin(pinged, PingWait));
  }

  lemma PingedStartsNothingOld(s: State, open: bool)
    ensures NoOldStart(s, Pump(EnqueueOp(s, Ping), open))
  {
    hide NoOldStart, Pump;
    PumpStartsNothingOld(EnqueueOp(s, Ping), open);
    SameStart(s, EnqueueOp(s, Ping), Pump(EnqueueOp(s, Ping), open));
  }

  lemma ReconnectStartsNothingOld(s: State, failed: bool)
    ensures NoOldStart(s, OnReconnectTimer(s, failed))
  {
    hide NoOldStart, StartConnect;
    var woken := s.(reconnectScheduled := false);
    BeginStartsNothingOld(woken, Read);
    ConnectStartsNothingOld(woken);
    SameStart(s, woken, woken);
    SameStart(s, woken, StartConnect(woken));
  }

  lemma ChainStartsNothingOld(s: State, gen: int, failed: bool, next: OpKind)
    ensures NoOldStart(s, OnChainStep(s, gen, failed, next))
  {
    hide NoOldStart, HandleError, Begin;
    ErrorStartsNothingOld(s, gen);
    BeginStartsNothingOld(s, next);
  }

  lemma CompletionStartsNothingOld(s: State, op: Op, outcome: Outcome, now: int, open: bool)
    ensures NoOldStart(s.(ops := s.ops - multiset{op}), OnComplete(s, op, outcome, now, open))
  {
    hide NoOldStart, OnChainStep, OnHandshake, OnRead, OnWritten, OnPingTimer, OnReconnectTimer;
    var s0 := s.(ops := s.ops - multiset{op});
    BeginStartsNothingOld(s0, Read);
    match op.kind {
      case Resolve => ChainStartsNothingOld(s0, op.gen, outcome.Failed?, TcpConnect);
      case TcpConnect => ChainStartsNothingOld(s0, op.gen, outcome.Failed?, TlsHandshake);
      case TlsHandshake => ChainStartsNothingOld(s0, op.gen, outcome.Failed?, WsHandshake);
      case WsHandshake => HandshakeStartsNothingOld(s0, op.gen, outcome.Failed?, now, open);
      case Read => ReadStartsNothingOld(s0, op.gen, outcome, now, open);
      case Write => WrittenStartsNothingOld(s0, op.gen, outcome.Failed?, open);
      case PingWait => PingStartsNothingOld(s0, op.gen, outcome.Failed?, now, open);
      case ReconnectWait => ReconnectStartsNothingOld(s0, outcome.Failed?);
      case CloseHandshake =>
    }
  }

  lemma TaskStartsNothingOld(s: State, task: Task, now: int, open: bool)
    ensures NoOldStart(s, OnTask(s, task, now, open))
  {
    hide NoOldStart, FlushTopics, StartConnect, CloseByUser, RunUnsubscribe;
    var s0 := s.(tasks := s.tasks - multiset{task});
    match task {
      case ConnectTask => ConnectStartsNothingOld(s0);
      case FlushTask => FlushStartsNothingOld(s0, open);
      case UnsubscribeTask(t) => UnsubscribeStartsNothingOld(s0, t, open);
      case CloseTask => CloseStartsNothingOld(s0, open);
    }
    SameStart(s, s0, OnTask(s, task, now, open));
  }

  lemma UnsubscribeStartsNothingOld(s: State, t: Request, open: bool)
    ensures NoOldStart(s, RunUnsubscribe(s, t, open))
  {
    hide NoOldStart, Pump, ToUnsubscribe;
    var queued := EnqueueOp(s, Message(ToUnsubscribe(t)));
    BeginStartsNothingOld(s, Read);
    PumpStartsNothingOld(queued, open);
    SameStart(s, queued, Pump(queued, open));
  }

  lemma StepStartsNothingOld(s: State, step: Step)
    ensures NoOldStart(Before(s, step), Next(s, step))
  {
    hide NoOldStart, OnComplete, OnTask, AddTopic, RemoveTopic;
    match step
    case Complete(op, outcome, now, open) => CompletionStartsNothingOld(s, op, outcome, now, open);
    case RunTask(task, now, open) => TaskStartsNothingOld(s, task, now, open);
    case _ =>
      CallKeepsOps(s, step);
      StartsOne(s, Next(s, step), Read);
  }

  lemma CallKeepsOps(s: State, step: Step)
    requires ClientCall(step) || step.PongFrame?
    ensures Next(s, step).ops == s.ops && Next(s, step).generation == s.generation && Next(s, step).enqueued == s.enqueued
  {
    hide AddTopic, RemoveTopic;
    match step {
      case Run(Some(t)) => ListsKeepOps(s, t);
      case Subscribe(t) => ListsKeepOps(s, t);
      case Unsubscribe(t) => ListsKeepOps(s, t);
      case _ =>
    }
  }

  lemma ListsKeepOps(s: State, t: Request)
    ensures AddTopic(s, t).ops == RemoveTopic(s, t).ops == s.ops
    ensures AddTopic(s, t).generation == RemoveTopic(s, t).generation == s.generation
    ensures AddTopic(s, t).enqueued == RemoveTopic(s, t).enqueued == s.enqueued
  {
    hide Without, WithoutFirst;
  }

  lemma OldStaysOld(s: State, step: Step, op: Op)
    requires op.gen < s.generation
    ensures op.gen < Next(s, step).generation && Next(s, step).ops[op] <= s.ops[op]
  {
    hide Next;
    StepStartsNothingOld(s, step);
  }

  /**
   What a generation has left in progress when it has passed can only end: over every run
   none of its operations is started again, and each that completes changes nothing else.
   */
  lemma {:induction false} OldOperationsOnlyEnd(s: State, steps: seq<Step>, op: Op, outcome: Outcome, now: int, open: bool)
    requires op.gen < s.generation
    ensures var t := Exec(s, steps);
      && op.gen < t.generation && t.ops[op] <= s.ops[op]
      && Next(t, Complete(op, outcome, now, open)) == t.(ops := t.ops - multiset{op})
  {
    hide Next, NoOldStart;
    if steps != [] {
      var n := |steps| - 1;
      OldOperationsOnlyEnd(s, steps[..n], op, outcome, now, open);
      OldStaysOld(Exec(s, steps[..n]), steps[n], op);
    }
    StaleCompletionIsInert(Exec(s, steps), Complete(op, outcome, now, open));
  }

  // ---- closing ----

  /** After the user has closed the session no run starts a generation or comes up again. */
  lemma {:induction false} ClosedForGood(s: State, steps: seq<Step>)
    requires s.userClosed
    ensures var t := Exec(s, steps); t.userClosed && t.generation == s.generation && (t.connected ==> s.connected)
  {
    hide Next;
    if steps != [] {
      ClosedForGood(s, steps[..|steps| - 1]);
      StepOnward(Exec(s, steps[..|steps| - 1]), steps[|steps| - 1]);
    }
  }

  // ---- the login gate ----

  /** The recorded ack generation is one whose login ack the run really read. */
  lemma {:induction false} AckWasRead(authRequired: bool, steps: seq<Step>)
    ensures var g := Exec(Init(authRequired), steps).ackGen;
      g > 0 ==> exists i :: 0 <= i < |steps| && ReadsLoginAck(steps[i], g) && Exec(Init(authRequired), steps[..i]).generation == g
  {
    hide Next, ReadsLoginAck;
    if steps != [] {
      var k := |steps| - 1;
      AckWasRead(authRequired, steps[..k]);
      var before := Exec(Init(authRequired), steps[..k]);
      StepOnward(before, steps[k]);
      if !ReadsLoginAck(steps[k], before.generation) && before.ackGen > 0 {
        var i :| 0 <= i < k && ReadsLoginAck(steps[..k][i], before.ackGen)
               && Exec(Init(authRequired), steps[..k][..i]).generation == before.ackGen;
        assert steps[..k][..i] == steps[..i];
      }
    }
  }

  /**
   In a session with credentials a connection's first frame is the login, and no
   "sub.*" frame is queued, in flight or written before the login ack of that same
   connection was read. isAuthenticated() is true only after such an ack.
   */
  lemma NoSubscriptionBeforeLoginAck(steps: seq<Step>)
    requires Feasible(Init(true), steps)
    ensures var s := Exec(Init(true), steps);
      && (s.connected ==> s.enqueued != [] && s.enqueued[0].Login?)
      && (HasSub(s.enqueued) || HasSub(s.outboundQueue) || HasSub(s.wire) || s.authenticatedFlag ==>
            exists i :: 0 <= i < |steps| && ReadsLoginAck(steps[i], s.generation)
                        && Exec(Init(true), steps[..i]).generation == s.generation)
  {
    ReachableInv(true, steps);
    AckWasRead(true, steps);
    AuthFixed(true, steps);
    var s := Exec(Init(true), steps);
    hide Exec, Shape, Lists, NotForgotten, ReadsLoginAck;
    if HasSub(s.outboundQueue) {
      var i :| 0 <= i < |s.outboundQueue| && IsSubMessage(s.outboundQueue[i]);
      assert IsSubMessage(s.enqueued[|s.wire| + i]);
    }
    if HasSub(s.wire) {
      var i :| 0 <= i < |s.wire| && IsSubMessage(s.wire[i]);
      assert IsSubMessage(s.enqueued[i]);
    }
  }

  lemma {:induction false} AuthFixed(authRequired: bool, steps: seq<Step>)
    ensures Exec(Init(authRequired), steps).authRequired == authRequired
  {
    hide Next;
    if steps != [] {
      AuthFixed(authRequired, steps[..|steps| - 1]);
      StepOnward(Exec(Init(authRequired), steps[..|steps| - 1]), steps[|steps| - 1]);
    }
  }

  // ---- no frame is stranded ----

  /** A frame waiting in the queue has a write in progress ahead of it. */
  predicate Flowing(s: State) {
    s.connected && !s.userClosed && s.outboundQueue != [] ==> s.writeInFlight
  }

  /** is_open() holds whenever the step asks. */
  predicate StreamOpen(step: Step) {
    match step
    case RunTask(_, _, open) => open
    case Complete(_, _, _, open) => open
    case _ => true
  }

  lemma ErrorFlows(s: State)
    requires Flowing(s) || s.reconnectScheduled == false
    requires s.reconnectScheduled ==> !s.connected
    ensures Flowing(HandleError(s, s.generation))
  {
  }

  lemma FlushFlows(s: State)
    requires Flowing(s)
    ensures Flowing(FlushTopics(s, true))
  {
  }

  lemma HandshakeFlows(s: State, failed: bool, now: int)
    requires Flowing(s) && (s.reconnectScheduled ==> !s.connected) && s.outboundQueue == []
    ensures Flowing(OnHandshake(s, s.generation, failed, now, true))
  {
    ErrorFlows(s);
    FlushFlows(Begin(s.(connected := true, lastPongTime := now), PingWait));
    hide HandleError, FlushTopics;
  }

  lemma ReadFlows(s: State, outcome: Outcome, now: int)
    requires Flowing(s) && (s.reconnectScheduled ==> !s.connected)
    ensures Flowing(OnRead(s, s.generation, outcome, now, true))
  {
    hide HandleError, HandleInbound, ReadAgain;
    ErrorFlows(s);
    if outcome.Received? && !outcome.msg.Unparsable? {
      InboundFlows(s, outcome.msg, now);
      ReadAgainFlows(HandleInbound(s, s.generation, outcome.msg, now, true), s.generation);
    }
  }

  lemma InboundFlows(s: State, msg: Inbound, now: int)
    requires Flowing(s) && (s.reconnectScheduled ==> !s.connected)
    ensures Flowing(HandleInbound(s, s.generation, msg, now, true))
  {
    hide HandleError, FlushTopics;
    ErrorFlows(s);
    FlushFlows(s.(authenticated := true, authenticatedFlag := true, authDeadline := None,
                  reconnectDelayS := 1, failures := 0, ackGen := s.generation));
  }

  lemma ReadAgainFlows(s: State, gen: int)
    requires Flowing(s)
    ensures Flowing(ReadAgain(s, gen))
  {
  }

  lemma WrittenFlows(s: State, failed: bool)
    requires s.reconnectScheduled ==> !s.connected
    ensures Flowing(OnWritten(s, s.generation, failed, true))
  {
    ErrorFlows(s.(writeInFlight := false));
    hide HandleError;
  }

  lemma PingFlows(s: State, failed: bool, now: int)
    requires Flowing(s) && (s.reconnectScheduled ==> !s.connected)
    ensures Flowing(OnPingTimer(s, s.generation, failed, now, true))
  {
    ErrorFlows(s);
    hide HandleError;
  }

  lemma CompletionFlows(s: State, op: Op, outcome: Outcome, now: int)
    requires Inv(s) && Flowing(s) && op in s.ops
    ensures Flowing(OnComplete(s, op, outcome, now, true))
  {
    hide OnHandshake, OnRead, OnWritten, OnPingTimer;
    assert s.reconnectScheduled ==> !s.connected;
    var s0 := s.(ops := s.ops - multiset{op});
    if op.gen == s.generation {
      if op.kind.WsHandshake? {
        assert Chain(s) == 1;
        HandshakeFlows(s0, outcome.Failed?, now);
      } else {
        hide Inv;
        ReadFlows(s0, outcome, now);
        WrittenFlows(s0, outcome.Failed?);
        PingFlows(s0, outcome.Failed?, now);
      }
    }
  }

  lemma TaskFlows(s: State, task: Task, now: int)
    requires Inv(s) && Flowing(s)
    ensures Flowing(OnTask(s, task, now, true))
  {
    assert !s.connected ==> s.outboundQueue == [];
    hide Inv, ToUnsubscribe, FlushTopics;
    FlushFlows(s.(tasks := s.tasks - multiset{task}));
  }

  lemma StepFlows(s: State, step: Step)
    requires Inv(s) && Flowing(s) && Enabled(s, step) && StreamOpen(step)
    ensures Flowing(Next(s, step))
  {
    match step
    case Complete(op, outcome, now, _) =>
      hide Inv, OnComplete, OnTask;
      CompletionFlows(s, op, outcome, now);
    case RunTask(task, now, _) =>
      hide Inv, OnComplete, OnTask;
      TaskFlows(s, task, now);
    case _ =>
      ClientOnward(s, step);
      hide Inv, Next;
  }

  /**
   As long as the stream reports open, every queued frame of a connected session is
   behind a write in progress, so each enters the connection without further events.
   */
  lemma {:induction false} NoFrameIsStranded(authRequired: bool, steps: seq<Step>)
    requires Feasible(Init(authRequired), steps)
    requires forall i :: 0 <= i < |steps| ==> StreamOpen(steps[i])
    ensures Flowing(Exec(Init(authRequired), steps))
  {
    hide Next, StreamOpen;
    if steps != [] {
      var k := |steps| - 1;
      FeasiblePrefix(Init(authRequired), steps, k);
      NoFrameIsStranded(authRequired, steps[..k]);
      ReachableInv(authRequired, steps[..k]);
      hide Flowing;
      StepFlows(Exec(Init(authRequired), steps[..k]), steps[k]);
    }
  }

  /**
   A topic waiting while the session is connected and, if it needs to be, logged in
   has a flush coming; so no subscription made while offline is forgotten.
   */
  lemma NoTopicIsForgotten(authRequired: bool, steps: seq<Step>)
    requires Feasible(Init(authRequired), steps)
    ensures var s := Exec(Init(authRequired), steps);
      s.connected && (s.authRequired ==> s.authenticated) && s.pendingTopics != [] ==> FlushTask in s.tasks
  {
    ReachableInv(authRequired, steps);
    hide Exec;
  }

  /**
   The heartbeat of a live connection gives it up exactly when no pong came for 41 s or
   more, or the login ack is overdue; otherwise it queues one ping and waits again.
   */
  lemma SilenceIsNoticed(s: State, now: int, open: bool)
    requires Inv(s) && s.connected && !s.userClosed && Op(PingWait, s.generation) in s.ops
    ensures var t := Next(s, Complete(Op(PingWait, s.generation), Completed, now, open));
      && (t.reconnectScheduled <==>
            || now - s.lastPongTime >= 41000
            || (s.authRequired && !s.authenticated && s.authDeadline.Some? && now > s.authDeadline.value))
      && (t.connected <==> !t.reconnectScheduled)
      && (t.connected ==> t.enqueued == s.enqueued + [Ping] && Op(PingWait, s.generation) in t.ops)
      && (!t.connected ==> t.pendingTopics == Topics(s) && Op(ReconnectWait, s.generation) in t.ops)
  {
    LivePhase(s);
    hide Inv, Pump, HandleError, Begin, EnqueueOp, OnTask, AddTopic, RemoveTopic, OnHandshake, OnRead, OnWritten, OnReconnectTimer, OnChainStep;
    var s0 := s.(ops := s.ops - multiset{Op(PingWait, s.generation)});
    GivenUp(s0);
    Pinged(s0, open);
  }

  lemma LivePhase(s: State)
    requires Inv(s) && s.connected
    ensures !s.reconnectScheduled
  {
  }

  lemma GivenUp(s: State)
    requires !s.reconnectScheduled && !s.userClosed
    ensures var t := HandleError(s, s.generation);
      t.reconnectScheduled && !t.connected && t.pendingTopics == Topics(s) && Op(ReconnectWait, s.generation) in t.ops
  {
  }

  lemma Pinged(s: State, open: bool)
    ensures var t := Begin(Pump(EnqueueOp(s, Ping), open), PingWait);
      && t.connected == s.connected && t.reconnectScheduled == s.reconnectScheduled
      && t.enqueued == s.enqueued + [Ping] && Op(PingWait, s.generation) in t.ops
  {
  }

  /** Reconnects back off 1, 2, 4, 8, 16, 30, 30, ... seconds until the connection proves alive. */
  lemma BackoffDoublesToThirty(authRequired: bool, steps: seq<Step>)
    requires Feasible(Init(authRequired), steps)
    ensures var s := Exec(Init(authRequired), steps);
      s.reconnectDelayS == Backoff(s.failures) && 1 <= s.reconnectDelayS <= 30
  {
    ReachableInv(authRequired, steps);
    BackoffInRange(Exec(Init(authRequired), steps));
    hide *;
  }

  lemma BackoffInRange(s: State)
    requires Inv(s)
    ensures s.reconnectDelayS == Backoff(s.failures) && 1 <= s.reconnectDelayS <= 30
  {
    hide Shape, Alive, Pipe, Gate, NotForgotten, Topics;
  }
}
