/**
 The session object: the fields its handlers update in place, and every handler,
 posted task and client call as a method. Each method is proved to change the
 object exactly as the step system says, so all results about runs apply to it.
 */
module WsSession {
  import opened Common
  import opened WsProtocol
  import opened WsSpec
  import opened WsInvariants

  datatype World = World(ops: multiset<Op>, tasks: multiset<Task>, enqueued: seq<Payload>, wire: seq<Payload>,
                         delivered: seq<Payload>, ackGen: int, started: bool, failures: nat)

  class Session {
    const authRequired: bool
    var generation: int
    var connected: bool
    var authenticated: bool
    var authenticatedFlag: bool
    var reconnectScheduled: bool
    var userClosed: bool
    var writeInFlight: bool
    var writeBuffer: Payload
    var outboundQueue: seq<Payload>
    var subscriptions: seq<Request>
    var pendingTopics: seq<Request>
    var reconnectDelayS: int
    var lastPongTime: int
    var authDeadline: Option<int>
    var reconnectWaitS: int

    /** What the rest of the world owes the session and what it has been handed. */
    ghost var world: World

    ghost function Abs(): State
      reads this
    {
      State(authRequired, generation, connected, authenticated, authenticatedFlag, reconnectScheduled, userClosed,
            writeInFlight, writeBuffer, outboundQueue, subscriptions, pendingTopics, reconnectDelayS, lastPongTime,
            authDeadline, reconnectWaitS, world.ops, world.tasks, world.enqueued, world.wire, world.delivered, world.ackGen,
            world.started, world.failures)
    }

    constructor (authRequired: bool)
      ensures Abs() == Init(authRequired) && Inv(Abs())
    {
      this.authRequired := authRequired;
      generation := 0;
      connected, authenticated, authenticatedFlag := false, false, false;
      reconnectScheduled, userClosed, writeInFlight := false, false, false;
      writeBuffer := Ping;
      outboundQueue, subscriptions, pendingTopics := [], [], [];
      reconnectDelayS, lastPongTime, authDeadline, reconnectWaitS := 1, 0, None, 0;
      world := World(multiset{}, multiset{}, [], [], [], 0, false, 0);
      new;
      InitInv(authRequired);
    }

    /** An asynchronous operation is started; its handler captures the current generation. */
    ghost method StartOp(kind: OpKind)
      modifies `world
      ensures world == old(world).(ops := old(world).ops + multiset{Op(kind, generation)})
    {
      world := world.(ops := world.ops + multiset{Op(kind, generation)});
    }

    /** post(strand, ...). */
    ghost method PostTask(task: Task)
      modifies `world
      ensures world == old(world).(tasks := old(world).tasks + multiset{task})
    {
      world := world.(tasks := world.tasks + multiset{task});
    }

    // ---- outbound write pump ----

    ghost method StartWrite(payload: Payload)
      modifies `world
      ensures world == old(world).(wire := old(world).wire + [payload], ops := old(world).ops + multiset{Op(Write, generation)})
    {
      world := world.(wire := world.wire + [payload], ops := world.ops + multiset{Op(Write, generation)});
    }

    method Enqueue(payload: Payload)
      modifies `outboundQueue, `world
      ensures outboundQueue == old(outboundQueue) + [payload]
      ensures world == old(world).(enqueued := old(world).enqueued + [payload])
    {
      outboundQueue := outboundQueue + [payload];
      world := world.(enqueued := world.enqueued + [payload]);
    }

    method PumpQueue(open: bool)
      modifies this
      ensures Abs() == Pump(old(Abs()), open)
    {
      if writeInFlight || !connected || !open {
        return;
      }
      if outboundQueue == [] {
        return;
      }
      writeBuffer := outboundQueue[0];
      outboundQueue := outboundQueue[1..];
      writeInFlight := true;
      StartWrite(writeBuffer);
    }

    // ---- subscription bookkeeping ----

    method Add(topic: Request)
      modifies this
      ensures Abs() == AddTopic(old(Abs()), topic)
    {
      if topic in subscriptions {
        return;
      }
      if topic in pendingTopics {
        return;
      }
      pendingTopics := pendingTopics + [topic];
    }

    method Remove(topic: Request) returns (removed: bool)
      modifies this
      ensures removed <==> topic in old(subscriptions)
      ensures Abs() == RemoveTopic(old(Abs()), topic)
    {
      var kept: seq<Request> := [];
      for i := 0 to |pendingTopics|
        invariant i <= |pendingTopics| && Abs() == old(Abs())
        invariant kept == Without(pendingTopics[..i], topic)
      {
        assert pendingTopics[..i + 1] == pendingTopics[..i] + [pendingTopics[i]];
        WithoutAppend(pendingTopics[..i], [pendingTopics[i]], topic);
        if pendingTopics[i] != topic {
          kept := kept + [pendingTopics[i]];
        }
      }
      assert pendingTopics[..|pendingTopics|] == pendingTopics;
      pendingTopics := kept;
      var it := 0;
      while it < |subscriptions| && subscriptions[it] != topic
        invariant 0 <= it <= |subscriptions| && topic !in subscriptions[..it]
      {
        it := it + 1;
      }
      if it < |subscriptions| {
        WithoutFirstAt(subscriptions, it);
        subscriptions := subscriptions[..it] + subscriptions[it + 1..];
        removed := true;
      } else {
        WithoutAbsent(subscriptions, topic);
        removed := false;
      }
    }

    method IsSubscribed(topic: Request) returns (yes: bool)
      ensures yes <==> topic in Topics(Abs())
    {
      yes := topic in subscriptions || topic in pendingTopics;
    }

    /** Moves every pending topic to the subscriptions and returns what is to be sent. */
    method MovePending() returns (toSend: seq<Request>)
      modifies `subscriptions, `pendingTopics
      ensures toSend == old(pendingTopics) && pendingTopics == []
      ensures subscriptions == old(subscriptions) + old(pendingTopics)
    {
      toSend := [];
      for i := 0 to |pendingTopics|
        invariant pendingTopics == old(pendingTopics) && toSend == pendingTopics[..i]
        invariant subscriptions == old(subscriptions) + toSend
      {
        subscriptions := subscriptions + [pendingTopics[i]];
        toSend := toSend + [pendingTopics[i]];
      }
      pendingTopics := [];
    }

    method EnqueueTopics(topics: seq<Request>)
      modifies `outboundQueue, `world
      ensures outboundQueue == old(outboundQueue) + Messages(topics)
      ensures world == old(world).(enqueued := old(world).enqueued + Messages(topics))
    {
      for i := 0 to |topics|
        invariant outboundQueue == old(outboundQueue) + Messages(topics[..i])
        invariant world == old(world).(enqueued := old(world).enqueued + Messages(topics[..i]))
      {
        assert Messages(topics[..i + 1]) == Messages(topics[..i]) + [Message(topics[i])];
        Enqueue(Message(topics[i]));
      }
      assert topics[..|topics|] == topics;
    }

    method FlushPending(open: bool)
      modifies this
      ensures Abs() == FlushTopics(old(Abs()), open)
    {
      hide Pump, Messages;
      if connected && (!authRequired || authenticated) {
        var toSend := MovePending();
        EnqueueTopics(toSend);
        PumpQueue(open);
      }
    }

    // ---- auth ----

    method LogIn(now: int, open: bool)
      modifies this
      ensures Abs() == SendLogin(old(Abs()), now, open)
    {
      authDeadline := Some(now + AUTH_ACK_TIMEOUT_IN_MS);
      Enqueue(Login(now));
      PumpQueue(open);
    }

    // ---- connect chain ----

    /** The flags of a connection that is no more, or not yet. */
    method ResetConnection()
      modifies `connected, `authenticated, `authenticatedFlag, `writeInFlight, `authDeadline
      ensures !connected && !authenticated && !authenticatedFlag && !writeInFlight && authDeadline == None
    {
      connected := false;
      authenticated := false;
      authenticatedFlag := false;
      writeInFlight := false;
      authDeadline := None;
    }

    method NewGeneration()
      modifies `generation, `connected, `authenticated, `authenticatedFlag, `writeInFlight, `authDeadline, `world
      ensures generation == old(generation) + 1
      ensures !connected && !authenticated && !authenticatedFlag && !writeInFlight && authDeadline == None
      ensures world == old(world).(enqueued := [], wire := [], delivered := [],
                                   ops := old(world).ops + multiset{Op(Resolve, generation)})
    {
      generation := generation + 1;
      ResetConnection();
      world := world.(enqueued := [], wire := [], delivered := []);
      StartOp(Resolve);
    }

    method Dial()
      modifies this
      ensures Abs() == StartConnect(old(Abs()))
    {
      if !userClosed {
        NewGeneration();
      }
    }

    method Resolved(gen: int, failed: bool)
      modifies this
      ensures Abs() == OnChainStep(old(Abs()), gen, failed, TcpConnect)
    {
      if failed {
        Fail(gen);
        return;
      }
      StartOp(TcpConnect);
    }

    /** Failed covers a refused server name indication as well as a failed connect. */
    method TcpConnected(gen: int, failed: bool)
      modifies this
      ensures Abs() == OnChainStep(old(Abs()), gen, failed, TlsHandshake)
    {
      if failed {
        Fail(gen);
        return;
      }
      StartOp(TlsHandshake);
    }

    method TlsShaken(gen: int, failed: bool)
      modifies this
      ensures Abs() == OnChainStep(old(Abs()), gen, failed, WsHandshake)
    {
      if failed {
        Fail(gen);
        return;
      }
      StartOp(WsHandshake);
    }

    method WsShaken(gen: int, failed: bool, now: int, open: bool)
      modifies this
      ensures Abs() == OnHandshake(old(Abs()), gen, failed, now, open)
    {
      if failed {
        Fail(gen);
        return;
      }
      if userClosed {
        return;
      }
      CameUp(now);
      if authRequired {
        LogIn(now, open);
      } else {
        FlushPending(open);
      }
      StartOp(Read);
    }

    method CameUp(now: int)
      modifies this
      ensures Abs() == Begin(old(Abs()).(connected := true, lastPongTime := now), PingWait)
    {
      connected := true;
      lastPongTime := now;
      StartOp(PingWait);
    }

    // ---- inbound ----

    method AcceptLogin()
      modifies this
      ensures Abs() == old(Abs()).(authenticated := true, authenticatedFlag := true, authDeadline := None,
                                   reconnectDelayS := 1, failures := 0, ackGen := generation)
    {
      authenticated := true;
      authenticatedFlag := true;
      authDeadline := None;
      reconnectDelayS := 1;
      world := world.(failures := 0, ackGen := generation);
    }

    method Handle(gen: int, msg: Inbound, now: int, open: bool)
      requires !msg.Unparsable?
      modifies this
      ensures Abs() == HandleInbound(old(Abs()), gen, msg, now, open)
    {
      if msg.Pong? {
        lastPongTime := now;
      } else if msg.LoginAccepted? {
        AcceptLogin();
        FlushPending(open);
      } else if msg.LoginRefused? {
        Fail(gen);
      }
    }

    method ReadDone(gen: int, outcome: Outcome, now: int, open: bool)
      modifies this
      ensures Abs() == OnRead(old(Abs()), gen, outcome, now, open)
    {
      if !outcome.Received? {
        Fail(gen);
        return;
      }
      if outcome.msg.Unparsable? {
        Fail(gen);
        return;
      }
      Handle(gen, outcome.msg, now, open);
      if gen != generation || reconnectScheduled || !connected {
        return;
      }
      if !authRequired || authenticated {
        reconnectDelayS := 1;
        world := world.(failures := 0);
      }
      StartOp(Read);
    }

    method WriteDone(gen: int, failed: bool, open: bool)
      modifies this
      ensures Abs() == OnWritten(old(Abs()), gen, failed, open)
    {
      writeInFlight := false;
      if failed {
        Fail(gen);
        return;
      }
      world := world.(delivered := world.delivered + [writeBuffer]);
      PumpQueue(open);
    }

    // ---- heartbeat ----

    method PingDue(gen: int, failed: bool, now: int, open: bool)
      modifies this
      ensures Abs() == OnPingTimer(old(Abs()), gen, failed, now, open)
    {
      if !failed && gen == generation && !userClosed {
        if connected && Overdue(now) {
          Fail(gen);
        } else {
          PingAgain(open);
        }
      }
    }

    /** No pong, or no login ack, for too long. */
    predicate Overdue(now: int)
      reads this
    {
      || (now - lastPongTime) / 1000 > PONG_TIMEOUT_IN_S
      || (authRequired && !authenticated && authDeadline.Some? && now > authDeadline.value)
    }

    method PingNow(open: bool)
      modifies this
      ensures Abs() == Pump(EnqueueOp(old(Abs()), Ping), open)
    {
      Enqueue(Ping);
      PumpQueue(open);
    }

    method PingAgain(open: bool)
      modifies this
      ensures Abs() == Begin(if old(connected) then Pump(EnqueueOp(old(Abs()), Ping), open) else old(Abs()), PingWait)
    {
      if connected {
        PingNow(open);
      }
      StartOp(PingWait);
    }

    // ---- errors, reconnecting, closing ----

    /** All subscriptions go back in front of the pending topics, in their order. */
    method RequeueSubscriptions()
      modifies `subscriptions, `pendingTopics
      ensures pendingTopics == old(subscriptions) + old(pendingTopics) && subscriptions == []
    {
      var i := |subscriptions|;
      while i > 0
        invariant 0 <= i <= |subscriptions| && subscriptions == old(subscriptions)
        invariant pendingTopics == subscriptions[i..] + old(pendingTopics)
      {
        i := i - 1;
        assert subscriptions[i..] == [subscriptions[i]] + subscriptions[i + 1..];
        pendingTopics := [subscriptions[i]] + pendingTopics;
      }
      subscriptions := [];
    }

    method DropConnection()
      modifies this
      ensures Abs() == old(Abs()).(connected := false, authenticated := false, authenticatedFlag := false,
                                   writeInFlight := false, authDeadline := None, outboundQueue := [],
                                   pendingTopics := old(subscriptions) + old(pendingTopics), subscriptions := [])
    {
      ResetConnection();
      outboundQueue := [];
      RequeueSubscriptions();
    }

    method ScheduleReconnect()
      modifies this
      ensures Abs() == Begin(old(Abs()).(reconnectScheduled := true, failures := old(world).failures + 1,
                               reconnectWaitS := old(reconnectDelayS),
                               reconnectDelayS := Min(old(reconnectDelayS) * 2, RECONNECT_DELAY_MAX_IN_S)), ReconnectWait)
    {
      reconnectScheduled := true;
      reconnectWaitS := reconnectDelayS;
      reconnectDelayS := Min(reconnectDelayS * 2, RECONNECT_DELAY_MAX_IN_S);
      world := world.(failures := world.failures + 1);
      StartOp(ReconnectWait);
    }

    method Fail(gen: int)
      modifies this
      ensures Abs() == HandleError(old(Abs()), gen)
    {
      if gen == generation && !reconnectScheduled && !userClosed {
        DropConnection();
        ScheduleReconnect();
      }
    }

    method ReconnectDue(failed: bool)
      modifies this
      ensures Abs() == OnReconnectTimer(old(Abs()), failed)
    {
      reconnectScheduled := false;
      if failed || userClosed {
        return;
      }
      Dial();
    }

    method ShutDown(open: bool)
      modifies this
      ensures Abs() == CloseByUser(old(Abs()), open)
    {
      if userClosed {
        return;
      }
      userClosed := true;
      if generation > 0 && open && !writeInFlight {
        StartOp(CloseHandshake);
      }
    }

    // ---- what the strand and the clients call ----

    /** An asynchronous operation completes and its handler runs. */
    method Completion(op: Op, outcome: Outcome, now: int, open: bool)
      modifies this
      ensures Abs() == OnComplete(old(Abs()), op, outcome, now, open)
    {
      hide OnChainStep, OnHandshake, OnRead, OnWritten, OnPingTimer, OnReconnectTimer;
      world := world.(ops := world.ops - multiset{op});
      if op.gen != generation {
        return;
      }
      match op.kind {
        case Resolve => Resolved(op.gen, outcome.Failed?);
        case TcpConnect => TcpConnected(op.gen, outcome.Failed?);
        case TlsHandshake => TlsShaken(op.gen, outcome.Failed?);
        case WsHandshake => WsShaken(op.gen, outcome.Failed?, now, open);
        case Read => ReadDone(op.gen, outcome, now, open);
        case Write => WriteDone(op.gen, outcome.Failed?, open);
        case PingWait => PingDue(op.gen, outcome.Failed?, now, open);
        case ReconnectWait => ReconnectDue(outcome.Failed?);
        case CloseHandshake =>
      }
    }

    method UnsubscribeNow(topic: Request, open: bool)
      modifies this
      ensures Abs() == RunUnsubscribe(old(Abs()), topic, open)
    {
      if !connected {
        return;
      }
      Enqueue(Message(ToUnsubscribe(topic)));
      PumpQueue(open);
    }

    /** A task posted to the strand runs. */
    method RunPosted(task: Task, now: int, open: bool)
      modifies this
      ensures Abs() == OnTask(old(Abs()), task, now, open)
    {
      hide StartConnect, FlushTopics, RunUnsubscribe, CloseByUser;
      world := world.(tasks := world.tasks - multiset{task});
      match task {
        case ConnectTask => Dial();
        case FlushTask => FlushPending(open);
        case UnsubscribeTask(t) => UnsubscribeNow(t, open);
        case CloseTask => ShutDown(open);
      }
    }

    method RunSession(first: Option<Request>)
      modifies this
      ensures Abs() == Next(old(Abs()), Run(first))
    {
      if first.Some? {
        Add(first.value);
      }
      world := world.(started := true);
      PostTask(ConnectTask);
    }

    method SubscribeTo(topic: Request)
      modifies this
      ensures Abs() == Next(old(Abs()), Subscribe(topic))
    {
      Add(topic);
      PostTask(FlushTask);
    }

    method UnsubscribeFrom(topic: Request)
      modifies this
      ensures Abs() == Next(old(Abs()), Unsubscribe(topic))
    {
      var removed := Remove(topic);
      if !removed {
        return;
      }
      PostTask(UnsubscribeTask(topic));
    }

    /** Any possible step: it does what the step system says and keeps the invariant. */
    method Take(step: Step)
      requires Inv(Abs()) && Enabled(Abs(), step)
      modifies this
      ensures Abs() == Next(old(Abs()), step)
      ensures Inv(Abs())
      ensures Topics(Abs()) == TopicsAfter(old(Topics(Abs())), step)
    {
      hide Inv, Enabled, Topics, TopicsAfter, OnTask, OnComplete, AddTopic, RemoveTopic;
      StepInv(Abs(), step);
      match step {
        case Run(first) => RunSession(first);
        case Subscribe(t) => SubscribeTo(t);
        case Unsubscribe(t) => UnsubscribeFrom(t);
        case Close => PostTask(CloseTask);
        case RunTask(task, now, open) => RunPosted(task, now, open);
        case Complete(op, outcome, now, open) => Completion(op, outcome, now, open);
        case PongFrame(now) => lastPongTime := now;
      }
    }
  }
}
