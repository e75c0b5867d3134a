/** Where two natural expectations of the session end, shown by concrete runs, and exactly when they do. */
module WsBoundaries {
  import opened Common
  import opened WsProtocol
  import opened WsSpec
  import opened WsInvariants
  import opened WsTheorems
  import opened WsVenue

  /** Some run of "sub.*" calls leads from the initial state to s. */
  ghost predicate Reached(authRequired: bool, s: State) {
    exists steps :: Feasible(Init(authRequired), steps) && SubRun(steps) && Exec(Init(authRequired), steps) == s
  }

  lemma Start(authRequired: bool)
    ensures Reached(authRequired, Init(authRequired))
  {
    var steps: seq<Step> := [];
    assert Feasible(Init(authRequired), steps) && SubRun(steps) && Exec(Init(authRequired), steps) == Init(authRequired);
  }

  lemma Go(authRequired: bool, s: State, step: Step)
    requires Reached(authRequired, s) && Enabled(s, step) && SubCall(step)
    ensures Reached(authRequired, Next(s, step))
  {
    hide Next, Enabled, SubCall;
    var i := Init(authRequired);
    var steps :| Feasible(i, steps) && SubRun(steps) && Exec(i, steps) == s;
    var all := steps + [step];
    assert all[..|steps|] == steps;
    assert Exec(i, all) == Next(s, step);
    forall k | 0 <= k < |all|
      ensures Enabled(Exec(i, all[..k]), all[k]) && SubCall(all[k])
    {
      if k < |steps| {
        assert all[..k] == steps[..k];
        assert SubCall(steps[k]);
      }
    }
    assert Feasible(i, all) && SubRun(all);
  }

  lemma ChainGo(authRequired: bool, s: State, kind: OpKind, next: OpKind)
    requires Reached(authRequired, s) && s.ops == multiset{Op(kind, s.generation)}
    requires (kind == Resolve && next == TcpConnect) || (kind == TcpConnect && next == TlsHandshake)
          || (kind == TlsHandshake && next == WsHandshake)
    ensures Reached(authRequired, s.(ops := multiset{Op(next, s.generation)}))
  {
    hide Reached;
    var step := Complete(Op(kind, s.generation), Completed, 0, true);
    Go(authRequired, s, step);
    assert multiset{Op(kind, s.generation)} - multiset{Op(kind, s.generation)} == multiset{};
    assert Next(s, step) == s.(ops := multiset{Op(next, s.generation)});
  }

  function Listed(first: Option<Request>): seq<Request> {
    if first.Some? then [first.value] else []
  }

  /** A session whose stream is about to come up for the first time. */
  function ComingUp(authRequired: bool, first: Option<Request>): State {
    Init(authRequired).(started := true, generation := 1, ops := multiset{Op(WsHandshake, 1)},
                        pendingTopics := Listed(first))
  }

  lemma RunCalled(authRequired: bool, first: Option<Request>)
    requires first.Some? ==> IsSub(first.value)
    ensures Reached(authRequired, Init(authRequired).(started := true, tasks := multiset{ConnectTask}, pendingTopics := Listed(first)))
  {
    Start(authRequired);
    hide Reached;
    var s0 := Init(authRequired);
    Go(authRequired, s0, Run(first));
    assert Next(s0, Run(first)).tasks == multiset{ConnectTask};
    assert Next(s0, Run(first)).pendingTopics == Listed(first);
    assert Next(s0, Run(first)) == s0.(started := true, tasks := multiset{ConnectTask}, pendingTopics := Listed(first));
  }

  lemma ConnectTaskRan(authRequired: bool, s: State)
    requires Reached(authRequired, s) && s.tasks == multiset{ConnectTask}
    requires s == Init(authRequired).(started := true, tasks := s.tasks, pendingTopics := s.pendingTopics)
    ensures Reached(authRequired, s.(tasks := multiset{}, generation := 1, ops := multiset{Op(Resolve, 1)}))
  {
    hide Reached;
    Go(authRequired, s, RunTask(ConnectTask, 0, true));
    var t := Next(s, RunTask(ConnectTask, 0, true));
    assert multiset{ConnectTask} - multiset{ConnectTask} == multiset{};
    assert t.ops == multiset{Op(Resolve, 1)};
    assert t == s.(tasks := multiset{}, generation := 1, ops := multiset{Op(Resolve, 1)});
  }

  lemma ComingUpReached(authRequired: bool, first: Option<Request>)
    requires first.Some? ==> IsSub(first.value)
    ensures Reached(authRequired, ComingUp(authRequired, first))
  {
    hide Reached, Next, Listed;
    var s1 := Init(authRequired).(started := true, tasks := multiset{ConnectTask}, pendingTopics := Listed(first));
    RunCalled(authRequired, first);
    ConnectTaskRan(authRequired, s1);
    var s2 := s1.(tasks := multiset{}, generation := 1, ops := multiset{Op(Resolve, 1)});
    ChainGo(authRequired, s2, Resolve, TcpConnect);
    var s3 := s2.(ops := multiset{Op(TcpConnect, 1)});
    ChainGo(authRequired, s3, TcpConnect, TlsHandshake);
    var s4 := s3.(ops := multiset{Op(TlsHandshake, 1)});
    ChainGo(authRequired, s4, TlsHandshake, WsHandshake);
  }

  // ---- re-adding a topic too early ----

  const CHANNEL_A: Request := Request(Some("sub.ticker"), "A")
  const CHANNEL_B: Request := Request(Some("sub.ticker"), "B")

  /** The first channel has been subscribed and its frame written. */
  lemma FirstSubscribed() returns (s: State)
    ensures Reached(false, s) && s.connected && !s.userClosed && !s.authRequired && !s.reconnectScheduled
    ensures s.subscriptions == [CHANNEL_A] && s.pendingTopics == [] && s.enqueued == [Message(CHANNEL_A)]
    ensures s.tasks == multiset{} && s.writeInFlight && s.outboundQueue == []
  {
    hide Reached, OnComplete, FlushTopics, ComingUp;
    ComingUpReached(false, Some(CHANNEL_A));
    var up := ComingUp(false, Some(CHANNEL_A));
    var step := Complete(Op(WsHandshake, 1), Completed, 0, true);
    ShakingHands(up);
    Go(false, up, step);
    s := Next(up, step);
    HandsShaken(up, s);
  }

  lemma ShakingHands(up: State)
    requires up == ComingUp(false, Some(CHANNEL_A))
    ensures Enabled(up, Complete(Op(WsHandshake, 1), Completed, 0, true))
    ensures up.subscriptions == [] && up.pendingTopics == [CHANNEL_A] && up.enqueued == up.outboundQueue == [] && up.tasks == multiset{}
    ensures up.generation == 1 && !up.userClosed && !up.authRequired && !up.reconnectScheduled && !up.writeInFlight
  {
  }

  /** The handshake completes without credentials: the one pending topic is flushed and its frame written. */
  lemma HandsShaken(up: State, s: State)
    requires up.subscriptions == [] && up.pendingTopics == [CHANNEL_A] && up.enqueued == up.outboundQueue == [] && up.tasks == multiset{}
    requires up.generation == 1 && !up.userClosed && !up.authRequired && !up.reconnectScheduled && !up.writeInFlight
    requires s == OnComplete(up, Op(WsHandshake, 1), Completed, 0, true)
    ensures s.connected && !s.userClosed && !s.authRequired && !s.reconnectScheduled
    ensures s.subscriptions == [CHANNEL_A] && s.pendingTopics == [] && s.enqueued == [Message(CHANNEL_A)]
    ensures s.tasks == multiset{} && s.writeInFlight && s.outboundQueue == []
  {
    hide HandleError, SendLogin, FlushTopics, Messages, OnRead, OnWritten, OnPingTimer, OnReconnectTimer, OnChainStep;
    var live := Begin(up.(ops := up.ops - multiset{Op(WsHandshake, 1)}).(connected := true, lastPongTime := 0), PingWait);
    OneFlushed(live);
  }

  lemma OneFlushed(live: State)
    requires live.connected && !live.authRequired && !live.writeInFlight
    requires live.subscriptions == [] && live.pendingTopics == [CHANNEL_A] && live.enqueued == live.outboundQueue == []
    ensures var s := FlushTopics(live, true);
      && s.connected == live.connected && s.userClosed == live.userClosed && s.authRequired == live.authRequired
      && s.reconnectScheduled == live.reconnectScheduled && s.tasks == live.tasks && s.generation == live.generation
      && s.subscriptions == [CHANNEL_A] && s.pendingTopics == [] && s.enqueued == [Message(CHANNEL_A)]
      && s.writeInFlight && s.outboundQueue == []
  {
    assert Messages([CHANNEL_A]) == [Message(CHANNEL_A)];
    assert [] + [CHANNEL_A] == [CHANNEL_A];
    assert [] + [Message(CHANNEL_A)] == [Message(CHANNEL_A)];
  }

  /** A flush that was posted for another channel overtakes the unsubscribe task. */
  lemma Overtaken() returns (s: State)
    ensures Reached(false, s) && s.connected && !s.userClosed
    ensures s.subscriptions == [CHANNEL_B, CHANNEL_A] && s.pendingTopics == []
    ensures s.enqueued == [Message(CHANNEL_A), Message(CHANNEL_B), Message(CHANNEL_A)]
    ensures s.tasks == multiset{UnsubscribeTask(CHANNEL_A), FlushTask}
    ensures s.writeInFlight
  {
    hide Reached;
    var s0 := FirstSubscribed();
    var s3 := Readded(s0);
    s := Flushed(s3);
  }

  lemma Readded(s0: State) returns (s3: State)
    requires Reached(false, s0) && s0.subscriptions == [CHANNEL_A] && s0.pendingTopics == [] && s0.tasks == multiset{}
    ensures Reached(false, s3)
    ensures s3 == s0.(subscriptions := [], pendingTopics := [CHANNEL_B, CHANNEL_A],
                      tasks := multiset{FlushTask, FlushTask, UnsubscribeTask(CHANNEL_A)})
  {
    hide Reached;
    SubscribeGo(s0, CHANNEL_B);
    var s1 := s0.(pendingTopics := s0.pendingTopics + [CHANNEL_B], tasks := s0.tasks + multiset{FlushTask});
    assert s1.pendingTopics == [CHANNEL_B];
    UnsubscribeGo(s1);
    var s2 := s1.(subscriptions := [], tasks := s1.tasks + multiset{UnsubscribeTask(CHANNEL_A)});
    hide Next;
    SubscribeGo(s2, CHANNEL_A);
    s3 := s2.(pendingTopics := s2.pendingTopics + [CHANNEL_A], tasks := s2.tasks + multiset{FlushTask});
    assert s3.tasks == multiset{FlushTask, FlushTask, UnsubscribeTask(CHANNEL_A)};
    assert s3.pendingTopics == [CHANNEL_B, CHANNEL_A];
  }

  lemma UnsubscribeGo(s: State)
    requires Reached(false, s) && s.subscriptions == [CHANNEL_A] && s.pendingTopics == [CHANNEL_B]
    ensures Reached(false, s.(subscriptions := [], tasks := s.tasks + multiset{UnsubscribeTask(CHANNEL_A)}))
  {
    hide Reached;
    Go(false, s, Unsubscribe(CHANNEL_A));
    WithoutAbsent([CHANNEL_B], CHANNEL_A);
    assert WithoutFirst([CHANNEL_A], CHANNEL_A) == [];
    assert RemoveTopic(s, CHANNEL_A) == s.(subscriptions := []);
    hide RemoveTopic;
  }

  lemma SubscribeGo(s: State, t: Request)
    requires Reached(false, s) && IsSub(t) && t !in s.subscriptions && t !in s.pendingTopics
    ensures Reached(false, s.(pendingTopics := s.pendingTopics + [t], tasks := s.tasks + multiset{FlushTask}))
  {
    hide Reached;
    Go(false, s, Subscribe(t));
  }

  lemma Flushed(s3: State) returns (s: State)
    requires Reached(false, s3) && s3.connected && !s3.userClosed && !s3.authRequired && s3.writeInFlight
    requires s3.subscriptions == [] && s3.pendingTopics == [CHANNEL_B, CHANNEL_A] && s3.enqueued == [Message(CHANNEL_A)]
    requires s3.tasks == multiset{FlushTask, FlushTask, UnsubscribeTask(CHANNEL_A)}
    ensures Reached(false, s) && s.connected && !s.userClosed
    ensures s.subscriptions == [CHANNEL_B, CHANNEL_A] && s.pendingTopics == []
    ensures s.enqueued == [Message(CHANNEL_A), Message(CHANNEL_B), Message(CHANNEL_A)]
    ensures s.tasks == multiset{UnsubscribeTask(CHANNEL_A), FlushTask} && s.writeInFlight
  {
    hide Reached;
    Go(false, s3, RunTask(FlushTask, 0, true));
    s := Next(s3, RunTask(FlushTask, 0, true));
    assert Messages([CHANNEL_B, CHANNEL_A]) == [Message(CHANNEL_B), Message(CHANNEL_A)];
    assert s.tasks == multiset{UnsubscribeTask(CHANNEL_A), FlushTask};
  }

  /**
   Without the condition of VenueAgreement the venue and the session can part: after
   subscribe(A), subscribe(B), unsubscribe(A), subscribe(A) the flush posted for B
   sends "sub A" before A's "unsub" task runs. The session then lists A for good
   while the venue has dropped it.
   */
  lemma ReaddedTooEarly()
    ensures exists s ::
      && Reached(false, s) && s.connected && !s.userClosed && Unsubscribing(s) == {}
      && CHANNEL_A in s.subscriptions && s.pendingTopics == []
      && CHANNEL_A !in DeliverAll(s.enqueued)
  {
    var s0 := Overtaken();
    hide Reached;
    var step := RunTask(UnsubscribeTask(CHANNEL_A), 0, true);
    Go(false, s0, step);
    var s := Next(s0, step);
    DeliverOne(s0.enqueued, Message(ToUnsubscribe(CHANNEL_A)));
    UnsubscribeUndoesSubscribe(DeliverAll(s0.enqueued), CHANNEL_A);
    assert s.enqueued == s0.enqueued + [Message(ToUnsubscribe(CHANNEL_A))];
    assert s.tasks == multiset{FlushTask};
    hide Next, DeliverAll, ToUnsubscribe;
    assert CHANNEL_A in s.subscriptions;
    assert Unsubscribing(s) == {};
  }

  // ---- isAuthenticated() while reconnecting ----

  /** A login whose read had already completed when its connection was given up. */
  lemma AckAfterError(s: State, now: int, open: bool)
    requires Inv(s) && s.reconnectScheduled && Op(Read, s.generation) in s.ops
    ensures var t := Next(s, Complete(Op(Read, s.generation), Received(LoginAccepted), now, open));
            t.authenticatedFlag && t.reconnectScheduled
  {
    assert !s.connected;
    hide Inv;
  }

  /**
   isAuthenticated() is true while a reconnect is scheduled exactly when such a late
   login was read: the flag and the schedule come together at no other step.
   */
  lemma FlagWhileReconnecting(s: State, step: Step)
    requires Inv(s) && Enabled(s, step) && !(s.authenticatedFlag && s.reconnectScheduled)
    ensures var t := Next(s, step);
      t.authenticatedFlag && t.reconnectScheduled <==> s.reconnectScheduled && ReadsLoginAck(step, s.generation)
  {
    StepOnward(s, step);
    if s.reconnectScheduled && ReadsLoginAck(step, s.generation) {
      AckAfterError(s, step.now, step.open);
    }
    hide Next, Inv;
  }

  /** And it does happen: the login frame's write fails after its answer has arrived. */
  lemma FlagWhileReconnectingReached()
    ensures exists s :: Reached(true, s) && s.authenticatedFlag && s.reconnectScheduled
  {
    var s2 := LoginWriteFailed();
    hide Reached;
    var late := Complete(Op(Read, 1), Received(LoginAccepted), 0, true);
    Go(true, s2, late);
    var s3 := Next(s2, late);
    assert s3.authenticatedFlag && s3.reconnectScheduled;
  }

  lemma LoginSent() returns (s: State)
    ensures Reached(true, s) && s.generation == 1 && s.connected && !s.reconnectScheduled && !s.userClosed
    ensures s.ops == multiset{Op(PingWait, 1), Op(Write, 1), Op(Read, 1)}
  {
    hide Reached;
    ComingUpReached(true, None);
    var up := ComingUp(true, None);
    var step := Complete(Op(WsHandshake, 1), Completed, 0, true);
    Go(true, up, step);
    s := Next(up, step);
    assert s.ops == multiset{Op(PingWait, 1), Op(Write, 1), Op(Read, 1)};
  }

  lemma LoginWriteFailed() returns (s: State)
    ensures Reached(true, s) && s.generation == 1 && !s.connected && s.reconnectScheduled && Op(Read, 1) in s.ops
  {
    hide Reached;
    var s1 := LoginSent();
    var step := Complete(Op(Write, 1), Failed, 0, true);
    Go(true, s1, step);
    s := Next(s1, step);
  }
}
