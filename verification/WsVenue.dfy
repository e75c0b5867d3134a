/** The venue's view: when does it hold the subscriptions the session believes in? */
module WsVenue {
  import opened Common
  import opened WsProtocol
  import opened WsSpec
  import opened WsInvariants
  import opened WsTheorems

  /** Topics whose unsubscribe task is still posted. */
  function Unsubscribing(s: State): set<Request> {
    set task | task in s.tasks && task.UnsubscribeTask? :: task.topic
  }

  /**
   Deliver every frame queued on this connection and then the unsubscribe tasks
   still posted: the venue is left with exactly the session's subscriptions.
   */
  ghost predicate Agrees(s: State) {
    s.connected ==> DeliverAll(s.enqueued) - Unsubscribing(s) == Elements(s.subscriptions)
  }

  /** Only "sub.*" requests are ever subscribed. */
  ghost predicate AllSub(s: State) {
    (forall t :: t in Topics(s) ==> IsSub(t)) && (forall t :: t in Unsubscribing(s) ==> IsSub(t))
  }

  predicate SubCall(step: Step) {
    match step
    case Run(Some(t)) => IsSub(t)
    case Subscribe(t) => IsSub(t)
    case _ => true
  }

  /** The step moves the pending topics to the subscriptions. */
  predicate FlushesIn(s: State, step: Step) {
    match step
    case RunTask(task, _, _) => task.FlushTask? && Flushes(s)
    case Complete(op, outcome, _, _) =>
      && op.gen == s.generation
      && (|| (op.kind.Read? && outcome == Received(LoginAccepted) && s.connected)
          || (op.kind.WsHandshake? && !outcome.Failed? && !s.userClosed && !s.authRequired))
    case _ => false
  }

  /** A flush takes up a topic whose unsubscribe is still posted: "sub" gets ahead of that "unsub". */
  ghost predicate RacingFlush(s: State, step: Step) {
    FlushesIn(s, step) && exists t :: t in s.pendingTopics && t in Unsubscribing(s)
  }

  // ---- handlers that do not flush ----

  /** t is down, or the venue and the session see the same in t as in s. */
  ghost predicate Silent(s: State, t: State) {
    && t.tasks == s.tasks
    && (t.connected ==>
          && s.connected && t.subscriptions == s.subscriptions
          && DeliverAll(t.enqueued) == DeliverAll(s.enqueued))
  }

  lemma PumpSilent(s: State, open: bool)
    ensures Silent(s, Pump(s, open))
  {
  }

  lemma ErrorSilent(s: State, gen: int)
    ensures Silent(s, HandleError(s, gen))
  {
  }

  lemma EnqueueControlSilent(s: State, p: Payload, open: bool)
    requires !p.Message?
    ensures Silent(s, Pump(EnqueueOp(s, p), open))
  {
    DeliverOne(s.enqueued, p);
    assert Deliver(DeliverAll(s.enqueued), p) == DeliverAll(s.enqueued);
    hide Pump, Deliver, DeliverAll;
    PumpSilent(EnqueueOp(s, p), open);
  }

  lemma PingSilent(s: State, gen: int, failed: bool, now: int, open: bool)
    ensures Silent(s, OnPingTimer(s, gen, failed, now, open))
  {
    hide Pump, HandleError, EnqueueOp, DeliverAll;
    ErrorSilent(s, gen);
    EnqueueControlSilent(s, Ping, open);
  }

  lemma WrittenSilent(s: State, gen: int, failed: bool, open: bool)
    ensures Silent(s, OnWritten(s, gen, failed, open))
  {
    hide Pump, HandleError, DeliverAll;
    ErrorSilent(s.(writeInFlight := false), gen);
    PumpSilent(s.(writeInFlight := false, delivered := s.delivered + [s.writeBuffer]), open);
  }

  lemma ReadAgainSilent(s: State, gen: int)
    ensures Silent(s, ReadAgain(s, gen))
  {
    hide DeliverAll;
  }

  lemma OtherFrameSilent(s: State, gen: int, outcome: Outcome, now: int, open: bool)
    requires outcome != Received(LoginAccepted)
    ensures Silent(s, OnRead(s, gen, outcome, now, open))
  {
    hide HandleError, ReadAgain, DeliverAll, FlushTopics;
    ErrorSilent(s, gen);
    if outcome.Received? && !outcome.msg.Unparsable? {
      ReadAgainSilent(HandleInbound(s, gen, outcome.msg, now, open), gen);
    }
  }

  // ---- flushing ----

  lemma FlushView(s: State, open: bool)
    requires Flushes(s) && forall t :: t in s.pendingTopics ==> IsSub(t)
    ensures var t := FlushTopics(s, open);
      && t.connected && t.tasks == s.tasks && t.subscriptions == s.subscriptions + s.pendingTopics
      && DeliverAll(t.enqueued) == DeliverAll(s.enqueued) + Elements(s.pendingTopics)
  {
    DeliverMessages(s.enqueued, s.pendingTopics);
    hide DeliverAll, Messages;
  }

  /** Set arithmetic of a flush: it keeps agreement exactly when no flushed topic is being unsubscribed. */
  lemma FlushVerdict(venue: set<Request>, leaving: set<Request>, subs: seq<Request>, pending: seq<Request>)
    requires venue - leaving == Elements(subs) && NoDuplicates(subs + pending)
    ensures (venue + Elements(pending)) - leaving == Elements(subs + pending)
       <==> forall t :: t in pending ==> t !in leaving
  {
    if forall t :: t in pending ==> t !in leaving {
      assert (venue + Elements(pending)) - leaving == (venue - leaving) + Elements(pending);
    } else {
      var t :| t in pending && t in leaving;
      assert t in Elements(subs + pending);
    }
  }

  lemma FlushAgrees(s: State, open: bool)
    requires Flushes(s) && Agrees(s) && AllSub(s) && NoDuplicates(Topics(s))
    ensures FlushTopics(s, open).connected
    ensures Agrees(FlushTopics(s, open)) <==> !(exists t :: t in s.pendingTopics && t in Unsubscribing(s))
  {
    assert forall t :: t in s.pendingTopics ==> t in Topics(s);
    FlushView(s, open);
    hide FlushTopics, DeliverAll;
    FlushVerdict(DeliverAll(s.enqueued), Unsubscribing(s), s.subscriptions, s.pendingTopics);
  }

  // ---- one step ----

  lemma SilentAgrees(s: State, t: State)
    requires Agrees(s) && Silent(s, t)
    ensures Agrees(t)
  {
    hide DeliverAll;
    assert Unsubscribing(t) == Unsubscribing(s);
  }

  lemma HandshakeAgrees(s: State, gen: int, failed: bool, now: int, open: bool)
    requires !s.connected && s.subscriptions == [] && s.enqueued == [] && !s.authenticated
    requires AllSub(s) && NoDuplicates(Topics(s))
    ensures Agrees(OnHandshake(s, gen, failed, now, open))
       <==> !(!failed && !s.userClosed && !s.authRequired && exists t :: t in s.pendingTopics && t in Unsubscribing(s))
  {
    var up := Begin(s.(connected := true, lastPongTime := now), PingWait);
    assert Agrees(up) && Unsubscribing(up) == Unsubscribing(s) && Topics(up) == Topics(s);
    ErrorSilent(s, gen);
    EnqueueControlSilent(up.(authDeadline := Some(now + AUTH_ACK_TIMEOUT_IN_MS)), Login(now), open);
    if Flushes(up) {
      FlushAgrees(up, open);
    }
    hide HandleError, FlushTopics, Pump, EnqueueOp, DeliverAll, Unsubscribing;
    if !failed && !s.userClosed {
      if s.authRequired {
        SilentAgrees(up, SendLogin(up, now, open));
        BeginAgrees(SendLogin(up, now, open), Read);
      } else {
        BeginAgrees(FlushTopics(up, open), Read);
      }
    }
  }

  lemma BeginAgrees(s: State, kind: OpKind)
    ensures Agrees(Begin(s, kind)) <==> Agrees(s)
  {
    hide DeliverAll;
    assert Unsubscribing(Begin(s, kind)) == Unsubscribing(s);
  }

  lemma LoginAckAgrees(s: State, now: int, open: bool)
    requires Agrees(s) && AllSub(s) && NoDuplicates(Topics(s))
    requires !s.reconnectScheduled || !s.connected
    ensures Agrees(OnRead(s, s.generation, Received(LoginAccepted), now, open))
       <==> !(s.connected && exists t :: t in s.pendingTopics && t in Unsubscribing(s))
  {
    var acked := s.(authenticated := true, authenticatedFlag := true, authDeadline := None,
                    reconnectDelayS := 1, failures := 0, ackGen := s.generation);
    hide *;
    var t := FlushTopics(acked, open);
    AckHandled(s, acked, now, open);
    AckedSame(s, acked);
    ReadAgainAgrees(t, s.generation);
    if s.connected {
      AckFlushes(s, acked);
      FlushAgrees(acked, open);
    } else {
      DownAgrees(acked, open);
    }
  }

  lemma AckHandled(s: State, acked: State, now: int, open: bool)
    requires acked == s.(authenticated := true, authenticatedFlag := true, authDeadline := None,
                         reconnectDelayS := 1, failures := 0, ackGen := s.generation)
    ensures OnRead(s, s.generation, Received(LoginAccepted), now, open) == ReadAgain(FlushTopics(acked, open), s.generation)
  {
    hide ReadAgain, FlushTopics, HandleError;
  }

  lemma ReadAgainAgrees(s: State, gen: int)
    ensures Agrees(ReadAgain(s, gen)) <==> Agrees(s)
  {
    SameAgrees(ReadAgain(s, gen), s);
    hide Agrees;
  }

  lemma AckFlushes(s: State, acked: State)
    requires s.connected && acked == s.(authenticated := true, authenticatedFlag := true, authDeadline := None,
                                        reconnectDelayS := 1, failures := 0, ackGen := s.generation)
    ensures Flushes(acked) && acked.pendingTopics == s.pendingTopics
  {
  }

  lemma DownAgrees(s: State, open: bool)
    requires !s.connected
    ensures Agrees(FlushTopics(s, open))
  {
  }

  lemma AckedSame(s: State, acked: State)
    requires acked == s.(authenticated := acked.authenticated, authenticatedFlag := acked.authenticatedFlag, authDeadline := None,
                         reconnectDelayS := 1, failures := 0, ackGen := acked.ackGen)
    requires Agrees(s) && AllSub(s)
    ensures Agrees(acked) && AllSub(acked) && Unsubscribing(acked) == Unsubscribing(s) && Topics(acked) == Topics(s)
    ensures acked.connected == s.connected && acked.pendingTopics == s.pendingTopics
  {
    hide DeliverAll;
    assert Unsubscribing(acked) == Unsubscribing(s);
  }

  lemma SameAgrees(s: State, t: State)
    requires s.connected == t.connected && s.enqueued == t.enqueued && s.tasks == t.tasks && s.subscriptions == t.subscriptions
    ensures Agrees(s) == Agrees(t)
  {
    hide DeliverAll;
    assert Unsubscribing(s) == Unsubscribing(t);
  }

  lemma UnsubscribingPosted(s: State, t: State, topic: Request)
    requires t.tasks == s.tasks + multiset{UnsubscribeTask(topic)}
    ensures Unsubscribing(t) == Unsubscribing(s) + {topic}
  {
    assert UnsubscribeTask(topic) in t.tasks;
    assert forall task :: task in t.tasks <==> task in s.tasks || task == UnsubscribeTask(topic);
  }

  lemma UnsubscribingRun(s: State, t: State, task: Task)
    requires t.tasks == s.tasks - multiset{task} && task in s.tasks
    ensures !task.UnsubscribeTask? ==> Unsubscribing(t) == Unsubscribing(s)
    ensures task.UnsubscribeTask? ==> Unsubscribing(t) <= Unsubscribing(s) <= Unsubscribing(t) + {task.topic}
  {
    assert forall x :: x != task ==> (x in t.tasks <==> x in s.tasks);
    assert forall x :: x in t.tasks ==> x in s.tasks;
    forall r | r in Unsubscribing(s)
      ensures r in Unsubscribing(t) || task == UnsubscribeTask(r)
    {
      assert UnsubscribeTask(r) in s.tasks;
    }
  }

  lemma UnsubscribingOther(s: State, t: State, task: Task)
    requires t.tasks == s.tasks + multiset{task} && !task.UnsubscribeTask?
    ensures Unsubscribing(t) == Unsubscribing(s)
  {
    assert forall x :: x in t.tasks <==> x in s.tasks || x == task;
  }

  lemma ClientAgrees(s: State, step: Step)
    requires Inv(s) && Agrees(s) && (ClientCall(step) || step.PongFrame?)
    ensures Agrees(Next(s, step))
  {
    var t := Next(s, step);
    ClientOnward(s, step);
    match step
    case Unsubscribe(topic) =>
      RemoveTopicLists(s, topic);
      assert t.subscriptions == Without(s.subscriptions, topic);
      hide Next, DeliverAll, Without;
      if topic in s.subscriptions {
        UnsubscribingPosted(s, t, topic);
        hide Unsubscribing;
        assert Elements(t.subscriptions) == Elements(s.subscriptions) - {topic};
      } else {
        hide Unsubscribing;
        SubsWithoutAbsent(s, topic);
        SameAgrees(s, t);
      }
    case Run(_) =>
      hide Next, DeliverAll;
      UnsubscribingOther(s, t, ConnectTask);
    case Subscribe(_) =>
      hide Next, DeliverAll;
      UnsubscribingOther(s, t, FlushTask);
    case Close =>
      hide Next, DeliverAll;
      UnsubscribingOther(s, t, CloseTask);
    case PongFrame(_) =>
      hide Next;
      SameAgrees(s, t);
  }

  lemma SubsWithoutAbsent(s: State, topic: Request)
    requires topic !in s.subscriptions
    ensures Without(s.subscriptions, topic) == s.subscriptions
  {
    WithoutAbsent(s.subscriptions, topic);
  }

  lemma RunUnsubscribeAgrees(s: State, s0: State, topic: Request, open: bool)
    requires Agrees(s) && AllSub(s) && UnsubscribeTask(topic) in s.tasks
    requires s0 == s.(tasks := s.tasks - multiset{UnsubscribeTask(topic)})
    ensures Agrees(RunUnsubscribe(s0, topic, open))
  {
    assert topic in Unsubscribing(s);
    UnsubscribingRun(s, s0, UnsubscribeTask(topic));
    if s.connected {
      var p := Message(ToUnsubscribe(topic));
      var queued := EnqueueOp(s0, p);
      DeliverOne(s.enqueued, p);
      UnsubscribeUndoesSubscribe(DeliverAll(s.enqueued), topic);
      hide DeliverAll, Deliver, ToUnsubscribe, Pump;
      PumpSilent(queued, open);
      assert Unsubscribing(queued) == Unsubscribing(s0);
      hide Unsubscribing;
      assert DeliverAll(queued.enqueued) == DeliverAll(s.enqueued) - {topic};
      assert Agrees(queued);
      SilentAgrees(queued, Pump(queued, open));
    }
  }

  lemma TaskAgrees(s: State, task: Task, now: int, open: bool)
    requires Inv(s) && Agrees(s) && AllSub(s) && task in s.tasks
    ensures Agrees(OnTask(s, task, now, open)) <==> !RacingFlush(s, RunTask(task, now, open))
  {
    var s0 := s.(tasks := s.tasks - multiset{task});
    hide StartConnect, FlushTopics, RunUnsubscribe, CloseByUser, DeliverAll;
    UnsubscribingRun(s, s0, task);
    match task
    case ConnectTask =>
      assert !StartConnect(s0).connected by {
        StartDown(s0);
      }
    case FlushTask =>
      assert Topics(s0) == Topics(s) && Agrees(s0);
      if Flushes(s) {
        FlushAgrees(s0, open);
      } else {
        NoFlush(s0, open);
      }
    case UnsubscribeTask(t) =>
      RunUnsubscribeAgrees(s, s0, t, open);
    case CloseTask =>
      CloseSame(s0, open);
      SameAgrees(s0, CloseByUser(s0, open));
  }

  lemma StartDown(s: State)
    requires !s.connected
    ensures !StartConnect(s).connected
  {
  }

  lemma NoFlush(s: State, open: bool)
    requires !Flushes(s)
    ensures FlushTopics(s, open) == s
  {
  }

  lemma CloseSame(s: State, open: bool)
    ensures var t := CloseByUser(s, open);
      t.connected == s.connected && t.enqueued == s.enqueued && t.tasks == s.tasks && t.subscriptions == s.subscriptions
  {
  }

  lemma CompletionAgrees(s: State, op: Op, outcome: Outcome, now: int, open: bool)
    requires Inv(s) && Agrees(s) && AllSub(s) && Enabled(s, Complete(op, outcome, now, open))
    ensures Agrees(OnComplete(s, op, outcome, now, open)) <==> !RacingFlush(s, Complete(op, outcome, now, open))
  {
    hide Inv, Agrees, AllSub;
    var s0 := s.(ops := s.ops - multiset{op});
    OpTaken(s, op);
    if op.gen != s.generation {
    } else if op.kind.WsHandshake? {
      hide Next, OnComplete, Unsubscribing, Flushes;
      HandshakeCompletionAgrees(s, s0, outcome, now, open);
    } else if op.kind.Read? && outcome == Received(LoginAccepted) {
      hide Next, Unsubscribing, Flushes, OnRead, Topics;
      NotBoth(s);
      LoginAckAgrees(s0, now, open);
    } else {
      CompletionSilent(s, s0, op, outcome, now, open);
      hide OnComplete, Unsubscribing;
      SilentAgrees(s0, OnComplete(s, op, outcome, now, open));
      NotAFlush(s, op, outcome, now, open);
      hide FlushesIn, Flushes;
    }
  }

  lemma NotBoth(s: State)
    requires Inv(s)
    ensures !s.reconnectScheduled || !s.connected
    ensures NoDuplicates(Topics(s))
  {
  }

  lemma OpTaken(s: State, op: Op)
    requires Agrees(s) && AllSub(s)
    ensures var s0 := s.(ops := s.ops - multiset{op});
      Agrees(s0) && AllSub(s0) && Topics(s0) == Topics(s) && Unsubscribing(s0) == Unsubscribing(s)
  {
    SameAgrees(s, s.(ops := s.ops - multiset{op}));
  }

  lemma ConnectingMeansBlank(s: State)
    requires Inv(s) && Op(WsHandshake, s.generation) in s.ops
    ensures !s.connected && s.subscriptions == [] && s.enqueued == [] && !s.authenticated
    ensures NoDuplicates(Topics(s))
  {
    assert Chain(s) == 1;
  }

  lemma HandshakeCompletionAgrees(s: State, s0: State, outcome: Outcome, now: int, open: bool)
    requires Inv(s) && AllSub(s) && Op(WsHandshake, s.generation) in s.ops
    requires s0 == s.(ops := s.ops - multiset{Op(WsHandshake, s.generation)})
    ensures Agrees(OnComplete(s, Op(WsHandshake, s.generation), outcome, now, open))
       <==> !RacingFlush(s, Complete(Op(WsHandshake, s.generation), outcome, now, open))
  {
    hide Inv, OnHandshake, Agrees;
    ConnectingMeansBlank(s);
    assert Unsubscribing(s0) == Unsubscribing(s) && Topics(s0) == Topics(s);
    HandshakeAgrees(s0, s.generation, outcome.Failed?, now, open);
    hide AllSub, Unsubscribing;
  }

  lemma NotAFlush(s: State, op: Op, outcome: Outcome, now: int, open: bool)
    requires !op.kind.WsHandshake? && !(op.kind.Read? && outcome == Received(LoginAccepted))
    ensures !FlushesIn(s, Complete(op, outcome, now, open))
  {
  }

  /** Every other completion is silent. */
  lemma CompletionSilent(s: State, s0: State, op: Op, outcome: Outcome, now: int, open: bool)
    requires Inv(s) && op in s.ops && op.gen == s.generation && s0 == s.(ops := s.ops - multiset{op})
    requires !op.kind.WsHandshake? && !(op.kind.Read? && outcome == Received(LoginAccepted))
    ensures Silent(s0, OnComplete(s, op, outcome, now, open))
  {
    hide OnChainStep, OnRead, OnWritten, OnPingTimer, OnReconnectTimer, OnHandshake, DeliverAll, Pipe, Gate, Lists, NotForgotten, Alive;
    match op.kind
    case Resolve => ChainSilent(s0, op.gen, outcome.Failed?, TcpConnect);
    case TcpConnect => ChainSilent(s0, op.gen, outcome.Failed?, TlsHandshake);
    case TlsHandshake => ChainSilent(s0, op.gen, outcome.Failed?, WsHandshake);
    case Read => OtherFrameSilent(s0, op.gen, outcome, now, open);
    case Write => WrittenSilent(s0, op.gen, outcome.Failed?, open);
    case PingWait => PingSilent(s0, op.gen, outcome.Failed?, now, open);
    case ReconnectWait => ReconnectDown(s0, outcome.Failed?);
    case CloseHandshake =>
  }

  lemma ChainSilent(s: State, gen: int, failed: bool, next: OpKind)
    ensures Silent(s, OnChainStep(s, gen, failed, next))
  {
    hide HandleError, DeliverAll;
    ErrorSilent(s, gen);
  }

  lemma ReconnectDown(s: State, failed: bool)
    requires !s.connected
    ensures Silent(s, OnReconnectTimer(s, failed))
  {
  }

  /**
   Agreement survives a step exactly when the step is not a racing flush: that is,
   unless it moves to the subscriptions a topic whose unsubscribe task is still
   posted. Every other step, reconnects included, keeps it.
   */
  lemma AgreementStep(s: State, step: Step)
    requires Inv(s) && AllSub(s) && Agrees(s) && Enabled(s, step)
    ensures Agrees(Next(s, step)) <==> !RacingFlush(s, step)
  {
    match step
    case RunTask(task, now, open) =>
      hide Inv, AllSub, Agrees, OnTask, OnComplete, RacingFlush;
      TaskAgrees(s, task, now, open);
    case Complete(op, outcome, now, open) =>
      hide Inv, AllSub, Agrees, OnTask, OnComplete, RacingFlush;
      CompletionAgrees(s, op, outcome, now, open);
    case _ =>
      hide Inv, AllSub, Agrees, OnTask, OnComplete;
      ClientAgrees(s, step);
  }

  lemma AllSubStep(s: State, step: Step)
    requires Inv(s) && AllSub(s) && Enabled(s, step) && SubCall(step)
    ensures AllSub(Next(s, step))
  {
    hide Inv, Next, Enabled, Onward, Topics, TopicsAfter, TasksAfter, Unsubscribing;
    StepInv(s, step);
    StepOnward(s, step);
    TopicsComeFrom(Topics(s), step);
    PostedUnsubscribes(s, step);
    forall t | t in s.subscriptions
      ensures t in Topics(s)
    {
      Subscribed(s, t);
    }
  }

  lemma Subscribed(s: State, t: Request)
    requires t in s.subscriptions
    ensures t in Topics(s)
  {
  }

  lemma TopicsComeFrom(topics: seq<Request>, step: Step)
    ensures forall t :: t in TopicsAfter(topics, step) ==> (t in topics || Adds(step, t)) && step != Unsubscribe(t)
  {
  }

  /** Only unsubscribe() of a subscribed topic posts an unsubscribe task. */
  lemma PostedUnsubscribes(s: State, step: Step)
    requires Next(s, step).tasks == TasksAfter(s, step)
    ensures forall t :: t in Unsubscribing(Next(s, step)) ==>
              t in Unsubscribing(s) || (step == Unsubscribe(t) && t in s.subscriptions)
  {
    hide Next;
    forall t | t in Unsubscribing(Next(s, step))
      ensures t in Unsubscribing(s) || (step == Unsubscribe(t) && t in s.subscriptions)
    {
      assert UnsubscribeTask(t) in TasksAfter(s, step);
    }
  }

  // ---- whole runs ----

  ghost predicate SubRun(steps: seq<Step>) {
    forall i :: 0 <= i < |steps| ==> SubCall(steps[i])
  }

  lemma {:induction false} ReachableAllSub(authRequired: bool, steps: seq<Step>)
    requires Feasible(Init(authRequired), steps) && SubRun(steps)
    ensures AllSub(Exec(Init(authRequired), steps))
  {
    hide Next, AllSub;
    if steps == [] {
      InitAllSub(authRequired);
    } else {
      var k := |steps| - 1;
      FeasiblePrefix(Init(authRequired), steps, k);
      ReachableAllSub(authRequired, steps[..k]);
      ReachableInv(authRequired, steps[..k]);
      AllSubStep(Exec(Init(authRequired), steps[..k]), steps[k]);
    }
  }

  lemma InitAllSub(authRequired: bool)
    ensures AllSub(Init(authRequired)) && Agrees(Init(authRequired))
  {
  }

  ghost predicate NoRacingFlush(s: State, steps: seq<Step>) {
    forall i :: 0 <= i < |steps| ==> !RacingFlush(Exec(s, steps[..i]), steps[i])
  }

  ghost predicate AgreesThroughout(s: State, steps: seq<Step>) {
    forall k :: 0 <= k <= |steps| ==> Agrees(Exec(s, steps[..k]))
  }

  /**
   Over any run of "sub.*" calls, whatever fails and reconnects, the venue agrees
   with the session in every state if and only if no flush of the run takes up a
   topic whose unsubscribe task is still posted.
   */
  lemma {:induction false} AgreementIffNoRacingFlush(authRequired: bool, steps: seq<Step>)
    requires Feasible(Init(authRequired), steps) && SubRun(steps)
    ensures AgreesThroughout(Init(authRequired), steps) <==> NoRacingFlush(Init(authRequired), steps)
  {
    hide Next, RacingFlush, Agrees;
    var s := Init(authRequired);
    if steps == [] {
      InitAllSub(authRequired);
    } else {
      var k := |steps| - 1;
      var front := steps[..k];
      FeasiblePrefix(s, steps, k);
      AgreementIffNoRacingFlush(authRequired, front);
      AgreementSplits(s, steps);
      RacesSplit(s, steps);
      hide AgreesThroughout, NoRacingFlush, Feasible;
      if AgreesThroughout(s, front) {
        ReachableInv(authRequired, front);
        ReachableAllSub(authRequired, front);
        AgreementStep(Exec(s, front), steps[k]);
      }
    }
  }

  lemma AgreementSplits(s: State, steps: seq<Step>)
    requires steps != []
    ensures var front := steps[..|steps| - 1];
      && (AgreesThroughout(s, front) ==> Agrees(Exec(s, front)))
      && (AgreesThroughout(s, steps) <==> AgreesThroughout(s, front) && Agrees(Exec(s, steps)))
  {
    hide Agrees, Exec;
    var k := |steps| - 1;
    var front := steps[..k];
    assert forall i :: 0 <= i <= k ==> front[..i] == steps[..i];
    assert front[..k] == front && steps[..|steps|] == steps;
    if AgreesThroughout(s, steps) {
      forall i | 0 <= i <= |front|
        ensures Agrees(Exec(s, front[..i]))
      {
        assert Agrees(Exec(s, steps[..i]));
      }
    }
    if AgreesThroughout(s, front) && Agrees(Exec(s, steps)) {
      forall i | 0 <= i <= |steps|
        ensures Agrees(Exec(s, steps[..i]))
      {
        if i <= k {
          assert Agrees(Exec(s, front[..i]));
        }
      }
    }
  }

  lemma RacesSplit(s: State, steps: seq<Step>)
    requires steps != []
    ensures var front := steps[..|steps| - 1];
      NoRacingFlush(s, steps) <==> NoRacingFlush(s, front) && !RacingFlush(Exec(s, front), steps[|steps| - 1])
  {
    hide RacingFlush, Exec;
    var k := |steps| - 1;
    var front := steps[..k];
    assert forall i :: 0 <= i <= k ==> front[..i] == steps[..i];
    assert steps[..k] == front;
    if NoRacingFlush(s, steps) {
      forall i | 0 <= i < |front|
        ensures !RacingFlush(Exec(s, front[..i]), front[i])
      {
        assert !RacingFlush(Exec(s, steps[..i]), steps[i]);
      }
    }
    if NoRacingFlush(s, front) && !RacingFlush(Exec(s, front), steps[k]) {
      forall i | 0 <= i < |steps|
        ensures !RacingFlush(Exec(s, steps[..i]), steps[i])
      {
        if i < k {
          assert !RacingFlush(Exec(s, front[..i]), front[i]);
        }
      }
    }
  }

  /** The topic a call would subscribe. */
  predicate Adds(step: Step, t: Request) {
    step == Subscribe(t) || step == Run(Some(t))
  }

  /** No client subscribes a topic again while its unsubscribe task is still posted. */
  ghost predicate NoReadd(s: State, steps: seq<Step>) {
    forall i, t :: 0 <= i < |steps| && Adds(steps[i], t) ==> t !in Unsubscribing(Exec(s, steps[..i]))
  }

  ghost predicate Apart(s: State) {
    forall t :: t in Topics(s) ==> t !in Unsubscribing(s)
  }

  lemma ApartStep(s: State, step: Step)
    requires Inv(s) && Apart(s) && Enabled(s, step)
    requires forall t :: Adds(step, t) ==> t !in Unsubscribing(s)
    ensures Apart(Next(s, step))
  {
    hide Inv, Next, Enabled, Onward, Topics, TopicsAfter, TasksAfter, Unsubscribing, Adds;
    StepInv(s, step);
    StepOnward(s, step);
    TopicsComeFrom(Topics(s), step);
    PostedUnsubscribes(s, step);
  }

  lemma {:induction false} ReachableApart(authRequired: bool, steps: seq<Step>)
    requires Feasible(Init(authRequired), steps) && NoReadd(Init(authRequired), steps)
    ensures Apart(Exec(Init(authRequired), steps))
    ensures NoRacingFlush(Init(authRequired), steps)
  {
    hide Next, FlushesIn;
    if steps != [] {
      var k := |steps| - 1;
      var front := steps[..k];
      FeasiblePrefix(Init(authRequired), steps, k);
      assert forall i :: 0 <= i <= k ==> front[..i] == steps[..i];
      assert NoReadd(Init(authRequired), front) by {
        forall i, t | 0 <= i < |front| && Adds(front[i], t)
          ensures t !in Unsubscribing(Exec(Init(authRequired), front[..i]))
        {
          assert Adds(steps[i], t);
        }
      }
      ReachableApart(authRequired, front);
      ReachableInv(authRequired, front);
      var s := Exec(Init(authRequired), front);
      ApartStep(s, steps[k]);
      ApartMeansNoRace(s, steps[k]);
      hide RacingFlush, Inv, Apart, Adds, Unsubscribing;
      forall i | 0 <= i < |steps|
        ensures !RacingFlush(Exec(Init(authRequired), steps[..i]), steps[i])
      {
        if i < k {
          assert front[i] == steps[i];
        }
      }
    }
  }

  lemma ApartMeansNoRace(s: State, step: Step)
    requires Apart(s)
    ensures !RacingFlush(s, step)
  {
    forall t | t in s.pendingTopics
      ensures t !in Unsubscribing(s)
    {
      assert t in Topics(s);
    }
  }

  /** What the venue will hold once everything written, queued and posted has reached it. */
  function VenueAfterAll(s: State): set<Request> {
    DeliverAll(s.delivered + (if s.writeInFlight then [s.writeBuffer] else []) + s.outboundQueue) - Unsubscribing(s)
  }

  /**
   Venue agreement. While connected and not closed by the user, across any failures
   and reconnects: take the frames written on this connection, the one in flight,
   those queued, and the unsubscribe tasks still posted; the venue then holds exactly
   the session's subscriptions. When nothing is on its way it already does.
   */
  lemma VenueAgreement(authRequired: bool, steps: seq<Step>)
    requires Feasible(Init(authRequired), steps) && SubRun(steps) && NoReadd(Init(authRequired), steps)
    ensures var s := Exec(Init(authRequired), steps);
      s.connected && !s.userClosed ==>
        && VenueAfterAll(s) == Elements(s.subscriptions)
        && (!s.writeInFlight && s.outboundQueue == [] && Unsubscribing(s) == {} ==>
              DeliverAll(s.delivered) == Elements(s.subscriptions))
  {
    var s := Exec(Init(authRequired), steps);
    ReachableApart(authRequired, steps);
    AgreementIffNoRacingFlush(authRequired, steps);
    FramesInOrder(authRequired, steps);
    assert steps[..|steps|] == steps;
    assert Agrees(s);
    hide Exec, DeliverAll, Unsubscribing;
    if !s.writeInFlight && s.outboundQueue == [] {
      assert s.delivered + [] + [] == s.delivered;
    }
  }
}
