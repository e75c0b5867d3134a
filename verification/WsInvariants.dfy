/** What every step of the session keeps. */
module WsInvariants {
  import opened Common
  import opened WsProtocol
  import opened WsSpec

  function Bit(b: bool): nat { if b then 1 else 0 }

  /** How many operations of a kind are in progress for the current generation. */
  function InProgress(s: State, kind: OpKind): nat { s.ops[Op(kind, s.generation)] }

  function Chain(s: State): nat {
    InProgress(s, Resolve) + InProgress(s, TcpConnect) + InProgress(s, TlsHandshake) + InProgress(s, WsHandshake)
  }

  /** Nothing is in progress twice, and the three phases of a generation exclude each other. */
  ghost predicate Shape(s: State) {
    && 0 <= s.generation
    && (forall op :: op in s.ops ==> 1 <= op.gen <= s.generation)
    && (forall op :: op in s.ops && !op.kind.CloseHandshake? ==> s.ops[op] == 1)
    && Chain(s) + Bit(s.connected) + Bit(s.reconnectScheduled) <= 1
    && InProgress(s, ReconnectWait) == Bit(s.reconnectScheduled)
    && (Chain(s) == 1 ==> InProgress(s, Read) == InProgress(s, Write) == InProgress(s, PingWait) == 0)
    && (s.generation == 0 ==> !s.connected && !s.reconnectScheduled)
    && (s.generation > 0 ==> s.started)
    && s.tasks[ConnectTask] <= Bit(s.started && s.generation == 0)
  }

  /** Exactly one phase is under way, unless the user has closed the session. */
  ghost predicate Alive(s: State) {
    !s.userClosed ==>
      && (s.started && s.generation == 0 ==> s.tasks[ConnectTask] == 1)
      && (s.generation > 0 ==> Chain(s) + Bit(s.connected) + Bit(s.reconnectScheduled) == 1)
      && (s.connected ==> InProgress(s, Read) == 1)
  }

  /** Frames: queued, then handed to the connection one at a time, in order. */
  ghost predicate Pipe(s: State) {
    && (!s.connected ==> s.outboundQueue == [] && s.subscriptions == [] && !s.writeInFlight)
    && (Chain(s) == 1 ==> s.enqueued == s.wire == s.delivered == [])
    && s.wire <= s.enqueued
    && (s.connected ==>
          && s.wire + s.outboundQueue == s.enqueued
          && InProgress(s, Write) == Bit(s.writeInFlight)
          && (s.writeInFlight ==> s.wire != [] && s.writeBuffer == s.wire[|s.wire| - 1])
          && (!s.userClosed ==> s.wire == s.delivered + (if s.writeInFlight then [s.writeBuffer] else [])))
  }

  ghost predicate HasSub(ps: seq<Payload>) {
    exists i :: 0 <= i < |ps| && IsSubMessage(ps[i])
  }

  /** The login gate. */
  ghost predicate Gate(s: State) {
    && s.authenticatedFlag == s.authenticated
    && (s.authenticated ==> s.ackGen == s.generation && s.generation > 0)
    && (Chain(s) == 1 ==> !s.authenticated)
    && (s.authRequired && HasSub(s.enqueued) ==> s.ackGen == s.generation && s.generation > 0)
    && (s.connected && s.authRequired ==> s.enqueued != [] && s.enqueued[0].Login?)
  }

  /** 1, 2, 4, 8, 16, 30, 30, ... */
  function Backoff(failures: nat): int {
    if failures == 0 then 1
    else if failures == 1 then 2
    else if failures == 2 then 4
    else if failures == 3 then 8
    else if failures == 4 then 16
    else 30
  }

  function Topics(s: State): seq<Request> { s.subscriptions + s.pendingTopics }

  ghost predicate Lists(s: State) {
    && NoDuplicates(Topics(s))
    && s.reconnectDelayS == Backoff(s.failures)
  }

  /** A topic waiting while the session could send it has a flush coming. */
  ghost predicate NotForgotten(s: State) {
    Flushes(s) && s.pendingTopics != [] ==> FlushTask in s.tasks
  }

  ghost predicate Inv(s: State) {
    Shape(s) && Alive(s) && Pipe(s) && Gate(s) && Lists(s) && NotForgotten(s)
  }

  lemma InitInv(authRequired: bool)
    ensures Inv(Init(authRequired))
  {
  }

  // ---- what the primitives keep ----

  /** t differs from s in frames, topics and time stamps only: same phase, same login, same posted tasks. */
  ghost predicate SamePhase(s: State, t: State) {
    && t.generation == s.generation && t.connected == s.connected && t.reconnectScheduled == s.reconnectScheduled
    && t.userClosed == s.userClosed && t.started == s.started && t.tasks == s.tasks
    && t.authRequired == s.authRequired && t.authenticated == s.authenticated
    && (forall k :: k != Write ==> InProgress(t, k) == InProgress(s, k))
  }

  /** All of Inv that does not need the current read or connect operation to be in ops. */
  ghost predicate Core(s: State) {
    Shape(s) && Pipe(s) && Gate(s) && Lists(s)
  }

  lemma PumpKeeps(s: State, open: bool)
    requires Core(s)
    ensures Core(Pump(s, open))
    ensures SamePhase(s, Pump(s, open))
    ensures Topics(Pump(s, open)) == Topics(s) && Pump(s, open).pendingTopics == s.pendingTopics
  {
    PumpShape(s, open);
    PumpPipe(s, open);
    hide Shape, Pipe, HasSub, InProgress;
  }

  lemma PumpShape(s: State, open: bool)
    requires Shape(s) && Pipe(s)
    ensures Shape(Pump(s, open)) && SamePhase(s, Pump(s, open)) && Chain(Pump(s, open)) == Chain(s)
  {
    assert forall k :: k != Write ==> InProgress(Pump(s, open), k) == InProgress(s, k);
  }

  lemma PumpPipe(s: State, open: bool)
    requires Shape(s) && Pipe(s)
    ensures Pipe(Pump(s, open))
  {
    if !(s.writeInFlight || !s.connected || !open || s.outboundQueue == []) {
      var t := Pump(s, open);
      assert t.wire + t.outboundQueue == s.wire + s.outboundQueue;
      assert t.wire == s.wire + [t.writeBuffer];
      assert Chain(s) == 0;
      PumpShape(s, open);
      PumpWrites(s, open);
      hide Shape, Pump, InProgress, Chain;
    }
  }

  lemma PumpWrites(s: State, open: bool)
    requires Pipe(s) && !(s.writeInFlight || !s.connected || !open || s.outboundQueue == [])
    ensures InProgress(Pump(s, open), Write) == 1
  {
  }

  lemma EnqueueKeeps(s: State, ps: seq<Payload>)
    requires Core(s) && s.connected
    requires s.authRequired && HasSub(ps) ==> s.ackGen == s.generation
    ensures Core(EnqueueAll(s, ps))
    ensures SamePhase(s, EnqueueAll(s, ps))
    ensures Topics(EnqueueAll(s, ps)) == Topics(s)
  {
    var t := EnqueueAll(s, ps);
    assert t.wire + t.outboundQueue == s.enqueued + ps;
    if s.authRequired && HasSub(t.enqueued) {
      var i :| 0 <= i < |t.enqueued| && IsSubMessage(t.enqueued[i]);
      if i < |s.enqueued| {
        assert IsSubMessage(s.enqueued[i]);
      } else {
        assert IsSubMessage(ps[i - |s.enqueued|]);
      }
    }
  }

  lemma FlushKeeps(s: State, open: bool)
    requires Core(s)
    ensures Core(FlushTopics(s, open))
    ensures Topics(FlushTopics(s, open)) == Topics(s)
    ensures SamePhase(s, FlushTopics(s, open))
    ensures Flushes(s) ==> FlushTopics(s, open).pendingTopics == []
  {
    if Flushes(s) {
      var moved := s.(subscriptions := s.subscriptions + s.pendingTopics, pendingTopics := []);
      assert Topics(moved) == Topics(s);
      assert Core(moved);
      EnqueueKeeps(moved, Messages(s.pendingTopics));
      PumpKeeps(EnqueueAll(moved, Messages(s.pendingTopics)), open);
    }
  }

  lemma HandleErrorKeeps(s: State)
    requires Core(s) && s.generation > 0 && Chain(s) == 0
    ensures Core(HandleError(s, s.generation))
    ensures Topics(HandleError(s, s.generation)) == Topics(s)
    ensures !s.userClosed ==> HandleError(s, s.generation).reconnectScheduled
    ensures s.userClosed || s.reconnectScheduled ==> HandleError(s, s.generation) == s
  {
    var t := HandleError(s, s.generation);
    if t != s {
      assert Topics(t) == Topics(s);
      assert forall k :: k != ReconnectWait ==> InProgress(t, k) == InProgress(s, k);
    }
  }

  lemma StartConnectKeeps(s: State)
    requires Core(s) && s.started && s.tasks[ConnectTask] == 0
    requires Chain(s) == 0 && !s.connected && !s.reconnectScheduled
    ensures Core(StartConnect(s))
    ensures Topics(StartConnect(s)) == Topics(s)
    ensures !s.userClosed ==> Chain(StartConnect(s)) == 1
  {
    if !s.userClosed {
      var t := StartConnect(s);
      assert forall k :: s.ops[Op(k, t.generation)] == 0;
      assert forall k :: k != Resolve ==> InProgress(t, k) == 0;
      assert Chain(t) == 1;
    }
  }

  /** No operation of the current generation is in progress, and no phase is under way. */
  ghost predicate Idle(s: State) {
    && (forall k: OpKind :: !k.CloseHandshake? ==> InProgress(s, k) == 0)
    && !s.connected && !s.reconnectScheduled
  }

  predicate IsChain(kind: OpKind) {
    kind.Resolve? || kind.TcpConnect? || kind.TlsHandshake? || kind.WsHandshake?
  }

  lemma BeginChainKeeps(s: State, kind: OpKind)
    requires Core(s) && s.generation > 0 && IsChain(kind) && Idle(s)
    requires !s.authenticated && s.enqueued == s.wire == s.delivered == []
    ensures Core(Begin(s, kind)) && Chain(Begin(s, kind)) == 1
  {
    BeginChainShape(s, kind);
    hide Shape, InProgress, Idle, HasSub, NoDuplicates;
  }

  lemma BeginChainShape(s: State, kind: OpKind)
    requires Shape(s) && s.generation > 0 && IsChain(kind) && Idle(s)
    ensures Shape(Begin(s, kind)) && Chain(Begin(s, kind)) == 1
  {
    var t := Begin(s, kind);
    assert forall k :: InProgress(t, k) == (if k == kind then 1 else InProgress(s, k));
  }

  /** The two operations that re-arm themselves. */
  lemma BeginKeeps(s: State, kind: OpKind)
    requires Core(s) && s.generation > 0 && kind in {Read, PingWait}
    requires InProgress(s, kind) == 0 && Chain(s) == 0
    ensures Core(Begin(s, kind))
    ensures forall k :: InProgress(Begin(s, kind), k) == (if k == kind then 1 else InProgress(s, k))
  {
    var t := Begin(s, kind);
    assert forall k :: InProgress(t, k) == (if k == kind then 1 else InProgress(s, k));
  }

  // ---- client calls ----

  /** What a client call does to the topic list; every other step leaves the list alone. */
  function TopicsAfter(topics: seq<Request>, step: Step): seq<Request> {
    match step
    case Run(Some(t)) => if t in topics then topics else topics + [t]
    case Subscribe(t) => if t in topics then topics else topics + [t]
    case Unsubscribe(t) => Without(topics, t)
    case _ => topics
  }

  predicate ClientCall(step: Step) {
    step.Run? || step.Subscribe? || step.Unsubscribe? || step.Close?
  }

  lemma AddTopicKeeps(s: State, t: Request)
    requires Core(s)
    ensures Core(AddTopic(s, t))
    ensures Topics(AddTopic(s, t)) == (if t in Topics(s) then Topics(s) else Topics(s) + [t])
    ensures SamePhase(s, AddTopic(s, t))
  {
    if t !in s.subscriptions && t !in s.pendingTopics {
      assert Topics(AddTopic(s, t)) == Topics(s) + [t];
    }
  }

  lemma RemoveTopicLists(s: State, t: Request)
    requires NoDuplicates(Topics(s))
    ensures RemoveTopic(s, t).subscriptions == Without(s.subscriptions, t)
    ensures Topics(RemoveTopic(s, t)) == Without(Topics(s), t)
    ensures NoDuplicates(Topics(RemoveTopic(s, t)))
  {
    WithoutAppend(s.subscriptions, s.pendingTopics, t);
    WithoutKeepsDistinct(Topics(s), t);
    assert s.subscriptions == Topics(s)[..|s.subscriptions|];
    WithoutKeepsDistinct(s.subscriptions, t);
    hide Without, WithoutFirst;
  }

  lemma RemoveTopicKeeps(s: State, t: Request)
    requires Core(s)
    ensures Core(RemoveTopic(s, t))
    ensures Topics(RemoveTopic(s, t)) == Without(Topics(s), t)
    ensures SamePhase(s, RemoveTopic(s, t))
    ensures NotForgotten(s) ==> NotForgotten(RemoveTopic(s, t))
  {
    RemoveTopicLists(s, t);
    hide Without, WithoutFirst, Topics;
  }

  lemma PostKeeps(s: State, task: Task)
    requires Core(s) && Alive(s) && (NotForgotten(s) || task.FlushTask?)
    requires !task.ConnectTask?
    ensures Inv(Post(s, task)) && Topics(Post(s, task)) == Topics(s)
  {
  }

  lemma RunInv(s: State, first: Option<Request>)
    requires Inv(s) && !s.started
    ensures Inv(Next(s, Run(first)))
    ensures Topics(Next(s, Run(first))) == TopicsAfter(Topics(s), Run(first))
  {
    assert s.generation == 0;
    var s1 := if first.Some? then AddTopic(s, first.value) else s;
    if first.Some? {
      AddTopicKeeps(s, first.value);
    }
    RunPosted(s1);
    hide Inv, AddTopic, Topics, Post;
  }

  lemma RunPosted(s: State)
    requires Core(s) && Alive(s) && !s.started && !s.connected && s.generation == 0 && s.tasks[ConnectTask] == 0
    ensures Inv(Post(s.(started := true), ConnectTask))
    ensures Topics(Post(s.(started := true), ConnectTask)) == Topics(s)
  {
  }

  /** A client call touches only the topic lists and the posted tasks. */
  lemma ClientCallInv(s: State, step: Step)
    requires Inv(s) && Enabled(s, step) && ClientCall(step)
    ensures Inv(Next(s, step))
    ensures Topics(Next(s, step)) == TopicsAfter(Topics(s), step)
  {
    hide Shape, Pipe, Gate, Lists, Topics, Post, AddTopic, RemoveTopic, Without, WithoutFirst;
    match step
    case Run(first) =>
      RunInv(s, first);
    case Subscribe(t) =>
      AddTopicKeeps(s, t);
      PostKeeps(AddTopic(s, t), FlushTask);
    case Unsubscribe(t) =>
      RemoveTopicKeeps(s, t);
      PostKeeps(RemoveTopic(s, t), UnsubscribeTask(t));
    case Close =>
      PostKeeps(s, CloseTask);
  }

  // ---- posted tasks ----

  lemma RunUnsubscribeKeeps(s: State, t: Request, open: bool)
    requires Core(s)
    ensures Core(RunUnsubscribe(s, t, open))
    ensures Topics(RunUnsubscribe(s, t, open)) == Topics(s)
    ensures SamePhase(s, RunUnsubscribe(s, t, open))
    ensures RunUnsubscribe(s, t, open).pendingTopics == s.pendingTopics
  {
    if s.connected {
      var p := Message(ToUnsubscribe(t));
      if IsSub(t) {
        UnsubscribeUndoesSubscribe({}, t);
      }
      EnqueueKeeps(s, [p]);
      PumpKeeps(EnqueueOp(s, p), open);
    }
  }

  lemma CloseByUserKeeps(s: State, open: bool)
    requires Core(s)
    ensures Core(CloseByUser(s, open)) && CloseByUser(s, open).userClosed
    ensures NotForgotten(s) ==> NotForgotten(CloseByUser(s, open))
    ensures Topics(CloseByUser(s, open)) == Topics(s)
  {
    if !s.userClosed {
      var closed := s.(userClosed := true);
      ClosedKeeps(s, closed);
      if s.generation > 0 {
        BeginCloseKeeps(closed);
      }
      hide Shape, Pipe, Gate, Lists, Topics;
    }
  }

  lemma ClosedKeeps(s: State, closed: State)
    requires Core(s) && closed == s.(userClosed := true)
    ensures Core(closed) && Topics(closed) == Topics(s)
  {
    assert forall k :: InProgress(closed, k) == InProgress(s, k);
    hide InProgress, HasSub, NoDuplicates;
  }

  lemma BeginCloseKeeps(s: State)
    requires Core(s) && s.generation > 0
    ensures Core(Begin(s, CloseHandshake)) && Topics(Begin(s, CloseHandshake)) == Topics(s)
  {
    var t := Begin(s, CloseHandshake);
    assert forall k: OpKind :: !k.CloseHandshake? ==> InProgress(t, k) == InProgress(s, k);
  }

  /** The removal of a task from the posted ones. */
  lemma TaskTaken(s: State, task: Task) returns (s0: State)
    requires Inv(s) && task in s.tasks
    ensures s0 == s.(tasks := s.tasks - multiset{task})
    ensures Core(s0) && Topics(s0) == Topics(s)
    ensures forall k :: InProgress(s0, k) == InProgress(s, k)
    ensures !task.ConnectTask? ==> Alive(s0)
    ensures !task.FlushTask? ==> NotForgotten(s0)
    ensures task.ConnectTask? ==> s0.started && s0.generation == 0 && s0.tasks[ConnectTask] == 0
  {
    s0 := s.(tasks := s.tasks - multiset{task});
    hide Shape, Pipe, Gate, Lists, InProgress, Topics;
    TaskTakenShape(s, task, s0);
    TaskTakenFrames(s, s0);
  }

  lemma TaskTakenFrames(s: State, s0: State)
    requires Pipe(s) && Gate(s) && Lists(s) && s0 == s.(tasks := s0.tasks)
    ensures Pipe(s0) && Gate(s0) && Lists(s0) && Topics(s0) == Topics(s)
  {
    assert Chain(s0) == Chain(s) && InProgress(s0, Write) == InProgress(s, Write);
    hide InProgress, HasSub, NoDuplicates, Backoff, Chain;
  }

  lemma TaskTakenShape(s: State, task: Task, s0: State)
    requires Shape(s) && task in s.tasks && s0 == s.(tasks := s.tasks - multiset{task})
    ensures Shape(s0) && forall k :: InProgress(s0, k) == InProgress(s, k)
    ensures task.ConnectTask? ==> s0.started && s0.generation == 0 && s0.tasks[ConnectTask] == 0
  {
  }

  lemma PhaseKeepsAlive(s: State, t: State)
    requires Alive(s) && SamePhase(s, t)
    ensures Alive(t)
    ensures NotForgotten(s) && t.pendingTopics == s.pendingTopics ==> NotForgotten(t)
  {
  }

  lemma ConnectTaskInv(s0: State)
    requires Core(s0) && s0.started && s0.generation == 0 && s0.tasks[ConnectTask] == 0
    ensures Inv(StartConnect(s0)) && Topics(StartConnect(s0)) == Topics(s0)
  {
    StartConnectKeeps(s0);
  }

  lemma TaskInv(s: State, task: Task, now: int, open: bool)
    requires Inv(s) && task in s.tasks
    ensures Inv(OnTask(s, task, now, open))
    ensures Topics(OnTask(s, task, now, open)) == Topics(s)
  {
    hide Shape, Pipe, Gate, Lists, Pump, EnqueueAll, EnqueueOp, StartConnect, Topics, FlushTopics, RunUnsubscribe, CloseByUser, SamePhase;
    var s0 := TaskTaken(s, task);
    match task
    case ConnectTask =>
      ConnectTaskInv(s0);
    case FlushTask =>
      FlushKeeps(s0, open);
      PhaseKeepsAlive(s0, FlushTopics(s0, open));
    case UnsubscribeTask(t) =>
      RunUnsubscribeKeeps(s0, t, open);
      PhaseKeepsAlive(s0, RunUnsubscribe(s0, t, open));
    case CloseTask =>
      CloseByUserKeeps(s0, open);
  }

  // ---- completions ----

  lemma StaleCompletionInv(s: State, op: Op)
    requires Inv(s) && op in s.ops && op.gen != s.generation
    ensures Inv(s.(ops := s.ops - multiset{op})) && Topics(s.(ops := s.ops - multiset{op})) == Topics(s)
  {
    var t := s.(ops := s.ops - multiset{op});
    assert forall k :: InProgress(t, k) == InProgress(s, k);
  }

  /** Taking one operation of the current generation out of ops, as when its handler starts. */
  lemma Taken(s: State, kind: OpKind) returns (s0: State)
    requires Inv(s) && Op(kind, s.generation) in s.ops
    ensures s0 == s.(ops := s.ops - multiset{Op(kind, s.generation)})
    ensures forall k :: InProgress(s0, k) == (if k == kind then InProgress(s, k) - 1 else InProgress(s, k))
    ensures !kind.CloseHandshake? ==> InProgress(s, kind) == 1
    ensures forall op :: op in s0.ops ==> op in s.ops && s0.ops[op] <= s.ops[op]
    ensures s.generation > 0
  {
    s0 := s.(ops := s.ops - multiset{Op(kind, s.generation)});
  }

  lemma TakenKeeps(s: State, kind: OpKind) returns (s0: State)
    requires Inv(s) && Op(kind, s.generation) in s.ops
    requires !kind.Write? && !kind.ReconnectWait?
    ensures s0 == s.(ops := s.ops - multiset{Op(kind, s.generation)})
    ensures Core(s0) && Topics(s0) == Topics(s) && NotForgotten(s0)
    ensures forall k :: InProgress(s0, k) == (if k == kind then InProgress(s, k) - 1 else InProgress(s, k))
    ensures !kind.CloseHandshake? ==> InProgress(s0, kind) == 0
    ensures s.generation > 0
    ensures IsChain(kind) ==> Idle(s0) && !s0.authenticated && s0.enqueued == s0.wire == s0.delivered == []
    ensures kind in {Read, PingWait} ==> Chain(s0) == 0
    ensures kind.Read? && !s.userClosed ==> s.connected || s.reconnectScheduled
    ensures kind in {PingWait, CloseHandshake} ==> Alive(s0)
  {
    s0 := Taken(s, kind);
    TakenFrames(s, s0, kind);
    TakenShape(s, s0, kind);
    hide Shape, Gate, Lists, Topics, Pipe, InProgress, Chain;
  }

  lemma TakenShape(s: State, s0: State, kind: OpKind)
    requires Shape(s) && Alive(s) && Op(kind, s.generation) in s.ops && !kind.Write? && !kind.ReconnectWait?
    requires s0 == s.(ops := s.ops - multiset{Op(kind, s.generation)})
    requires forall k :: InProgress(s0, k) == (if k == kind then InProgress(s, k) - 1 else InProgress(s, k))
    requires forall op :: op in s0.ops ==> op in s.ops && s0.ops[op] <= s.ops[op]
    requires !kind.CloseHandshake? ==> InProgress(s, kind) == 1
    ensures Shape(s0) && (!kind.CloseHandshake? ==> InProgress(s0, kind) == 0)
    ensures IsChain(kind) ==> Idle(s0)
    ensures kind in {Read, PingWait} ==> Chain(s0) == 0
    ensures kind.Read? && !s.userClosed ==> s.connected || s.reconnectScheduled
    ensures kind in {PingWait, CloseHandshake} ==> Alive(s0)
  {
    TakenIsShape(s, s0, kind);
    hide Shape;
    ShapePhases(s);
    hide InProgress;
    if IsChain(kind) {
      assert Chain(s) == 1;
    }
  }

  lemma TakenIsShape(s: State, s0: State, kind: OpKind)
    requires Shape(s) && !kind.ReconnectWait?
    requires s0 == s.(ops := s.ops - multiset{Op(kind, s.generation)})
    requires forall k :: InProgress(s0, k) == (if k == kind then InProgress(s, k) - 1 else InProgress(s, k))
    requires forall op :: op in s0.ops ==> op in s.ops && s0.ops[op] <= s.ops[op]
    requires !kind.CloseHandshake? ==> InProgress(s, kind) == 1
    ensures Shape(s0)
  {
    ShapeOps(s);
    ShapePhases(s);
    TakenPhases(s, s0, kind);
    ShapeStarted(s);
    hide InProgress, Chain;
  }

  lemma ShapeOps(s: State)
    requires Shape(s)
    ensures forall op :: op in s.ops ==> 1 <= op.gen <= s.generation && (!op.kind.CloseHandshake? ==> s.ops[op] == 1)
  {
    hide InProgress, Chain;
  }

  lemma ShapeStarted(s: State)
    requires Shape(s)
    ensures 0 <= s.generation && (s.generation > 0 ==> s.started) && s.tasks[ConnectTask] <= Bit(s.started && s.generation == 0)
  {
    hide InProgress, Chain;
  }

  lemma TakenPhases(s: State, s0: State, kind: OpKind)
    requires Shape(s) && !kind.ReconnectWait? && s0 == s.(ops := s0.ops)
    requires forall k :: InProgress(s0, k) == (if k == kind then InProgress(s, k) - 1 else InProgress(s, k))
    requires !kind.CloseHandshake? ==> InProgress(s, kind) == 1
    ensures Chain(s0) <= Chain(s) && InProgress(s0, ReconnectWait) == InProgress(s, ReconnectWait)
    ensures Chain(s0) == 1 ==> InProgress(s0, Read) == InProgress(s0, Write) == InProgress(s0, PingWait) == 0
  {
    ShapePhases(s);
    hide Shape, InProgress;
  }

  lemma ShapePhases(s: State)
    requires Shape(s)
    ensures Chain(s) + Bit(s.connected) + Bit(s.reconnectScheduled) <= 1
    ensures InProgress(s, ReconnectWait) == Bit(s.reconnectScheduled)
    ensures Chain(s) == 1 ==> InProgress(s, Read) == InProgress(s, Write) == InProgress(s, PingWait) == 0
    ensures s.generation == 0 ==> !s.connected && !s.reconnectScheduled
  {
  }

  lemma TakenFrames(s: State, s0: State, kind: OpKind)
    requires Inv(s) && Op(kind, s.generation) in s.ops && !kind.Write?
    requires s0 == s.(ops := s.ops - multiset{Op(kind, s.generation)})
    requires forall k :: InProgress(s0, k) == (if k == kind then InProgress(s, k) - 1 else InProgress(s, k))
    ensures Pipe(s0) && Gate(s0) && Lists(s0) && Topics(s0) == Topics(s)
    ensures IsChain(kind) ==> !s0.authenticated && s0.enqueued == s0.wire == s0.delivered == []
  {
    hide Alive, NotForgotten;
    if IsChain(kind) {
      assert Chain(s) == 1;
    } else {
      assert Chain(s0) == Chain(s);
    }
  }

  /** After the failure of a current operation the session waits to reconnect, or has been closed. */
  lemma ErrorInv(s0: State)
    requires Core(s0) && s0.generation > 0 && Chain(s0) == 0
    requires NotForgotten(s0)
    ensures Inv(HandleError(s0, s0.generation)) && Topics(HandleError(s0, s0.generation)) == Topics(s0)
  {
    HandleErrorKeeps(s0);
    hide Pipe, Gate, Lists, Topics;
  }

  lemma ChainStepInv(s0: State, failed: bool, next: OpKind)
    requires Core(s0) && Idle(s0) && s0.generation > 0 && IsChain(next)
    requires !s0.authenticated && s0.enqueued == s0.wire == s0.delivered == []
    ensures Inv(OnChainStep(s0, s0.generation, failed, next))
    ensures Topics(OnChainStep(s0, s0.generation, failed, next)) == Topics(s0)
  {
    if failed {
      hide Shape, Pipe, Gate, Lists, HandleError, IsChain, Topics;
      ErrorInv(s0);
    } else {
      BeginChainKeeps(s0, next);
      hide Shape, Pipe, Gate, Lists, HandleError, IsChain, InProgress, Chain;
    }
  }

  lemma HandshakeInv(s0: State, failed: bool, now: int, open: bool)
    requires Core(s0) && Idle(s0) && s0.generation > 0
    requires !s0.authenticated && s0.enqueued == s0.wire == s0.delivered == []
    ensures Inv(OnHandshake(s0, s0.generation, failed, now, open))
    ensures Topics(OnHandshake(s0, s0.generation, failed, now, open)) == Topics(s0)
  {
    hide Shape, Pipe, Gate, Lists, HandleError, SendLogin, FlushTopics, Topics;
    if failed {
      ErrorInv(s0);
    } else if !s0.userClosed {
      ConnectedInv(s0, now, open);
    } else {
      hide InProgress, Chain;
    }
  }

  /** The stream has just come up: the first frames are queued and a read and a ping wait begin. */
  lemma ConnectedInv(s0: State, now: int, open: bool)
    requires Core(s0) && Idle(s0) && s0.generation > 0
    requires !s0.authenticated && s0.enqueued == s0.wire == s0.delivered == []
    ensures !s0.userClosed ==>
      var t := OnHandshake(s0, s0.generation, false, now, open);
      Inv(t) && Topics(t) == Topics(s0)
  {
    var up := UpKeeps(s0, now);
    var mid := if s0.authRequired then SendLogin(up, now, open) else FlushTopics(up, open);
    FirstFramesKeep(up, now, open);
    hide Shape, Pipe, Gate, Lists, HandleError, SendLogin, FlushTopics, Topics, Pump;
    BeginReadInv(mid);
  }

  ghost predicate JustUp(up: State) {
    && up.connected && up.generation > 0 && up.enqueued == [] && up.outboundQueue == [] && up.wire == []
    && Shape(up) && Lists(up) && Pipe(up)
    && !up.authenticatedFlag && !up.authenticated
    && InProgress(up, Read) == 0 && Chain(up) == 0
  }

  lemma UpKeeps(s0: State, now: int) returns (up: State)
    requires Core(s0) && Idle(s0) && s0.generation > 0
    requires !s0.authenticated && s0.enqueued == s0.wire == s0.delivered == []
    ensures up == Begin(s0.(connected := true, lastPongTime := now), PingWait)
    ensures JustUp(up) && Topics(up) == Topics(s0)
  {
    up := Begin(s0.(connected := true, lastPongTime := now), PingWait);
    assert forall k :: InProgress(up, k) == (if k == PingWait then 1 else InProgress(s0, k));
  }

  lemma FirstFramesKeep(up: State, now: int, open: bool)
    requires JustUp(up)
    ensures var mid := if up.authRequired then SendLogin(up, now, open) else FlushTopics(up, open);
            Core(mid) && SamePhase(up, mid) && Topics(mid) == Topics(up) && NotForgotten(mid)
  {
    if up.authRequired {
      var dated := EnqueueOp(up.(authDeadline := Some(now + AUTH_ACK_TIMEOUT_IN_MS)), Login(now));
      assert dated.enqueued == [Login(now)];
      assert dated.outboundQueue == [Login(now)];
      assert Core(dated);
      PumpKeeps(dated, open);
    } else {
      assert !HasSub(up.enqueued);
      FlushKeeps(up, open);
    }
  }

  lemma BeginReadInv(s: State)
    requires Core(s) && NotForgotten(s) && s.generation > 0 && s.connected
    requires InProgress(s, Read) == 0
    ensures Inv(Begin(s, Read)) && Topics(Begin(s, Read)) == Topics(s)
  {
    assert Chain(s) == 0;
    BeginKeeps(s, Read);
    hide Pipe, Gate, Lists;
  }

  lemma ReadAgainInv(s: State)
    requires Core(s) && NotForgotten(s) && s.generation > 0
    requires InProgress(s, Read) == 0 && Chain(s) == 0
    requires !s.userClosed ==> s.connected || s.reconnectScheduled
    ensures Inv(ReadAgain(s, s.generation)) && Topics(ReadAgain(s, s.generation)) == Topics(s)
  {
    if s.reconnectScheduled || !s.connected {
      hide Pipe, Gate, Lists;
    } else {
      var renewed := s.(reconnectDelayS := 1, failures := 0);
      assert Core(renewed) && Topics(renewed) == Topics(s) by {
        hide Chain;
      }
      assert NotForgotten(renewed) && InProgress(renewed, Read) == 0;
      hide Shape, Pipe, Gate, Lists, NotForgotten, Chain, Topics;
      BeginReadInv(renewed);
      BeginReadInv(s);
    }
  }

  /** Between frames: no read of the current generation is in progress, and none is lost. */
  ghost predicate Reading(s: State) {
    && Core(s) && NotForgotten(s) && s.generation > 0
    && InProgress(s, Read) == 0 && Chain(s) == 0
    && (!s.userClosed ==> s.connected || s.reconnectScheduled)
  }

  lemma LoginAckKeeps(s: State, now: int, open: bool)
    requires Reading(s)
    ensures var t := HandleInbound(s, s.generation, LoginAccepted, now, open);
            Reading(t) && Topics(t) == Topics(s) && t.generation == s.generation
  {
    var acked := s.(authenticated := true, authenticatedFlag := true, authDeadline := None,
                    reconnectDelayS := 1, failures := 0, ackGen := s.generation);
    hide *;
    AckHandling(s, acked, now, open);
    LoginAckCore(s, acked);
    FlushReads(acked, open);
  }

  lemma AckHandling(s: State, acked: State, now: int, open: bool)
    requires acked == s.(authenticated := true, authenticatedFlag := true, authDeadline := None,
                         reconnectDelayS := 1, failures := 0, ackGen := s.generation)
    ensures HandleInbound(s, s.generation, LoginAccepted, now, open) == FlushTopics(acked, open)
  {
    hide FlushTopics, HandleError;
  }

  lemma FlushReads(s: State, open: bool)
    requires Core(s) && s.generation > 0 && InProgress(s, Read) == 0 && Chain(s) == 0
    requires !s.userClosed ==> s.connected || s.reconnectScheduled
    requires Flushes(s) || NotForgotten(s)
    ensures var t := FlushTopics(s, open); Reading(t) && Topics(t) == Topics(s) && t.generation == s.generation
  {
    FlushKeeps(s, open);
    hide Shape, Pipe, Gate, Lists, FlushTopics, Topics, InProgress;
  }

  lemma LoginAckCore(s: State, acked: State)
    requires Reading(s)
    requires acked == s.(authenticated := true, authenticatedFlag := true, authDeadline := None,
                         reconnectDelayS := 1, failures := 0, ackGen := s.generation)
    ensures Core(acked) && Topics(acked) == Topics(s) && acked.generation == s.generation > 0
    ensures InProgress(acked, Read) == 0 && Chain(acked) == 0
    ensures !acked.userClosed ==> acked.connected || acked.reconnectScheduled
    ensures Flushes(acked) || NotForgotten(acked)
  {
    assert forall k :: InProgress(acked, k) == InProgress(s, k);
    hide InProgress, HasSub, NoDuplicates;
  }

  lemma InboundKeeps(s: State, msg: Inbound, now: int, open: bool)
    requires Reading(s)
    ensures var t := HandleInbound(s, s.generation, msg, now, open);
            Reading(t) && Topics(t) == Topics(s) && t.generation == s.generation
  {
    hide Reading, Topics, FlushTopics, HandleError;
    match msg
    case LoginAccepted => LoginAckKeeps(s, now, open);
    case Pong => PongKeeps(s, now);
    case LoginRefused => DroppedKeeps(s);
    case Unparsable => DroppedKeeps(s);
    case _ =>
  }

  lemma PongKeeps(s: State, now: int)
    requires Reading(s)
    ensures var t := s.(lastPongTime := now);
            Reading(t) && Topics(t) == Topics(s) && t.generation == s.generation
  {
    assert Core(s.(lastPongTime := now));
    hide Shape, Pipe, Gate, Lists;
  }

  lemma DroppedKeeps(s: State)
    requires Reading(s)
    ensures var t := HandleError(s, s.generation);
            Reading(t) && Topics(t) == Topics(s) && t.generation == s.generation
  {
    HandleErrorKeeps(s);
    hide Pipe, Gate, Lists, Topics;
  }

  lemma ReadInv(s0: State, outcome: Outcome, now: int, open: bool)
    requires Reading(s0)
    ensures Inv(OnRead(s0, s0.generation, outcome, now, open))
    ensures Topics(OnRead(s0, s0.generation, outcome, now, open)) == Topics(s0)
  {
    if !outcome.Received? || outcome.msg.Unparsable? {
      hide Shape, Pipe, Gate, Lists, HandleError, HandleInbound, ReadAgain, Topics, Inv;
      ErrorInv(s0);
    } else {
      InboundKeeps(s0, outcome.msg, now, open);
      hide Core, Inv, NotForgotten, Chain, InProgress, HandleInbound, ReadAgain, Topics;
      ReadAgainInv(HandleInbound(s0, s0.generation, outcome.msg, now, open));
    }
  }

  lemma WrittenInv(s: State, failed: bool, open: bool)
    requires Inv(s) && Op(Write, s.generation) in s.ops
    ensures var t := OnWritten(s.(ops := s.ops - multiset{Op(Write, s.generation)}), s.generation, failed, open);
            Inv(t) && Topics(t) == Topics(s)
  {
    var s0 := Taken(s, Write);
    if failed {
      WriteFailedInv(s, s0);
    } else {
      var done := s0.(writeInFlight := false, delivered := s.delivered + [s.writeBuffer]);
      WriteDoneKeeps(s, s0);
      hide Shape, Pipe, Gate, Lists, Topics, Pump;
      PumpKeeps(done, open);
      PhaseKeepsAlive(done, Pump(done, open));
    }
  }

  ghost predicate WriteTaken(s: State, s0: State) {
    && Inv(s) && Op(Write, s.generation) in s.ops
    && s0 == s.(ops := s.ops - multiset{Op(Write, s.generation)})
  }

  lemma WriteDoneKeeps(s: State, s0: State)
    requires WriteTaken(s, s0)
    ensures var done := s0.(writeInFlight := false, delivered := s.delivered + [s.writeBuffer]);
            Core(done) && Alive(done) && NotForgotten(done) && Topics(done) == Topics(s)
  {
    var again := Taken(s, Write);
    var done := s0.(writeInFlight := false, delivered := s.delivered + [s.writeBuffer]);
    WriteDoneShape(s, done);
    WriteDoneFrames(s, done);
    hide Shape, Pipe, Gate, Lists, HasSub, NoDuplicates, Backoff, InProgress;
  }

  lemma WriteDoneFrames(s: State, done: State)
    requires Pipe(s) && Gate(s) && Lists(s) && Chain(done) == Chain(s) == 0 && InProgress(s, Write) == 1 && InProgress(done, Write) == 0
    requires done == s.(ops := done.ops, writeInFlight := false, delivered := s.delivered + [s.writeBuffer])
    ensures Pipe(done) && Gate(done) && Lists(done) && Topics(done) == Topics(s)
  {
    hide InProgress, HasSub, NoDuplicates, Backoff, Chain;
  }

  lemma WriteDoneShape(s: State, done: State)
    requires Shape(s) && Op(Write, s.generation) in s.ops
    requires done == s.(ops := s.ops - multiset{Op(Write, s.generation)}, writeInFlight := false, delivered := done.delivered)
    ensures Shape(done) && (forall k :: k != Write ==> InProgress(done, k) == InProgress(s, k)) && InProgress(done, Write) == 0
    ensures InProgress(s, Write) == 1 && Chain(done) == Chain(s) == 0
  {
    assert forall k :: k != Write ==> InProgress(done, k) == InProgress(s, k);
  }

  lemma WriteFailedInv(s: State, s0: State)
    requires WriteTaken(s, s0)
    ensures var t := HandleError(s0.(writeInFlight := false), s.generation);
            Inv(t) && Topics(t) == Topics(s)
  {
    if s.userClosed || s.reconnectScheduled {
      WriteFailedLate(s, s0);
    } else {
      WriteFailedLive(s, s0);
    }
  }

  lemma WriteFailedLate(s: State, s0: State)
    requires WriteTaken(s, s0) && (s.userClosed || s.reconnectScheduled)
    ensures var t := HandleError(s0.(writeInFlight := false), s.generation);
            Inv(t) && Topics(t) == Topics(s)
  {
    var again := Taken(s, Write);
    var done := s0.(writeInFlight := false);
    assert HandleError(done, s.generation) == done;
    assert forall k :: k != Write ==> InProgress(done, k) == InProgress(s, k);
    assert Gate(done) && Lists(done) && Pipe(done);
  }

  /** The connection is dropped together with the frame that failed. */
  lemma WriteFailedLive(s: State, s0: State)
    requires WriteTaken(s, s0) && !s.userClosed && !s.reconnectScheduled
    ensures var t := HandleError(s0.(writeInFlight := false), s.generation);
            Inv(t) && Topics(t) == Topics(s)
  {
    var quiet := s0.(writeInFlight := false, connected := false, outboundQueue := [],
                     pendingTopics := s.subscriptions + s.pendingTopics, subscriptions := []);
    QuietCore(s, s0, quiet);
    assert quiet.subscriptions + quiet.pendingTopics == quiet.pendingTopics;
    assert HandleError(s0.(writeInFlight := false), s.generation) == HandleError(quiet, s.generation);
    hide Shape, Pipe, Gate, Lists, HandleError, Topics, Inv;
    ErrorInv(quiet);
  }

  lemma QuietCore(s: State, s0: State, quiet: State)
    requires WriteTaken(s, s0) && !s.userClosed && !s.reconnectScheduled
    requires quiet == s0.(writeInFlight := false, connected := false, outboundQueue := [],
                          pendingTopics := s.subscriptions + s.pendingTopics, subscriptions := [])
    ensures Core(quiet) && Topics(quiet) == Topics(s) && NotForgotten(quiet) && Chain(quiet) == 0 && quiet.generation > 0
  {
    var again := Taken(s, Write);
    assert Topics(quiet) == Topics(s);
  }

  lemma PingTimerInv(s0: State, failed: bool, now: int, open: bool)
    requires Core(s0) && Alive(s0) && NotForgotten(s0) && s0.generation > 0
    requires InProgress(s0, PingWait) == 0 && Chain(s0) == 0
    ensures Inv(OnPingTimer(s0, s0.generation, failed, now, open))
    ensures Topics(OnPingTimer(s0, s0.generation, failed, now, open)) == Topics(s0)
  {
    hide Shape, Pipe, Gate, Lists, HandleError, Topics, Pump, EnqueueOp;
    ErrorInv(s0);
    PingKeeps(s0, open);
    var mid := if s0.connected then Pump(EnqueueOp(s0, Ping), open) else s0;
    BeginPingInv(mid);
  }

  lemma PingKeeps(s0: State, open: bool)
    requires Core(s0) && Alive(s0) && NotForgotten(s0)
    ensures s0.connected ==>
      var t := Pump(EnqueueOp(s0, Ping), open);
      Core(t) && SamePhase(s0, t) && Alive(t) && NotForgotten(t) && Topics(t) == Topics(s0)
  {
    if s0.connected {
      EnqueueKeeps(s0, [Ping]);
      assert EnqueueOp(s0, Ping) == EnqueueAll(s0, [Ping]);
      hide Shape, Pipe, Gate, Lists, Topics, Pump, EnqueueOp, EnqueueAll;
      PumpKeeps(EnqueueAll(s0, [Ping]), open);
      PhaseKeepsAlive(s0, Pump(EnqueueOp(s0, Ping), open));
    }
  }

  lemma BeginPingInv(s: State)
    requires Core(s) && Alive(s) && NotForgotten(s) && s.generation > 0
    requires InProgress(s, PingWait) == 0 && Chain(s) == 0
    ensures Inv(Begin(s, PingWait)) && Topics(Begin(s, PingWait)) == Topics(s)
  {
    BeginKeeps(s, PingWait);
    hide Shape, Pipe, Gate, Lists;
  }

  lemma ReconnectTimerInv(s: State, failed: bool)
    requires Inv(s) && Op(ReconnectWait, s.generation) in s.ops
    requires failed ==> s.userClosed
    ensures var t := OnReconnectTimer(s.(ops := s.ops - multiset{Op(ReconnectWait, s.generation)}), failed);
            Inv(t) && Topics(t) == Topics(s)
  {
    var s0 := Taken(s, ReconnectWait);
    var woken := s0.(reconnectScheduled := false);
    assert Core(woken);
    StartConnectKeeps(woken);
  }

  lemma ChainCompletionInv(s: State, kind: OpKind, outcome: Outcome, now: int, open: bool)
    requires Inv(s) && Op(kind, s.generation) in s.ops && IsChain(kind)
    ensures Inv(OnComplete(s, Op(kind, s.generation), outcome, now, open))
    ensures Topics(OnComplete(s, Op(kind, s.generation), outcome, now, open)) == Topics(s)
  {
    hide Inv, Core, Idle, Topics, Chain, InProgress, Alive, NotForgotten,
         OnChainStep, OnHandshake, OnRead, OnWritten, OnPingTimer, OnReconnectTimer;
    var s0 := TakenKeeps(s, kind);
    match kind
    case Resolve => ChainStepInv(s0, outcome.Failed?, TcpConnect);
    case TcpConnect => ChainStepInv(s0, outcome.Failed?, TlsHandshake);
    case TlsHandshake => ChainStepInv(s0, outcome.Failed?, WsHandshake);
    case WsHandshake => HandshakeInv(s0, outcome.Failed?, now, open);
  }

  lemma RearmingCompletionInv(s: State, kind: OpKind, outcome: Outcome, now: int, open: bool)
    requires Inv(s) && Op(kind, s.generation) in s.ops && kind in {Read, PingWait, CloseHandshake}
    ensures Inv(OnComplete(s, Op(kind, s.generation), outcome, now, open))
    ensures Topics(OnComplete(s, Op(kind, s.generation), outcome, now, open)) == Topics(s)
  {
    hide Inv, Core, Topics, Chain, InProgress, Alive, NotForgotten,
         OnChainStep, OnHandshake, OnRead, OnWritten, OnPingTimer, OnReconnectTimer;
    var s0 := TakenKeeps(s, kind);
    match kind
    case Read => ReadInv(s0, outcome, now, open);
    case PingWait => PingTimerInv(s0, outcome.Failed?, now, open);
    case CloseHandshake => Reassembled(s0);
  }

  lemma CompletionInv(s: State, op: Op, outcome: Outcome, now: int, open: bool)
    requires Inv(s) && Enabled(s, Complete(op, outcome, now, open))
    ensures Inv(OnComplete(s, op, outcome, now, open))
    ensures Topics(OnComplete(s, op, outcome, now, open)) == Topics(s)
  {
    hide Inv, Topics, OnChainStep, OnHandshake, OnRead, OnWritten, OnPingTimer, OnReconnectTimer;
    if op.gen != s.generation {
      StaleCompletionInv(s, op);
    } else if op.kind.Write? {
      WrittenInv(s, outcome.Failed?, open);
    } else if op.kind.ReconnectWait? {
      ReconnectTimerInv(s, outcome.Failed?);
    } else if IsChain(op.kind) {
      hide OnComplete;
      ChainCompletionInv(s, op.kind, outcome, now, open);
    } else {
      hide OnComplete;
      RearmingCompletionInv(s, op.kind, outcome, now, open);
    }
  }

  lemma Reassembled(s: State)
    requires Core(s) && Alive(s) && NotForgotten(s)
    ensures Inv(s)
  {
  }

  /** Inv and the topic list after a step. */
  ghost predicate Kept(s: State, step: Step) {
    Inv(Next(s, step)) && Topics(Next(s, step)) == TopicsAfter(Topics(s), step)
  }

  lemma TaskStepInv(s: State, task: Task, now: int, open: bool)
    requires Inv(s) && task in s.tasks
    ensures Kept(s, RunTask(task, now, open))
  {
    hide Inv, OnTask, OnComplete, Topics, AddTopic, RemoveTopic;
    TaskInv(s, task, now, open);
  }

  lemma CompletionStepInv(s: State, op: Op, outcome: Outcome, now: int, open: bool)
    requires Inv(s) && Enabled(s, Complete(op, outcome, now, open))
    ensures Kept(s, Complete(op, outcome, now, open))
  {
    hide Inv, OnTask, OnComplete, Topics, AddTopic, RemoveTopic, Enabled;
    CompletionInv(s, op, outcome, now, open);
  }

  lemma PongInv(s: State, now: int)
    requires Inv(s)
    ensures Kept(s, PongFrame(now))
  {
    hide OnTask, OnComplete, AddTopic, RemoveTopic, Inv, Topics;
    PongKept(s, s.(lastPongTime := now));
  }

  lemma PongKept(s: State, t: State)
    requires Inv(s) && t == s.(lastPongTime := t.lastPongTime)
    ensures Inv(t) && Topics(t) == Topics(s)
  {
    assert forall k :: InProgress(t, k) == InProgress(s, k);
    hide InProgress, HasSub, NoDuplicates, Backoff;
  }

  /** One step keeps the invariant and treats the topic list as one ordered set. */
  lemma StepInv(s: State, step: Step)
    requires Inv(s) && Enabled(s, step)
    ensures Inv(Next(s, step))
    ensures Topics(Next(s, step)) == TopicsAfter(Topics(s), step)
  {
    hide Inv, Next, Topics, TopicsAfter;
    match step
    case RunTask(task, now, open) => TaskStepInv(s, task, now, open);
    case Complete(op, outcome, now, open) => CompletionStepInv(s, op, outcome, now, open);
    case PongFrame(now) => PongInv(s, now);
    case _ => ClientCallInv(s, step);
  }

  // ---- what no step ever undoes ----

  /**
   From s to t: the same credentials, nothing posted, no generation undone, a closed
   session stays closed, the ack generation is set exactly when a login ack was read,
   and only then can the authenticated flag rise; scheduling a reconnect lowers it.
   */
  ghost predicate Onward(s: State, t: State, ack: bool) {
    && t.authRequired == s.authRequired && t.tasks == s.tasks
    && t.ackGen == (if ack then s.generation else s.ackGen)
    && s.generation <= t.generation
    && (s.userClosed ==> t.userClosed && t.generation == s.generation && (t.connected ==> s.connected))
    && (!ack && t.authenticatedFlag ==> s.authenticatedFlag)
    && (t.reconnectScheduled && !s.reconnectScheduled ==> !t.authenticatedFlag)
  }

  lemma PumpOnward(s: State, open: bool)
    ensures Onward(s, Pump(s, open), false)
  {
  }

  lemma FlushOnward(s: State, open: bool)
    ensures Onward(s, FlushTopics(s, open), false)
  {
    hide Pump;
    PumpOnward(EnqueueAll(s.(subscriptions := s.subscriptions + s.pendingTopics, pendingTopics := []),
                          Messages(s.pendingTopics)), open);
  }

  lemma ErrorOnward(s: State, gen: int)
    ensures Onward(s, HandleError(s, gen), false)
  {
  }

  lemma HandshakeOnward(s: State, gen: int, failed: bool, now: int, open: bool)
    ensures Onward(s, OnHandshake(s, gen, failed, now, open), false)
  {
    hide Pump, FlushTopics, HandleError;
    ErrorOnward(s, gen);
    var up := Begin(s.(connected := true, lastPongTime := now), PingWait);
    FlushOnward(up, open);
    PumpOnward(EnqueueOp(up.(authDeadline := Some(now + AUTH_ACK_TIMEOUT_IN_MS)), Login(now)), open);
  }

  lemma InboundOnward(s: State, gen: int, msg: Inbound, now: int, open: bool)
    ensures Onward(s, HandleInbound(s, gen, msg, now, open), msg.LoginAccepted?)
  {
    hide FlushTopics, HandleError;
    if msg.LoginAccepted? {
      FlushOnward(s.(authenticated := true, authenticatedFlag := true, authDeadline := None,
                     reconnectDelayS := 1, failures := 0, ackGen := s.generation), open);
    } else {
      ErrorOnward(s, gen);
    }
  }

  lemma ReadOnward(s: State, gen: int, outcome: Outcome, now: int, open: bool)
    ensures Onward(s, OnRead(s, gen, outcome, now, open), outcome == Received(LoginAccepted))
  {
    hide HandleInbound, HandleError;
    if !outcome.Received? || outcome.msg.Unparsable? {
      ErrorOnward(s, gen);
    } else {
      InboundOnward(s, gen, outcome.msg, now, open);
      ReadAgainOnward(HandleInbound(s, gen, outcome.msg, now, open), gen);
      hide ReadAgain;
    }
  }

  lemma ReadAgainOnward(s: State, gen: int)
    ensures Onward(s, ReadAgain(s, gen), false)
  {
  }

  lemma WrittenOnward(s: State, gen: int, failed: bool, open: bool)
    ensures Onward(s, OnWritten(s, gen, failed, open), false)
  {
    hide Pump, HandleError;
    ErrorOnward(s.(writeInFlight := false), gen);
    PumpOnward(s.(writeInFlight := false, delivered := s.delivered + [s.writeBuffer]), open);
  }

  lemma PingOnward(s: State, gen: int, failed: bool, now: int, open: bool)
    ensures Onward(s, OnPingTimer(s, gen, failed, now, open), false)
  {
    hide Pump, HandleError;
    ErrorOnward(s, gen);
    PumpOnward(EnqueueOp(s, Ping), open);
  }

  lemma CompletionOnward(s: State, op: Op, outcome: Outcome, now: int, open: bool)
    ensures Onward(s.(ops := s.ops - multiset{op}), OnComplete(s, op, outcome, now, open),
                   op == Op(Read, s.generation) && outcome == Received(LoginAccepted))
  {
    hide OnChainStep, OnHandshake, OnRead, OnWritten, OnPingTimer, OnReconnectTimer;
    var s0 := s.(ops := s.ops - multiset{op});
    if op.gen != s.generation {
      assert OnComplete(s, op, outcome, now, open) == s0;
    } else {
      hide Onward;
      match op.kind
      case Resolve => ChainStepOnward(s0, op.gen, outcome.Failed?, TcpConnect);
      case TcpConnect => ChainStepOnward(s0, op.gen, outcome.Failed?, TlsHandshake);
      case TlsHandshake => ChainStepOnward(s0, op.gen, outcome.Failed?, WsHandshake);
      case WsHandshake => HandshakeOnward(s0, op.gen, outcome.Failed?, now, open);
      case Read => ReadOnward(s0, op.gen, outcome, now, open);
      case Write => WrittenOnward(s0, op.gen, outcome.Failed?, open);
      case PingWait => PingOnward(s0, op.gen, outcome.Failed?, now, open);
      case ReconnectWait => ReconnectOnward(s0, outcome.Failed?);
      case CloseHandshake => SelfOnward(s0);
    }
  }

  lemma SelfOnward(s: State)
    ensures Onward(s, s, false)
  {
  }

  lemma ChainStepOnward(s: State, gen: int, failed: bool, next: OpKind)
    ensures Onward(s, OnChainStep(s, gen, failed, next), false)
  {
    hide HandleError;
    ErrorOnward(s, gen);
  }

  lemma ReconnectOnward(s: State, failed: bool)
    ensures Onward(s, OnReconnectTimer(s, failed), false)
  {
  }

  lemma TaskOnward(s: State, task: Task, now: int, open: bool)
    ensures Onward(s.(tasks := s.tasks - multiset{task}), OnTask(s, task, now, open), false)
  {
    hide StartConnect, FlushTopics, RunUnsubscribe, CloseByUser;
    var s0 := s.(tasks := s.tasks - multiset{task});
    match task
    case ConnectTask => StartOnward(s0);
    case FlushTask => FlushOnward(s0, open);
    case UnsubscribeTask(t) => UnsubscribeOnward(s0, t, open);
    case CloseTask => CloseOnward(s0, open);
  }

  lemma StartOnward(s: State)
    ensures Onward(s, StartConnect(s), false)
  {
  }

  lemma CloseOnward(s: State, open: bool)
    ensures Onward(s, CloseByUser(s, open), false)
  {
  }

  lemma UnsubscribeOnward(s: State, t: Request, open: bool)
    ensures Onward(s, RunUnsubscribe(s, t, open), false)
  {
    hide Pump, ToUnsubscribe;
    PumpOnward(EnqueueOp(s, Message(ToUnsubscribe(t))), open);
  }

  predicate ReadsLoginAck(step: Step, gen: int) {
    && step.Complete? && step.op == Op(Read, gen)
    && step.outcome == Received(LoginAccepted)
  }

  /** The posted tasks: client calls post, running a task removes it, nothing else touches them. */
  function TasksAfter(s: State, step: Step): multiset<Task> {
    match step
    case Run(_) => s.tasks + multiset{ConnectTask}
    case Subscribe(_) => s.tasks + multiset{FlushTask}
    case Unsubscribe(t) => if t in s.subscriptions then s.tasks + multiset{UnsubscribeTask(t)} else s.tasks
    case Close => s.tasks + multiset{CloseTask}
    case RunTask(task, _, _) => s.tasks - multiset{task}
    case _ => s.tasks
  }

  ghost predicate SameFrames(s: State, t: State) {
    && t.connected == s.connected && t.userClosed == s.userClosed && t.enqueued == s.enqueued
    && t.outboundQueue == s.outboundQueue && t.writeInFlight == s.writeInFlight
  }

  /** What a client call or a pong frame leaves behind. */
  ghost predicate CallOnward(s: State, step: Step) {
    && Onward(s, Next(s, step).(tasks := s.tasks), false)
    && Next(s, step).tasks == TasksAfter(s, step)
    && SameFrames(s, Next(s, step))
    && (!step.Unsubscribe? ==> Next(s, step).subscriptions == s.subscriptions)
  }

  lemma ClientOnward(s: State, step: Step)
    requires ClientCall(step) || step.PongFrame?
    ensures CallOnward(s, step)
  {
    hide CallOnward, Next;
    match step {
      case Run(first) => RunOnward(s, first);
      case Subscribe(t) => SubscribeOnward(s, t);
      case Unsubscribe(t) => UnsubscribeCallOnward(s, t);
      case Close => CloseCallOnward(s);
      case PongFrame(now) => PongOnward(s, now);
      case _ => assert false;
    }
  }

  lemma SubscribeOnward(s: State, topic: Request)
    ensures CallOnward(s, Subscribe(topic))
  {
    AddTopicOnward(s, topic);
    hide AddTopic, OnTask, OnComplete, RemoveTopic;
  }

  lemma UnsubscribeCallOnward(s: State, topic: Request)
    ensures CallOnward(s, Unsubscribe(topic))
  {
    hide RemoveTopic, OnTask, OnComplete, AddTopic, Onward, SameFrames;
    RemoveTopicOnward(s, topic);
    var t := RemoveTopic(s, topic);
    PostedOnward(s, t, UnsubscribeTask(topic));
  }

  lemma PostedOnward(s: State, t: State, task: Task)
    requires Onward(s, t, false) && SameFrames(s, t)
    ensures t.tasks == s.tasks && t.(tasks := s.tasks) == t
    ensures Onward(s, Post(t, task).(tasks := s.tasks), false) && SameFrames(s, Post(t, task))
  {
    assert Post(t, task).(tasks := s.tasks) == t;
  }

  lemma RunOnward(s: State, first: Option<Request>)
    ensures CallOnward(s, Run(first))
  {
    if first.Some? {
      AddTopicOnward(s, first.value);
    }
    hide AddTopic, OnTask, OnComplete, RemoveTopic;
  }

  lemma CloseCallOnward(s: State)
    ensures CallOnward(s, Close)
  {
    hide AddTopic, OnTask, OnComplete, RemoveTopic;
  }

  lemma PongOnward(s: State, now: int)
    ensures CallOnward(s, PongFrame(now))
  {
    hide AddTopic, OnTask, OnComplete, RemoveTopic;
  }

  lemma AddTopicOnward(s: State, t: Request)
    ensures Onward(s, AddTopic(s, t), false)
    ensures SameFrames(s, AddTopic(s, t))
    ensures AddTopic(s, t).subscriptions == s.subscriptions
  {
    assert AddTopic(s, t) == s || AddTopic(s, t) == s.(pendingTopics := s.pendingTopics + [t]);
    hide AddTopic;
  }

  lemma RemoveTopicOnward(s: State, t: Request)
    ensures Onward(s, RemoveTopic(s, t), false)
    ensures SameFrames(s, RemoveTopic(s, t))
  {
    hide Without, WithoutFirst;
  }

  lemma TaskStepOnward(s: State, task: Task, now: int, open: bool)
    ensures Onward(s, Next(s, RunTask(task, now, open)).(tasks := s.tasks), false)
    ensures Next(s, RunTask(task, now, open)).tasks == s.tasks - multiset{task}
  {
    TaskOnward(s, task, now, open);
    hide OnTask, OnComplete, AddTopic, RemoveTopic;
  }

  lemma CompletionStepOnward(s: State, op: Op, outcome: Outcome, now: int, open: bool)
    ensures Onward(s, Next(s, Complete(op, outcome, now, open)).(tasks := s.tasks),
                   ReadsLoginAck(Complete(op, outcome, now, open), s.generation))
    ensures Next(s, Complete(op, outcome, now, open)).tasks == s.tasks
  {
    CompletionOnward(s, op, outcome, now, open);
    hide OnTask, OnComplete, AddTopic, RemoveTopic;
  }

  /** No step ever goes back; the only step that records a login ack is the one that reads it. */
  lemma StepOnward(s: State, step: Step)
    ensures Onward(s, Next(s, step).(tasks := s.tasks), ReadsLoginAck(step, s.generation))
    ensures Next(s, step).tasks == TasksAfter(s, step)
  {
    hide Next, Onward;
    match step
    case RunTask(task, now, open) => TaskStepOnward(s, task, now, open);
    case Complete(op, outcome, now, open) => CompletionStepOnward(s, op, outcome, now, open);
    case _ => ClientOnward(s, step);
  }
}
