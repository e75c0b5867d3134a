/**
 The session's flags and times told from the steps of a run alone: generation, closing, the
 last sign of life, the login deadline, the stages of a connect, and the reconnect waits.
 The functions of this module look at steps, never at what a handler does with them.
 */
module WsHistory {
  import opened Common
  import opened WsProtocol
  import opened WsSpec
  import opened WsInvariants
  import opened WsTheorems
  import opened WsVitals

  function Front(steps: seq<Step>): seq<Step>
    requires steps != []
  {
    steps[..|steps| - 1]
  }

  function Last(steps: seq<Step>): Step
    requires steps != []
  {
    steps[|steps| - 1]
  }

  /** A posted close has run. */
  predicate Closed(steps: seq<Step>) {
    steps != [] && (Closed(Front(steps)) || (Last(steps).RunTask? && Last(steps).task.CloseTask?))
  }

  /** The step begins a connect. */
  predicate Begins(gen: int, step: Step) {
    match step
    case RunTask(task, _, _) => task.ConnectTask?
    case Complete(op, outcome, _, _) => op == Op(ReconnectWait, gen) && !outcome.Failed?
    case _ => false
  }

  /** How many connects have begun: the posted one and one per reconnect timer that went off, until the close. */
  function Gen(steps: seq<Step>): int {
    if steps == [] then 0
    else
      var g := Gen(Front(steps));
      if Begins(g, Last(steps)) && !Closed(Front(steps)) then g + 1 else g
  }

  /** The last step is a handshake of the current generation that brought the session up. */
  predicate ComesUp(steps: seq<Step>) {
    && steps != [] && Last(steps).Complete?
    && Last(steps).op == Op(WsHandshake, Gen(Front(steps))) && !Last(steps).outcome.Failed? && !Closed(Front(steps))
  }

  /** When the current connection came up last. */
  function CameUp(steps: seq<Step>): int {
    if steps == [] then 0 else if ComesUp(steps) then Last(steps).now else CameUp(Front(steps))
  }

  /** The last step is a sign of life: a pong frame, a pong message read on this connection, or its coming up. */
  predicate SignOfLife(steps: seq<Step>) {
    && steps != []
    && (|| Last(steps).PongFrame?
        || (Last(steps).Complete? && Last(steps).op == Op(Read, Gen(Front(steps))) && Last(steps).outcome == Received(Pong))
        || ComesUp(steps))
  }

  function LastHeard(steps: seq<Step>): int {
    if steps == [] then 0 else if SignOfLife(steps) then Last(steps).now else LastHeard(Front(steps))
  }

  /** One more step, on the small machine. */
  lemma OneMore(auth: bool, steps: seq<Step>)
    requires steps != []
    ensures VitalsOf(Exec(Init(auth), steps)) == NextVitals(VitalsOf(Exec(Init(auth), Front(steps))), auth, Last(steps))
  {
    hide Next, NextVitals, VitalsOf;
    StepVitals(Exec(Init(auth), Front(steps)), Last(steps));
    AuthFixed(auth, Front(steps));
  }

  lemma Beginning(auth: bool)
    ensures VitalsOf(Exec(Init(auth), [])) == Vitals(0, false, false, false, false, None, 0, 1, 0)
  {
  }

  /** Generation, closing and the time of the last sign of life are those of the steps, over every run. */
  lemma {:induction false} HeardLast(auth: bool, steps: seq<Step>)
    ensures var s := Exec(Init(auth), steps);
      s.generation == Gen(steps) && s.userClosed == Closed(steps) && s.lastPongTime == LastHeard(steps)
  {
    hide Exec, Next;
    if steps == [] {
      Beginning(auth);
    } else {
      HeardLast(auth, Front(steps));
      OneMore(auth, steps);
      HeardNext(VitalsOf(Exec(Init(auth), Front(steps))), auth, steps);
    }
  }

  lemma HeardNext(v: Vitals, auth: bool, steps: seq<Step>)
    requires steps != []
    requires v.generation == Gen(Front(steps)) && v.userClosed == Closed(Front(steps)) && v.lastPongTime == LastHeard(Front(steps))
    ensures var t := NextVitals(v, auth, Last(steps));
      t.generation == Gen(steps) && t.userClosed == Closed(steps) && t.lastPongTime == LastHeard(steps)
  {
    hide LastHeard, Closed, Gen;
    GenNext(v, auth, steps);
    LifeNext(v, auth, steps);
  }

  lemma OpKeepsGeneration(v: Vitals, auth: bool, kind: OpKind, outcome: Outcome, now: int)
    ensures var t := AfterOp(v, auth, kind, outcome, now);
      && t.userClosed == v.userClosed
      && t.generation == (if kind.ReconnectWait? && !outcome.Failed? && !v.userClosed then v.generation + 1 else v.generation)
  {
    hide Overdue;
  }

  lemma StepGeneration(v: Vitals, auth: bool, step: Step)
    ensures var t := NextVitals(v, auth, step);
      && t.generation == (if Begins(v.generation, step) && !v.userClosed then v.generation + 1 else v.generation)
      && t.userClosed == (v.userClosed || (step.RunTask? && step.task.CloseTask?))
  {
    hide AfterOp;
    if step.Complete? {
      OpKeepsGeneration(v, auth, step.op.kind, step.outcome, step.now);
    }
  }

  lemma GenNext(v: Vitals, auth: bool, steps: seq<Step>)
    requires steps != [] && v.generation == Gen(Front(steps)) && v.userClosed == Closed(Front(steps))
    ensures var t := NextVitals(v, auth, Last(steps)); t.generation == Gen(steps) && t.userClosed == Closed(steps)
  {
    hide NextVitals;
    StepGeneration(v, auth, Last(steps));
  }

  lemma OpHears(v: Vitals, auth: bool, kind: OpKind, outcome: Outcome, now: int)
    ensures AfterOp(v, auth, kind, outcome, now).lastPongTime ==
      if (kind.Read? && outcome == Received(Pong)) || (kind.WsHandshake? && !outcome.Failed? && !v.userClosed) then now else v.lastPongTime
  {
    hide Overdue;
  }

  lemma LifeNext(v: Vitals, auth: bool, steps: seq<Step>)
    requires steps != [] && v.generation == Gen(Front(steps)) && v.userClosed == Closed(Front(steps)) && v.lastPongTime == LastHeard(Front(steps))
    ensures NextVitals(v, auth, Last(steps)).lastPongTime == LastHeard(steps)
  {
    hide Gen, Closed, AfterOp;
    var step := Last(steps);
    if step.Complete? {
      OpHears(v, auth, step.op.kind, step.outcome, step.now);
    }
  }

  // ---- the login deadline ----

  /** Up and waiting for the login ack: the deadline is 15 s after coming up. */
  lemma {:induction false} LoginDeadline(auth: bool, steps: seq<Step>)
    ensures var s := Exec(Init(auth), steps);
      s.connected && auth && !s.authenticated ==> s.authDeadline == Some(CameUp(steps) + 15000)
  {
    hide Exec, Next;
    if steps == [] {
      Beginning(auth);
    } else {
      LoginDeadline(auth, Front(steps));
      HeardLast(auth, Front(steps));
      OneMore(auth, steps);
      DeadlineNext(VitalsOf(Exec(Init(auth), Front(steps))), auth, steps);
    }
  }

  lemma DeadlineNext(v: Vitals, auth: bool, steps: seq<Step>)
    requires steps != [] && v.generation == Gen(Front(steps)) && v.userClosed == Closed(Front(steps))
    requires v.connected && auth && !v.authenticated ==> v.authDeadline == Some(CameUp(Front(steps)) + 15000)
    ensures var t := NextVitals(v, auth, Last(steps));
      t.connected && auth && !t.authenticated ==> t.authDeadline == Some(CameUp(steps) + 15000)
  {
    hide Overdue, Gen, Closed;
  }

  // ---- when a connection is given up ----

  /** What ends a connect or a connection of the current generation. */
  predicate Fails(s: State, steps: seq<Step>, step: Step) {
    && step.Complete? && step.op.gen == Gen(steps)
    && match step.op.kind
       case Read => !step.outcome.Received? || step.outcome.msg in {Unparsable, LoginRefused}
       case PingWait =>
         && !step.outcome.Failed? && s.connected
         && (step.now - LastHeard(steps) >= 41000 || (s.authRequired && !s.authenticated && step.now > CameUp(steps) + 15000))
       case ReconnectWait => false
       case CloseHandshake => false
       case _ => step.outcome.Failed?
  }

  /**
   While nothing is scheduled and the session is open, a step schedules a reconnect exactly
   when an operation of the current generation fails, a frame read is not JSON or refuses
   the login, or the heartbeat finds that nothing was heard for 41 s (a pong, or the
   connection coming up) or that 15 s after coming up no login ack has been read.
   */
  lemma GivenUpExactly(auth: bool, steps: seq<Step>, step: Step)
    requires var s := Exec(Init(auth), steps); !s.userClosed && !s.reconnectScheduled
    ensures var s := Exec(Init(auth), steps);
      Next(s, step).reconnectScheduled <==> Fails(s, steps, step)
  {
    hide Exec, Next;
    var s := Exec(Init(auth), steps);
    HeardLast(auth, steps);
    LoginDeadline(auth, steps);
    AuthFixed(auth, steps);
    StepVitals(s, step);
    hide Gen, LastHeard, CameUp;
  }

  // ---- the stages of a connect ----

  /** The connect operations of the current generation that have completed, in order. */
  function Stages(steps: seq<Step>): seq<OpKind> {
    if steps == [] || Gen(steps) != Gen(Front(steps)) then []
    else if Last(steps).Complete? && Last(steps).op.gen == Gen(steps) && IsChain(Last(steps).op.kind) && !Last(steps).outcome.Failed? then
      Stages(Front(steps)) + [Last(steps).op.kind]
    else Stages(Front(steps))
  }

  function StagesBefore(kind: OpKind): seq<OpKind> {
    match kind
    case TcpConnect => [Resolve]
    case TlsHandshake => [Resolve, TcpConnect]
    case WsHandshake => [Resolve, TcpConnect, TlsHandshake]
    case _ => []
  }

  ghost predicate Staged(s: State, stages: seq<OpKind>) {
    && (s.connected ==> stages == [Resolve, TcpConnect, TlsHandshake, WsHandshake])
    && (forall k: OpKind :: IsChain(k) && Op(k, s.generation) in s.ops ==> stages == StagesBefore(k))
  }

  /** At most one connect operation of the current generation, and none once it is up or given up. */
  lemma OneStage(s: State)
    requires Inv(s)
    ensures OneAtMost(s)
    ensures s.generation > 0 && !s.userClosed && !s.connected && !s.reconnectScheduled ==>
              exists k: OpKind :: IsChain(k) && Op(k, s.generation) in s.ops
    ensures 0 <= s.generation && (s.generation == 0 ==> !s.connected && forall k: OpKind :: Op(k, s.generation) !in s.ops)
  {
    hide Pipe, Gate, Lists, NotForgotten;
    forall k: OpKind | IsChain(k) && Op(k, s.generation) in s.ops
      ensures InProgress(s, k) == 1
    {
    }
    if s.generation > 0 && !s.userClosed && !s.connected && !s.reconnectScheduled {
      assert Chain(s) == 1;
      assert IsChain(Resolve) && IsChain(TcpConnect) && IsChain(TlsHandshake) && IsChain(WsHandshake);
      assert exists k | k in {Resolve, TcpConnect, TlsHandshake, WsHandshake} :: Op(k, s.generation) in s.ops;
    }
  }

  /** A new generation starts by resolving. */
  lemma DialStartsResolve(s: State, step: Step)
    requires Next(s, step).generation != s.generation
    ensures Op(Resolve, Next(s, step).generation) in Next(s, step).ops
  {
    hide NextVitals, VitalsOf, AddTopic, RemoveTopic, OnHandshake, OnRead, OnWritten, OnPingTimer, OnChainStep, FlushTopics, RunUnsubscribe, CloseByUser;
    StepVitals(s, step);
    StepGeneration(VitalsOf(s), s.authRequired, step);
    VitalsFields(s);
    VitalsFields(Next(s, step));
  }

  /** A stage that completes starts the next one. */
  lemma StageStartsNext(s: State, step: Step, next: OpKind)
    requires step.Complete? && step.op.gen == s.generation && !step.outcome.Failed?
    requires (step.op.kind, next) in {(Resolve, TcpConnect), (TcpConnect, TlsHandshake), (TlsHandshake, WsHandshake)}
    ensures Op(next, s.generation) in Next(s, step).ops && Next(s, step).generation == s.generation
  {
    hide OnHandshake, OnRead, OnWritten, OnPingTimer, OnReconnectTimer, OnTask, AddTopic, RemoveTopic, HandleError;
  }

  lemma OpConnects(v: Vitals, auth: bool, kind: OpKind, outcome: Outcome, now: int)
    ensures var t := AfterOp(v, auth, kind, outcome, now);
      && (t.connected && !v.connected ==> kind.WsHandshake? && !outcome.Failed? && !v.userClosed)
      && (v.connected && !t.connected ==> t.reconnectScheduled || t.generation != v.generation)
      && (v.reconnectScheduled && !t.reconnectScheduled ==> kind.ReconnectWait?)
      && (IsChain(kind) && outcome.Failed? && !v.userClosed ==> t.reconnectScheduled)
      && (kind.WsHandshake? && !outcome.Failed? && !v.userClosed ==> t.connected)
  {
    hide Overdue;
  }

  /** What the flags can do in one step of an open session. */
  lemma StepConnects(v: Vitals, auth: bool, step: Step)
    ensures var t := NextVitals(v, auth, step);
      var current := step.Complete? && step.op.gen == v.generation;
      && (t.connected && !v.connected ==> current && step.op.kind.WsHandshake? && !step.outcome.Failed?)
      && (v.connected && !t.connected ==> t.reconnectScheduled || t.generation != v.generation)
      && (v.reconnectScheduled && !t.reconnectScheduled ==> current && step.op.kind.ReconnectWait?)
      && (current && IsChain(step.op.kind) && step.outcome.Failed? && !v.userClosed ==> t.reconnectScheduled)
      && (current && step.op.kind.WsHandshake? && !step.outcome.Failed? && !v.userClosed ==> t.connected)
  {
    hide AfterOp;
    if step.Complete? {
      OpConnects(v, auth, step.op.kind, step.outcome, step.now);
    }
  }

  /** Stages after one more step in the same generation. */
  function StagesThen(stages: seq<OpKind>, gen: int, step: Step): seq<OpKind> {
    if step.Complete? && step.op.gen == gen && IsChain(step.op.kind) && !step.outcome.Failed? then stages + [step.op.kind] else stages
  }

  /** A stage under way stays under way until it completes. */
  lemma StageStays(s: State, step: Step, kind: OpKind)
    requires Op(kind, s.generation) in s.ops && Next(s, step).generation == s.generation
    requires !(step.Complete? && step.op == Op(kind, s.generation))
    ensures Op(kind, s.generation) in Next(s, step).ops
  {
    hide Next;
    StepStartsNothingOld(s, step);
    assert Op(kind, s.generation) in Before(s, step).ops;
  }

  /** The flags of a step that stays in its generation. */
  ghost predicate FlagsMove(s: State, step: Step, t: State) {
    var current := step.Complete? && step.op.gen == s.generation;
    && (t.connected && !s.connected ==> current && step.op.kind.WsHandshake? && !step.outcome.Failed?)
    && (s.connected && !t.connected ==> t.reconnectScheduled)
    && (s.reconnectScheduled ==> t.reconnectScheduled)
    && (current && IsChain(step.op.kind) && step.outcome.Failed? ==> t.reconnectScheduled)
    && (current && step.op.kind.WsHandshake? && !step.outcome.Failed? ==> t.connected)
    && (step.Complete? ==> step.op in s.ops)
  }

  lemma SameGenerationFlags(s: State, step: Step, t: State)
    requires Enabled(s, step) && t == Next(s, step) && t.generation == s.generation && !s.userClosed
    ensures FlagsMove(s, step, t)
  {
    hide Next, Enabled, VitalsOf, NextVitals;
    StepVitals(s, step);
    StepConnects(VitalsOf(s), s.authRequired, step);
    StepGeneration(VitalsOf(s), s.authRequired, step);
    FlagsOf(s);
    FlagsOf(t);
    EnabledReads(s, step);
  }

  lemma StagedSame(s: State, step: Step, t: State, stages: seq<OpKind>)
    requires Inv(s) && Inv(t) && Enabled(s, step) && t == Next(s, step) && t.generation == s.generation && !t.userClosed && !s.userClosed
    requires Staged(s, stages)
    ensures Staged(t, StagesThen(stages, s.generation, step))
  {
    hide Inv, Next, Enabled, FlagsMove;
    SameGenerationFlags(s, step, t);
    OneStage(s);
    OneStage(t);
    if k: OpKind :| IsChain(k) && Op(k, s.generation) in s.ops {
      StageMoves(s, step, t, k, stages);
      StagedUnderWay(s, step, t, k, stages);
    } else {
      NoStageUnderWay(s, step, t, stages);
    }
  }

  ghost predicate OneAtMost(s: State) {
    && (forall k, k': OpKind :: IsChain(k) && IsChain(k') && Op(k, s.generation) in s.ops && Op(k', s.generation) in s.ops ==> k == k')
    && (s.connected || s.reconnectScheduled ==> forall k: OpKind :: IsChain(k) ==> Op(k, s.generation) !in s.ops)
    && !(s.connected && s.reconnectScheduled)
  }

  lemma NoStageUnderWay(s: State, step: Step, t: State, stages: seq<OpKind>)
    requires FlagsMove(s, step, t) && Staged(s, stages) && OneAtMost(t) && t.generation == s.generation
    requires forall k: OpKind :: IsChain(k) ==> Op(k, s.generation) !in s.ops
    requires s.connected || s.reconnectScheduled || forall k: OpKind :: IsChain(k) ==> Op(k, t.generation) !in t.ops
    ensures Staged(t, StagesThen(stages, s.generation, step))
  {
    assert StagesThen(stages, s.generation, step) == stages;
    assert t.connected ==> s.connected;
    assert s.connected || s.reconnectScheduled ==> t.connected || t.reconnectScheduled;
  }

  lemma StagedUnderWay(s: State, step: Step, t: State, k: OpKind, stages: seq<OpKind>)
    requires FlagsMove(s, step, t) && Staged(s, stages) && OneAtMost(s) && OneAtMost(t) && t.generation == s.generation
    requires IsChain(k) && Op(k, s.generation) in s.ops
    requires !(step.Complete? && step.op == Op(k, s.generation)) ==> Op(k, t.generation) in t.ops
    requires step.Complete? && step.op == Op(k, s.generation) && !step.outcome.Failed? ==>
      if k.WsHandshake? then StagesThen(stages, s.generation, step) == [Resolve, TcpConnect, TlsHandshake, WsHandshake]
      else exists n: OpKind :: IsChain(n) && Op(n, t.generation) in t.ops && StagesThen(stages, s.generation, step) == StagesBefore(n)
    ensures Staged(t, StagesThen(stages, s.generation, step))
  {
    hide StagesBefore;
    if !(step.Complete? && step.op == Op(k, s.generation)) {
      assert StagesThen(stages, s.generation, step) == stages;
    }
  }

  lemma FlagsOf(s: State)
    ensures var v := VitalsOf(s);
      && v.generation == s.generation && v.userClosed == s.userClosed && v.connected == s.connected
      && v.reconnectScheduled == s.reconnectScheduled && v.authenticated == s.authenticated
  {
  }

  lemma EnabledReads(s: State, step: Step)
    requires Enabled(s, step)
    ensures step.Complete? ==> step.op in s.ops
    ensures step.Complete? && step.op.kind.ReconnectWait? && step.outcome.Failed? ==> s.userClosed
  {
  }

  /** The one stage under way either stays, or gives way to the next one, or to the connection. */
  lemma StageMoves(s: State, step: Step, t: State, k: OpKind, stages: seq<OpKind>)
    requires t == Next(s, step) && t.generation == s.generation && IsChain(k) && Op(k, s.generation) in s.ops
    requires stages == StagesBefore(k)
    ensures !(step.Complete? && step.op == Op(k, s.generation)) ==> Op(k, t.generation) in t.ops
    ensures step.Complete? && step.op == Op(k, s.generation) && !step.outcome.Failed? ==>
      if k.WsHandshake? then StagesThen(stages, s.generation, step) == [Resolve, TcpConnect, TlsHandshake, WsHandshake]
      else exists n: OpKind :: IsChain(n) && Op(n, t.generation) in t.ops && StagesThen(stages, s.generation, step) == StagesBefore(n)
  {
    hide Next;
    if !(step.Complete? && step.op == Op(k, s.generation)) {
      StageStays(s, step, k);
    } else if !step.outcome.Failed? && !k.WsHandshake? {
      var n := if k.Resolve? then TcpConnect else if k.TcpConnect? then TlsHandshake else WsHandshake;
      StageStartsNext(s, step, n);
      assert IsChain(n) && Op(n, t.generation) in t.ops && StagesThen(stages, s.generation, step) == StagesBefore(n);
    }
  }

  lemma NewlyStaged(t: State)
    requires Inv(t) && Op(Resolve, t.generation) in t.ops
    ensures Staged(t, [])
  {
    hide Inv;
    OneStage(t);
  }

  /**
   A session connects only through all four stages of its generation, each begun when the
   one before has completed: while it is open, a stage under way has exactly the earlier
   ones behind it, and a connection has all four.
   */
  lemma {:induction false} AllFourStages(auth: bool, steps: seq<Step>)
    requires Feasible(Init(auth), steps)
    ensures var s := Exec(Init(auth), steps);
      !s.userClosed ==>
        && (s.connected ==> Stages(steps) == [Resolve, TcpConnect, TlsHandshake, WsHandshake])
        && (forall k: OpKind :: IsChain(k) && Op(k, s.generation) in s.ops ==> Stages(steps) == StagesBefore(k))
  {
    hide Inv, Next, Exec, Feasible, Gen, Closed, StagesBefore;
    var t := Exec(Init(auth), steps);
    if steps == [] {
      NothingStaged(auth);
    } else {
      var s := Exec(Init(auth), Front(steps));
      FeasiblePrefix(Init(auth), steps, |steps| - 1);
      AllFourStages(auth, Front(steps));
      ReachableInv(auth, Front(steps));
      ReachableInv(auth, steps);
      HeardLast(auth, Front(steps));
      HeardLast(auth, steps);
      ExecLast(auth, steps);
      if s.userClosed {
        ClosedStays(steps);
      }
      if !t.userClosed {
        if t.generation == s.generation {
          StagedSame(s, Last(steps), t, Stages(Front(steps)));
        } else {
          DialStartsResolve(s, Last(steps));
          NewlyStaged(t);
        }
      }
    }
  }

  lemma NothingStaged(auth: bool)
    ensures Staged(Exec(Init(auth), []), [])
  {
  }

  lemma ExecLast(auth: bool, steps: seq<Step>)
    requires steps != []
    ensures Exec(Init(auth), steps) == Next(Exec(Init(auth), Front(steps)), Last(steps))
  {
    hide Next;
  }

  lemma ClosedStays(steps: seq<Step>)
    requires steps != [] && Closed(Front(steps))
    ensures Closed(steps)
  {
  }

  // ---- the reconnect waits ----

  /** The last step schedules a reconnect. */
  predicate Schedules(auth: bool, steps: seq<Step>) {
    steps != [] && !Exec(Init(auth), Front(steps)).reconnectScheduled && Exec(Init(auth), steps).reconnectScheduled
  }

  /** The last step shows the connection works: a login ack, or any readable frame once logged in as needed. */
  predicate ProofOfLife(auth: bool, steps: seq<Step>) {
    && steps != [] && Last(steps).Complete? && Last(steps).op == Op(Read, Gen(Front(steps))) && Last(steps).outcome.Received?
    && var msg, s := Last(steps).outcome.msg, Exec(Init(auth), steps);
       msg == LoginAccepted
       || (msg != Unparsable && s.connected && !s.reconnectScheduled && (auth ==> s.authenticated))
  }

  /** How many reconnects were scheduled since the last proof of life. */
  function Failures(auth: bool, steps: seq<Step>): nat {
    if steps == [] then 0
    else if Schedules(auth, steps) then Failures(auth, Front(steps)) + 1
    else if ProofOfLife(auth, steps) then 0
    else Failures(auth, Front(steps))
  }

  /** Seconds to wait by failures since the last proof of life: 1, 2, 4, 8, 16, 30, 30, ... */
  function Waits(auth: bool, steps: seq<Step>): int {
    if steps == [] then 0
    else if Schedules(auth, steps) then Backoff(Failures(auth, Front(steps)))
    else Waits(auth, Front(steps))
  }

  lemma Doubled(failures: nat)
    ensures Min(Backoff(failures) * 2, RECONNECT_DELAY_MAX_IN_S) == Backoff(failures + 1)
  {
  }

  lemma OpDelays(v: Vitals, auth: bool, kind: OpKind, outcome: Outcome, now: int)
    ensures var t := AfterOp(v, auth, kind, outcome, now);
      if !v.reconnectScheduled && t.reconnectScheduled then
        t.reconnectWaitS == v.reconnectDelayS && t.reconnectDelayS == Min(v.reconnectDelayS * 2, RECONNECT_DELAY_MAX_IN_S)
      else
        && t.reconnectWaitS == v.reconnectWaitS
        && t.reconnectDelayS == (if kind.Read? && outcome.Received?
                                    && (outcome.msg == LoginAccepted
                                        || (outcome.msg != Unparsable && t.connected && !t.reconnectScheduled && (auth ==> t.authenticated)))
                                 then 1 else v.reconnectDelayS)
  {
    hide Overdue;
  }

  lemma StepDelays(v: Vitals, auth: bool, step: Step)
    ensures var t := NextVitals(v, auth, step);
      if !v.reconnectScheduled && t.reconnectScheduled then
        t.reconnectWaitS == v.reconnectDelayS && t.reconnectDelayS == Min(v.reconnectDelayS * 2, RECONNECT_DELAY_MAX_IN_S)
      else
        && t.reconnectWaitS == v.reconnectWaitS
        && t.reconnectDelayS == (if step.Complete? && step.op == Op(Read, v.generation) && step.outcome.Received?
                                    && (step.outcome.msg == LoginAccepted
                                        || (step.outcome.msg != Unparsable && t.connected && !t.reconnectScheduled && (auth ==> t.authenticated)))
                                 then 1 else v.reconnectDelayS)
  {
    hide AfterOp;
    if step.Complete? {
      OpDelays(v, auth, step.op.kind, step.outcome, step.now);
    }
  }

  /**
   The n-th reconnect scheduled since the last proof of life sets its timer to the n-th of
   1, 2, 4, 8, 16, 30, 30, ... seconds, over every run.
   */
  lemma {:induction false} WaitsBackOff(auth: bool, steps: seq<Step>)
    ensures var s := Exec(Init(auth), steps);
      s.reconnectDelayS == Backoff(Failures(auth, steps)) && s.reconnectWaitS == Waits(auth, steps)
  {
    hide Exec, Next, NextVitals, VitalsOf, Gen, Backoff;
    if steps == [] {
      Beginning(auth);
      DelaysOf(Exec(Init(auth), []));
      FirstDelay();
    } else {
      var s, t := Exec(Init(auth), Front(steps)), Exec(Init(auth), steps);
      WaitsBackOff(auth, Front(steps));
      HeardLast(auth, Front(steps));
      OneMore(auth, steps);
      StepDelays(VitalsOf(s), auth, Last(steps));
      DelaysOf(s);
      DelaysOf(t);
      FlagsOf(s);
      FlagsOf(t);
      Doubled(Failures(auth, Front(steps)));
      FirstDelay();
    }
  }

  lemma FirstDelay()
    ensures Backoff(0) == 1
  {
  }

  lemma DelaysOf(s: State)
    ensures VitalsOf(s).reconnectDelayS == s.reconnectDelayS && VitalsOf(s).reconnectWaitS == s.reconnectWaitS
  {
  }

  // ---- the heartbeat goes on ----

  /** The wait of the ping timer reports an error only when it was cancelled, by an error or by closing. */
  ghost predicate TimerFailsOnlyCancelled(auth: bool, steps: seq<Step>) {
    forall i :: 0 <= i < |steps| && steps[i].Complete? && steps[i].op.kind.PingWait? && steps[i].outcome.Failed? ==>
      var s := Exec(Init(auth), steps[..i]);
      s.userClosed || s.reconnectScheduled || steps[i].op.gen != s.generation
  }

  /** While the session is connected and open, its heartbeat is waiting to go off. */
  lemma {:induction false} HeartbeatGoesOn(auth: bool, steps: seq<Step>)
    requires Feasible(Init(auth), steps) && TimerFailsOnlyCancelled(auth, steps)
    ensures var s := Exec(Init(auth), steps);
      s.connected && !s.userClosed ==> Op(PingWait, s.generation) in s.ops
  {
    hide Inv, Next, Enabled, Gen, Closed, Exec;
    if steps == [] {
      Beginning(auth);
      FlagsOf(Exec(Init(auth), []));
    } else {
      var s, t := Exec(Init(auth), Front(steps)), Exec(Init(auth), steps);
      FeasiblePrefix(Init(auth), steps, |steps| - 1);
      CancelledPrefix(auth, steps);
      HeartbeatGoesOn(auth, Front(steps));
      ReachableInv(auth, Front(steps));
      ReachableInv(auth, steps);
      ExecLast(auth, steps);
      HeardLast(auth, Front(steps));
      HeardLast(auth, steps);
      if s.userClosed {
        ClosedStays(steps);
      } else if t.connected && !t.userClosed {
        HeartbeatNext(s, Last(steps), t);
      }
    }
  }

  lemma CancelledPrefix(auth: bool, steps: seq<Step>)
    requires steps != [] && TimerFailsOnlyCancelled(auth, steps)
    ensures TimerFailsOnlyCancelled(auth, Front(steps))
    ensures Last(steps).Complete? && Last(steps).op.kind.PingWait? && Last(steps).outcome.Failed? ==>
      var s := Exec(Init(auth), Front(steps));
      s.userClosed || s.reconnectScheduled || Last(steps).op.gen != s.generation
  {
    hide Exec;
    assert forall i :: 0 <= i < |steps| - 1 ==> Front(steps)[..i] == steps[..i] && Front(steps)[i] == steps[i];
  }

  lemma HeartbeatNext(s: State, step: Step, t: State)
    requires Inv(s) && Inv(t) && Enabled(s, step) && t == Next(s, step) && t.connected && !t.userClosed && !s.userClosed
    requires s.connected ==> Op(PingWait, s.generation) in s.ops
    requires step.Complete? && step.op == Op(PingWait, s.generation) && step.outcome.Failed? ==> s.reconnectScheduled
    ensures Op(PingWait, t.generation) in t.ops
  {
    hide Inv, Next, Enabled, FlagsMove;
    OneStage(s);
    OneStage(t);
    if t.generation != s.generation {
      DialStartsResolve(s, step);
    } else {
      SameGenerationFlags(s, step, t);
      CameUpOrWas(s, step, t);
      if s.connected {
        if step.Complete? && step.op == Op(PingWait, s.generation) {
          PingedAgain(s, step);
        } else {
          StageStays(s, step, PingWait);
        }
      } else {
        UpStartsHeartbeat(s, step);
      }
    }
  }

  lemma CameUpOrWas(s: State, step: Step, t: State)
    requires FlagsMove(s, step, t) && t.connected
    ensures !s.connected ==> step.Complete? && step.op == Op(WsHandshake, s.generation) && !step.outcome.Failed?
  {
  }

  lemma PingedAgain(s: State, step: Step)
    requires Inv(s) && Enabled(s, step) && s.connected && !s.userClosed && Next(s, step).connected
    requires step.Complete? && step.op == Op(PingWait, s.generation) && !step.outcome.Failed?
    ensures Op(PingWait, s.generation) in Next(s, step).ops
  {
    PingOutcome(s, step);
    SilenceIsNoticed(s, step.now, step.open);
    hide Inv, Next;
  }

  lemma PingOutcome(s: State, step: Step)
    requires Enabled(s, step) && step.Complete? && step.op.kind.PingWait? && !step.outcome.Failed?
    ensures step.op in s.ops && step == Complete(step.op, Outcome.Completed, step.now, step.open)
  {
  }

  lemma UpStartsHeartbeat(s: State, step: Step)
    requires step.Complete? && step.op == Op(WsHandshake, s.generation) && !step.outcome.Failed? && !s.userClosed
    ensures Op(PingWait, s.generation) in Next(s, step).ops
  {
    hide OnRead, OnWritten, OnPingTimer, OnReconnectTimer, OnChainStep, OnTask, AddTopic, RemoveTopic, HandleError, NoOldStart, SendLogin, FlushTopics;
    var live := s.(ops := s.ops - multiset{step.op}).(connected := true, lastPongTime := step.now);
    var up := Begin(live, PingWait);
    LoginStartsNothingOld(up, step.now, step.open);
    FlushStartsNothingOld(up, step.open);
    OpsKept(up, SendLogin(up, step.now, step.open));
    OpsKept(up, FlushTopics(up, step.open));
    assert Op(PingWait, s.generation) in up.ops;
  }

  lemma OpsKept(s: State, t: State)
    requires NoOldStart(s, t)
    ensures s.ops <= t.ops
  {
  }

  // ---- the login frame ----

  lemma UpLogsIn(s: State, step: Step)
    requires step.Complete? && step.op == Op(WsHandshake, s.generation) && !step.outcome.Failed? && !s.userClosed
    requires s.authRequired && s.enqueued == []
    ensures Next(s, step).enqueued == [Login(step.now)]
  {
    hide OnRead, OnWritten, OnPingTimer, OnReconnectTimer, OnChainStep, OnTask, AddTopic, RemoveTopic, HandleError, SendLogin, FlushTopics;
    var up := Begin(s.(ops := s.ops - multiset{step.op}).(connected := true, lastPongTime := step.now), PingWait);
    LoginVitals(up, step.now, step.open);
  }

  lemma FramesOfPhases(s: State)
    requires Inv(s)
    ensures s.connected && s.authRequired ==> s.enqueued != []
    ensures Op(WsHandshake, s.generation) in s.ops ==> s.enqueued == [] && !s.connected
  {
    hide Alive, Lists, NotForgotten;
    if Op(WsHandshake, s.generation) in s.ops {
      assert InProgress(s, WsHandshake) == 1;
      assert Chain(s) == 1;
    }
  }

  lemma FramesStay(s: State, step: Step)
    ensures Next(s, step).generation == s.generation ==> s.enqueued <= Next(s, step).enqueued
  {
    hide Next;
    StepStartsNothingOld(s, step);
  }

  /** With credentials the first frame of a connection is the login, stamped with the time the connection came up. */
  lemma {:induction false} LoginFirst(auth: bool, steps: seq<Step>)
    requires Feasible(Init(auth), steps)
    ensures var s := Exec(Init(auth), steps);
      s.connected && auth && !s.userClosed ==> s.enqueued != [] && s.enqueued[0] == Login(CameUp(steps))
  {
    hide Inv, Next, Enabled, Gen, Closed, Exec, FlagsMove;
    if steps == [] {
      Beginning(auth);
      FlagsOf(Exec(Init(auth), []));
    } else {
      var s, t := Exec(Init(auth), Front(steps)), Exec(Init(auth), steps);
      FeasiblePrefix(Init(auth), steps, |steps| - 1);
      LoginFirst(auth, Front(steps));
      ReachableInv(auth, Front(steps));
      ReachableInv(auth, steps);
      ExecLast(auth, steps);
      HeardLast(auth, Front(steps));
      HeardLast(auth, steps);
      AuthFixed(auth, Front(steps));
      if s.userClosed {
        ClosedStays(steps);
      } else if t.connected && auth && !t.userClosed {
        LoginNext(s, Last(steps), t, CameUp(Front(steps)), CameUp(steps));
      }
    }
  }

  lemma LoginNext(s: State, step: Step, t: State, before: int, after: int)
    requires Inv(s) && Inv(t) && Enabled(s, step) && t == Next(s, step) && t.connected && !t.userClosed && !s.userClosed && s.authRequired
    requires s.connected ==> s.enqueued != [] && s.enqueued[0] == Login(before)
    requires after == (if step.Complete? && step.op == Op(WsHandshake, s.generation) && !step.outcome.Failed? then step.now else before)
    ensures t.enqueued != [] && t.enqueued[0] == Login(after)
  {
    hide Inv, Next, Enabled, FlagsMove;
    EnabledReads(s, step);
    OneStage(s);
    OneStage(t);
    FramesOfPhases(s);
    if t.generation != s.generation {
      DialStartsResolve(s, step);
    } else {
      SameGenerationFlags(s, step, t);
      CameUpOrWas(s, step, t);
      if s.connected {
        FramesStay(s, step);
      } else {
        UpLogsIn(s, step);
      }
    }
  }

  // ---- closing ----

  /** A close that runs starts the close handshake exactly when the stream is open and no write is in flight, and only the first one does. */
  lemma CloseStartsHandshake(s: State, now: int, open: bool)
    ensures var t, op := Next(s, RunTask(CloseTask, now, open)), Op(CloseHandshake, s.generation);
      && t.userClosed
      && t.ops[op] == s.ops[op] + (if !s.userClosed && s.generation > 0 && open && !s.writeInFlight then 1 else 0)
      && (forall other :: other != op ==> t.ops[other] == s.ops[other])
  {
    hide FlushTopics, RunUnsubscribe, StartConnect, OnComplete, AddTopic, RemoveTopic;
  }
}
