/**
 The shared order lane: one private order request at a time, a fixed spacing between
 starts, and a cooldown that escalates while the venue keeps throttling. Times in ms.
 */
module OrderLane {
  import opened Common
  import opened Spacing

  const SPACING: nat := 1250
  const MAX_STREAK: nat := 4

  /** 5, 10, 20, 30 seconds for streaks 1, 2, 3, 4. */
  function Cooldown(streak: nat): nat {
    if streak == 0 then 0 else Min(5 * Pow2(streak - 1), 30) * 1000
  }

  datatype Refusal = Busy | Cooling | Pacing

  /** How a private order request ended. */
  datatype Ending = Succeeded | Throttled | Failed

  datatype Lane = Lane(
    held: bool,
    nextOrderRequestAt: int,
    orderCooldownUntil: int,
    consecutiveOrderThrottles: nat,
    // history
    starts: seq<int>,
    frees: seq<int>,
    endings: seq<Ending>
  )

  function Fresh(): Lane { Lane(false, 0, 0, 0, [], [], []) }

  function Refused(l: Lane, now: int): Option<Refusal> {
    if l.held then Some(Busy)
    else if now < l.orderCooldownUntil then Some(Cooling)
    else if now < l.nextOrderRequestAt then Some(Pacing)
    else None
  }

  function Acquire(l: Lane, now: int): Lane {
    if Refused(l, now).Some? then l
    else l.(held := true, nextOrderRequestAt := now + SPACING, starts := l.starts + [now])
  }

  function ExtendCooldown(l: Lane, now: int): Lane {
    var streak := Min(l.consecutiveOrderThrottles + 1, MAX_STREAK);
    var until := now + Cooldown(streak);
    l.(consecutiveOrderThrottles := streak,
       orderCooldownUntil := Max(l.orderCooldownUntil, until),
       nextOrderRequestAt := Max(l.nextOrderRequestAt, until))
  }

  /** The request ends with the lane still held; then the lane is freed. */
  function Finish(l: Lane, ending: Ending, now: int): Lane {
    var told := match ending
      case Succeeded => l.(consecutiveOrderThrottles := 0)
      case Throttled => ExtendCooldown(l, now)
      case Failed => l;
    told.(held := false, frees := l.frees + [now], endings := l.endings + [ending])
  }

  datatype LaneStep = TryAcquire(now: int) | End(ending: Ending, now: int)

  function LaneNext(l: Lane, step: LaneStep): Lane {
    match step
    case TryAcquire(now) => Acquire(l, now)
    case End(ending, now) => Finish(l, ending, now)
  }

  function LaneExec(steps: seq<LaneStep>): Lane {
    if steps == [] then Fresh() else LaneNext(LaneExec(steps[..|steps| - 1]), steps[|steps| - 1])
  }

  /** The clock never goes back, and only a request that holds the lane can end. */
  ghost predicate Plausible(steps: seq<LaneStep>) {
    && (forall i, j :: 0 <= i <= j < |steps| ==> 0 <= steps[i].now <= steps[j].now)
    && (forall i :: 0 <= i < |steps| && steps[i].End? ==> LaneExec(steps[..i]).held)
  }

  /** Throttles in a row since the last success, counted up to four. */
  function Streak(endings: seq<Ending>): nat {
    if endings == [] then 0
    else
      var before := Streak(endings[..|endings| - 1]);
      match endings[|endings| - 1]
      case Succeeded => 0
      case Throttled => if before < 4 then before + 1 else 4
      case Failed => before
  }

  /** The penalty in ms for a streak: 5, 10, 20, and from the fourth throttle on 30 s. */
  function PenaltyMs(streak: nat): nat {
    if streak == 0 then 0 else if streak == 1 then 5000 else if streak == 2 then 10000 else if streak == 3 then 20000 else 30000
  }

  lemma CooldownIs(streak: nat)
    requires streak <= 4
    ensures Cooldown(streak) == PenaltyMs(streak)
  {
    assert Pow2(1) == 2 && Pow2(2) == 4 && Pow2(3) == 8;
  }

  ghost predicate LaneInv(l: Lane, clock: int) {
    && 0 <= clock
    && l.orderCooldownUntil <= l.nextOrderRequestAt
    && l.consecutiveOrderThrottles == Streak(l.endings) <= MAX_STREAK
    && Ascending(l.starts) && Spaced(l.starts, 1, SPACING)
    && (l.starts != [] ==> l.starts[|l.starts| - 1] <= clock && l.starts[|l.starts| - 1] + SPACING <= l.nextOrderRequestAt)
  }

  /** Holds alternate: each ends before the next starts. */
  ghost predicate HoldsApart(l: Lane, clock: int) {
    && |l.starts| == |l.frees| + (if l.held then 1 else 0)
    && (forall i :: 0 <= i < |l.frees| ==> l.starts[i] <= l.frees[i] <= clock)
    && (forall i :: 0 <= i < |l.frees| && i + 1 < |l.starts| ==> l.frees[i] <= l.starts[i + 1])
  }

  /** What the throttle that ended request i costs: its streak counts the throttles since the last success, itself included. */
  function Penalty(l: Lane, i: nat): nat
    requires i < |l.endings|
  {
    Cooldown(Streak(l.endings[..i + 1]))
  }

  /** Every start after a throttled request waits for its penalty to pass; the deadline covers the starts to come. */
  ghost predicate PenaltiesServed(l: Lane) {
    && |l.endings| == |l.frees|
    && forall i :: 0 <= i < |l.endings| && l.endings[i] == Throttled ==>
         && l.frees[i] + Penalty(l, i) <= l.nextOrderRequestAt
         && forall j :: i < j < |l.starts| ==> l.starts[j] >= l.frees[i] + Penalty(l, i)
  }

  /** The deadline is no later than it has to be: it is set by the last start, or by the penalty of some throttled request. */
  ghost predicate DeadlineEarned(l: Lane) {
    || l.nextOrderRequestAt == 0
    || (l.starts != [] && l.nextOrderRequestAt == l.starts[|l.starts| - 1] + SPACING)
    || exists i :: 0 <= i < |l.endings| && i < |l.frees| && l.endings[i] == Throttled && l.nextOrderRequestAt == l.frees[i] + Penalty(l, i)
  }

  /** The one deadline decides: a free lane is granted exactly from nextOrderRequestAt on. */
  lemma GrantedIff(l: Lane, clock: int, now: int)
    requires LaneInv(l, clock)
    ensures Refused(l, now).None? <==> !l.held && l.nextOrderRequestAt <= now
    ensures Refused(l, now).Some? ==> Acquire(l, now) == l
  {
  }

  lemma DeadlinesStep(l: Lane, clock: int, step: LaneStep)
    requires LaneInv(l, clock)
    ensures LaneNext(l, step).nextOrderRequestAt >= l.nextOrderRequestAt
    ensures LaneNext(l, step).orderCooldownUntil >= l.orderCooldownUntil
  {
  }

  lemma AcquireSpaced(l: Lane, clock: int, now: int)
    requires LaneInv(l, clock) && clock <= now
    ensures LaneInv(Acquire(l, now), now)
  {
    hide Streak;
    if Refused(l, now).None? {
      StartAppended(l.starts, now);
    }
  }

  /** A start that respects the spacing after the last one extends a spaced history. */
  lemma StartAppended(starts: seq<int>, now: int)
    requires Ascending(starts) && Spaced(starts, 1, SPACING)
    requires starts != [] ==> starts[|starts| - 1] + SPACING <= now
    ensures Ascending(starts + [now]) && Spaced(starts + [now], 1, SPACING)
  {
  }

  lemma AcquireApart(l: Lane, clock: int, now: int)
    requires HoldsApart(l, clock) && clock <= now
    ensures HoldsApart(Acquire(l, now), now)
  {
  }

  lemma AcquireServed(l: Lane, now: int)
    requires PenaltiesServed(l)
    ensures PenaltiesServed(Acquire(l, now))
  {
    hide Cooldown;
  }

  lemma EndingAppended(endings: seq<Ending>, ending: Ending)
    ensures Streak(endings + [ending]) ==
      match ending
      case Succeeded => 0
      case Throttled => if Streak(endings) < MAX_STREAK then Streak(endings) + 1 else MAX_STREAK
      case Failed => Streak(endings)
  {
    assert (endings + [ending])[..|endings|] == endings;
  }

  lemma FinishSpaced(l: Lane, clock: int, ending: Ending, now: int)
    requires LaneInv(l, clock) && clock <= now
    ensures LaneInv(Finish(l, ending, now), now)
  {
    EndingAppended(l.endings, ending);
    hide Streak, Cooldown, Ascending, Spaced;
  }

  lemma FinishApart(l: Lane, clock: int, ending: Ending, now: int)
    requires LaneInv(l, clock) && HoldsApart(l, clock) && clock <= now && l.held
    ensures HoldsApart(Finish(l, ending, now), now)
  {
    hide Cooldown, Streak, Spaced;
    assert l.starts[|l.starts| - 1] <= now;
  }

  lemma FinishServed(l: Lane, clock: int, ending: Ending, now: int)
    requires LaneInv(l, clock) && HoldsApart(l, clock) && PenaltiesServed(l) && l.held
    ensures PenaltiesServed(Finish(l, ending, now))
  {
    var t := Finish(l, ending, now);
    FinishMoves(l, clock, ending, now);
    hide LaneInv, Finish, Penalty;
    forall i | 0 <= i < |l.endings|
      ensures Penalty(t, i) == Penalty(l, i)
    {
      PenaltyKept(l, t, ending, i);
    }
  }

  lemma PenaltyKept(l: Lane, t: Lane, ending: Ending, i: nat)
    requires t.endings == l.endings + [ending] && i < |l.endings|
    ensures Penalty(t, i) == Penalty(l, i)
  {
    hide Streak, Cooldown;
    assert t.endings[..i + 1] == l.endings[..i + 1];
  }

  /** What an ending changes that matters to the penalties: its own is covered by the new deadline. */
  lemma FinishMoves(l: Lane, clock: int, ending: Ending, now: int)
    requires LaneInv(l, clock)
    ensures var t := Finish(l, ending, now);
      && t.starts == l.starts && t.frees == l.frees + [now] && t.endings == l.endings + [ending]
      && t.nextOrderRequestAt >= l.nextOrderRequestAt
      && (ending == Throttled ==> now + Penalty(t, |l.endings|) <= t.nextOrderRequestAt)
  {
    hide Streak, Cooldown, Ascending, Spaced;
    EndingAppended(l.endings, ending);
    var t := Finish(l, ending, now);
    assert t.endings[..|l.endings| + 1] == l.endings + [ending];
  }

  lemma AcquireEarned(l: Lane, now: int)
    requires DeadlineEarned(l)
    ensures DeadlineEarned(Acquire(l, now))
  {
    if Refused(l, now).None? {
      assert Acquire(l, now).nextOrderRequestAt == now + SPACING;
    }
    hide Penalty;
  }

  lemma FinishEarned(l: Lane, clock: int, ending: Ending, now: int)
    requires LaneInv(l, clock) && PenaltiesServed(l) && DeadlineEarned(l)
    ensures DeadlineEarned(Finish(l, ending, now))
  {
    var t := Finish(l, ending, now);
    var n := |l.endings|;
    FinishMoves(l, clock, ending, now);
    FinishDeadline(l, clock, ending, now);
    hide LaneInv, Finish, Penalty;
    if t.nextOrderRequestAt != l.nextOrderRequestAt {
      assert t.endings[n] == Throttled && t.nextOrderRequestAt == t.frees[n] + Penalty(t, n);
    } else if i :| 0 <= i < n && l.endings[i] == Throttled && l.nextOrderRequestAt == l.frees[i] + Penalty(l, i) {
      PenaltyKept(l, t, ending, i);
      assert t.endings[i] == Throttled && t.nextOrderRequestAt == t.frees[i] + Penalty(t, i);
    }
  }

  lemma FinishDeadline(l: Lane, clock: int, ending: Ending, now: int)
    requires LaneInv(l, clock)
    ensures var t := Finish(l, ending, now);
      t.nextOrderRequestAt == l.nextOrderRequestAt || (ending == Throttled && t.nextOrderRequestAt == now + Penalty(t, |l.endings|))
  {
    hide Streak, Cooldown, Ascending, Spaced;
    EndingAppended(l.endings, ending);
    var t := Finish(l, ending, now);
    assert t.endings[..|l.endings| + 1] == l.endings + [ending];
  }

  function ClockOf(steps: seq<LaneStep>): int {
    if steps == [] then 0 else steps[|steps| - 1].now
  }

  lemma FrontPlausible(steps: seq<LaneStep>)
    requires Plausible(steps) && steps != []
    ensures var k := |steps| - 1;
      && Plausible(steps[..k]) && 0 <= ClockOf(steps[..k]) <= steps[k].now
      && (steps[k].End? ==> LaneExec(steps[..k]).held)
  {
    hide LaneExec;
    var k := |steps| - 1;
    var front := steps[..k];
    assert forall i :: 0 <= i < k ==> front[i] == steps[i] && front[..i] == steps[..i];
  }

  lemma FreshHolds()
    ensures LaneInv(Fresh(), 0) && HoldsApart(Fresh(), 0) && PenaltiesServed(Fresh()) && DeadlineEarned(Fresh())
  {
    hide LaneInv, HoldsApart, PenaltiesServed;
    UnusedHolds(Fresh());
    UnusedServed(Fresh());
    hide Penalty;
  }

  lemma UnusedHolds(l: Lane)
    requires l.starts == [] && l.frees == [] && l.endings == [] && !l.held
    requires l.orderCooldownUntil == l.nextOrderRequestAt == l.consecutiveOrderThrottles == 0
    ensures LaneInv(l, 0) && HoldsApart(l, 0)
  {
  }

  lemma UnusedServed(l: Lane)
    requires l.frees == [] && l.endings == []
    ensures PenaltiesServed(l)
  {
    hide Penalty;
  }

  lemma {:induction false} LaneAlways(steps: seq<LaneStep>)
    requires Plausible(steps)
    ensures var l, c := LaneExec(steps), ClockOf(steps);
      LaneInv(l, c) && HoldsApart(l, c) && PenaltiesServed(l) && DeadlineEarned(l)
  {
    hide Plausible, LaneInv, HoldsApart, PenaltiesServed, DeadlineEarned, LaneNext, Fresh;
    if steps == [] {
      FreshHolds();
    } else {
      var k := |steps| - 1;
      FrontPlausible(steps);
      LaneAlways(steps[..k]);
      StepKeeps(LaneExec(steps[..k]), ClockOf(steps[..k]), steps[k]);
    }
  }

  lemma StepKeeps(l: Lane, clock: int, step: LaneStep)
    requires LaneInv(l, clock) && HoldsApart(l, clock) && PenaltiesServed(l) && DeadlineEarned(l) && clock <= step.now
    requires step.End? ==> l.held
    ensures var t := LaneNext(l, step); LaneInv(t, step.now) && HoldsApart(t, step.now) && PenaltiesServed(t) && DeadlineEarned(t)
  {
    hide LaneInv, HoldsApart, PenaltiesServed, DeadlineEarned, Acquire, Finish;
    match step
    case TryAcquire(now) =>
      AcquireSpaced(l, clock, now);
      AcquireApart(l, clock, now);
      AcquireServed(l, now);
      AcquireEarned(l, now);
    case End(ending, now) =>
      FinishSpaced(l, clock, ending, now);
      FinishApart(l, clock, ending, now);
      FinishServed(l, clock, ending, now);
      FinishEarned(l, clock, ending, now);
  }

  /** Each hold ends before the next start; at most the last one is still going on. */
  ghost predicate HoldsInTurn(l: Lane) {
    && |l.frees| <= |l.starts| <= |l.frees| + 1
    && (forall i :: 0 <= i < |l.frees| ==> l.starts[i] <= l.frees[i])
    && (forall i :: 0 <= i < |l.frees| && i + 1 < |l.starts| ==> l.frees[i] <= l.starts[i + 1])
  }

  ghost predicate StartsApart(l: Lane) {
    forall i :: 0 <= i && i + 1 < |l.starts| ==> l.starts[i + 1] - l.starts[i] >= 1250
  }

  /** After request i ended throttled, every later start waited for its penalty. */
  ghost predicate PenaltiesWaited(l: Lane)
    requires |l.frees| == |l.endings|
  {
    forall i, j :: 0 <= i < |l.endings| && l.endings[i] == Throttled && i < j < |l.starts| ==>
      l.starts[j] >= l.frees[i] + PenaltyMs(Streak(l.endings[..i + 1]))
  }

  /** Every penalty of a throttled request has passed at the given time. */
  ghost predicate PenaltiesOver(l: Lane, now: int)
    requires |l.frees| == |l.endings|
  {
    forall i :: 0 <= i < |l.endings| && l.endings[i] == Throttled ==> now >= l.frees[i] + PenaltyMs(Streak(l.endings[..i + 1]))
  }

  /**
   Over every history of attempts by any number of callers: the holds of the lane do
   not overlap, starts are at least 1250 ms apart (so a window of length w sees at most
   w / 1250 + 1 of them), and after a request that ended throttled no request starts for
   5, 10, 20 or 30 seconds, by the throttles since the last success. And no caller waits
   longer: the next attempt is granted exactly when the lane is free, 1250 ms have passed
   since the last start, and every such penalty is over.
   */
  lemma LaneHistory(steps: seq<LaneStep>, a: int, w: nat, now: int)
    requires Plausible(steps) && ClockOf(steps) <= now
    ensures var l := LaneExec(steps);
      && |l.frees| == |l.endings| && HoldsInTurn(l) && StartsApart(l) && PenaltiesWaited(l)
      && CountIn(l.starts, a, a + w) <= w / 1250 + 1
      && l.consecutiveOrderThrottles == Streak(l.endings)
      && (Refused(l, now).None? <==>
            !l.held && (l.starts != [] ==> now >= l.starts[|l.starts| - 1] + 1250) && PenaltiesOver(l, now))
      && (Refused(l, now).Some? ==> Acquire(l, now) == l)
  {
    hide *;
    var l := LaneExec(steps);
    LaneAlways(steps);
    GrantedIff(l, ClockOf(steps), now);
    StartsSpaced(l, ClockOf(steps));
    Holds(l, ClockOf(steps));
    StartsCounted(l.starts, a, w);
    PenaltiesInMs(l);
    DeadlineOver(l, ClockOf(steps), now);
  }

  lemma StartsCounted(starts: seq<int>, a: int, w: nat)
    requires Ascending(starts) && Spaced(starts, 1, SPACING)
    ensures CountIn(starts, a, a + w) <= w / 1250 + 1
  {
    hide Ascending, Spaced, CountIn;
    WindowBound(starts, 1, SPACING, a, w);
  }

  ghost predicate InMs(l: Lane) {
    forall i :: 0 <= i < |l.endings| ==> Penalty(l, i) == PenaltyMs(Streak(l.endings[..i + 1]))
  }

  lemma PenaltiesInMs(l: Lane)
    requires PenaltiesServed(l)
    ensures |l.endings| == |l.frees|
    ensures InMs(l) && PenaltiesWaited(l)
  {
    PenaltiesKept(l);
    hide Penalty, PenaltyMs, Streak, PenaltiesServed;
    forall i | 0 <= i < |l.endings|
      ensures Penalty(l, i) == PenaltyMs(Streak(l.endings[..i + 1]))
    {
      PenaltyIs(l, i);
    }
  }

  lemma PenaltyIs(l: Lane, i: nat)
    requires i < |l.endings|
    ensures Penalty(l, i) == PenaltyMs(Streak(l.endings[..i + 1]))
  {
    StreakCapped(l.endings[..i + 1]);
    CooldownIs(Streak(l.endings[..i + 1]));
    hide Cooldown, PenaltyMs, Streak;
  }

  lemma StreakCapped(endings: seq<Ending>)
    ensures Streak(endings) <= 4
  {
  }

  lemma StartsSpaced(l: Lane, clock: int)
    requires LaneInv(l, clock)
    ensures Ascending(l.starts) && Spaced(l.starts, 1, SPACING) && l.consecutiveOrderThrottles == Streak(l.endings)
    ensures StartsApart(l)
    ensures 0 <= clock && (l.starts != [] ==> l.starts[|l.starts| - 1] + 1250 <= l.nextOrderRequestAt)
  {
    hide Streak;
  }

  lemma Holds(l: Lane, clock: int)
    requires HoldsApart(l, clock)
    ensures HoldsInTurn(l)
  {
  }

  lemma PenaltiesKept(l: Lane)
    requires PenaltiesServed(l)
    ensures |l.endings| == |l.frees|
    ensures forall i, j :: 0 <= i < |l.endings| && l.endings[i] == Throttled && i < j < |l.starts| ==> l.starts[j] >= l.frees[i] + Penalty(l, i)
    ensures forall i :: 0 <= i < |l.endings| && l.endings[i] == Throttled ==> l.frees[i] + Penalty(l, i) <= l.nextOrderRequestAt
  {
    hide Penalty;
  }

  /** The one deadline stands for the spacing and for all penalties together. */
  lemma DeadlineOver(l: Lane, clock: int, now: int)
    requires LaneInv(l, clock) && PenaltiesServed(l) && DeadlineEarned(l) && 0 <= clock <= now
    requires InMs(l)
    ensures |l.frees| == |l.endings|
    ensures l.nextOrderRequestAt <= now <==> (l.starts != [] ==> now >= l.starts[|l.starts| - 1] + 1250) && PenaltiesOver(l, now)
  {
    StartsSpaced(l, clock);
    PenaltiesKept(l);
    hide Penalty, PenaltyMs, Streak, LaneInv, PenaltiesServed;
  }

  /** Over any history both deadlines only grow. */
  lemma {:induction false} DeadlinesGrow(steps: seq<LaneStep>, k: nat)
    requires Plausible(steps) && k <= |steps|
    ensures LaneExec(steps[..k]).nextOrderRequestAt <= LaneExec(steps).nextOrderRequestAt
    ensures LaneExec(steps[..k]).orderCooldownUntil <= LaneExec(steps).orderCooldownUntil
  {
    hide Plausible, LaneNext;
    if k == |steps| {
      assert steps[..k] == steps;
    } else {
      var n := |steps| - 1;
      FrontPlausible(steps);
      DeadlinesGrow(steps[..n], k);
      assert steps[..n][..k] == steps[..k];
      LaneAlways(steps[..n]);
      DeadlinesStep(LaneExec(steps[..n]), ClockOf(steps[..n]), steps[n]);
    }
  }

  /** The lane's own fields; the history is ghost. */
  class SharedLane {
    var held: bool
    var nextOrderRequestAt: int
    var orderCooldownUntil: int
    var consecutiveOrderThrottles: nat
    ghost var starts: seq<int>
    ghost var frees: seq<int>
    ghost var endings: seq<Ending>

    ghost function Abs(): Lane
      reads this
    {
      Lane(held, nextOrderRequestAt, orderCooldownUntil, consecutiveOrderThrottles, starts, frees, endings)
    }

    constructor ()
      ensures Abs() == Fresh()
    {
      held, nextOrderRequestAt, orderCooldownUntil, consecutiveOrderThrottles := false, 0, 0, 0;
      starts, frees, endings := [], [], [];
    }

    /** try_lock, then the two deadlines; a refusal gives the lock back. */
    method TryAcquireLane(now: int) returns (refusal: Option<Refusal>)
      modifies this
      ensures refusal == Refused(old(Abs()), now)
      ensures refusal == Some(Busy) <==> old(held)
      ensures refusal == Some(Cooling) <==> !old(held) && now < old(orderCooldownUntil)
      ensures refusal == Some(Pacing) <==> !old(held) && old(orderCooldownUntil) <= now < old(nextOrderRequestAt)
      ensures Abs() == Acquire(old(Abs()), now)
      ensures refusal.None? ==> held && nextOrderRequestAt == now + 1250
    {
      if held {
        return Some(Busy);
      }
      if now < orderCooldownUntil {
        return Some(Cooling);
      }
      if now < nextOrderRequestAt {
        return Some(Pacing);
      }
      held := true;
      nextOrderRequestAt := now + SPACING;
      starts := starts + [now];
      refusal := None;
    }

    method ExtendCooldownAfterThrottle(now: int)
      modifies this
      ensures Abs() == ExtendCooldown(old(Abs()), now)
      ensures consecutiveOrderThrottles == (if old(consecutiveOrderThrottles) < 4 then old(consecutiveOrderThrottles) + 1 else 4)
      ensures nextOrderRequestAt == Max(old(nextOrderRequestAt), now + PenaltyMs(consecutiveOrderThrottles))
      ensures orderCooldownUntil == Max(old(orderCooldownUntil), now + PenaltyMs(consecutiveOrderThrottles))
    {
      consecutiveOrderThrottles := Min(consecutiveOrderThrottles + 1, MAX_STREAK);
      CooldownIs(consecutiveOrderThrottles);
      var seconds := 5;
      var shift := consecutiveOrderThrottles - 1;
      for i := 0 to shift
        invariant seconds == 5 * Pow2(i)
      {
        seconds := 2 * seconds;
      }
      var until := now + Min(seconds, 30) * 1000;
      orderCooldownUntil := Max(orderCooldownUntil, until);
      nextOrderRequestAt := Max(nextOrderRequestAt, until);
    }

    /** The caller reports how the request ended and releases the lane. */
    method EndRequest(ending: Ending, now: int)
      modifies this
      ensures Abs() == Finish(old(Abs()), ending, now)
    {
      if ending.Succeeded? {
        consecutiveOrderThrottles := 0;
      } else if ending.Throttled? {
        ExtendCooldownAfterThrottle(now);
      }
      held := false;
      frees := frees + [now];
      endings := endings + [ending];
    }
  }
}
