/**
 The process-wide limiter of the futures REST client: at most six requests per sliding
 second, kept as a pruned queue. One poll is one pass of the locked section; between two
 polls of a waiter the lock is free and other waiters poll. Times in ms.
 */
module RateLimiter {
  import opened Common
  import opened Spacing

  const LOCAL_LIMIT: nat := 6
  const WINDOW_MS: nat := 1000

  /** The queue the code keeps, and every grant there ever was. */
  datatype Window = Window(requestTimes: seq<int>, history: seq<int>)

  function Prune(q: seq<int>, now: int): seq<int> {
    if q != [] && now - q[0] > WINDOW_MS then Prune(q[1..], now) else q
  }

  function Granted(w: Window, now: int): bool {
    |Prune(w.requestTimes, now)| < LOCAL_LIMIT
  }

  function Poll(w: Window, now: int): Window {
    var q := Prune(w.requestTimes, now);
    if |q| < LOCAL_LIMIT then Window(q + [now], w.history + [now]) else Window(q, w.history)
  }

  /** How long a refused waiter sleeps. */
  function SleepMs(w: Window, now: int): int
    requires !Granted(w, now)
  {
    Max(Prune(w.requestTimes, now)[0] + WINDOW_MS - now + 10, 1)
  }

  /** Reference definition: the grants of the whole history that are at most a second old. */
  function Recent(history: seq<int>, now: int): seq<int> {
    if history == [] then []
    else
      var last := history[|history| - 1];
      Recent(history[..|history| - 1], now) + (if now - last <= 1000 then [last] else [])
  }

  ghost predicate Inv(w: Window, clock: int) {
    && Ascending(w.history) && Spaced(w.history, LOCAL_LIMIT, WINDOW_MS + 1)
    && (w.history != [] ==> w.history[|w.history| - 1] <= clock)
    && |w.requestTimes| <= |w.history| && |w.requestTimes| <= LOCAL_LIMIT
    && var k := |w.history| - |w.requestTimes|;
       && w.requestTimes == w.history[k..]
       && (k > 0 ==> clock - w.history[k - 1] > WINDOW_MS)
  }

  /** Pruning a suffix of an ascending history leaves a suffix, cut exactly where the window begins. */
  lemma {:induction false} PruneCuts(h: seq<int>, k: nat, now: int) returns (k': nat)
    requires Ascending(h) && k <= |h| && (k > 0 ==> now - h[k - 1] > WINDOW_MS)
    ensures k <= k' <= |h| && Prune(h[k..], now) == h[k'..]
    ensures k' > 0 ==> now - h[k' - 1] > WINDOW_MS
    ensures k' < |h| ==> now - h[k'] <= WINDOW_MS
    decreases |h| - k
  {
    k' := k;
    if k < |h| && now - h[k] > WINDOW_MS {
      assert h[k..][1..] == h[k + 1..];
      k' := PruneCuts(h, k + 1, now);
    }
  }

  lemma {:induction false} NothingRecent(h: seq<int>, now: int)
    requires Ascending(h) && (h != [] ==> now - h[|h| - 1] > WINDOW_MS)
    ensures Recent(h, now) == []
  {
    if h != [] {
      var n := |h| - 1;
      assert n > 0 ==> h[n - 1] <= h[n];
      NothingRecent(h[..n], now);
    }
  }

  lemma {:induction false} RecentIsSuffix(h: seq<int>, k: nat, now: int)
    requires Ascending(h) && k <= |h|
    requires k > 0 ==> now - h[k - 1] > WINDOW_MS
    requires k < |h| ==> now - h[k] <= WINDOW_MS
    ensures Recent(h, now) == h[k..]
  {
    if k == |h| {
      NothingRecent(h, now);
    } else {
      var n := |h| - 1;
      var front := h[..n];
      assert h[k] <= h[n];
      RecentIsSuffix(front, k, now);
      assert h[k..] == front[k..] + [h[n]];
    }
  }

  /** The pruned queue is the reference window. */
  lemma PruneIsRecent(w: Window, clock: int, now: int)
    requires Inv(w, clock) && clock <= now
    ensures Prune(w.requestTimes, now) == Recent(w.history, now)
  {
    var k' := PruneCuts(w.history, |w.history| - |w.requestTimes|, now);
    RecentIsSuffix(w.history, k', now);
  }

  /** A grant made when fewer than six are recent is over a second after the sixth grant before it. */
  lemma GrantSpaced(h: seq<int>, k: nat, now: int)
    requires Ascending(h) && Spaced(h, LOCAL_LIMIT, WINDOW_MS + 1) && (h != [] ==> h[|h| - 1] <= now)
    requires k <= |h| < k + LOCAL_LIMIT && (k > 0 ==> now - h[k - 1] > WINDOW_MS)
    ensures Ascending(h + [now]) && Spaced(h + [now], LOCAL_LIMIT, WINDOW_MS + 1)
  {
    var t := h + [now];
    forall i | 0 <= i && i + LOCAL_LIMIT < |t|
      ensures t[i + LOCAL_LIMIT] - t[i] >= WINDOW_MS + 1
    {
      if i + LOCAL_LIMIT == |h| {
        assert i < k;
        assert h[i] <= h[k - 1];
      }
    }
  }

  /** The invariant, with the cut named. */
  ghost predicate CutAt(w: Window, clock: int, k: nat) {
    && k <= |w.history| && w.requestTimes == w.history[k..] && |w.history| - k <= LOCAL_LIMIT
    && (k > 0 ==> clock - w.history[k - 1] > WINDOW_MS)
  }

  lemma InvFromCut(w: Window, clock: int, k: nat)
    requires Ascending(w.history) && Spaced(w.history, LOCAL_LIMIT, WINDOW_MS + 1)
    requires w.history != [] ==> w.history[|w.history| - 1] <= clock
    requires CutAt(w, clock, k)
    ensures Inv(w, clock)
  {
    hide Ascending, Spaced;
  }

  lemma PollKeeps(w: Window, clock: int, now: int)
    requires Inv(w, clock) && clock <= now
    ensures Inv(Poll(w, now), now)
  {
    var k' := PruneCuts(w.history, |w.history| - |w.requestTimes|, now);
    if Granted(w, now) {
      GrantKeeps(w, now, k');
    } else {
      hide Ascending, Spaced, Prune;
      InvFromCut(Poll(w, now), now, k');
    }
  }

  lemma GrantKeeps(w: Window, now: int, k: nat)
    requires Ascending(w.history) && Spaced(w.history, LOCAL_LIMIT, WINDOW_MS + 1)
    requires w.history != [] ==> w.history[|w.history| - 1] <= now
    requires k <= |w.history| && Prune(w.requestTimes, now) == w.history[k..] && Granted(w, now)
    requires k > 0 ==> now - w.history[k - 1] > WINDOW_MS
    ensures Inv(Poll(w, now), now)
  {
    var h := w.history;
    GrantSpaced(h, k, now);
    GrantedSuffix(h, k, now);
    hide Ascending, Spaced, Prune, Inv;
    InvFromCut(Poll(w, now), now, k);
  }

  lemma GrantedSuffix(h: seq<int>, k: nat, now: int)
    requires k <= |h|
    ensures (h + [now])[k..] == h[k..] + [now]
    ensures k > 0 ==> (h + [now])[k - 1] == h[k - 1]
  {
  }

  // ---- every interleaving of waiters ----

  function AfterPolls(polls: seq<int>): Window {
    if polls == [] then Window([], []) else Poll(AfterPolls(polls[..|polls| - 1]), polls[|polls| - 1])
  }

  function ClockAfter(polls: seq<int>): int {
    if polls == [] then 0 else polls[|polls| - 1]
  }

  lemma {:induction false} PollsKeepInv(polls: seq<int>)
    requires Ascending(polls)
    ensures Inv(AfterPolls(polls), ClockAfter(polls))
  {
    if polls != [] {
      var n := |polls| - 1;
      PollsKeepInv(polls[..n]);
      if n > 0 {
        assert polls[n - 1] <= polls[n];
        PollKeeps(AfterPolls(polls[..n]), ClockAfter(polls[..n]), polls[n]);
      } else {
        assert AfterPolls(polls[..n]) == Window([], []);
        PollKeeps(Window([], []), polls[n], polls[n]);
      }
    }
  }

  /**
   With any number of waiters polling on a clock that never goes back, the pruned queue
   is exactly the grants of the whole history aged at most a second; any closed window
   of a second holds at most six grants, and any closed window of length w at most
   6 * (w / 1001 + 1).
   */
  lemma WindowRefinesHistory(polls: seq<int>, now: int, a: int, w: nat)
    requires Ascending(polls) && (polls != [] ==> ClockAfter(polls) <= now)
    ensures Prune(AfterPolls(polls).requestTimes, now) == Recent(AfterPolls(polls).history, now)
    ensures Granted(AfterPolls(polls), now) <==> |Recent(AfterPolls(polls).history, now)| < 6
    ensures CountIn(AfterPolls(polls).history, a, a + 1000) <= 6
    ensures CountIn(AfterPolls(polls).history, a, a + w) <= 6 * (w / 1001 + 1)
  {
    PollsKeepInv(polls);
    var v := AfterPolls(polls);
    hide AfterPolls, Poll;
    if polls != [] {
      PruneIsRecent(v, ClockAfter(polls), now);
    } else {
      EmptyWindow(now);
    }
    hide Prune, Recent, CountIn, Ascending, Spaced;
    AtMostSix(v.history, a);
    WindowBound(v.history, LOCAL_LIMIT, WINDOW_MS + 1, a, w);
  }

  lemma AtMostSix(h: seq<int>, a: int)
    requires Ascending(h) && Spaced(h, LOCAL_LIMIT, WINDOW_MS + 1)
    ensures CountIn(h, a, a + WINDOW_MS) <= LOCAL_LIMIT
  {
    hide Ascending, Spaced, CountIn;
    TooManyDoNotFit(h, LOCAL_LIMIT, WINDOW_MS + 1, a, WINDOW_MS, 1);
  }

  lemma EmptyWindow(now: int)
    ensures Prune(AfterPolls([]).requestTimes, now) == Recent(AfterPolls([]).history, now)
  {
  }

  /**
   A waiter that polls again after its sleep is granted unless someone else was granted
   in between, however often others polled meanwhile. Alone, it sleeps at most once. And it
   does not oversleep: up to 10 ms before the end of its sleep it would still be refused.
   */
  lemma GrantedUnlessOvertaken(w: Window, clock: int, now: int, later: Window, laterClock: int, again: int)
    requires Inv(w, clock) && clock <= now && !Granted(w, now)
    requires Inv(later, laterClock) && laterClock <= again && later.history == w.history
    ensures 1 <= SleepMs(w, now) <= 1010
    ensures again >= now + SleepMs(w, now) ==> Granted(later, again)
    ensures again <= now + SleepMs(w, now) - 10 ==> !Granted(later, again)
  {
    hide AfterPolls, Poll, Granted, Prune, SleepMs, Recent, Inv, Ascending, Spaced;
    var h := w.history;
    var k := CutFor(w, clock, now);
    var k' := CutFor(later, laterClock, again);
    FullFrom(w, now, h[k..]);
    RoomFrom(later, again, h[k'..]);
    Chronological(w, clock);
    SleepsAWhile(w, now);
    if again >= now + SleepMs(w, now) {
      CutIsLater(h, k, k', again);
    } else if again <= now + SleepMs(w, now) - 10 {
      CutIsNoLater(h, k, k', again);
    }
  }

  /** Where the pruned queue begins in the history. */
  lemma CutFor(w: Window, clock: int, now: int) returns (k: nat)
    requires Inv(w, clock) && clock <= now
    ensures k <= |w.history| <= k + LOCAL_LIMIT && Prune(w.requestTimes, now) == w.history[k..]
    ensures k < |w.history| ==> now - w.history[k] <= WINDOW_MS
    ensures k > 0 ==> now - w.history[k - 1] > WINDOW_MS
  {
    k := PruneCuts(w.history, |w.history| - |w.requestTimes|, now);
  }

  lemma Chronological(w: Window, clock: int)
    requires Inv(w, clock)
    ensures Ascending(w.history) && forall i :: 0 <= i < |w.history| ==> w.history[i] <= clock
  {
  }

  /** A refusal means six grants in the window, and the sleep lasts until the first of them has left it. */
  lemma FullFrom(w: Window, now: int, q: seq<int>)
    requires !Granted(w, now) && Prune(w.requestTimes, now) == q
    ensures |q| >= LOCAL_LIMIT && now + SleepMs(w, now) - q[0] > WINDOW_MS
    ensures now - 1000 <= q[0] <= now ==> now + SleepMs(w, now) - 10 - q[0] == 1000 && SleepMs(w, now) <= 1010
  {
    hide Prune;
  }

  lemma RoomFrom(w: Window, now: int, q: seq<int>)
    requires Prune(w.requestTimes, now) == q
    ensures |q| < LOCAL_LIMIT <==> Granted(w, now)
  {
    hide Prune;
  }

  lemma CutIsLater(h: seq<int>, k: nat, k': nat, now: int)
    requires Ascending(h) && k < |h| && k' <= |h|
    requires now - h[k] > WINDOW_MS
    requires k' < |h| ==> now - h[k'] <= WINDOW_MS
    ensures k < k'
  {
  }

  lemma CutIsNoLater(h: seq<int>, k: nat, k': nat, now: int)
    requires Ascending(h) && k < |h| && k' <= |h|
    requires now - h[k] <= WINDOW_MS
    requires k' > 0 ==> now - h[k' - 1] > WINDOW_MS
    ensures k' <= k
  {
  }

  lemma PollRecords(w: Window, now: int)
    ensures Poll(w, now).history == w.history + (if Granted(w, now) then [now] else [])
  {
  }

  lemma SleepsAWhile(w: Window, now: int)
    requires !Granted(w, now)
    ensures SleepMs(w, now) >= 1
  {
    hide Prune;
  }

  /** The limiter object: the queue it keeps, and the full history as a ghost. */
  class Limiter {
    var requestTimes: seq<int>
    ghost var history: seq<int>

    ghost function Abs(): Window
      reads this
    {
      Window(requestTimes, history)
    }

    constructor ()
      ensures Abs() == Window([], [])
    {
      requestTimes, history := [], [];
    }

    /** One pass of the locked section. */
    method TryGrant(now: int) returns (granted: bool, sleepMs: int)
      modifies this
      ensures granted == Granted(old(Abs()), now)
      ensures Abs() == Poll(old(Abs()), now)
      ensures !granted ==> sleepMs == SleepMs(old(Abs()), now)
    {
      while requestTimes != [] && now - requestTimes[0] > WINDOW_MS
        invariant history == old(history)
        invariant Prune(requestTimes, now) == Prune(old(requestTimes), now)
        decreases |requestTimes|
      {
        requestTimes := requestTimes[1..];
      }
      if |requestTimes| < LOCAL_LIMIT {
        requestTimes := requestTimes + [now];
        history := history + [now];
        return true, 0;
      }
      return false, Max(requestTimes[0] + WINDOW_MS - now + 10, 1);
    }

    /** wait() with no one else about: a sleep may last longer than asked for. */
    method WaitAlone(first: int, oversleep: nat, ghost clock: int) returns (sleeps: nat, grantedAt: int)
      requires Inv(Abs(), clock) && clock <= first
      modifies this
      ensures sleeps <= 1 && first <= grantedAt
      ensures history == old(history) + [grantedAt]
      ensures Inv(Abs(), grantedAt)
    {
      hide Inv, Poll, Granted, Prune, SleepMs;
      ghost var w := Abs();
      PollKeeps(w, clock, first);
      PollRecords(w, first);
      sleeps, grantedAt := 0, first;
      var granted, sleepMs := TryGrant(first);
      while !granted
        invariant Inv(Abs(), grantedAt) && first <= grantedAt
        invariant granted ==> history == old(history) + [grantedAt] && sleeps <= 1
        invariant !granted ==>
          sleeps == 0 && history == old(history) && grantedAt == first && !Granted(w, first) && sleepMs == SleepMs(w, first)
        decreases !granted
      {
        ghost var v := Abs();
        SleepsAWhile(w, first);
        grantedAt := first + sleepMs + oversleep;
        sleeps := sleeps + 1;
        GrantedUnlessOvertaken(w, clock, first, v, first, grantedAt);
        PollKeeps(v, first, grantedAt);
        PollRecords(v, grantedAt);
        granted, sleepMs := TryGrant(grantedAt);
      }
    }
  }
}
