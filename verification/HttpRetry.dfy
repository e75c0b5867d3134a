/**
 The HTTP session's one choke point: keep-alive pool, and the retry ladder that re-sends
 only what provably did not execute, with one exception for a GET on a reused connection.
 */
module HttpRetry {
  import opened Common

  const MAX_RETRIES: nat := 4
  const MAX_CONN_IDLE_MS: int := 25000
  const MAX_POOL_SIZE: nat := 4

  datatype Verb = Get | Post

  datatype Conn = Conn(id: int, lastUsed: int)

  // ---- the pool of idle connections ----

  /** The most recently returned connection that is not too old; older ones found on the way are dropped. */
  function Take(pool: seq<Conn>, now: int): (Option<Conn>, seq<Conn>) {
    if pool == [] then (None, [])
    else
      var last, rest := pool[|pool| - 1], pool[..|pool| - 1];
      if now - last.lastUsed <= MAX_CONN_IDLE_MS then (Some(last), rest) else Take(rest, now)
  }

  function GiveBack(pool: seq<Conn>, conn: Conn, now: int): seq<Conn> {
    if |pool| < MAX_POOL_SIZE then pool + [conn.(lastUsed := now)] else pool
  }

  /**
   A connection is handed out exactly when the pool has one idle for at most 25 s; it is
   the last such, everything returned after it had aged out, and everything before stays.
   */
  lemma {:induction false} TakeFindsLastFresh(pool: seq<Conn>, now: int)
    ensures var (conn, rest) := Take(pool, now);
      && rest <= pool
      && (conn.None? <==> forall c :: c in pool ==> now - c.lastUsed > MAX_CONN_IDLE_MS)
      && (conn.None? ==> rest == [])
      && (conn.Some? ==>
            && now - conn.value.lastUsed <= MAX_CONN_IDLE_MS
            && |rest| < |pool| && pool[|rest|] == conn.value
            && forall j :: |rest| < j < |pool| ==> now - pool[j].lastUsed > MAX_CONN_IDLE_MS)
  {
    if pool != [] {
      var n := |pool| - 1;
      TakeFindsLastFresh(pool[..n], now);
      assert pool == pool[..n] + [pool[n]];
    }
  }

  /** A connection given back to a pool with room is the next one handed out, for 25 s, and the pool is then as before. */
  lemma GivenBackIsNext(pool: seq<Conn>, conn: Conn, returnedAt: int, now: int)
    ensures |GiveBack(pool, conn, returnedAt)| <= Max(|pool|, 4)
    ensures |pool| < 4 && now - returnedAt <= 25000 ==>
              Take(GiveBack(pool, conn, returnedAt), now) == (Some(Conn(conn.id, returnedAt)), pool)
  {
    if |pool| < MAX_POOL_SIZE {
      assert GiveBack(pool, conn, returnedAt)[..|pool|] == pool;
    }
  }

  // ---- one attempt ----

  /** What the network and the venue do with an attempt; executed says whether the venue acted on it. */
  datatype Wire =
    | ConnectFails
    | LostAfterWrite(executed: bool)
    | Answered(throttled: bool, keepAlive: bool, executed: bool)

  /** An attempt meets the pool as other requests left it, at the times given. */
  datatype Attempt = Attempt(pool: seq<Conn>, takenAt: int, wire: Wire, poolBack: seq<Conn>, returnedAt: int)

  predicate Pooled(a: Attempt) { Take(a.pool, a.takenAt).0.Some? }

  /** A reused connection needs no connecting, and "throttled" means the venue refused to act. */
  predicate Plausible(a: Attempt) {
    && (Pooled(a) ==> !a.wire.ConnectFails?)
    && (a.wire.Answered? && a.wire.throttled ==> !a.wire.executed)
  }

  datatype Reply = NotSent | Lost | Throttled | Answer

  /** What one attempt came to: the reply, and the signature it carried. */
  datatype Entry = Entry(reply: Reply, pooled: bool, executed: bool, signature: nat, pauseMs: nat)

  datatype Result = Response(throttled: bool) | Raised(sent: bool)

  /** The pool when the attempt is over: the connection is back in it only after an answer that keeps it alive. */
  function PoolAfter(a: Attempt): seq<Conn> {
    var (taken, rest) := Take(a.pool, a.takenAt);
    if a.wire.Answered? && a.wire.keepAlive then
      GiveBack(a.poolBack, if taken.Some? then taken.value else Conn(0, a.takenAt), a.returnedAt)
    else rest
  }

  function ReplyOf(a: Attempt): Reply {
    match a.wire
    case ConnectFails => NotSent
    case LostAfterWrite(_) => Lost
    case Answered(throttled, _, _) => if throttled then Throttled else Answer
  }

  function ExecutedBy(a: Attempt): bool {
    match a.wire
    case ConnectFails => false
    case LostAfterWrite(e) => e
    case Answered(_, _, e) => e
  }

  predicate StaleRetry(verb: Verb, a: Attempt, stale: bool) {
    ReplyOf(a) == Lost && Pooled(a) && verb == Get && !stale
  }

  function PauseAfter(verb: Verb, a: Attempt, attempt: nat, stale: bool): nat {
    if attempt >= MAX_RETRIES then 0
    else match ReplyOf(a)
      case Throttled => 700 * Pow2(attempt)
      case NotSent => 500 * Pow2(attempt)
      case _ => 0
  }

  predicate GoesOn(verb: Verb, a: Attempt, attempt: nat, stale: bool) {
    StaleRetry(verb, a, stale) || (ReplyOf(a) in {Throttled, NotSent} && attempt < MAX_RETRIES)
  }

  function ResultOf(a: Attempt): Result {
    match ReplyOf(a)
    case NotSent => Raised(false)
    case Lost => Raised(true)
    case Throttled => Response(true)
    case Answer => Response(false)
  }

  function EntryOf(verb: Verb, a: Attempt, attempt: nat, stale: bool, signature: nat): Entry {
    Entry(ReplyOf(a), Pooled(a), ExecutedBy(a), signature, PauseAfter(verb, a, attempt, stale))
  }

  /** The attempts of one call from the given one on; signature counts how often it has been signed. */
  function Ladder(verb: Verb, signed: bool, script: seq<Attempt>, attempt: nat, stale: bool, signature: nat): (seq<Entry>, Result)
    requires |script| >= 6 && attempt <= 5 && (attempt == 5 ==> stale)
    decreases 6 - attempt
  {
    var a := script[attempt];
    var entry := EntryOf(verb, a, attempt, stale, signature);
    if GoesOn(verb, a, attempt, stale) then
      var (rest, result) := Ladder(verb, signed, script, attempt + 1, stale || StaleRetry(verb, a, stale),
                                   if signed then signature + 1 else signature);
      ([entry] + rest, result)
    else ([entry], ResultOf(a))
  }

  ghost predicate PlausibleScript(script: seq<Attempt>) {
    |script| >= 6 && forall i :: 0 <= i < |script| ==> Plausible(script[i])
  }

  function Executions(log: seq<Entry>): nat {
    if log == [] then 0 else (if log[0].executed then 1 else 0) + Executions(log[1..])
  }

  function TotalPause(log: seq<Entry>): nat {
    if log == [] then 0 else log[0].pauseMs + TotalPause(log[1..])
  }

  /**
   A POST is written again only after the venue refused it: every attempt but the last
   was refused as throttled or never left. So the venue acts on it at most once, and not
   at all when the call ends in a throttle or in a failure before the write.
   */
  lemma {:induction false} PostExecutesAtMostOnce(signed: bool, script: seq<Attempt>, attempt: nat, stale: bool, signature: nat)
    requires PlausibleScript(script) && attempt <= 5 && (attempt == 5 ==> stale)
    ensures var (log, result) := Ladder(Post, signed, script, attempt, stale, signature);
      && log != []
      && (forall i :: 0 <= i < |log| - 1 ==> log[i].reply in {Throttled, NotSent})
      && Executions(log) <= 1
      && (result in {Response(true), Raised(false)} ==> Executions(log) == 0)
    decreases 6 - attempt
  {
    var a := script[attempt];
    assert Plausible(a);
    if GoesOn(Post, a, attempt, stale) {
      PostExecutesAtMostOnce(signed, script, attempt + 1, stale, if signed then signature + 1 else signature);
      var (log, result) := Ladder(Post, signed, script, attempt, stale, signature);
      assert log[1..] == Ladder(Post, signed, script, attempt + 1, stale, if signed then signature + 1 else signature).0;
      assert !log[0].executed;
    } else {
      var (log, result) := Ladder(Post, signed, script, attempt, stale, signature);
      assert log[1..] == [];
    }
  }

  /** Entries that were written and not refused. */
  function Exposed(log: seq<Entry>): nat {
    if log == [] then 0 else (if log[0].reply in {Lost, Answer} then 1 else 0) + Exposed(log[1..])
  }

  /** A GET is written again after an unanswered write at most once, and then on a reused connection. */
  lemma {:induction false} GetRepeatsOnce(signed: bool, script: seq<Attempt>, attempt: nat, stale: bool, signature: nat)
    requires |script| >= 6 && attempt <= 5 && (attempt == 5 ==> stale)
    ensures var (log, result) := Ladder(Get, signed, script, attempt, stale, signature);
      && log != []
      && Exposed(log) <= (if stale then 1 else 2)
      && (forall i :: 0 <= i < |log| - 1 ==>
            log[i].reply in {Throttled, NotSent} || (log[i].reply == Lost && log[i].pooled && !stale))
    decreases 6 - attempt
  {
    var a := script[attempt];
    var (log, result) := Ladder(Get, signed, script, attempt, stale, signature);
    if GoesOn(Get, a, attempt, stale) {
      var stale', signature' := stale || StaleRetry(Get, a, stale), if signed then signature + 1 else signature;
      GetRepeatsOnce(signed, script, attempt + 1, stale', signature');
      var rest := Ladder(Get, signed, script, attempt + 1, stale', signature').0;
      assert log[1..] == rest;
    } else {
      assert log[1..] == [];
    }
  }

  /**
   Accounting of one call: at most five attempts for a POST and six for a GET, a fresh
   signature on every attempt of a signed call, and giving up on a throttle or a failed
   connect only after at least five attempts.
   */
  lemma {:induction false} LadderAccounts(verb: Verb, signed: bool, script: seq<Attempt>, attempt: nat, stale: bool, signature: nat)
    requires |script| >= 6 && attempt <= 5 && (attempt == 5 ==> stale)
    ensures var (log, result) := Ladder(verb, signed, script, attempt, stale, signature);
      && 1 <= |log| <= 6 - attempt
      && (verb == Post && attempt <= MAX_RETRIES ==> |log| <= 5 - attempt)
      && (signed ==> forall i :: 0 <= i < |log| ==> log[i].signature == signature + i)
      && (result in {Response(true), Raised(false)} ==> attempt + |log| >= 5)
    decreases 6 - attempt
  {
    var a := script[attempt];
    var (log, result) := Ladder(verb, signed, script, attempt, stale, signature);
    if GoesOn(verb, a, attempt, stale) {
      var stale', signature' := stale || StaleRetry(verb, a, stale), if signed then signature + 1 else signature;
      LadderAccounts(verb, signed, script, attempt + 1, stale', signature');
      var rest := Ladder(verb, signed, script, attempt + 1, stale', signature').0;
      assert log[1..] == rest;
    } else {
      assert log[1..] == [];
    }
  }

  lemma Powers()
    ensures Pow2(0) == 1 && Pow2(1) == 2 && Pow2(2) == 4 && Pow2(3) == 8 && Pow2(4) == 16
  {
    assert Pow2(1) == 2 && Pow2(2) == 4;
  }

  /** The ladder unfolded by one attempt. */
  lemma LadderStep(verb: Verb, signed: bool, script: seq<Attempt>, attempt: nat, stale: bool, signature: nat)
    requires |script| >= 6 && attempt <= 5 && (attempt == 5 ==> stale)
    ensures var a := script[attempt];
      var entry := EntryOf(verb, a, attempt, stale, signature);
      var (log, result) := Ladder(verb, signed, script, attempt, stale, signature);
      if GoesOn(verb, a, attempt, stale) then
        var rest := Ladder(verb, signed, script, attempt + 1, stale || StaleRetry(verb, a, stale), if signed then signature + 1 else signature);
        log == [entry] + rest.0 && result == rest.1
      else log == [entry] && result == ResultOf(a)
  {
  }

  lemma PausePrepended(e: Entry, rest: seq<Entry>)
    ensures TotalPause([e] + rest) == e.pauseMs + TotalPause(rest) && TotalPause([e]) == e.pauseMs
  {
    assert ([e] + rest)[1..] == rest;
  }

  /** The pause after an attempt: doubling from 0.7 s or 0.5 s, none after the last slot. */
  lemma PauseOf(verb: Verb, a: Attempt, attempt: nat, stale: bool)
    ensures var pause := PauseAfter(verb, a, attempt, stale);
      && pause <= (if attempt < MAX_RETRIES then 700 * Pow2(attempt) else 0)
      && (attempt < MAX_RETRIES && ReplyOf(a) == Throttled ==> pause == 700 * Pow2(attempt))
      && (attempt < MAX_RETRIES && ReplyOf(a) == NotSent ==> pause == 500 * Pow2(attempt))
    ensures Pow2(attempt + 1) == 2 * Pow2(attempt)
  {
    hide ReplyOf;
  }

  /** All pauses of a call from an attempt on: at most what doubling from there to 11.2 s leaves. */
  lemma {:induction false} PausesBounded(verb: Verb, signed: bool, script: seq<Attempt>, attempt: nat, stale: bool, signature: nat)
    requires |script| >= 6 && attempt <= 5 && (attempt == 5 ==> stale)
    ensures var log := Ladder(verb, signed, script, attempt, stale, signature).0;
      TotalPause(log) <= (if attempt < MAX_RETRIES then 700 * (16 - Pow2(attempt)) else 0)
    decreases 6 - attempt
  {
    hide Ladder, TotalPause, Pow2, StaleRetry, GoesOn, PauseAfter, ReplyOf, ResultOf;
    var a := script[attempt];
    Powers();
    LadderStep(verb, signed, script, attempt, stale, signature);
    GoesOnWithinReach(verb, a, attempt, stale);
    PauseOf(verb, a, attempt, stale);
    var entry := EntryOf(verb, a, attempt, stale, signature);
    if GoesOn(verb, a, attempt, stale) {
      var stale', signature' := stale || StaleRetry(verb, a, stale), if signed then signature + 1 else signature;
      PausesBounded(verb, signed, script, attempt + 1, stale', signature');
      PausePrepended(entry, Ladder(verb, signed, script, attempt + 1, stale', signature').0);
    } else {
      PausePrepended(entry, []);
      Halfway(attempt);
    }
  }

  lemma Halfway(attempt: nat)
    ensures attempt < MAX_RETRIES ==> Pow2(attempt) <= 16 - Pow2(attempt)
  {
    Powers();
  }

  /** A whole call pauses for at most 10.5 s. */
  lemma CallPausesAtMost(verb: Verb, signed: bool, script: seq<Attempt>)
    requires |script| >= 6
    ensures TotalPause(Ladder(verb, signed, script, 0, false, 1).0) <= 10500
  {
    PausesBounded(verb, signed, script, 0, false, 1);
    Powers();
    hide Ladder, TotalPause;
  }

  ghost predicate AllEnd(script: seq<Attempt>, reply: Reply) {
    |script| >= 6 && forall i :: 0 <= i < |script| ==> ReplyOf(script[i]) == reply
  }

  /**
   The bound is reached: a venue that throttles every attempt costs five attempts and
   pauses of 0.7, 1.4, 2.8 and 5.6 s; one that never connects pauses 0.5, 1, 2 and 4 s.
   */
  lemma ExhaustedLadder(verb: Verb, signed: bool, script: seq<Attempt>, reply: Reply)
    requires reply in {Throttled, NotSent} && AllEnd(script, reply)
    ensures var (log, result) := Ladder(verb, signed, script, 0, false, 1);
      && |log| == 5
      && TotalPause(log) == (if reply == Throttled then 10500 else 7500)
      && result == (if reply == Throttled then Response(true) else Raised(false))
  {
    Exhausting(verb, signed, script, reply, 0, 1);
    Powers();
    hide Ladder, TotalPause;
  }

  lemma {:induction false} Exhausting(verb: Verb, signed: bool, script: seq<Attempt>, reply: Reply, attempt: nat, signature: nat)
    requires reply in {Throttled, NotSent} && AllEnd(script, reply) && attempt <= MAX_RETRIES
    ensures var (log, result) := Ladder(verb, signed, script, attempt, false, signature);
      && |log| == 5 - attempt
      && TotalPause(log) == (if reply == Throttled then 700 else 500) * (16 - Pow2(attempt))
      && result == (if reply == Throttled then Response(true) else Raised(false))
    decreases MAX_RETRIES - attempt
  {
    hide Ladder, TotalPause, Pow2, Take, PauseAfter, ReplyOf;
    var a := script[attempt];
    Powers();
    LadderStep(verb, signed, script, attempt, false, signature);
    PauseOf(verb, a, attempt, false);
    var entry := EntryOf(verb, a, attempt, false, signature);
    if attempt < MAX_RETRIES {
      var signature' := if signed then signature + 1 else signature;
      Exhausting(verb, signed, script, reply, attempt + 1, signature');
      PausePrepended(entry, Ladder(verb, signed, script, attempt + 1, false, signature').0);
    } else {
      NoPauseAtTheEnd(verb, a, false);
      PausePrepended(entry, []);
    }
  }

  lemma NoPauseAtTheEnd(verb: Verb, a: Attempt, stale: bool)
    ensures PauseAfter(verb, a, MAX_RETRIES, stale) == 0
  {
  }

  // ---- what a call makes of the wire ----

  /** The pause after attempt i: 0.7, 1.4, 2.8, 5.6 s after a throttle, 0.5, 1, 2, 4 s after a failed connect. */
  function PauseMs(wire: Wire, i: nat): nat {
    if i > 3 then 0
    else
      var doubled := if i == 0 then 1 else if i == 1 then 2 else if i == 2 then 4 else 8;
      match wire
      case ConnectFails => 500 * doubled
      case Answered(true, _, _) => 700 * doubled
      case _ => 0
  }

  /** An entry of the log says what happened to its attempt. */
  ghost predicate Logs(e: Entry, a: Attempt, i: nat) {
    && (e.reply == NotSent <==> a.wire.ConnectFails?)
    && (e.reply == Lost <==> a.wire.LostAfterWrite?)
    && (e.reply == Throttled <==> a.wire.Answered? && a.wire.throttled)
    && (e.reply == Answer <==> a.wire.Answered? && !a.wire.throttled)
    && (e.executed <==> !a.wire.ConnectFails? && a.wire.executed)
    && (e.pooled <==> exists c :: c in a.pool && a.takenAt - c.lastUsed <= 25000)
    && e.pauseMs == PauseMs(a.wire, i)
  }

  /** What the caller gets is what became of the attempt: the answer, throttled or not, or the failure, before or after the write. */
  ghost predicate Yields(a: Attempt, result: Result) {
    match a.wire
    case ConnectFails => result == Raised(false)
    case LostAfterWrite(_) => result == Raised(true)
    case Answered(throttled, _, _) => result == Response(throttled)
  }

  lemma EntryLogs(verb: Verb, a: Attempt, attempt: nat, stale: bool, signature: nat)
    ensures Logs(EntryOf(verb, a, attempt, stale, signature), a, attempt)
  {
    PooledIff(a);
    PauseIs(verb, a, attempt, stale);
    hide Take, PauseAfter, PauseMs;
  }

  lemma PauseIs(verb: Verb, a: Attempt, attempt: nat, stale: bool)
    ensures PauseAfter(verb, a, attempt, stale) == PauseMs(a.wire, attempt)
  {
    Powers();
  }

  lemma PooledIff(a: Attempt)
    ensures Pooled(a) <==> exists c :: c in a.pool && a.takenAt - c.lastUsed <= 25000
  {
    TakeFindsLastFresh(a.pool, a.takenAt);
    hide Take;
  }

  /** A POST is repeated only after a refusal or a failed connect; a GET also once after an unanswered write on a reused connection. */
  ghost predicate Repeats(verb: Verb, a: Attempt, i: nat, stale: bool) {
    || (i < 4 && (a.wire.ConnectFails? || (a.wire.Answered? && a.wire.throttled)))
    || (a.wire.LostAfterWrite? && verb == Get && !stale && exists c :: c in a.pool && a.takenAt - c.lastUsed <= 25000)
  }

  lemma GoesOnIff(verb: Verb, a: Attempt, attempt: nat, stale: bool)
    ensures GoesOn(verb, a, attempt, stale) <==> Repeats(verb, a, attempt, stale)
    ensures StaleRetry(verb, a, stale) <==> a.wire.LostAfterWrite? && Repeats(verb, a, attempt, stale)
  {
    PooledIff(a);
    hide Take, Pooled;
  }

  /** Some attempt of the script before the given one was lost after its write. */
  ghost predicate LostBefore(script: seq<Attempt>, from: nat, i: nat) {
    exists j :: from <= j < i && j < |script| && script[j].wire.LostAfterWrite?
  }

  /**
   From a given attempt on, entry by entry the log says what happened to the attempts, in
   order; each but the last is one that is repeated, the last is not.
   */
  lemma {:induction false} LadderFollows(verb: Verb, signed: bool, script: seq<Attempt>, attempt: nat, stale: bool, signature: nat)
    requires |script| >= 6 && attempt <= 5 && (attempt == 5 ==> stale)
    ensures var (log, result) := Ladder(verb, signed, script, attempt, stale, signature);
      1 <= |log| <= 6 - attempt && Tells(verb, script, attempt, stale, log) && Yields(script[attempt + |log| - 1], result)
    decreases 6 - attempt
  {
    hide Ladder, GoesOn, StaleRetry, EntryOf, ResultOf, Logs, Repeats, Yields, LostBefore, Tells;
    var a := script[attempt];
    LadderStep(verb, signed, script, attempt, stale, signature);
    EntryLogs(verb, a, attempt, stale, signature);
    ResultYields(a);
    GoesOnIff(verb, a, attempt, stale);
    GoesOnWithinReach(verb, a, attempt, stale);
    var entry := EntryOf(verb, a, attempt, stale, signature);
    if GoesOn(verb, a, attempt, stale) {
      var stale', signature' := stale || StaleRetry(verb, a, stale), if signed then signature + 1 else signature;
      LadderFollows(verb, signed, script, attempt + 1, stale', signature');
      Follows(verb, script, attempt, stale, stale', entry, Ladder(verb, signed, script, attempt + 1, stale', signature').0);
    } else {
      Ends(verb, script, attempt, stale, entry);
    }
  }

  /** The log tells the attempts from the given one on, and goes on exactly where an attempt is repeated. */
  ghost predicate Tells(verb: Verb, script: seq<Attempt>, from: nat, stale: bool, log: seq<Entry>) {
    && from + |log| <= |script|
    && (forall k :: from <= k < from + |log| ==> Logs(log[k - from], script[k], k))
    && (forall k :: from <= k < from + |log| ==>
          (k < from + |log| - 1 <==> Repeats(verb, script[k], k, stale || LostBefore(script, from, k))))
  }

  /** What a whole call logs and yields, told by the wire alone. */
  ghost predicate FollowsWire(verb: Verb, script: seq<Attempt>, log: seq<Entry>, result: Result) {
    1 <= |log| <= 6 && Tells(verb, script, 0, false, log) && Yields(script[|log| - 1], result)
  }

  lemma CallFollowsWire(verb: Verb, signed: bool, script: seq<Attempt>)
    requires |script| >= 6
    ensures var (log, result) := Ladder(verb, signed, script, 0, false, 1); FollowsWire(verb, script, log, result)
  {
    hide Ladder, Tells, Yields;
    LadderFollows(verb, signed, script, 0, false, 1);
  }

  lemma ResultYields(a: Attempt)
    ensures Yields(a, ResultOf(a))
  {
  }

  lemma NoneBefore(script: seq<Attempt>, attempt: nat)
    ensures !LostBefore(script, attempt, attempt)
  {
  }

  lemma StaleSoFar(verb: Verb, script: seq<Attempt>, attempt: nat, i: nat, stale: bool, stale': bool)
    requires attempt < i && attempt < |script| && Repeats(verb, script[attempt], attempt, stale)
    requires stale' == (stale || (script[attempt].wire.LostAfterWrite? && Repeats(verb, script[attempt], attempt, stale)))
    ensures (stale' || LostBefore(script, attempt + 1, i)) == (stale || LostBefore(script, attempt, i))
  {
    hide Repeats;
    if LostBefore(script, attempt, i) {
      var j :| attempt <= j < i && j < |script| && script[j].wire.LostAfterWrite?;
      assert j == attempt || LostBefore(script, attempt + 1, i);
    }
    if script[attempt].wire.LostAfterWrite? {
      assert LostBefore(script, attempt, i);
    }
  }

  lemma Ends(verb: Verb, script: seq<Attempt>, attempt: nat, stale: bool, entry: Entry)
    requires attempt < |script| && Logs(entry, script[attempt], attempt) && !Repeats(verb, script[attempt], attempt, stale)
    ensures Tells(verb, script, attempt, stale, [entry])
  {
    NoneBefore(script, attempt);
    hide Logs, Repeats, LostBefore;
  }

  /** The log of the rest, with the entry in front. */
  lemma Follows(verb: Verb, script: seq<Attempt>, attempt: nat, stale: bool, stale': bool, entry: Entry, rest: seq<Entry>)
    requires rest != [] && attempt < |script|
    requires Logs(entry, script[attempt], attempt) && Repeats(verb, script[attempt], attempt, stale)
    requires stale' == (stale || (script[attempt].wire.LostAfterWrite? && Repeats(verb, script[attempt], attempt, stale)))
    requires Tells(verb, script, attempt + 1, stale', rest)
    ensures Tells(verb, script, attempt, stale, [entry] + rest)
  {
    hide Logs, Repeats, LostBefore;
    NoneBefore(script, attempt);
    var log := [entry] + rest;
    forall k | attempt <= k < attempt + |log|
      ensures Logs(log[k - attempt], script[k], k)
      ensures k < attempt + |log| - 1 <==> Repeats(verb, script[k], k, stale || LostBefore(script, attempt, k))
    {
      if k > attempt {
        StaleSoFar(verb, script, attempt, k, stale, stale');
        assert log[k - attempt] == rest[k - (attempt + 1)];
      }
    }
  }

  // ---- the ladder, one attempt at a time ----

  /** What has been logged and what is still to come make up the whole ladder. */
  ghost predicate OnTrack(verb: Verb, signed: bool, script: seq<Attempt>, attempt: nat, stale: bool, signature: nat, log: seq<Entry>) {
    && PlausibleScript(script) && |log| == attempt <= 5 && (attempt == 5 ==> stale)
    && var rest, all := Ladder(verb, signed, script, attempt, stale, signature), Ladder(verb, signed, script, 0, false, 1);
       log + rest.0 == all.0 && rest.1 == all.1
  }

  lemma TrackStarts(verb: Verb, signed: bool, script: seq<Attempt>)
    requires PlausibleScript(script)
    ensures OnTrack(verb, signed, script, 0, false, 1, []) && TotalPause([]) == 0
  {
  }

  lemma TrackContinues(verb: Verb, signed: bool, script: seq<Attempt>, attempt: nat, stale: bool, signature: nat, log: seq<Entry>)
    requires OnTrack(verb, signed, script, attempt, stale, signature, log)
    ensures attempt < |script| && Plausible(script[attempt]) && |log| == attempt <= 5
    ensures var a := script[attempt];
      var entry := EntryOf(verb, a, attempt, stale, signature);
      if GoesOn(verb, a, attempt, stale) then
        OnTrack(verb, signed, script, attempt + 1, stale || StaleRetry(verb, a, stale),
                if signed then signature + 1 else signature, log + [entry])
      else (log + [entry], ResultOf(a)) == Ladder(verb, signed, script, 0, false, 1)
  {
    hide Ladder, GoesOn, StaleRetry, EntryOf, ResultOf, Plausible;
    LadderStep(verb, signed, script, attempt, stale, signature);
    var a := script[attempt];
    GoesOnWithinReach(verb, a, attempt, stale);
    var entry := EntryOf(verb, a, attempt, stale, signature);
    if GoesOn(verb, a, attempt, stale) {
      var rest := Ladder(verb, signed, script, attempt + 1, stale || StaleRetry(verb, a, stale), if signed then signature + 1 else signature).0;
      assert log + ([entry] + rest) == (log + [entry]) + rest;
    }
  }

  lemma GoesOnWithinReach(verb: Verb, a: Attempt, attempt: nat, stale: bool)
    requires attempt <= 5 && (attempt == 5 ==> stale)
    ensures GoesOn(verb, a, attempt, stale) ==> attempt < 5 && (attempt + 1 == 5 ==> stale || StaleRetry(verb, a, stale))
  {
  }

  // ---- the session object ----

  lemma {:induction false} PauseAppended(log: seq<Entry>, e: Entry)
    ensures TotalPause(log + [e]) == TotalPause(log) + e.pauseMs
  {
    if log != [] {
      assert (log + [e])[1..] == log[1..] + [e];
      PauseAppended(log[1..], e);
    } else {
      assert (log + [e])[1..] == [];
    }
  }

  class HttpSession {
    var pool: seq<Conn>

    constructor ()
      ensures pool == []
    {
      pool := [];
    }

    method TakeConn(now: int) returns (conn: Option<Conn>)
      modifies this
      ensures (conn, pool) == Take(old(pool), now)
    {
      while pool != []
        invariant Take(pool, now) == Take(old(pool), now)
        decreases |pool|
      {
        var last := pool[|pool| - 1];
        pool := pool[..|pool| - 1];
        if now - last.lastUsed <= MAX_CONN_IDLE_MS {
          return Some(last);
        }
      }
      return None;
    }

    method ReturnConn(conn: Conn, now: int)
      modifies this
      ensures pool == GiveBack(old(pool), conn, now)
    {
      if |pool| < MAX_POOL_SIZE {
        pool := pool + [conn.(lastUsed := now)];
      }
    }

    /**
     performOnce: take or make a connection, write, read, and pool the connection again.
     Other requests change the pool between the steps; the attempt says to what.
     */
    method PerformOnce(a: Attempt) returns (requestSent: bool, usedPooledConn: bool, reply: Reply)
      requires Plausible(a)
      modifies this
      ensures reply == ReplyOf(a) && usedPooledConn == Pooled(a) && pool == PoolAfter(a)
      ensures requestSent <==> !a.wire.ConnectFails?
      ensures !(a.wire.Answered? && a.wire.keepAlive) ==> pool <= a.pool
      ensures a.wire.Answered? && a.wire.keepAlive ==>
        if |a.poolBack| >= 4 then pool == a.poolBack
        else |pool| == |a.poolBack| + 1 && pool[..|a.poolBack|] == a.poolBack && pool[|a.poolBack|].lastUsed == a.returnedAt
    {
      TakeFindsLastFresh(a.pool, a.takenAt);
      pool := a.pool;
      var conn := TakeConn(a.takenAt);
      usedPooledConn := conn.Some?;
      if conn.None? {
        if a.wire.ConnectFails? {
          return false, usedPooledConn, NotSent;
        }
        conn := Some(Conn(0, a.takenAt));
      }
      requestSent := true;
      if a.wire.LostAfterWrite? {
        return requestSent, usedPooledConn, Lost;
      }
      if a.wire.keepAlive {
        pool := a.poolBack;
        ReturnConn(conn.value, a.returnedAt);
      }
      reply := if a.wire.throttled then Throttled else Answer;
    }

    /**
     One request. The caller has taken one limiter grant and signed once; the pacing hook,
     which the REST client always installs, takes one more before every retry.
     */
    method Request(verb: Verb, signed: bool, script: seq<Attempt>)
      returns (result: Result, log: seq<Entry>, grants: nat, pausedMs: nat)
      requires PlausibleScript(script)
      modifies this
      ensures (log, result) == Ladder(verb, signed, script, 0, false, 1)
      ensures pausedMs == TotalPause(log)
      ensures grants == |log|
      ensures FollowsWire(verb, script, log, result)
    {
      hide FollowsWire, TotalPause, Plausible, EntryOf, ResultOf, GoesOn, StaleRetry, OnTrack, Ladder;
      var attempt, staleConnRetried, signature := 0, false, 1;
      grants, pausedMs, log, result := 1, 0, [], Raised(false);
      TrackStarts(verb, signed, script);
      var goesOn := true;
      while goesOn
        invariant goesOn ==> OnTrack(verb, signed, script, attempt, staleConnRetried, signature, log)
        invariant !goesOn ==> (log, result) == Ladder(verb, signed, script, 0, false, 1) && |log| == attempt
        invariant goesOn ==> grants == attempt + 1
        invariant !goesOn ==> grants == attempt
        invariant pausedMs == TotalPause(log)
        decreases goesOn, 6 - attempt
      {
        TrackContinues(verb, signed, script, attempt, staleConnRetried, signature, log);
        var entry, stale;
        goesOn, stale, entry, result := OneAttempt(verb, script[attempt], attempt, staleConnRetried, signature);
        PauseAppended(log, entry);
        pausedMs := pausedMs + entry.pauseMs;
        log := log + [entry];
        staleConnRetried := staleConnRetried || stale;
        attempt := attempt + 1;
        if goesOn {
          grants := grants + 1;
          signature := if signed then signature + 1 else signature;
        }
      }
      CallFollowsWire(verb, signed, script);
    }

    /** Performs an attempt and decides what follows it. */
    method OneAttempt(verb: Verb, a: Attempt, attempt: nat, staleConnRetried: bool, signature: nat)
      returns (goesOn: bool, stale: bool, entry: Entry, result: Result)
      requires Plausible(a)
      modifies this
      ensures goesOn == GoesOn(verb, a, attempt, staleConnRetried)
      ensures stale == StaleRetry(verb, a, staleConnRetried)
      ensures entry == EntryOf(verb, a, attempt, staleConnRetried, signature)
      ensures result == ResultOf(a)
    {
      var requestSent, usedPooledConn, reply := PerformOnce(a);
      var pauseMs;
      goesOn, stale, pauseMs := Judge(verb, a, attempt, staleConnRetried, requestSent, usedPooledConn, reply);
      entry := Entry(reply, usedPooledConn, ExecutedBy(a), signature, pauseMs);
      result := if requestSent && reply != Lost then Response(reply == Throttled) else Raised(requestSent);
    }

    /** The branch after an attempt: return or throw, retry at once, or retry after a pause. */
    method Judge(verb: Verb, a: Attempt, attempt: nat, staleConnRetried: bool, requestSent: bool, usedPooledConn: bool, reply: Reply)
      returns (goesOn: bool, stale: bool, pauseMs: nat)
      requires reply == ReplyOf(a) && usedPooledConn == Pooled(a) && (requestSent <==> reply != NotSent)
      ensures goesOn == GoesOn(verb, a, attempt, staleConnRetried)
      ensures stale == StaleRetry(verb, a, staleConnRetried)
      ensures pauseMs == PauseAfter(verb, a, attempt, staleConnRetried)
    {
      goesOn, stale, pauseMs := false, false, 0;
      if reply == Answer || reply == Throttled {
        if reply == Answer || attempt >= MAX_RETRIES {
          return;
        }
        pauseMs := 700 * Pow2(attempt);
      } else {
        if requestSent && usedPooledConn && verb == Get && !staleConnRetried {
          return true, true, 0;
        }
        if requestSent || attempt >= MAX_RETRIES {
          return;
        }
        pauseMs := 500 * Pow2(attempt);
      }
      goesOn := true;
    }
  }
}
