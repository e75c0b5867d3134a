/** Backward pagination of spot candles: all times in ms, at most 1000 candles a request. */
module SpotCandles {
  import opened Common
  import opened Candles

  const LIMIT: nat := 1000

  datatype Interval = Min1 | Min5 | Min15 | Min30 | Min60 | Hour4 | Hour8 | Day1 | Week1 | Month1 | Unknown

  /** The lengths the intervals are named after. */
  function Minutes(interval: Interval): nat {
    match interval
    case Min1 => 1
    case Min5 => 5
    case Min15 => 15
    case Min30 => 30
    case Min60 => 60
    case Hour4 => 4 * 60
    case Hour8 => 8 * 60
    case Day1 => 24 * 60
    case Week1 => 7 * 24 * 60
    case Month1 => 30 * 24 * 60
    case Unknown => 0
  }

  /** A month counts as 30 days; a value outside the enumeration counts as no time at all. */
  function IntervalMs(interval: Interval): (ms: int)
    ensures ms == 60 * 1000 * Minutes(interval)
  {
    match interval
    case Min1 => 60000
    case Min5 => 60000 * 5
    case Min15 => 60000 * 15
    case Min30 => 60000 * 30
    case Min60 => 60000 * 60
    case Hour4 => 60000 * 240
    case Hour8 => 60000 * 480
    case Day1 => 86400000
    case Week1 => 86400000 * 7
    case Month1 => 86400000 * 30
    case Unknown => 0
  }

  function Newest(s: seq<Candle>, n: nat): seq<Candle> {
    if |s| <= n then s else s[|s| - n..]
  }

  /** The least asked of any venue: rising candles, none later than the requested end. */
  ghost predicate Orderly(fetch: (int, int) -> seq<Candle>) {
    forall s, e :: Rising(fetch(s, e)) && forall c :: c in fetch(s, e) ==> c.openTime <= e
  }

  /** Candles fill a grid of the interval's length without gaps. */
  ghost predicate Grid(venue: seq<Candle>, iv: int) {
    && Rising(venue)
    && (forall c :: c in venue ==> c.openTime >= 0)
    && (forall i :: 0 <= i && i + 1 < |venue| ==> venue[i + 1].openTime == venue[i].openTime + iv)
  }

  /** The venue answers with the newest candles of the window; a start of 0 or less is left out of the request. */
  ghost predicate Serves(fetch: (int, int) -> seq<Candle>, venue: seq<Candle>) {
    forall s, e :: fetch(s, e) == Newest(InRange(venue, Max(s, 0), e), 1000)
  }

  /** The request that follows a page whose oldest candle opens at the given time. */
  function NextPage(fetch: (int, int) -> seq<Candle>, startTime: int, oldest: int, iv: int): seq<Candle> {
    var e := oldest - iv;
    if startTime <= e then fetch(Max(startTime, e - LIMIT * iv), e) else []
  }

  predicate LargeRange(startTime: int, endTime: int, iv: int) {
    endTime - startTime > LIMIT * iv
  }

  /** The first page of a download. */
  function FirstPage(fetch: (int, int) -> seq<Candle>, startTime: int, endTime: int, iv: int): seq<Candle> {
    if startTime > endTime then []
    else if LargeRange(startTime, endTime, iv) then fetch(0, endTime)
    else fetch(startTime, endTime)
  }

  /** The first page of a large range was not told the start: it may reach back before it. */
  predicate Overshoots(fetch: (int, int) -> seq<Candle>, startTime: int, endTime: int, iv: int) {
    var page := FirstPage(fetch, startTime, endTime, iv);
    LargeRange(startTime, endTime, iv) && page != [] && page[0].openTime < startTime
  }

  /** The range is too long to be asked for at once, holds less than a page, and the venue has candles before it. */
  ghost predicate ReachesBack(venue: seq<Candle>, startTime: int, endTime: int, iv: int) {
    && startTime <= endTime && endTime - startTime > 1000 * iv
    && |InRange(venue, startTime, endTime)| < 1000
    && exists c :: c in venue && c.openTime < startTime
  }

  // ---- facts about grids and windows ----

  lemma {:induction false} GridSpan(venue: seq<Candle>, iv: int, i: nat, j: nat)
    requires Grid(venue, iv) && i <= j < |venue|
    ensures venue[j].openTime == venue[i].openTime + (j - i) * iv
    decreases j - i
  {
    if i < j {
      GridSpan(venue, iv, i, j - 1);
    }
  }

  ghost predicate HasCandleAt(venue: seq<Candle>, t: int) {
    exists d :: d in venue && d.openTime == t
  }

  lemma RisingOrder(cs: seq<Candle>, i: nat, j: nat)
    requires Rising(cs) && i < |cs| && j < |cs| && cs[i].openTime < cs[j].openTime
    ensures i < j
  {
  }

  /** Before a candle of the grid the nearest other candle is a full interval earlier. */
  lemma GridGap(venue: seq<Candle>, iv: int, c: Candle, next: Candle)
    requires Grid(venue, iv) && c in venue && next in venue && c.openTime < next.openTime
    ensures c.openTime <= next.openTime - iv
    ensures HasCandleAt(venue, next.openTime - iv)
  {
    var i :| 0 <= i < |venue| && venue[i] == c;
    var j :| 0 <= j < |venue| && venue[j] == next;
    RisingOrder(venue, i, j);
    assert venue[j - 1 + 1].openTime == venue[j - 1].openTime + iv;
    if i < j - 1 {
      assert venue[i].openTime < venue[j - 1].openTime;
    }
    assert venue[j - 1] in venue;
  }

  lemma GapBefore(venue: seq<Candle>, iv: int, next: Candle)
    requires Grid(venue, iv) && next in venue
    ensures forall c :: c in venue && c.openTime < next.openTime ==> c.openTime <= next.openTime - iv
  {
    hide *;
    forall c | c in venue && c.openTime < next.openTime
      ensures c.openTime <= next.openTime - iv
    {
      GridGap(venue, iv, c, next);
    }
  }

  /** Raising the lower bound keeps the newest part. */
  lemma {:induction false} RaisedIsSuffix(cs: seq<Candle>, lo: int, lo': int, hi: int)
    requires Rising(cs) && lo <= lo'
    ensures IsSuffix(InRange(cs, lo', hi), InRange(cs, lo, hi))
  {
    if cs != [] {
      RaisedIsSuffix(cs[1..], lo, lo', hi);
      if lo' <= cs[0].openTime <= hi {
        assert forall c :: c in cs[1..] ==> lo' <= c.openTime;
        SameRange(cs[1..], lo, lo', hi);
      }
    }
  }

  lemma {:induction false} SameRange(cs: seq<Candle>, lo: int, lo': int, hi: int)
    requires forall c :: c in cs ==> (lo <= c.openTime <= hi <==> lo' <= c.openTime <= hi)
    ensures InRange(cs, lo, hi) == InRange(cs, lo', hi)
  {
    if cs != [] {
      assert forall c :: c in cs[1..] ==> c in cs;
      SameRange(cs[1..], lo, lo', hi);
    }
  }

  lemma SuffixOfSuffix(a: seq<Candle>, b: seq<Candle>, c: seq<Candle>)
    requires IsSuffix(a, b) && IsSuffix(b, c)
    ensures IsSuffix(a, c)
  {
    assert a == c[|c| - |b|..][|b| - |a|..];
  }

  /** What a request from s to e brings, seen against everything from lo to e. */
  lemma RequestBrings(venue: seq<Candle>, lo: int, s: int, e: int)
    requires Rising(venue) && (forall c :: c in venue ==> c.openTime >= 0) && lo <= s
    ensures IsSuffix(Newest(InRange(venue, Max(s, 0), e), LIMIT), InRange(venue, lo, e))
  {
    var page := Newest(InRange(venue, Max(s, 0), e), LIMIT);
    SameRange(venue, s, Max(s, 0), e);
    RaisedIsSuffix(venue, lo, s, e);
    SuffixOfSuffix(page, InRange(venue, s, e), InRange(venue, lo, e));
  }

  /** Behind a page nothing is missed: an empty next page means nothing is left down to lo. */
  lemma NextPageFinds(venue: seq<Candle>, iv: int, lo: int, oldest: Candle)
    requires Grid(venue, iv) && iv > 0 && oldest in venue
    requires lo <= oldest.openTime - iv
    ensures var e := oldest.openTime - iv; var s := Max(lo, e - LIMIT * iv);
      InRange(venue, Max(s, 0), e) == [] ==> InRange(venue, lo, e) == []
  {
    var e := oldest.openTime - iv;
    var s := Max(lo, e - LIMIT * iv);
    var left := InRange(venue, lo, e);
    if left != [] {
      assert left[0] in left;
      GridGap(venue, iv, left[0], oldest);
      var d :| d in venue && d.openTime == e;
      assert d in InRange(venue, Max(s, 0), e);
    }
  }

  lemma NothingBetween(venue: seq<Candle>, iv: int, lo: int, oldest: Candle)
    requires lo > oldest.openTime - iv
    ensures InRange(venue, lo, oldest.openTime - iv) == []
  {
    InRangeNone(venue, lo, oldest.openTime - iv);
  }

  lemma FirstOfSuffix(page: seq<Candle>, whole: seq<Candle>)
    requires IsSuffix(page, whole) && page != []
    ensures whole[|whole| - |page|] == page[0] && page[0] in whole
  {
  }

  /** A page that is the newest part of the range from lo, taken off that range. */
  lemma PageTaken(venue: seq<Candle>, iv: int, lo: int, e: int, page: seq<Candle>)
    requires Grid(venue, iv) && iv > 0 && page != [] && IsSuffix(page, InRange(venue, lo, e))
    ensures page[0] in venue
    ensures InRange(venue, lo, e) == InRange(venue, lo, page[0].openTime - iv) + page
  {
    hide *;
    FirstOfSuffix(page, InRange(venue, lo, e));
    GridRises(venue, iv);
    GapBefore(venue, iv, page[0]);
    BackwardPage(venue, lo, e, page, page[0].openTime - iv);
  }

  /** The first page of a large range, as the newest part of the range it really covers. */
  lemma FirstPageCovers(venue: seq<Candle>, iv: int, startTime: int, endTime: int, page: seq<Candle>)
    requires Grid(venue, iv) && iv > 0
    requires page == Newest(InRange(venue, 0, endTime), LIMIT)
    ensures page == [] ==> InRange(venue, startTime, endTime) == []
    ensures page != [] ==>
      var lo := Min(startTime, page[0].openTime);
      IsSuffix(page, InRange(venue, lo, endTime))
    ensures page != [] && page[0].openTime < startTime ==> page[0] in InRange(venue, page[0].openTime, endTime)
  {
    if page == [] {
      InRangeNone(venue, startTime, endTime);
    } else {
      var p0 := page[0].openTime;
      FirstOfSuffix(page, InRange(venue, 0, endTime));
      NewestFromOldest(venue, endTime, page);
      RaisedIsSuffix(venue, Min(startTime, p0), p0, endTime);
    }
  }

  /** The newest part of everything up to an end is all that opens from its oldest candle on. */
  lemma NewestFromOldest(venue: seq<Candle>, endTime: int, page: seq<Candle>)
    requires Rising(venue) && page != [] && IsSuffix(page, InRange(venue, 0, endTime))
    requires forall c :: c in venue ==> c.openTime >= 0
    ensures InRange(venue, page[0].openTime, endTime) == page
  {
    hide *;
    var whole := InRange(venue, 0, endTime);
    InRangeRising(venue, 0, endTime);
    FirstOfSuffix(page, whole);
    RaisedNarrow(venue, 0, page[0].openTime, endTime);
    FromSuffix(whole, page, endTime);
  }

  lemma FromSuffix(whole: seq<Candle>, page: seq<Candle>, hi: int)
    requires Rising(whole) && page != [] && IsSuffix(page, whole) && forall c :: c in whole ==> c.openTime <= hi
    ensures InRange(whole, page[0].openTime, hi) == page
  {
    hide InRange, Rising;
    var k := |whole| - |page|;
    assert whole[k..] == page && whole[k] == page[0];
    CutAt(whole, k);
    FromCut(whole, k, hi);
  }

  lemma FromCut(whole: seq<Candle>, k: nat, hi: int)
    requires k < |whole| && forall c :: c in whole ==> c.openTime <= hi
    requires forall c :: c in whole[..k] ==> c.openTime < whole[k].openTime
    requires forall c :: c in whole[k..] ==> c.openTime >= whole[k].openTime
    ensures InRange(whole, whole[k].openTime, hi) == whole[k..]
  {
    hide InRange;
    InRangeAppend(whole[..k], whole[k..], whole[k].openTime, hi);
    assert whole == whole[..k] + whole[k..];
    InRangeNone(whole[..k], whole[k].openTime, hi);
    assert forall c :: c in whole[k..] ==> c in whole;
    InRangeAll(whole[k..], whole[k].openTime, hi);
  }

  lemma {:induction false} RaisedNarrow(cs: seq<Candle>, lo: int, lo': int, hi: int)
    requires lo <= lo'
    ensures InRange(cs, lo', hi) == InRange(InRange(cs, lo, hi), lo', hi)
  {
    if cs != [] {
      RaisedNarrow(cs[1..], lo, lo', hi);
      if lo <= cs[0].openTime <= hi {
        var rest := InRange(cs[1..], lo, hi);
        assert ([cs[0]] + rest)[1..] == rest;
      }
    }
  }

  // ---- the download ----

  /** The oldest time the download really covers. */
  function Covered(fetch: (int, int) -> seq<Candle>, startTime: int, endTime: int, iv: int): int {
    if Overshoots(fetch, startTime, endTime, iv) then FirstPage(fetch, startTime, endTime, iv)[0].openTime else startTime
  }

  /** What the loop keeps about the page at hand, when the venue serves a grid. */
  ghost predicate Reading(venue: seq<Candle>, all: seq<Candle>, lo: int, currentEndTime: int, candles: seq<Candle>, retVal: seq<Candle>) {
    && all == InRange(venue, lo, currentEndTime) + retVal
    && IsSuffix(candles, InRange(venue, lo, currentEndTime))
    && (candles == [] ==> InRange(venue, lo, currentEndTime) == [])
  }

  lemma FirstPageReading(fetch: (int, int) -> seq<Candle>, venue: seq<Candle>, iv: int, startTime: int, endTime: int)
    requires Grid(venue, iv) && Serves(fetch, venue) && iv > 0
    ensures var lo := Covered(fetch, startTime, endTime, iv);
      Reading(venue, InRange(venue, lo, endTime), lo, endTime, FirstPage(fetch, startTime, endTime, iv), [])
  {
    var page := FirstPage(fetch, startTime, endTime, iv);
    if startTime > endTime {
      InRangeNone(venue, startTime, endTime);
    } else if LargeRange(startTime, endTime, iv) {
      assert page == Newest(InRange(venue, 0, endTime), LIMIT);
      FirstPageCovers(venue, iv, startTime, endTime, page);
    } else {
      RequestBrings(venue, startTime, startTime, endTime);
      SameRange(venue, startTime, Max(startTime, 0), endTime);
    }
  }

  lemma NextPageReading(fetch: (int, int) -> seq<Candle>, venue: seq<Candle>, iv: int, all: seq<Candle>,
                        lo: int, e: int, page: seq<Candle>, retVal: seq<Candle>, startTime: int)
    requires Grid(venue, iv) && Serves(fetch, venue) && iv > 0 && page != []
    requires Reading(venue, all, lo, e, page, retVal) && lo <= startTime
    requires lo < startTime ==> lo == page[0].openTime
    ensures Reading(venue, all, lo, page[0].openTime - iv, NextPage(fetch, startTime, page[0].openTime, iv), page + retVal)
  {
    hide Grid, Serves, Reading, InRange, IsSuffix, Rising;
    var e' := page[0].openTime - iv;
    PageIsNewest(venue, all, lo, e, page, retVal);
    PageTaken(venue, iv, lo, e, page);
    Grown(venue, all, lo, e, e', page, retVal);
    if startTime <= e' {
      assert lo == startTime;
      NextPageHolds(fetch, venue, iv, lo, page[0]);
      Holds(venue, all, lo, e', fetch(Max(startTime, e' - LIMIT * iv), e'), page + retVal);
    } else {
      NothingBetween(venue, iv, lo, page[0]);
      EmptySuffix(InRange(venue, lo, e'));
      Holds(venue, all, lo, e', [], page + retVal);
    }
  }

  lemma PageIsNewest(venue: seq<Candle>, all: seq<Candle>, lo: int, e: int, page: seq<Candle>, retVal: seq<Candle>)
    requires Reading(venue, all, lo, e, page, retVal)
    ensures IsSuffix(page, InRange(venue, lo, e))
  {
    hide InRange, IsSuffix;
  }

  lemma Grown(venue: seq<Candle>, all: seq<Candle>, lo: int, e: int, e': int, page: seq<Candle>, retVal: seq<Candle>)
    requires Reading(venue, all, lo, e, page, retVal)
    requires InRange(venue, lo, e) == InRange(venue, lo, e') + page
    ensures all == InRange(venue, lo, e') + (page + retVal)
  {
    hide InRange, IsSuffix;
  }

  lemma Holds(venue: seq<Candle>, all: seq<Candle>, lo: int, e: int, candles: seq<Candle>, retVal: seq<Candle>)
    requires all == InRange(venue, lo, e) + retVal && IsSuffix(candles, InRange(venue, lo, e))
    requires candles == [] ==> InRange(venue, lo, e) == []
    ensures Reading(venue, all, lo, e, candles, retVal)
  {
    hide InRange, IsSuffix;
  }

  /** A further page is the newest part of what is left, and empty only if nothing is. */
  lemma NextPageHolds(fetch: (int, int) -> seq<Candle>, venue: seq<Candle>, iv: int, lo: int, oldest: Candle)
    requires Grid(venue, iv) && Serves(fetch, venue) && iv > 0 && oldest in venue && lo <= oldest.openTime - iv
    ensures var e := oldest.openTime - iv; var next := fetch(Max(lo, e - LIMIT * iv), e);
      IsSuffix(next, InRange(venue, lo, e)) && (next == [] ==> InRange(venue, lo, e) == [])
  {
    hide InRange, Grid, Rising, IsSuffix, Newest;
    var e := oldest.openTime - iv;
    var s := Max(lo, e - LIMIT * iv);
    GridRises(venue, iv);
    RequestBrings(venue, lo, s, e);
    NewestEmpty(InRange(venue, Max(s, 0), e));
    NextPageFinds(venue, iv, lo, oldest);
  }

  lemma NewestEmpty(s: seq<Candle>)
    ensures Newest(s, LIMIT) == [] <==> s == []
  {
  }

  lemma EmptySuffix(s: seq<Candle>)
    ensures IsSuffix([], s)
  {
  }

  lemma GridRises(venue: seq<Candle>, iv: int)
    requires Grid(venue, iv)
    ensures Rising(venue) && forall c :: c in venue ==> c.openTime >= 0
  {
  }

  /** The newest batch goes in front and stays in order. */
  lemma PageInFront(page: seq<Candle>, retVal: seq<Candle>, bound: int)
    requires Rising(page) && Rising(retVal)
    requires forall c :: c in page ==> c.openTime <= bound
    requires forall c :: c in retVal ==> bound < c.openTime
    ensures Rising(page + retVal)
    ensures page != [] ==> forall c :: c in page + retVal ==> page[0].openTime <= c.openTime
  {
    assert forall i :: 0 <= i < |retVal| ==> retVal[i] in retVal;
    assert forall i :: 0 <= i < |page| ==> page[i] in page;
  }

  lemma NothingYet()
    ensures Rising([]) && Reassembled([]) == []
  {
  }

  lemma Beginning(fetch: (int, int) -> seq<Candle>, venue: seq<Candle>, iv: int, startTime: int, endTime: int)
    requires Orderly(fetch) && iv > 0
    ensures var page, lo := FirstPage(fetch, startTime, endTime, iv), Covered(fetch, startTime, endTime, iv);
      && Rising(page) && (forall c :: c in page ==> c.openTime <= endTime)
      && lo <= startTime && (lo < startTime ==> page != [] && lo == page[0].openTime)
      && (Grid(venue, iv) && Serves(fetch, venue) ==> Reading(venue, InRange(venue, lo, endTime), lo, endTime, page, []))
  {
    if Grid(venue, iv) && Serves(fetch, venue) {
      FirstPageReading(fetch, venue, iv, startTime, endTime);
    }
    hide InRange, Grid, Serves, Reading;
  }

  lemma Ended(venue: seq<Candle>, all: seq<Candle>, lo: int, currentEndTime: int, retVal: seq<Candle>)
    requires Reading(venue, all, lo, currentEndTime, [], retVal)
    ensures retVal == all
  {
    assert [] + retVal == retVal;
  }

  method First(fetch: (int, int) -> seq<Candle>, startTime: int, currentEndTime: int, intervalMs: int) returns (candles: seq<Candle>)
    ensures candles == FirstPage(fetch, startTime, currentEndTime, intervalMs)
  {
    candles := [];
    if startTime <= currentEndTime {
      var rangeMs := currentEndTime - startTime;
      var maxRangeForFirstCall := LIMIT * intervalMs;
      if rangeMs > maxRangeForFirstCall {
        candles := fetch(0, currentEndTime);
      } else {
        candles := fetch(startTime, currentEndTime);
      }
    }
  }

  /**
   With any orderly venue the download ends and returns candles in strictly rising order,
   the batches put back in order. When the venue serves a grid without gaps it returns
   exactly the candles from startTime to endTime, if and only if the range does not reach
   back; if it does, it returns the venue's newest page instead, whatever the start.
   */
  method GetHistoricalPrices(fetch: (int, int) -> seq<Candle>, ghost venue: seq<Candle>, interval: Interval, startTime: int, endTime: int)
    returns (retVal: seq<Candle>, batches: seq<seq<Candle>>)
    requires Orderly(fetch) && !interval.Unknown?
    ensures Rising(retVal) && Reassembled(batches) == retVal
    ensures Grid(venue, 60000 * Minutes(interval)) && Serves(fetch, venue) ==>
              retVal == if ReachesBack(venue, startTime, endTime, 60000 * Minutes(interval))
                        then Newest(InRange(venue, 0, endTime), 1000) else InRange(venue, startTime, endTime)
    ensures Grid(venue, 60000 * Minutes(interval)) && Serves(fetch, venue) ==>
              (retVal == InRange(venue, startTime, endTime) <==> !ReachesBack(venue, startTime, endTime, 60000 * Minutes(interval)))
  {
    hide *;
    retVal, batches := [], [];
    var currentEndTime := endTime;
    var intervalMs := IntervalMs(interval);
    AtLeastAMinute(interval);
    var candles := First(fetch, startTime, endTime, intervalMs);
    ghost var gridServed := Grid(venue, intervalMs) && Serves(fetch, venue);
    ghost var lo := Covered(fetch, startTime, endTime, intervalMs);
    ghost var all := InRange(venue, lo, endTime);
    Beginning(fetch, venue, intervalMs, startTime, endTime);
    NothingYet();
    while candles != []
      invariant Rising(retVal) && Rising(candles) && Reassembled(batches) == retVal
      invariant forall c :: c in candles ==> c.openTime <= currentEndTime
      invariant forall c :: c in retVal ==> currentEndTime < c.openTime
      invariant gridServed ==> Reading(venue, all, lo, currentEndTime, candles, retVal)
      invariant lo <= startTime
      invariant lo < startTime && candles != [] ==> lo == candles[0].openTime
      decreases candles != [], if candles != [] then candles[0].openTime - startTime + intervalMs else 0
    {
      var oldestTimestamp := candles[0].openTime;
      PageInFront(candles, retVal, currentEndTime);
      ReassembledAppend(batches, candles);
      if gridServed {
        NextPageReading(fetch, venue, intervalMs, all, lo, currentEndTime, candles, retVal, startTime);
      }
      batches := batches + [candles];
      retVal := candles + retVal;
      currentEndTime := oldestTimestamp - intervalMs;
      candles := Following(fetch, startTime, oldestTimestamp, currentEndTime, intervalMs);
      NextPageOrderly(fetch, startTime, oldestTimestamp, intervalMs);
    }
    if gridServed {
      Ended(venue, all, lo, currentEndTime, retVal);
      CoveredExactly(fetch, venue, intervalMs, startTime, endTime);
    }
  }

  lemma AtLeastAMinute(interval: Interval)
    requires !interval.Unknown?
    ensures 60000 * Minutes(interval) >= 60000
  {
  }

  method Following(fetch: (int, int) -> seq<Candle>, startTime: int, oldest: int, currentEndTime: int, intervalMs: int) returns (candles: seq<Candle>)
    requires currentEndTime == oldest - intervalMs
    ensures candles == NextPage(fetch, startTime, oldest, intervalMs)
  {
    candles := [];
    if startTime <= currentEndTime {
      var batchStartTime := Max(startTime, currentEndTime - LIMIT * intervalMs);
      candles := fetch(batchStartTime, currentEndTime);
    }
  }

  lemma NextPageOrderly(fetch: (int, int) -> seq<Candle>, startTime: int, oldest: int, iv: int)
    requires Orderly(fetch)
    ensures var next := NextPage(fetch, startTime, oldest, iv);
      && Rising(next) && (forall c :: c in next ==> c.openTime <= oldest - iv)
      && (oldest - iv < startTime ==> next == [])
  {
    NothingYet();
    hide Rising;
  }

  // ---- exactly when the range comes out ----

  /** A range of rising candles, split at a time within it. */
  lemma {:induction false} RangeSplits(cs: seq<Candle>, lo: int, mid: int, hi: int)
    requires Rising(cs) && lo <= mid <= hi
    ensures InRange(cs, lo, hi) == InRange(cs, lo, mid - 1) + InRange(cs, mid, hi)
  {
    if cs != [] {
      HeadAndTail(cs);
      if mid <= cs[0].openTime {
        hide InRange, Rising;
        SameRange(cs, lo, mid, hi);
        InRangeNone(cs, lo, mid - 1);
      } else {
        hide InRange, Rising;
        InRangeHead(cs, lo, hi);
        InRangeHead(cs, lo, mid - 1);
        InRangeHead(cs, mid, hi);
        RangeSplits(cs[1..], lo, mid, hi);
        Regrouped(if lo <= cs[0].openTime then [cs[0]] else [], InRange(cs[1..], lo, mid - 1), InRange(cs[1..], mid, hi));
      }
    }
  }

  lemma InRangeHead(cs: seq<Candle>, lo: int, hi: int)
    requires cs != []
    ensures InRange(cs, lo, hi) == (if lo <= cs[0].openTime <= hi then [cs[0]] else []) + InRange(cs[1..], lo, hi)
  {
  }

  lemma Regrouped(head: seq<Candle>, a: seq<Candle>, b: seq<Candle>)
    ensures head + (a + b) == (head + a) + b && [] + b == b
  {
  }

  /** The newest page of a + b begins in a exactly when there is an a and b does not fill the page. */
  lemma NewestBegins(a: seq<Candle>, b: seq<Candle>, n: nat)
    requires n > 0
    ensures var page := Newest(a + b, n);
      if a != [] && |b| < n then page != [] && page[0] in a
      else page == [] || page[0] in b
  {
  }

  /** The first page reaches back exactly when the venue's data says so. */
  lemma OvershootsIff(fetch: (int, int) -> seq<Candle>, venue: seq<Candle>, iv: int, startTime: int, endTime: int)
    requires Grid(venue, iv) && Serves(fetch, venue)
    ensures Overshoots(fetch, startTime, endTime, iv) <==> ReachesBack(venue, startTime, endTime, iv)
  {
    if startTime <= endTime && LargeRange(startTime, endTime, iv) {
      GridRises(venue, iv);
      assert FirstPage(fetch, startTime, endTime, iv) == Newest(InRange(venue, 0, endTime), LIMIT);
      hide Grid, Serves, FirstPage, InRange, Newest;
      BackIffEarlier(venue, startTime, endTime);
    }
  }

  lemma BackIffEarlier(venue: seq<Candle>, startTime: int, endTime: int)
    requires Rising(venue) && (forall c :: c in venue ==> c.openTime >= 0) && startTime <= endTime
    ensures var page := Newest(InRange(venue, 0, endTime), LIMIT);
      page != [] && page[0].openTime < startTime <==>
      |InRange(venue, startTime, endTime)| < LIMIT && exists c :: c in venue && c.openTime < startTime
  {
    var a, b := InRange(venue, 0, startTime - 1), InRange(venue, startTime, endTime);
    var page := Newest(InRange(venue, 0, endTime), LIMIT);
    if startTime < 0 {
      FirstOfNewest(InRange(venue, 0, endTime));
    } else {
      RangeSplits(venue, 0, startTime, endTime);
      hide Newest, Rising;
      NewestBegins(a, b, LIMIT);
      if c :| c in venue && c.openTime < startTime {
        assert c in a;
      }
      if a != [] {
        assert a[0] in a;
      }
    }
  }

  lemma FirstOfNewest(s: seq<Candle>)
    ensures Newest(s, LIMIT) != [] ==> Newest(s, LIMIT)[0] in s
  {
  }

  /** What the download covers, said of the venue alone. */
  lemma CoveredExactly(fetch: (int, int) -> seq<Candle>, venue: seq<Candle>, iv: int, startTime: int, endTime: int)
    requires Grid(venue, iv) && Serves(fetch, venue) && iv > 0
    ensures var got, asked := InRange(venue, Covered(fetch, startTime, endTime, iv), endTime), InRange(venue, startTime, endTime);
      && got == (if ReachesBack(venue, startTime, endTime, iv) then Newest(InRange(venue, 0, endTime), 1000) else asked)
      && (got == asked <==> !ReachesBack(venue, startTime, endTime, iv))
  {
    OvershootsIff(fetch, venue, iv, startTime, endTime);
    if Overshoots(fetch, startTime, endTime, iv) {
      var page := FirstPage(fetch, startTime, endTime, iv);
      assert page == Newest(InRange(venue, 0, endTime), LIMIT);
      GridRises(venue, iv);
      NewestSuffix(InRange(venue, 0, endTime));
      NewestFromOldest(venue, endTime, page);
      hide ReachesBack, Grid, Serves, Newest, Rising;
      assert page[0] in page && page[0] !in InRange(venue, startTime, endTime);
    } else {
      hide ReachesBack, Grid, Serves, Newest, Rising, InRange;
    }
  }

  lemma NewestSuffix(s: seq<Candle>)
    ensures IsSuffix(Newest(s, LIMIT), s)
  {
  }

  /** The input: one candle at time 0. Asked for what opens from 1 to 100000000 ms, the download returns it; the range is empty. */
  lemma LoneCandleReachesBack()
    ensures var venue := [Candle(0, 7)];
      && Grid(venue, 60000) && ReachesBack(venue, 1, 100000000, 60000)
      && InRange(venue, 1, 100000000) == [] && Newest(InRange(venue, 0, 100000000), LIMIT) == venue
  {
    var venue := [Candle(0, 7)];
    assert venue[1..] == [];
    assert venue[0] in venue && venue[0].openTime < 1;
    assert InRange(venue, 1, 100000000) == InRange(venue[1..], 1, 100000000) == [];
    assert InRange(venue, 0, 100000000) == [venue[0]] + InRange(venue[1..], 0, 100000000) == venue;
  }

  /** A grid that reaches to within one interval of the end never reaches back, so the range comes out exactly. */
  lemma GridToTheEndIsExact(venue: seq<Candle>, iv: int, startTime: int, endTime: int)
    requires Grid(venue, iv) && iv > 0
    requires exists c :: c in venue && endTime - iv < c.openTime <= endTime
    ensures !ReachesBack(venue, startTime, endTime, iv)
  {
    if startTime <= endTime && LargeRange(startTime, endTime, iv) {
      var c :| c in venue && endTime - iv < c.openTime <= endTime;
      GridRises(venue, iv);
      PageSpan(venue, iv, endTime, c, Newest(InRange(venue, 0, endTime), LIMIT));
      hide InRange, Grid, Newest, Rising;
      BackIffEarlier(venue, startTime, endTime);
    }
  }

  /**
   With an interval of no time the loop need not end: once a page's oldest candle lies in
   the range, the next request brings that candle alone, and so does every one after it.
   */
  lemma UnknownIntervalRepeats(fetch: (int, int) -> seq<Candle>, venue: seq<Candle>, c: Candle, startTime: int)
    requires Rising(venue) && Serves(fetch, venue) && c in venue && c.openTime >= Max(startTime, 0)
    ensures NextPage(fetch, startTime, c.openTime, IntervalMs(Unknown)) == [c]
  {
    hide InRange, Rising, Newest;
    var t := c.openTime;
    var r := InRange(venue, t, t);
    InRangeRising(venue, t, t);
    assert Max(startTime, t - LIMIT * 0) == t && Max(t, 0) == t;
    OnlyOne(r, c, t);
    NewestOfOne(c);
  }

  lemma NewestOfOne(c: Candle)
    ensures Newest([c], LIMIT) == [c]
  {
  }

  lemma OnlyOne(r: seq<Candle>, c: Candle, t: int)
    requires Rising(r) && c in r && forall d :: d in r ==> d.openTime == t
    ensures r == [c]
  {
    TwoApart(r, t, t);
  }

  /** Since no candle opens before time 0, what opens up to an end is a prefix of the grid. */
  lemma {:induction false} UpToIsPrefix(cs: seq<Candle>, hi: int)
    requires Rising(cs) && forall c :: c in cs ==> c.openTime >= 0
    ensures InRange(cs, 0, hi) <= cs
  {
    if cs != [] {
      HeadAndTail(cs);
      if cs[0].openTime <= hi {
        UpToIsPrefix(cs[1..], hi);
        PrefixGrows(cs, InRange(cs[1..], 0, hi));
      } else {
        hide Rising;
        InRangeNone(cs, 0, hi);
      }
    }
  }

  lemma HeadAndTail(cs: seq<Candle>)
    requires Rising(cs) && cs != []
    ensures Rising(cs[1..]) && forall c :: c in cs[1..] ==> c in cs && cs[0].openTime < c.openTime
    ensures forall c :: c in cs ==> c == cs[0] || c in cs[1..]
  {
  }

  lemma PrefixGrows<T>(cs: seq<T>, p: seq<T>)
    requires cs != [] && p <= cs[1..]
    ensures [cs[0]] + p <= cs
  {
  }

  lemma PageSpan(venue: seq<Candle>, iv: int, endTime: int, c: Candle, page: seq<Candle>)
    requires Grid(venue, iv) && iv > 0 && c in venue && c.openTime <= endTime
    requires page == Newest(InRange(venue, 0, endTime), LIMIT)
    ensures page != [] ==> page[0].openTime >= c.openTime - (LIMIT - 1) * iv
  {
    hide Grid, InRange, Rising, Newest;
    var whole := InRange(venue, 0, endTime);
    GridRises(venue, iv);
    UpToIsPrefix(venue, endTime);
    assert c in whole;
    var j :| 0 <= j < |whole| && whole[j] == c;
    NewestStart(whole);
    if page != [] {
      var k := |whole| - |page|;
      assert whole[k] == venue[k] && whole[j] == venue[j];
      GridSpan(venue, iv, k, |whole| - 1);
      LastIsLatest(venue, j, |whole| - 1);
      SpanBound(|whole| - 1 - k, iv);
    }
  }

  lemma NewestStart(s: seq<Candle>)
    ensures var page := Newest(s, LIMIT);
      |page| <= |s| && |page| <= LIMIT && (page != [] ==> page[0] == s[|s| - |page|])
  {
  }

  lemma LastIsLatest(cs: seq<Candle>, i: nat, j: nat)
    requires Rising(cs) && i <= j < |cs|
    ensures cs[i].openTime <= cs[j].openTime
  {
  }

  lemma SpanBound(n: int, iv: int)
    requires n <= LIMIT - 1 && iv > 0
    ensures n * iv <= (LIMIT - 1) * iv
  {
  }
}
