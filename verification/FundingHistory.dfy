/** Funding rate history of a contract: pages newest first, filtered, stopped early, sorted. */
module FundingHistory {
  import opened Common

  const PAGE_SIZE := 1000

  datatype Rate = Rate(symbol: string, fundingRate: real, settleTime: int)
  datatype Page = Page(resultList: seq<Rate>, totalPage: int)
  datatype FundingRate = FundingRate(symbol: string, fundingRate: real, fundingTime: int)

  function Convert(r: Rate): FundingRate {
    FundingRate(r.symbol, r.fundingRate, r.settleTime)
  }

  predicate Wanted(r: Rate, startTime: int, endTime: int) {
    startTime <= r.settleTime <= endTime
  }

  /** The rates on pages 1 to n. */
  function Joined(fetch: (int, int) -> Page, n: nat): seq<Rate> {
    if n == 0 then [] else Joined(fetch, n - 1) + fetch(n, PAGE_SIZE).resultList
  }

  ghost predicate Falling(rs: seq<Rate>) {
    forall i, j :: 0 <= i < j < |rs| ==> rs[i].settleTime > rs[j].settleTime
  }

  function PageCount(fetch: (int, int) -> Page): nat {
    Max(fetch(1, PAGE_SIZE).totalPage, 1)
  }

  /** The venue's whole history, newest first. The first page is read even when no page is announced. */
  function History(fetch: (int, int) -> Page): seq<Rate> {
    Joined(fetch, PageCount(fetch))
  }

  /** Every page announces the same number of pages, none before the last is empty, and times fall throughout. */
  ghost predicate Serves(fetch: (int, int) -> Page) {
    && (forall n :: 1 <= n <= PageCount(fetch) ==> fetch(n, PAGE_SIZE).totalPage == fetch(1, PAGE_SIZE).totalPage)
    && (forall n :: 1 <= n < PageCount(fetch) ==> fetch(n, PAGE_SIZE).resultList != [])
    && Falling(History(fetch))
  }

  ghost predicate Sorted(fs: seq<FundingRate>) {
    forall i, j :: 0 <= i < j < |fs| ==> fs[i].fundingTime <= fs[j].fundingTime
  }

  ghost predicate Rising(fs: seq<FundingRate>) {
    forall i, j :: 0 <= i < j < |fs| ==> fs[i].fundingTime < fs[j].fundingTime
  }

  /** What the filter keeps of rs, in the order read. */
  function Kept(rs: seq<Rate>, startTime: int, endTime: int): seq<FundingRate> {
    if rs == [] then []
    else
      var last := rs[|rs| - 1];
      Kept(rs[..|rs| - 1], startTime, endTime) + (if Wanted(last, startTime, endTime) then [Convert(last)] else [])
  }

  lemma {:induction false} KeptAppend(a: seq<Rate>, b: seq<Rate>, startTime: int, endTime: int)
    ensures Kept(a + b, startTime, endTime) == Kept(a, startTime, endTime) + Kept(b, startTime, endTime)
  {
    if b == [] {
      assert a + b == a;
    } else {
      var n := |b| - 1;
      assert (a + b)[..|a + b| - 1] == a + b[..n];
      KeptAppend(a, b[..n], startTime, endTime);
    }
  }

  /** The filter keeps exactly the wanted rates. */
  lemma {:induction false} KeptExactly(rs: seq<Rate>, startTime: int, endTime: int)
    ensures forall r :: r in rs && Wanted(r, startTime, endTime) ==> Convert(r) in Kept(rs, startTime, endTime)
    ensures forall f :: f in Kept(rs, startTime, endTime) ==>
              exists r :: r in rs && Wanted(r, startTime, endTime) && f == Convert(r)
  {
    if rs != [] {
      var n := |rs| - 1;
      assert rs == rs[..n] + [rs[n]];
      KeptExactly(rs[..n], startTime, endTime);
    }
  }

  ghost predicate FallingTimes(fs: seq<FundingRate>) {
    forall i, j :: 0 <= i < j < |fs| ==> fs[i].fundingTime > fs[j].fundingTime
  }

  lemma {:induction false} KeptFalls(rs: seq<Rate>, startTime: int, endTime: int)
    requires Falling(rs)
    ensures FallingTimes(Kept(rs, startTime, endTime))
  {
    if rs != [] {
      var n := |rs| - 1;
      KeptFalls(rs[..n], startTime, endTime);
      KeptExactly(rs[..n], startTime, endTime);
      LastIsOldest(rs);
      OneMore(Kept(rs[..n], startTime, endTime), Convert(rs[n]));
    }
  }

  lemma LastIsOldest(rs: seq<Rate>)
    requires Falling(rs) && rs != []
    ensures forall r :: r in rs[..|rs| - 1] ==> r.settleTime > rs[|rs| - 1].settleTime
  {
  }

  lemma OneMore(fs: seq<FundingRate>, f: FundingRate)
    requires FallingTimes(fs) && forall g :: g in fs ==> g.fundingTime > f.fundingTime
    ensures FallingTimes(fs + [f])
  {
    assert forall i :: 0 <= i < |fs| ==> fs[i] in fs;
  }

  lemma {:induction false} KeptNone(rs: seq<Rate>, startTime: int, endTime: int)
    requires forall r :: r in rs ==> r.settleTime < startTime
    ensures Kept(rs, startTime, endTime) == []
  {
    if rs != [] {
      assert forall r :: r in rs[..|rs| - 1] ==> r in rs;
      KeptNone(rs[..|rs| - 1], startTime, endTime);
    }
  }

  lemma HeadOnce(fs: seq<FundingRate>)
    requires FallingTimes(fs) && fs != []
    ensures fs[0] !in fs[1..]
  {
  }

  lemma {:induction false} FallingOnce(fs: seq<FundingRate>, f: FundingRate)
    requires FallingTimes(fs)
    ensures multiset(fs)[f] <= 1
  {
    if fs != [] {
      assert fs == [fs[0]] + fs[1..];
      FallingOnce(fs[1..], f);
      HeadOnce(fs);
    }
  }

  /** Sorting a sequence of distinct times gives strictly rising times. */
  lemma SortedRises(fs: seq<FundingRate>, sorted: seq<FundingRate>)
    requires FallingTimes(fs) && Sorted(sorted) && multiset(sorted) == multiset(fs)
    ensures Rising(sorted)
    ensures forall f :: f in sorted <==> f in fs
  {
    assert forall f :: f in sorted <==> f in multiset(sorted);
    assert forall f :: f in fs <==> f in multiset(fs);
    forall i, j | 0 <= i < j < |sorted|
      ensures sorted[i].fundingTime < sorted[j].fundingTime
    {
      if sorted[i].fundingTime == sorted[j].fundingTime {
        var f := sorted[i];
        SameTimeSame(fs, f, sorted[j]);
        Twice(sorted, i, j);
        FallingOnce(fs, f);
      }
    }
  }

  lemma SameTimeSame(fs: seq<FundingRate>, f: FundingRate, g: FundingRate)
    requires FallingTimes(fs) && f in fs && g in fs && f.fundingTime == g.fundingTime
    ensures f == g
  {
  }

  lemma Twice(fs: seq<FundingRate>, i: nat, j: nat)
    requires i < j < |fs| && fs[i] == fs[j]
    ensures multiset(fs)[fs[i]] >= 2
  {
    assert fs == fs[..j] + fs[j..];
    assert fs[..j][i] == fs[i] && fs[j..][0] == fs[j];
    assert fs[i] in multiset(fs[..j]) && fs[j] in multiset(fs[j..]);
  }

  lemma Inserted(fs: seq<FundingRate>, i: nat, f: FundingRate)
    requires Sorted(fs) && i <= |fs|
    requires i > 0 ==> fs[i - 1].fundingTime <= f.fundingTime
    requires i < |fs| ==> f.fundingTime <= fs[i].fundingTime
    ensures Sorted(fs[..i] + [f] + fs[i..])
  {
  }

  lemma InsertedOne(fs: seq<FundingRate>, i: nat, f: FundingRate)
    requires i <= |fs|
    ensures multiset(fs[..i] + [f] + fs[i..]) == multiset(fs) + multiset{f}
  {
    assert fs == fs[..i] + fs[i..];
  }

  /** Insertion of f before the first later rate. */
  method InsertByTime(fs: seq<FundingRate>, f: FundingRate) returns (r: seq<FundingRate>)
    requires Sorted(fs)
    ensures Sorted(r) && multiset(r) == multiset(fs) + multiset{f}
  {
    var i := |fs|;
    while i > 0 && f.fundingTime < fs[i - 1].fundingTime
      invariant 0 <= i <= |fs|
      invariant i < |fs| ==> f.fundingTime < fs[i].fundingTime
    {
      i := i - 1;
    }
    r := fs[..i] + [f] + fs[i..];
    hide Sorted;
    Inserted(fs, i, f);
    InsertedOne(fs, i, f);
  }

  method SortByTime(fs: seq<FundingRate>) returns (r: seq<FundingRate>)
    ensures Sorted(r) && multiset(r) == multiset(fs)
  {
    r := [];
    for k := 0 to |fs|
      invariant Sorted(r) && multiset(r) == multiset(fs[..k])
    {
      r := InsertByTime(r, fs[k]);
      assert fs[..k + 1] == fs[..k] + [fs[k]];
    }
    assert fs[..|fs|] == fs;
  }

  lemma JoinedLonger(fetch: (int, int) -> Page, m: nat, n: nat) returns (rest: seq<Rate>)
    requires m <= n
    ensures Joined(fetch, n) == Joined(fetch, m) + rest
    decreases n - m
  {
    if m == n {
      rest := [];
    } else {
      var before := JoinedLonger(fetch, m, n - 1);
      rest := before + fetch(n, PAGE_SIZE).resultList;
    }
  }

  /** Once a page ends before startTime, no later page holds a wanted rate. */
  lemma RestIsOlder(fetch: (int, int) -> Page, n: nat, startTime: int, endTime: int)
    requires Serves(fetch) && 1 <= n <= PageCount(fetch)
    requires var page := fetch(n, PAGE_SIZE).resultList; page != [] && page[|page| - 1].settleTime < startTime
    ensures Kept(History(fetch), startTime, endTime) == Kept(Joined(fetch, n), startTime, endTime)
  {
    var rest := JoinedLonger(fetch, n, PageCount(fetch));
    var read := Joined(fetch, n);
    var page := fetch(n, PAGE_SIZE).resultList;
    assert read[|read| - 1] == page[|page| - 1];
    OlderAfter(read, rest, startTime);
    KeptNone(rest, startTime, endTime);
    KeptAppend(read, rest, startTime, endTime);
  }

  lemma OlderAfter(read: seq<Rate>, rest: seq<Rate>, startTime: int)
    requires read != [] && Falling(read + rest) && read[|read| - 1].settleTime < startTime
    ensures forall r :: r in rest ==> r.settleTime < startTime
  {
    var all := read + rest;
    forall r | r in rest
      ensures r.settleTime < startTime
    {
      var i :| 0 <= i < |rest| && rest[i] == r;
      assert all[|read| - 1].settleTime > all[|read| + i].settleTime;
    }
  }

  /** Page n ends the download: it is the last announced, empty, or reaches back before startTime. */
  ghost predicate LastPage(page: Page, n: int, startTime: int) {
    || n >= page.totalPage
    || page.resultList == []
    || page.resultList[|page.resultList| - 1].settleTime < startTime
  }

  /** Where the download stops, the rates kept so far are all the wanted ones. */
  lemma StoppedComplete(fetch: (int, int) -> Page, n: nat, startTime: int, endTime: int)
    requires Serves(fetch) && 1 <= n <= PageCount(fetch) && LastPage(fetch(n, PAGE_SIZE), n, startTime)
    ensures Kept(Joined(fetch, n), startTime, endTime) == Kept(History(fetch), startTime, endTime)
  {
    if n < PageCount(fetch) {
      RestIsOlder(fetch, n, startTime, endTime);
    }
  }

  /**
   The download ends. It reads the pages up to the first one that ends the history or
   ends before startTime, and returns exactly the venue's rates that settle between
   startTime and endTime, in strictly rising order of time.
   */
  method GetHistoricalFundingRates(fetch: (int, int) -> Page, startTime: int, endTime: int)
    returns (retVal: seq<FundingRate>, pagesRead: nat)
    requires Serves(fetch)
    ensures Rising(retVal)
    ensures forall r :: r in History(fetch) && startTime <= r.settleTime <= endTime ==>
              FundingRate(r.symbol, r.fundingRate, r.settleTime) in retVal
    ensures forall f :: f in retVal ==>
              && startTime <= f.fundingTime <= endTime
              && Rate(f.symbol, f.fundingRate, f.fundingTime) in History(fetch)
    ensures 1 <= pagesRead <= PageCount(fetch) && LastPage(fetch(pagesRead, 1000), pagesRead, startTime)
    ensures forall n :: 1 <= n < pagesRead ==> !LastPage(fetch(n, 1000), n, startTime)
  {
    hide *;
    retVal, pagesRead := ReadPages(fetch, startTime, endTime);
    ghost var found := retVal;
    FallsThroughout(fetch);
    KeptFalls(History(fetch), startTime, endTime);
    retVal := SortByTime(retVal);
    SortedRises(found, retVal);
    AsListed(History(fetch), startTime, endTime, found, retVal);
  }

  lemma FallsThroughout(fetch: (int, int) -> Page)
    requires Serves(fetch)
    ensures Falling(History(fetch))
  {
    hide Falling, History;
  }

  /** What the filter keeps, reordered, is told rate by rate. */
  lemma AsListed(history: seq<Rate>, startTime: int, endTime: int, found: seq<FundingRate>, sorted: seq<FundingRate>)
    requires found == Kept(history, startTime, endTime) && forall f :: f in sorted <==> f in found
    ensures forall r :: r in history && startTime <= r.settleTime <= endTime ==>
              FundingRate(r.symbol, r.fundingRate, r.settleTime) in sorted
    ensures forall f :: f in sorted ==>
              && startTime <= f.fundingTime <= endTime
              && Rate(f.symbol, f.fundingRate, f.fundingTime) in history
  {
    KeptExactly(history, startTime, endTime);
    hide Kept;
    forall r | r in history && startTime <= r.settleTime <= endTime
      ensures FundingRate(r.symbol, r.fundingRate, r.settleTime) in sorted
    {
      assert Wanted(r, startTime, endTime);
    }
  }

  /** The loop over the pages. */
  method ReadPages(fetch: (int, int) -> Page, startTime: int, endTime: int) returns (found: seq<FundingRate>, pagesRead: nat)
    requires Serves(fetch)
    ensures found == Kept(History(fetch), startTime, endTime)
    ensures 1 <= pagesRead <= PageCount(fetch) && LastPage(fetch(pagesRead, 1000), pagesRead, startTime)
    ensures forall n :: 1 <= n < pagesRead ==> !LastPage(fetch(n, 1000), n, startTime)
  {
    hide Falling, Kept;
    found := [];
    NothingKept(fetch, startTime, endTime);
    var pageNum := 1;
    while true
      invariant 1 <= pageNum <= PageCount(fetch)
      invariant found == Kept(Joined(fetch, pageNum - 1), startTime, endTime)
      invariant forall n :: 1 <= n < pageNum ==> !LastPage(fetch(n, 1000), n, startTime)
      decreases PageCount(fetch) - pageNum
    {
      var page := fetch(pageNum, PAGE_SIZE);
      var kept := KeepWanted(page.resultList, startTime, endTime);
      found := found + kept;
      KeptAppend(Joined(fetch, pageNum - 1), page.resultList, startTime, endTime);
      if pageNum >= page.totalPage || page.resultList == [] {
        break;
      }
      if page.resultList != [] && page.resultList[|page.resultList| - 1].settleTime < startTime {
        break;
      }
      pageNum := pageNum + 1;
    }
    pagesRead := pageNum;
    StoppedComplete(fetch, pageNum, startTime, endTime);
  }

  lemma NothingKept(fetch: (int, int) -> Page, startTime: int, endTime: int)
    ensures Kept(Joined(fetch, 0), startTime, endTime) == []
  {
  }

  /** The loop over one page. */
  method KeepWanted(resultList: seq<Rate>, startTime: int, endTime: int) returns (kept: seq<FundingRate>)
    ensures kept == Kept(resultList, startTime, endTime)
  {
    kept := [];
    for i := 0 to |resultList|
      invariant kept == Kept(resultList[..i], startTime, endTime)
    {
      var rate := resultList[i];
      assert resultList[..i + 1][..i] == resultList[..i];
      if rate.settleTime >= startTime && rate.settleTime <= endTime {
        kept := kept + [FundingRate(rate.symbol, rate.fundingRate, rate.settleTime)];
      }
    }
    assert resultList[..|resultList|] == resultList;
  }
}
