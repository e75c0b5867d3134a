/** Backward pagination of futures candles: requests in seconds, open times in ms. */
module FuturesCandles {
  import opened Common
  import opened Candles

  /** The venue's candles: whole seconds, at least two seconds apart. */
  ghost predicate Listing(venue: seq<Candle>) {
    && (forall c :: c in venue ==> c.openTime % 1000 == 0)
    && (forall i, j :: 0 <= i < j < |venue| ==> venue[i].openTime + 2000 <= venue[j].openTime)
  }

  /**
   How the venue answers: the newest candles of the range, in order, as many as it
   likes, but at least one when there is one.
   */
  ghost predicate Serves(fetch: (int, int) -> seq<Candle>, venue: seq<Candle>) {
    forall s, e :: IsSuffix(fetch(s, e), InRange(venue, s * 1000, e * 1000))
                && (fetch(s, e) == [] ==> InRange(venue, s * 1000, e * 1000) == [])
  }

  lemma ListingRises(venue: seq<Candle>)
    requires Listing(venue)
    ensures Rising(venue)
  {
  }

  /** No candle opens in the second right before another one, nor at all when the range is empty. */
  lemma NothingJustBefore(venue: seq<Candle>, start: int, next: Candle)
    requires Listing(venue) && next in venue && start >= next.openTime / 1000 - 1
    ensures InRange(venue, start * 1000, (next.openTime / 1000 - 1) * 1000) == []
  {
    forall c | c in venue
      ensures !(start * 1000 <= c.openTime <= (next.openTime / 1000 - 1) * 1000)
    {
      var i :| 0 <= i < |venue| && venue[i] == c;
      var j :| 0 <= j < |venue| && venue[j] == next;
      if i < j {
        assert c.openTime + 2000 <= next.openTime;
      } else if j < i {
        assert next.openTime + 2000 <= c.openTime;
      }
    }
    InRangeNone(venue, start * 1000, (next.openTime / 1000 - 1) * 1000);
  }

  /** A range of at most one second holds at most one candle. */
  lemma AtMostOne(venue: seq<Candle>, start: int, end: int)
    requires Listing(venue) && end <= start
    ensures |InRange(venue, start * 1000, end * 1000)| <= 1
  {
    var r := InRange(venue, start * 1000, end * 1000);
    ListingRises(venue);
    InRangeRising(venue, start * 1000, end * 1000);
    TwoApart(r, start * 1000, end * 1000);
  }

  /** The page just read, taken off the range. */
  lemma PageTaken(venue: seq<Candle>, start: int, end: int, page: seq<Candle>)
    requires Listing(venue) && page != [] && IsSuffix(page, InRange(venue, start * 1000, end * 1000))
    ensures page[0] in venue
    ensures var e' := page[0].openTime / 1000 - 1;
      InRange(venue, start * 1000, end * 1000) == InRange(venue, start * 1000, e' * 1000) + page
  {
    var whole := InRange(venue, start * 1000, end * 1000);
    assert whole[|whole| - |page|] == page[0] && page[0] in whole;
    var before := (page[0].openTime / 1000 - 1) * 1000;
    ListingRises(venue);
    forall c | c in venue && c.openTime < page[0].openTime
      ensures c.openTime <= before
    {
      assert c.openTime % 1000 == 0 && page[0].openTime % 1000 == 0;
    }
    BackwardPage(venue, start * 1000, end * 1000, page, before);
  }

  /**
   The download ends and returns every venue candle of the range in order, except the
   newest; the batches written, put back in order, are the full range. (When start is
   not below end nothing is requested; the range then holds at most the one candle that
   would be dropped anyway, so only the batches can miss it.)
   */
  method GetHistoricalPrices(fetch: (int, int) -> seq<Candle>, ghost venue: seq<Candle>, startTime: int, endTime: int)
    returns (retVal: seq<Candle>, batches: seq<seq<Candle>>)
    requires Listing(venue) && Serves(fetch, venue)
    ensures InRange(venue, startTime * 1000, endTime * 1000) == [] ==> retVal == []
    ensures InRange(venue, startTime * 1000, endTime * 1000) != [] ==> exists newest ::
              && retVal + [newest] == InRange(venue, startTime * 1000, endTime * 1000)
              && forall c :: c in retVal ==> c.openTime < newest.openTime
    ensures Reassembled(batches) == InRange(venue, startTime * 1000, endTime * 1000)
       <==> startTime < endTime || InRange(venue, startTime * 1000, endTime * 1000) == []
  {
    hide InRange, Listing, Rising, Serves, IsSuffix, Reassembled;
    retVal, batches := [], [];
    var currentEndTime := endTime;
    var candles: seq<Candle> := [];
    if startTime < currentEndTime {
      candles := fetch(startTime, currentEndTime);
      Brought(fetch, venue, startTime, currentEndTime);
    } else {
      AtMostOne(venue, startTime, endTime);
    }
    ghost var all := InRange(venue, startTime * 1000, endTime * 1000);
    ghost var rest := all;
    NothingWritten();
    while candles != []
      invariant startTime < endTime ==> all == rest + retVal
      invariant startTime >= endTime ==> retVal == [] && candles == []
      invariant rest == InRange(venue, startTime * 1000, currentEndTime * 1000)
      invariant candles != [] ==> IsSuffix(candles, rest)
      invariant startTime < endTime && candles == [] ==> rest == []
      invariant Reassembled(batches) == retVal
      decreases |rest|
    {
      var oldestTimestamp := candles[0].openTime;
      PageTaken(venue, startTime, currentEndTime, candles);
      ReassembledAppend(batches, candles);
      batches := batches + [candles];
      retVal := candles + retVal;
      ghost var oldest := candles[0];
      currentEndTime := oldestTimestamp / 1000 - 1;
      rest := InRange(venue, startTime * 1000, currentEndTime * 1000);
      candles := [];
      if startTime < currentEndTime {
        candles := fetch(startTime, currentEndTime);
        Brought(fetch, venue, startTime, currentEndTime);
      } else {
        NothingJustBefore(venue, startTime, oldest);
      }
    }
    OnlyNewestDropped(venue, startTime, endTime);
    if retVal != [] {
      retVal := retVal[..|retVal| - 1];
    }
  }

  /** The last candle of a range is its newest. */
  lemma OnlyNewestDropped(venue: seq<Candle>, start: int, end: int)
    requires Listing(venue)
    ensures var r := InRange(venue, start * 1000, end * 1000);
      r != [] ==> r[..|r| - 1] + [r[|r| - 1]] == r && forall c :: c in r[..|r| - 1] ==> c.openTime < r[|r| - 1].openTime
  {
    ListingRises(venue);
    InRangeRising(venue, start * 1000, end * 1000);
    hide InRange, Listing;
  }

  lemma Brought(fetch: (int, int) -> seq<Candle>, venue: seq<Candle>, s: int, e: int)
    requires Serves(fetch, venue)
    ensures IsSuffix(fetch(s, e), InRange(venue, s * 1000, e * 1000))
    ensures fetch(s, e) == [] ==> InRange(venue, s * 1000, e * 1000) == []
  {
    hide InRange, IsSuffix;
  }

  lemma NothingWritten()
    ensures Reassembled([]) == []
  {
  }
}
