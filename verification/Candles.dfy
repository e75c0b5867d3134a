/** Candles, the range a request names, and the venue's full list. Open times in ms. */
module Candles {
  import opened Common

  datatype Candle = Candle(openTime: int, data: int)

  ghost predicate Rising(cs: seq<Candle>) {
    forall i, j :: 0 <= i < j < |cs| ==> cs[i].openTime < cs[j].openTime
  }

  /** The candles that open in the closed range from lo to hi, in their order. */
  function InRange(cs: seq<Candle>, lo: int, hi: int): (r: seq<Candle>)
    ensures forall c :: c in r <==> c in cs && lo <= c.openTime <= hi
    ensures |r| <= |cs|
  {
    if cs == [] then []
    else if lo <= cs[0].openTime <= hi then [cs[0]] + InRange(cs[1..], lo, hi)
    else InRange(cs[1..], lo, hi)
  }

  ghost predicate IsSuffix<T>(page: seq<T>, s: seq<T>) {
    |page| <= |s| && s[|s| - |page|..] == page
  }

  lemma {:induction false} InRangeAppend(a: seq<Candle>, b: seq<Candle>, lo: int, hi: int)
    ensures InRange(a + b, lo, hi) == InRange(a, lo, hi) + InRange(b, lo, hi)
  {
    if a == [] {
      assert a + b == b;
    } else {
      assert (a + b)[1..] == a[1..] + b;
      InRangeAppend(a[1..], b, lo, hi);
    }
  }

  lemma {:induction false} InRangeAll(cs: seq<Candle>, lo: int, hi: int)
    requires forall c :: c in cs ==> lo <= c.openTime <= hi
    ensures InRange(cs, lo, hi) == cs
  {
    if cs != [] {
      assert forall c :: c in cs[1..] ==> c in cs;
      InRangeAll(cs[1..], lo, hi);
    }
  }

  lemma {:induction false} InRangeNone(cs: seq<Candle>, lo: int, hi: int)
    requires forall c :: c in cs ==> !(lo <= c.openTime <= hi)
    ensures InRange(cs, lo, hi) == []
  {
    if cs != [] {
      assert forall c :: c in cs[1..] ==> c in cs;
      InRangeNone(cs[1..], lo, hi);
    }
  }

  lemma {:induction false} InRangeRising(cs: seq<Candle>, lo: int, hi: int)
    requires Rising(cs)
    ensures Rising(InRange(cs, lo, hi))
  {
    if cs != [] {
      InRangeRising(cs[1..], lo, hi);
      assert forall c :: c in cs[1..] ==> cs[0].openTime < c.openTime;
      HeadFirst(cs[0], InRange(cs[1..], lo, hi));
      hide Rising;
    }
  }

  lemma HeadFirst(c: Candle, rest: seq<Candle>)
    requires Rising(rest) && forall d :: d in rest ==> c.openTime < d.openTime
    ensures Rising([c] + rest)
  {
  }

  /** Narrowing a range twice is narrowing it once. */
  lemma {:induction false} InRangeNarrow(cs: seq<Candle>, lo: int, hi: int, hi': int)
    requires hi' <= hi
    ensures InRange(cs, lo, hi') == InRange(InRange(cs, lo, hi), lo, hi')
  {
    if cs != [] {
      InRangeNarrow(cs[1..], lo, hi, hi');
      if lo <= cs[0].openTime <= hi {
        var rest := InRange(cs[1..], lo, hi);
        assert ([cs[0]] + rest)[1..] == rest;
      }
    }
  }

  lemma TwoApart(r: seq<Candle>, lo: int, hi: int)
    requires Rising(r) && forall c :: c in r ==> lo <= c.openTime <= hi
    ensures |r| > 1 ==> lo <= r[0].openTime < r[1].openTime <= hi
  {
  }

  /** Cutting a rising sequence at one of its elements: earlier ones open before it, the rest do not. */
  lemma CutAt(whole: seq<Candle>, k: nat)
    requires Rising(whole) && k < |whole|
    ensures forall c :: c in whole[..k] ==> c in whole && c.openTime < whole[k].openTime
    ensures forall c :: c in whole[k..] ==> c.openTime >= whole[k].openTime
  {
  }

  /**
   One backward page: when a page is the newest part of a range, what is left of the
   range is what opens before the page, whatever bound lies in the gap.
   */
  lemma BackwardPage(cs: seq<Candle>, lo: int, hi: int, page: seq<Candle>, before: int)
    requires Rising(cs) && IsSuffix(page, InRange(cs, lo, hi)) && page != []
    requires before < page[0].openTime
    requires forall c :: c in cs && c.openTime < page[0].openTime ==> c.openTime <= before
    ensures InRange(cs, lo, hi) == InRange(cs, lo, before) + page
  {
    hide *;
    var whole := InRange(cs, lo, hi);
    InRangeRising(cs, lo, hi);
    SuffixCut(whole, page);
    InRangeNarrow(cs, lo, hi, before);
    Remainder(cs, whole, |whole| - |page|, lo, hi, before);
  }

  lemma SuffixCut(whole: seq<Candle>, page: seq<Candle>)
    requires Rising(whole) && IsSuffix(page, whole) && page != []
    ensures var k := |whole| - |page|;
      && 0 <= k < |whole| && whole[k] == page[0] && whole[k] in whole && whole == whole[..k] + page
      && (forall c :: c in whole[..k] ==> c in whole && c.openTime < whole[k].openTime)
      && (forall c :: c in whole[k..] ==> c.openTime >= whole[k].openTime)
  {
    var k := |whole| - |page|;
    CutAt(whole, k);
    hide Rising;
    assert whole[k..] == page && whole[k..][0] == whole[k];
    assert whole == whole[..k] + whole[k..];
  }

  lemma Remainder(cs: seq<Candle>, whole: seq<Candle>, k: nat, lo: int, hi: int, before: int)
    requires k < |whole|
    requires forall c :: c in whole ==> c in cs && lo <= c.openTime <= hi
    requires forall c :: c in whole[..k] ==> c in whole && c.openTime < whole[k].openTime
    requires forall c :: c in whole[k..] ==> c.openTime >= whole[k].openTime
    requires before < whole[k].openTime
    requires forall c :: c in cs && c.openTime < whole[k].openTime ==> c.openTime <= before
    ensures InRange(whole, lo, before) == whole[..k]
  {
    hide InRange;
    InRangeAppend(whole[..k], whole[k..], lo, before);
    assert whole == whole[..k] + whole[k..];
    InRangeAll(whole[..k], lo, before);
    InRangeNone(whole[k..], lo, before);
  }

  /** Batches arrive newest first; put back in order they are concatenated from the last one. */
  function Reassembled(batches: seq<seq<Candle>>): seq<Candle> {
    if batches == [] then [] else Reassembled(batches[1..]) + batches[0]
  }

  lemma {:induction false} ReassembledAppend(batches: seq<seq<Candle>>, page: seq<Candle>)
    ensures Reassembled(batches + [page]) == page + Reassembled(batches)
  {
    if batches == [] {
      assert (batches + [page])[1..] == [];
    } else {
      assert (batches + [page])[1..] == batches[1..] + [page];
      ReassembledAppend(batches[1..], page);
    }
  }
}
