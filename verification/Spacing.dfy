/** Ordered time stamps that keep a distance, and how many of them fit in a window. */
module Spacing {
  import opened Common

  ghost predicate Ascending(ts: seq<int>) {
    forall i, j :: 0 <= i <= j < |ts| ==> ts[i] <= ts[j]
  }

  /** Any stamp is at least gap later than the one k places before it. */
  ghost predicate Spaced(ts: seq<int>, k: nat, gap: int) {
    forall i :: 0 <= i && i + k < |ts| ==> ts[i + k] - ts[i] >= gap
  }

  /** How many stamps lie in the closed window from a to b. */
  function CountIn(ts: seq<int>, a: int, b: int): nat {
    if ts == [] then 0
    else CountIn(ts[..|ts| - 1], a, b) + (if a <= ts[|ts| - 1] <= b then 1 else 0)
  }

  lemma {:induction false} CountWithin(ts: seq<int>, a: int, b: int)
    ensures CountIn(ts, a, b) <= |ts|
    ensures CountIn(ts, a, b) > 0 ==> exists i :: 0 <= i < |ts| && a <= ts[i] <= b
  {
    if ts != [] {
      CountWithin(ts[..|ts| - 1], a, b);
    }
  }

  /** The stamps counted sit next to each other: c of them span from some i to i + c - 1. */
  lemma {:induction false} CountedTogether(ts: seq<int>, a: int, b: int) returns (i: nat)
    requires Ascending(ts) && CountIn(ts, a, b) > 0
    ensures i + CountIn(ts, a, b) <= |ts|
    ensures a <= ts[i] && ts[i + CountIn(ts, a, b) - 1] <= b
  {
    var n := |ts| - 1;
    var front := ts[..n];
    if a <= ts[n] <= b {
      if CountIn(front, a, b) == 0 {
        i := n;
      } else {
        CountWithin(front, a, b);
        i := CountedTogether(front, a, b);
        LastInWindow(front, a, b, ts[n]);
        i := CountFromEnd(ts, a, b);
      }
    } else {
      i := CountedTogether(front, a, b);
    }
  }

  lemma LastInWindow(front: seq<int>, a: int, b: int, last: int)
    requires Ascending(front + [last]) && CountIn(front, a, b) > 0 && last <= b
    ensures front != [] && a <= front[|front| - 1] <= b
  {
    CountWithin(front, a, b);
    var i :| 0 <= i < |front| && a <= front[i] <= b;
    var all := front + [last];
    assert all[i] <= all[|front| - 1] <= all[|front|];
  }

  /** When the last stamp is in the window, the stamps counted are the last ones. */
  lemma {:induction false} CountFromEnd(ts: seq<int>, a: int, b: int) returns (i: nat)
    requires Ascending(ts) && ts != [] && a <= ts[|ts| - 1] <= b
    ensures i + CountIn(ts, a, b) == |ts| && i < |ts| && a <= ts[i]
  {
    var n := |ts| - 1;
    var front := ts[..n];
    assert ts == front + [ts[n]];
    if CountIn(front, a, b) == 0 {
      i := n;
    } else {
      LastInWindow(front, a, b, ts[n]);
      i := CountFromEnd(front, a, b);
    }
  }

  lemma {:induction false} SpacedFar(ts: seq<int>, k: nat, gap: nat, i: nat, m: nat)
    requires Spaced(ts, k, gap) && i + k * m < |ts|
    ensures ts[i + k * m] - ts[i] >= gap * m
  {
    if m > 0 {
      assert k * m == k * (m - 1) + k;
      assert gap * m == gap * (m - 1) + gap;
      SpacedFar(ts, k, gap, i, m - 1);
    }
  }

  lemma TooManyDoNotFit(ts: seq<int>, k: nat, gap: nat, a: int, w: nat, m: nat)
    requires Ascending(ts) && Spaced(ts, k, gap) && gap * m > w
    ensures CountIn(ts, a, a + w) <= k * m
  {
    var c := CountIn(ts, a, a + w);
    if c > k * m {
      var i := CountedTogether(ts, a, a + w);
      assert ts[i + k * m] <= ts[i + c - 1];
      SpacedFar(ts, k, gap, i, m);
    }
  }

  /** A closed window of length w holds at most k * (w / gap + 1) stamps. */
  lemma WindowBound(ts: seq<int>, k: nat, gap: nat, a: int, w: nat)
    requires Ascending(ts) && Spaced(ts, k, gap) && gap > 0
    ensures CountIn(ts, a, a + w) <= k * (w / gap + 1)
  {
    assert gap * (w / gap + 1) > w;
    TooManyDoNotFit(ts, k, gap, a, w, w / gap + 1);
  }
}
