/** Sequences of instants that keep a distance: the common arithmetic of the
    sliding-window limiters and of the alert deduplication keys. */
module Spacing {

  /** Instants in the order they happened. */
  ghost predicate Ordered(h: seq<real>) {
    forall i, j :: 0 <= i <= j < |h| ==> h[i] <= h[j]
  }

  /** Any two entries at least `k` places apart are at least `gap` apart in time. */
  ghost predicate Spaced(h: seq<real>, k: nat, gap: real) {
    forall i, j :: 0 <= i && i + k <= j < |h| ==> h[i] + gap <= h[j]
  }

  /** Appending an instant that is `gap` after every entry at least `k` places before it. */
  lemma AppendSpaced(h: seq<real>, k: nat, gap: real, t: real)
    requires Ordered(h) && Spaced(h, k, gap)
    requires forall i :: 0 <= i < |h| ==> h[i] <= t
    requires forall i :: 0 <= i && i + k <= |h| && i < |h| ==> h[i] + gap <= t
    requires k > 0
    ensures Ordered(h + [t]) && Spaced(h + [t], k, gap)
  {
  }

  /** The positions whose instant lies in the half-open interval [from, till). */
  ghost function Within(h: seq<real>, from: real, till: real): set<int> {
    set i | 0 <= i < |h| && from <= h[i] < till
  }

  ghost function Interval(m: int, k: nat): (s: set<int>)
    ensures forall x :: x in s <==> m <= x < m + k
    ensures |s| == k
    decreases k
  {
    if k == 0 then {} else Interval(m, k - 1) + {m + k - 1}
  }

  ghost function SomeMember<T>(s: set<T>): (x: T)
    requires s != {}
    ensures x in s
  {
    var x :| x in s;
    x
  }

  lemma {:induction false} LeastElement(s: set<int>, x: int) returns (m: int)
    requires x in s
    ensures m in s && forall y :: y in s ==> m <= y
    decreases |s|
  {
    if y :| y in s && y < x {
      m := LeastElement(s - {x}, y);
      assert forall z :: z in s ==> z == x || z in s - {x};
    } else {
      m := x;
    }
  }

  lemma SubsetIsSmaller(a: set<int>, b: set<int>)
    requires a <= b
    ensures |a| <= |b|
  {
    assert b == a + (b - a);
  }

  /** A set of positions of diameter below `k` has at most `k` members. */
  lemma NarrowSetIsSmall(s: set<int>, k: nat)
    requires forall x, y :: x in s && y in s ==> y < x + k
    ensures |s| <= k
  {
    if s != {} {
      var m := LeastElement(s, SomeMember(s));
      SubsetIsSmaller(s, Interval(m, k));
    }
  }

  /** Every half-open interval of length `gap` holds at most `k` entries. */
  lemma AtMostKPerGap(h: seq<real>, k: nat, gap: real, from: real)
    requires Spaced(h, k, gap)
    ensures |Within(h, from, from + gap)| <= k
  {
    NarrowSetIsSmall(Within(h, from, from + gap), k);
  }

  /** Entries `m` places apart are at least `m` gaps apart. */
  lemma {:induction false} FarApart(h: seq<real>, gap: real, i: int, m: nat, j: int)
    requires Spaced(h, 1, gap) && gap > 0.0
    requires 0 <= i && i + m <= j < |h|
    ensures h[i] + m as real * gap <= h[j]
    decreases m
  {
    if m > 0 {
      FarApart(h, gap, i, m - 1, j - 1);
      assert m as real * gap == (m - 1) as real * gap + gap;
    }
  }

  /** A span of length `span` holds at most floor(span / gap) + 1 entries. */
  lemma AtMostPerSpan(h: seq<real>, gap: real, from: real, span: real)
    requires Spaced(h, 1, gap) && gap > 0.0 && span >= 0.0
    ensures |set i | 0 <= i < |h| && from <= h[i] <= from + span| <= (span / gap).Floor + 1
  {
    var s := set i | 0 <= i < |h| && from <= h[i] <= from + span;
    var q := (span / gap).Floor;
    assert (q + 1) as real * gap > span by {
      assert (q + 1) as real > span / gap;
      assert span / gap * gap == span;
    }
    forall x, y | x in s && y in s
      ensures y < x + (q + 1)
    {
      if y >= x + (q + 1) {
        FarApart(h, gap, x, q + 1, y);
      }
    }
    NarrowSetIsSmall(s, q + 1);
  }
}
