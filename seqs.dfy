/** `Array.prototype.find`/`findIndex`, `filter` and the sum of a list, with the
    facts the stores rely on. */
module Seqs {
  import opened Types

  /** `s.findIndex(p)`, `None` for -1: the first index whose element passes. */
  function FindFirst<T>(s: seq<T>, p: T -> bool): (r: Option<nat>)
    ensures r.None? <==> forall i :: 0 <= i < |s| ==> !p(s[i])
    ensures r.Some? ==> r.value < |s| && p(s[r.value]) && forall j :: 0 <= j < r.value ==> !p(s[j])
  {
    if s == [] then None
    else if p(s[0]) then Some(0)
    else
      var rest := FindFirst(s[1..], p);
      assert forall j :: 1 <= j < |s| ==> s[j] == s[1..][j - 1];
      if rest.Some? then Some(rest.value + 1) else None
  }

  /** An index that passes with none passing before it is the one found. */
  lemma FindFirstAt<T>(s: seq<T>, p: T -> bool, k: nat)
    requires k < |s| && p(s[k]) && forall j :: 0 <= j < k ==> !p(s[j])
    ensures FindFirst(s, p) == Some(k)
  {
    var r := FindFirst(s, p);
    assert r.Some?;
    assert !(r.value < k) && !(k < r.value);
  }

  /** The first passing index depends only on which positions pass. */
  lemma FindFirstSame<T>(a: seq<T>, b: seq<T>, p: T -> bool)
    requires |a| == |b| && forall i :: 0 <= i < |a| ==> p(a[i]) == p(b[i])
    ensures FindFirst(a, p) == FindFirst(b, p)
  {
    var ra, rb := FindFirst(a, p), FindFirst(b, p);
    if ra.Some? && rb.Some? {
      assert !(ra.value < rb.value) && !(rb.value < ra.value);
    }
  }

  /** The first value `f` gives at a position from `i` to `n`: a scan that stops at
      the leftmost position where `f` succeeds. */
  function FirstSome<T>(f: nat -> Option<T>, i: nat, n: nat): Option<T>
    decreases n - i
  {
    if i > n then None else if f(i).Some? then f(i) else FirstSome(f, i + 1, n)
  }

  lemma {:induction false} FirstSomeNone<T>(f: nat -> Option<T>, i: nat, n: nat)
    ensures FirstSome(f, i, n).None? <==> forall k :: i <= k <= n ==> f(k).None?
    decreases n - i
  {
    if i <= n && f(i).None? {
      FirstSomeNone(f, i + 1, n);
    }
  }

  lemma {:induction false} FirstSomeLeftmost<T>(f: nat -> Option<T>, i: nat, n: nat, k: nat)
    requires i <= k <= n && f(k).Some? && forall j :: i <= j < k ==> f(j).None?
    ensures FirstSome(f, i, n) == f(k)
    decreases k - i
  {
    if i < k {
      FirstSomeLeftmost(f, i + 1, n, k);
    }
  }

  /** `s.filter(p)` */
  function Filter<T>(s: seq<T>, p: T -> bool): (r: seq<T>)
    ensures |r| <= |s|
    ensures forall i :: 0 <= i < |r| ==> r[i] in s && p(r[i])
    ensures forall i :: 0 <= i < |s| && p(s[i]) ==> s[i] in r
  {
    if s == [] then []
    else if p(s[0]) then [s[0]] + Filter(s[1..], p)
    else Filter(s[1..], p)
  }

  /** Filtering works piece by piece, so the kept elements stay in their order. */
  lemma {:induction false} FilterAppend<T>(a: seq<T>, b: seq<T>, p: T -> bool)
    ensures Filter(a + b, p) == Filter(a, p) + Filter(b, p)
  {
    if a == [] {
      assert a + b == b;
    } else {
      assert (a + b)[1..] == a[1..] + b;
      FilterAppend(a[1..], b, p);
    }
  }

  /** Filtering twice by the same test is filtering once. */
  lemma {:induction false} FilterIdempotent<T>(s: seq<T>, p: T -> bool)
    ensures Filter(Filter(s, p), p) == Filter(s, p)
  {
    if s != [] {
      FilterIdempotent(s[1..], p);
      if p(s[0]) {
        assert ([s[0]] + Filter(s[1..], p))[1..] == Filter(s[1..], p);
      }
    }
  }

  /** Two filters can be applied in either order. */
  lemma {:induction false} FilterCommutes<T>(s: seq<T>, p: T -> bool, q: T -> bool)
    ensures Filter(Filter(s, p), q) == Filter(Filter(s, q), p)
  {
    if s != [] {
      FilterCommutes(s[1..], p, q);
      var x := s[0];
      FilterAppend((if p(x) then [x] else []), Filter(s[1..], p), q);
      FilterAppend((if q(x) then [x] else []), Filter(s[1..], q), p);
      assert Filter(s, p) == (if p(x) then [x] else []) + Filter(s[1..], p);
      assert Filter(s, q) == (if q(x) then [x] else []) + Filter(s[1..], q);
      assert [x][1..] == [];
    }
  }

  /** A test every element passes keeps the whole list. */
  lemma {:induction false} FilterAll<T>(s: seq<T>, p: T -> bool)
    requires forall i :: 0 <= i < |s| ==> p(s[i])
    ensures Filter(s, p) == s
  {
    if s != [] {
      FilterAll(s[1..], p);
      assert [s[0]] + s[1..] == s;
    }
  }

  /** A test no element passes keeps nothing. */
  lemma {:induction false} FilterNone<T>(s: seq<T>, p: T -> bool)
    requires forall i :: 0 <= i < |s| ==> !p(s[i])
    ensures Filter(s, p) == []
  {
    if s != [] {
      FilterNone(s[1..], p);
    }
  }

  /** A test some element fails makes the list strictly shorter. */
  lemma {:induction false} FilterDrops<T>(s: seq<T>, p: T -> bool, k: nat)
    requires k < |s| && !p(s[k])
    ensures |Filter(s, p)| < |s|
  {
    if k > 0 {
      FilterDrops(s[1..], p, k - 1);
    }
  }

  /** Filtering shortens the list exactly when some element fails the test. */
  lemma FilterShorterIff<T>(s: seq<T>, p: T -> bool)
    ensures |Filter(s, p)| < |s| <==> exists i :: 0 <= i < |s| && !p(s[i])
  {
    if exists i :: 0 <= i < |s| && !p(s[i]) {
      var k :| 0 <= k < |s| && !p(s[k]);
      FilterDrops(s, p, k);
    } else {
      FilterAll(s, p);
    }
  }

  /** `s.reverse()` */
  function Reverse<T>(s: seq<T>): (r: seq<T>)
    ensures |r| == |s|
    ensures forall i :: 0 <= i < |s| ==> r[i] == s[|s| - 1 - i]
  {
    if s == [] then [] else Reverse(s[1..]) + [s[0]]
  }

  /** Reversing keeps the elements. */
  lemma {:induction false} ReverseMultiset<T>(s: seq<T>)
    ensures multiset(Reverse(s)) == multiset(s)
  {
    if s != [] {
      ReverseMultiset(s[1..]);
      assert s == [s[0]] + s[1..];
    }
  }

  /** `s.reduce((sum, x) => sum + x, 0)` */
  function Sum(s: seq<int>): int
  {
    if s == [] then 0 else s[0] + Sum(s[1..])
  }

  lemma {:induction false} SumAppend(a: seq<int>, b: seq<int>)
    ensures Sum(a + b) == Sum(a) + Sum(b)
  {
    if a == [] {
      assert a + b == b;
    } else {
      assert (a + b)[1..] == a[1..] + b;
      SumAppend(a[1..], b);
    }
  }
}
