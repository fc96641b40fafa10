/** Counting and filtering over sequences (the `filter(...).length` and
    `filter(...)` idiom of the routes and components), and Math.round on an
    exact quotient. */
module Seqs {

  /** `s.filter(p).length` */
  function Count<T>(s: seq<T>, p: T -> bool): (n: nat)
    ensures n <= |s|
  {
    if s == [] then 0 else (if p(s[0]) then 1 else 0) + Count(s[1..], p)
  }

  /** `s.filter(p)` */
  function Filter<T>(s: seq<T>, p: T -> bool): (r: seq<T>)
    ensures |r| <= |s|
    ensures forall k :: 0 <= k < |r| ==> p(r[k])
  {
    if s == [] then []
    else if p(s[0]) then [s[0]] + Filter(s[1..], p) else Filter(s[1..], p)
  }

  /** A filter keeps exactly as many elements as the count says. */
  lemma {:induction false} FilterLength<T>(s: seq<T>, p: T -> bool)
    ensures |Filter(s, p)| == Count(s, p)
  {
    if s != [] {
      FilterLength(s[1..], p);
    }
  }

  /** The filter keeps exactly the elements that satisfy `p`. */
  lemma {:induction false} FilterMembers<T>(s: seq<T>, p: T -> bool, x: T)
    ensures x in Filter(s, p) <==> x in s && p(x)
  {
    if s != [] {
      FilterMembers(s[1..], p, x);
      assert s == [s[0]] + s[1..];
    }
  }

  /** Counting over a concatenation adds up. */
  lemma {:induction false} CountConcat<T>(s: seq<T>, t: seq<T>, p: T -> bool)
    ensures Count(s + t, p) == Count(s, p) + Count(t, p)
  {
    if s != [] {
      CountConcat(s[1..], t, p);
      assert (s + t)[0] == s[0] && (s + t)[1..] == s[1..] + t;
    } else {
      assert s + t == t;
    }
  }

  /** Filtering distributes over a concatenation, keeping the order. */
  lemma {:induction false} FilterConcat<T>(s: seq<T>, t: seq<T>, p: T -> bool)
    ensures Filter(s + t, p) == Filter(s, p) + Filter(t, p)
  {
    if s == [] {
      assert s + t == t;
    } else {
      var u := s + t;
      assert u != [] && u[0] == s[0] && u[1..] == s[1..] + t;
      FilterConcat(s[1..], t, p);
      if p(s[0]) {
        assert Filter(u, p) == [s[0]] + Filter(u[1..], p);
        assert Filter(s, p) == [s[0]] + Filter(s[1..], p);
      } else {
        assert Filter(u, p) == Filter(u[1..], p);
        assert Filter(s, p) == Filter(s[1..], p);
      }
    }
  }

  /** Every element is counted by `p` or by its negation, never both. */
  lemma {:induction false} CountComplement<T>(s: seq<T>, p: T -> bool, q: T -> bool)
    requires forall x :: q(x) == !p(x)
    ensures Count(s, p) + Count(s, q) == |s|
  {
    if s != [] {
      CountComplement(s[1..], p, q);
    }
  }

  /** An element satisfies `p` somewhere in the sequence exactly when the
      count is positive. */
  lemma {:induction false} CountPositive<T>(s: seq<T>, p: T -> bool)
    ensures Count(s, p) > 0 <==> exists k :: 0 <= k < |s| && p(s[k])
  {
    if s != [] {
      CountPositive(s[1..], p);
      if p(s[0]) {
      } else if exists k :: 0 <= k < |s| && p(s[k]) {
        var k :| 0 <= k < |s| && p(s[k]);
        assert k > 0 && p(s[1..][k - 1]);
      }
      if exists k :: 0 <= k < |s| - 1 && p(s[1..][k]) {
        var k :| 0 <= k < |s| - 1 && p(s[1..][k]);
        assert p(s[k + 1]);
      }
    }
  }

  /** `Math.round(n / d)` for an exact quotient with positive divisor: the
      nearest integer, halves rounded up. */
  function RoundDiv(n: int, d: int): (r: int)
    requires d > 0
    ensures 2 * d * r <= 2 * n + d < 2 * d * (r + 1)
  {
    (2 * n + d) / (2 * d)
  }
}
