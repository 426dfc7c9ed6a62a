/**
 * The JavaScript built-ins the dashboard relies on, stated in Dafny's terms:
 * truthiness of optional strings, `String.prototype.slice`, `includes`,
 * `toLowerCase`, `charAt(0).toUpperCase() + slice(1)`, `Math.random()`,
 * non-finite numbers, and `Array.prototype.filter` / `find`.
 * Case mapping covers ASCII letters only.
 */
module Js {
  import opened Wrappers

  // ---------------------------------------------------------------------------
  // Truthiness and fallbacks

  /** A string-or-nullish value is truthy when it is present and not "". */
  predicate Truthy(s: Option<string>) {
    s.Some? && s.value != ""
  }

  /**
   * `s || fallback` for a string-or-nullish value. The contract is the
   * operator's own definition; the fallbacks built on it state the rest.
   */
  function OrElse(s: Option<string>, fallback: string): (r: string)
    ensures Truthy(s) ==> r == s.value
    ensures !Truthy(s) ==> r == fallback
  {
    if Truthy(s) then s.value else fallback
  }

  // ---------------------------------------------------------------------------
  // Numbers

  /** A JavaScript number: a finite value, or NaN / an infinity. */
  datatype Num = Finite(value: real) | NonFinite

  /** A result of `Math.random()`. */
  predicate IsRandom(r: real) {
    0.0 <= r < 1.0
  }

  /** Every element of the sequence is a result of `Math.random()`. */
  predicate AllRandom(draws: seq<real>) {
    forall k :: 0 <= k < |draws| ==> IsRandom(draws[k])
  }

  function Min(a: int, b: int): int { if a <= b then a else b }

  // ---------------------------------------------------------------------------
  // String.prototype.slice

  /**
   * The index normalisation of `slice`: a negative index counts back from the
   * end, and the result is clamped into [0, len].
   */
  function ClampIndex(i: int, len: nat): (r: nat)
    ensures r <= len
    ensures 0 <= i ==> r == Min(i, len)
    ensures i < 0 ==> r == if len + i < 0 then 0 else len + i
  {
    if i < 0 then (if len + i < 0 then 0 else len + i)
    else if i <= len then i
    else len
  }

  /** `s.slice(start, end)`: empty when the clamped start is not before the clamped end. */
  function Slice(s: string, start: int, end: int): (r: string)
    ensures |r| <= |s|
  {
    var a := ClampIndex(start, |s|);
    var b := ClampIndex(end, |s|);
    if a < b then s[a..b] else ""
  }

  /** `s.slice(start)`. */
  function SliceFrom(s: string, start: int): (r: string)
    ensures |r| <= |s|
  {
    Slice(s, start, |s|)
  }

  /** `s.slice(0, n)` is the first min(n, |s|) characters. */
  lemma SlicePrefix(s: string, n: nat)
    ensures Slice(s, 0, n) == s[..Min(n, |s|)]
  {
  }

  /** `s.slice(-n)` is the last min(n, |s|) characters. */
  lemma SliceSuffix(s: string, n: int)
    requires n > 0
    ensures SliceFrom(s, -n) == s[|s| - Min(n, |s|)..]
  {
  }

  // ---------------------------------------------------------------------------
  // String.prototype.includes

  /** `s` starts with `p`. */
  predicate StartsWith(s: string, p: string) {
    |p| <= |s| && s[..|p|] == p
  }

  /** `q` occurs in `s` starting at position `i`. */
  ghost predicate OccursAt(q: string, s: string, i: int) {
    0 <= i <= |s| - |q| && s[i..i + |q|] == q
  }

  /** `q` occurs in `s` at some position. */
  ghost predicate OccursIn(q: string, s: string) {
    exists i :: OccursAt(q, s, i)
  }

  /** Without a match at position 0, `q` occurs in `s` iff it occurs in `s[1..]`. */
  lemma OccursInTail(q: string, s: string)
    requires s != [] && !StartsWith(s, q)
    ensures OccursIn(q, s) <==> OccursIn(q, s[1..])
  {
    if OccursIn(q, s) {
      var i :| OccursAt(q, s, i);
      assert i != 0;
      assert s[1..][i - 1..i - 1 + |q|] == s[i..i + |q|];
      assert OccursAt(q, s[1..], i - 1);
    }
    if OccursIn(q, s[1..]) {
      var i :| OccursAt(q, s[1..], i);
      assert s[i + 1..i + 1 + |q|] == s[1..][i..i + |q|];
      assert OccursAt(q, s, i + 1);
    }
  }

  /** `s.includes(q)`: scans the start positions of `s` from left to right. */
  function Includes(s: string, q: string): (r: bool)
    ensures r <==> OccursIn(q, s)
    decreases |s|
  {
    if StartsWith(s, q) then
      assert OccursAt(q, s, 0);
      true
    else if s == [] then
      false
    else
      OccursInTail(q, s);
      Includes(s[1..], q)
  }

  /** Every string includes the empty string. */
  lemma IncludesEmpty(s: string)
    ensures Includes(s, "")
  {
    assert OccursAt("", s, 0);
  }

  // ---------------------------------------------------------------------------
  // Case mapping (ASCII)

  function LowerChar(c: char): char {
    if 'A' <= c <= 'Z' then (c as int + 32) as char else c
  }

  function UpperChar(c: char): char {
    if 'a' <= c <= 'z' then (c as int - 32) as char else c
  }

  /** `s.toLowerCase()`, character by character. */
  function ToLower(s: string): (r: string)
    ensures |r| == |s|
    ensures forall i :: 0 <= i < |s| ==> r[i] == LowerChar(s[i])
  {
    seq(|s|, i requires 0 <= i < |s| => LowerChar(s[i]))
  }

  /** Lower-casing is idempotent: no upper-case letter survives it. */
  lemma ToLowerIdempotent(s: string)
    ensures ToLower(ToLower(s)) == ToLower(s)
  {
  }

  /** `s.charAt(0).toUpperCase() + s.slice(1)`. */
  function Capitalize(s: string): (r: string)
    ensures |r| == |s|
    ensures s != "" ==> r[0] == UpperChar(s[0]) && r[1..] == s[1..]
  {
    if s == "" then "" else [UpperChar(s[0])] + SliceFrom(s, 1)
  }

  // ---------------------------------------------------------------------------
  // Array.prototype.filter and find

  /** `s.filter(p)`: the elements that satisfy `p`, in their original order. */
  function Filter<T>(s: seq<T>, p: T -> bool): (r: seq<T>)
    ensures |r| <= |s|
  {
    if s == [] then []
    else (if p(s[0]) then [s[0]] else []) + Filter(s[1..], p)
  }

  /** What a filter keeps: only elements of the input that satisfy `p`, and all of them. */
  lemma {:induction false} FilterMembers<T>(s: seq<T>, p: T -> bool)
    ensures forall k :: 0 <= k < |Filter(s, p)| ==> Filter(s, p)[k] in s && p(Filter(s, p)[k])
    ensures forall k :: 0 <= k < |s| && p(s[k]) ==> s[k] in Filter(s, p)
  {
    if s != [] {
      FilterMembers(s[1..], p);
      var r := Filter(s, p);
      var rest := Filter(s[1..], p);
      assert r == (if p(s[0]) then [s[0]] else []) + rest;
      forall k | 0 <= k < |r|
        ensures r[k] in s && p(r[k])
      {
        if !p(s[0]) || k > 0 {
          var j := if p(s[0]) then k - 1 else k;
          assert r[k] == rest[j];
        }
      }
      forall k | 0 <= k < |s| && p(s[k])
        ensures s[k] in r
      {
        if k > 0 {
          assert s[k] == s[1..][k - 1];
        }
      }
    }
  }

  /** `a` is obtained from `b` by deleting elements, keeping the order of the rest. */
  ghost predicate IsSubsequence<T>(a: seq<T>, b: seq<T>)
    decreases |b|
  {
    a == [] || (b != [] && ((a[0] == b[0] && IsSubsequence(a[1..], b[1..])) || IsSubsequence(a, b[1..])))
  }

  /** The result of a filter is an order-preserving subsequence of its input. */
  lemma {:induction false} FilterIsSubsequence<T>(s: seq<T>, p: T -> bool)
    ensures IsSubsequence(Filter(s, p), s)
  {
    if s != [] {
      FilterIsSubsequence(s[1..], p);
      var rest := Filter(s[1..], p);
      if p(s[0]) {
        assert Filter(s, p) == [s[0]] + rest;
        assert ([s[0]] + rest)[1..] == rest;
      } else {
        assert Filter(s, p) == rest;
      }
    }
  }

  /** How many copies of `x` a filter keeps: every copy when `p(x)` holds, none otherwise. */
  lemma {:induction false} FilterMultiset<T>(s: seq<T>, p: T -> bool, x: T)
    ensures multiset(Filter(s, p))[x] == if p(x) then multiset(s)[x] else 0
  {
    if s != [] {
      FilterMultiset(s[1..], p, x);
      var head := if p(s[0]) then [s[0]] else [];
      assert s == [s[0]] + s[1..];
      assert multiset(s) == multiset{s[0]} + multiset(s[1..]);
      assert multiset(Filter(s, p)) == multiset(head) + multiset(Filter(s[1..], p));
    }
  }

  /** Filtering with a predicate every element satisfies changes nothing. */
  lemma {:induction false} FilterKeepsAll<T>(s: seq<T>, p: T -> bool)
    requires forall k :: 0 <= k < |s| ==> p(s[k])
    ensures Filter(s, p) == s
  {
    if s != [] {
      FilterKeepsAll(s[1..], p);
      assert [s[0]] + s[1..] == s;
    }
  }

  /** Filtering twice with the same predicate is filtering once. */
  lemma FilterIdempotent<T>(s: seq<T>, p: T -> bool)
    ensures Filter(Filter(s, p), p) == Filter(s, p)
  {
    FilterMembers(s, p);
    FilterKeepsAll(Filter(s, p), p);
  }

  /** Predicates that agree on every element filter alike. */
  lemma {:induction false} FilterSamePredicate<T>(s: seq<T>, p: T -> bool, q: T -> bool)
    requires forall k :: 0 <= k < |s| ==> p(s[k]) == q(s[k])
    ensures Filter(s, p) == Filter(s, q)
  {
    if s != [] {
      FilterSamePredicate(s[1..], p, q);
    }
  }

  /** `p` holds of `s[i]` and of no earlier element. */
  ghost predicate FirstMatch<T>(s: seq<T>, p: T -> bool, i: int) {
    0 <= i < |s| && p(s[i]) && forall j :: 0 <= j < i ==> !p(s[j])
  }

  /** When `p` fails on `s[0]`, first matches in `s` are first matches in `s[1..]`, one place later. */
  lemma FirstMatchInTail<T>(s: seq<T>, p: T -> bool)
    requires s != [] && !p(s[0])
    ensures (forall k :: 0 <= k < |s| ==> !p(s[k])) <==> (forall k :: 0 <= k < |s[1..]| ==> !p(s[1..][k]))
    ensures forall i :: FirstMatch(s[1..], p, i) ==> FirstMatch(s, p, i + 1)
  {
    forall i | FirstMatch(s[1..], p, i)
      ensures FirstMatch(s, p, i + 1)
    {
      forall j | 0 <= j < i + 1
        ensures !p(s[j])
      {
        if j > 0 { assert s[j] == s[1..][j - 1]; }
      }
    }
    if forall k :: 0 <= k < |s[1..]| ==> !p(s[1..][k]) {
      forall k | 0 <= k < |s|
        ensures !p(s[k])
      {
        if k > 0 { assert s[k] == s[1..][k - 1]; }
      }
    }
  }

  /**
   * `s.find(p)`: the first element that satisfies `p`, or nothing when no
   * element does.
   */
  function Find<T>(s: seq<T>, p: T -> bool): (r: Option<T>)
    ensures r.None? <==> forall k :: 0 <= k < |s| ==> !p(s[k])
    ensures r.Some? ==> exists i :: FirstMatch(s, p, i) && s[i] == r.value
  {
    if s == [] then None
    else if p(s[0]) then
      assert FirstMatch(s, p, 0);
      Some(s[0])
    else
      FirstMatchInTail(s, p);
      var r := Find(s[1..], p);
      assert r.Some? ==> exists i :: FirstMatch(s[1..], p, i) && s[1..][i] == r.value;
      r
  }
}
