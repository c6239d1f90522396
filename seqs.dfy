/** Array-method shapes used throughout the front end: `filter` with a
    predicate, `filter((_, i) => flags[i])`, and `sort` with a numeric
    comparator `(a, b) => key(a) - key(b)`. */
module Seqs {

  /** `s.filter(p)` */
  function Filter<T>(p: T -> bool, s: seq<T>): (r: seq<T>)
    ensures |r| <= |s|
    ensures forall i :: 0 <= i < |r| ==> r[i] in s && p(r[i])
    ensures forall i :: 0 <= i < |s| && p(s[i]) ==> s[i] in r
    ensures multiset(r) <= multiset(s)
  {
    if s == [] then []
    else
      assert s == [s[0]] + s[1..];
      if p(s[0]) then [s[0]] + Filter(p, s[1..])
      else Filter(p, s[1..])
  }

  /** Filtering distributes over concatenation: kept elements stay in their
      input order. */
  lemma {:induction false} FilterAppend<T>(p: T -> bool, a: seq<T>, b: seq<T>)
    ensures Filter(p, a + b) == Filter(p, a) + Filter(p, b)
    decreases |a|
  {
    if a == [] {
      assert a + b == b;
    } else {
      assert (a + b)[0] == a[0] && (a + b)[1..] == a[1..] + b;
      FilterAppend(p, a[1..], b);
      if p(a[0]) {
        assert Filter(p, a + b) == [a[0]] + (Filter(p, a[1..]) + Filter(p, b));
      }
    }
  }

  /** A filter that keeps everything is the identity. */
  lemma {:induction false} FilterAll<T>(p: T -> bool, s: seq<T>)
    requires forall i :: 0 <= i < |s| ==> p(s[i])
    ensures Filter(p, s) == s
    decreases |s|
  {
    if s != [] {
      FilterAll(p, s[1..]);
    }
  }

  /** `s.filter((_, i) => flags[i])` */
  function FilterByFlags<T>(s: seq<T>, flags: seq<bool>): (r: seq<T>)
    requires |flags| == |s|
    ensures |r| <= |s|
    ensures forall i :: 0 <= i < |r| ==> r[i] in s
  {
    if s == [] then []
    else if flags[0] then [s[0]] + FilterByFlags(s[1..], flags[1..])
    else FilterByFlags(s[1..], flags[1..])
  }

  /** Keeping by flags is keeping by the predicate the flags were computed
      from, so the result is exactly the flagged elements in input order. */
  lemma {:induction false} FilterByFlagsIsFilter<T>(s: seq<T>, flags: seq<bool>, p: T -> bool)
    requires |flags| == |s|
    requires forall i :: 0 <= i < |s| ==> flags[i] == p(s[i])
    ensures FilterByFlags(s, flags) == Filter(p, s)
    decreases |s|
  {
    if s != [] {
      FilterByFlagsIsFilter(s[1..], flags[1..], p);
    }
  }

  /** `FilterByFlags` with every flag set keeps the whole list. */
  lemma {:induction false} FilterByFlagsAllTrue<T>(s: seq<T>, flags: seq<bool>)
    requires |flags| == |s|
    requires forall i :: 0 <= i < |s| ==> flags[i]
    ensures FilterByFlags(s, flags) == s
    decreases |s|
  {
    if s != [] {
      FilterByFlagsAllTrue(s[1..], flags[1..]);
    }
  }

  /** Ascending by `key`. */
  ghost predicate SortedBy<T>(s: seq<T>, key: T -> real) {
    forall i, j :: 0 <= i < j < |s| ==> key(s[i]) <= key(s[j])
  }

  /** Every element of `t` lies in `s` or is `x`. */
  lemma InsertBound<T>(y: T, x: T, s: seq<T>, t: seq<T>, key: T -> real)
    requires multiset(t) == multiset(s) + multiset{x}
    requires key(y) <= key(x)
    requires forall k :: 0 <= k < |s| ==> key(y) <= key(s[k])
    ensures forall k :: 0 <= k < |t| ==> key(y) <= key(t[k])
  {
    forall k | 0 <= k < |t| ensures key(y) <= key(t[k]) {
      assert t[k] in multiset(t);
      if t[k] != x {
        assert t[k] in multiset(s);
        var j :| 0 <= j < |s| && s[j] == t[k];
      }
    }
  }

  /** Insert `x` before the first element whose key is not smaller. */
  function Insert<T>(x: T, s: seq<T>, key: T -> real): (r: seq<T>)
    requires SortedBy(s, key)
    ensures SortedBy(r, key)
    ensures multiset(r) == multiset(s) + multiset{x}
  {
    if s == [] || key(x) <= key(s[0]) then [x] + s
    else
      var rest := Insert(x, s[1..], key);
      InsertBound(s[0], x, s[1..], rest, key);
      assert s == [s[0]] + s[1..];
      [s[0]] + rest
  }

  /** `[...s].sort((a, b) => key(a) - key(b))`: the result is ascending by
      `key` and holds exactly the input's elements. */
  function SortBy<T>(s: seq<T>, key: T -> real): (r: seq<T>)
    ensures SortedBy(r, key)
    ensures multiset(r) == multiset(s)
    ensures |r| == |s|
  {
    if s == [] then []
    else
      assert s == [s[0]] + s[1..];
      Insert(s[0], SortBy(s[1..], key), key)
  }
}
