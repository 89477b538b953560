/** `Array.prototype.sort` with a comparator. Since ES2019 that sort is
    stable; it is modelled here as a stable insertion sort. A comparator
    `cmp(a, b)` of the source is given as the relation `le(a, b)` that holds
    when `cmp(a, b) <= 0`, that is, when `a` may stay in front of `b`. */
module Sorting {
  import opened Seqs

  ghost predicate Total<T(!new)>(le: (T, T) -> bool) {
    forall a, b :: le(a, b) || le(b, a)
  }

  ghost predicate Transitive<T(!new)>(le: (T, T) -> bool) {
    forall a, b, c :: le(a, b) && le(b, c) ==> le(a, c)
  }

  /** What a consistent comparator amounts to. */
  ghost predicate TotalPreorder<T(!new)>(le: (T, T) -> bool) {
    Total(le) && Transitive(le)
  }

  /** Every element may stay in front of every later one. */
  ghost predicate SortedBy<T>(s: seq<T>, le: (T, T) -> bool) {
    forall i, j :: 0 <= i < j < |s| ==> le(s[i], s[j])
  }

  /** Puts `x` in front of the first element it may precede. */
  function Insert<T>(x: T, s: seq<T>, le: (T, T) -> bool): (r: seq<T>)
    ensures multiset(r) == multiset(s) + multiset{x}
    ensures |r| == |s| + 1
  {
    if |s| == 0 then [x]
    else if le(x, s[0]) then [x] + s
    else
      var rest := Insert(x, s[1..], le);
      assert s == [s[0]] + s[1..];
      [s[0]] + rest
  }

  /** Inserting into a sorted sequence keeps it sorted. */
  lemma {:induction false} InsertSorted<T(!new)>(x: T, s: seq<T>, le: (T, T) -> bool)
    requires TotalPreorder(le)
    requires SortedBy(s, le)
    ensures SortedBy(Insert(x, s, le), le)
  {
    if |s| > 0 && !le(x, s[0]) {
      var rest := Insert(x, s[1..], le);
      InsertSorted(x, s[1..], le);
      assert le(s[0], x);
      forall k | 0 <= k < |rest|
        ensures le(s[0], rest[k])
      {
        assert rest[k] in multiset(rest);
        assert rest[k] == x || rest[k] in multiset(s[1..]);
        if rest[k] != x {
          var j :| 0 <= j < |s[1..]| && s[1..][j] == rest[k];
          assert s[j + 1] == rest[k];
        }
      }
      var r := [s[0]] + rest;
      forall i, j | 0 <= i < j < |r|
        ensures le(r[i], r[j])
      {
        if i > 0 {
          assert r[i] == rest[i - 1] && r[j] == rest[j - 1];
        } else {
          assert r[j] == rest[j - 1];
        }
      }
    } else if |s| > 0 {
      var r := [x] + s;
      forall i, j | 0 <= i < j < |r|
        ensures le(r[i], r[j])
      {
        if i == 0 && j > 1 {
          assert le(s[0], s[j - 1]);
        }
      }
    }
  }

  /** The stable sort: a permutation of the input, and sorted whenever the
      comparator is consistent. */
  function SortBy<T(!new)>(s: seq<T>, le: (T, T) -> bool): (r: seq<T>)
    ensures multiset(r) == multiset(s)
    ensures |r| == |s|
    ensures TotalPreorder(le) ==> SortedBy(r, le)
  {
    if |s| == 0 then []
    else
      var tail := SortBy(s[1..], le);
      assert s == [s[0]] + s[1..];
      assert TotalPreorder(le) ==> SortedBy(Insert(s[0], tail, le), le) by {
        if TotalPreorder(le) { InsertSorted(s[0], tail, le); }
      }
      Insert(s[0], tail, le)
  }

  /** The elements that compare equal to `x`: `le` lets each of them stay in
      front of `x` and `x` in front of each of them. */
  function TiesOf<T>(le: (T, T) -> bool, x: T): T -> bool {
    y => le(x, y) && le(y, x)
  }

  /** Insertion puts `x` in front of every element it is tied with, so the
      elements of any class of mutually tied ones keep the order they had
      with `x` in front of `s`. */
  lemma {:induction false} InsertStable<T>(x: T, s: seq<T>, le: (T, T) -> bool, q: T -> bool)
    requires forall y, z :: q(y) && q(z) ==> le(y, z)
    ensures Filter(Insert(x, s, le), q) == Filter([x] + s, q)
  {
    if |s| > 0 && !le(x, s[0]) {
      var rest := Insert(x, s[1..], le);
      InsertStable(x, s[1..], le, q);
      FilterAppend([s[0]], rest, q);
      FilterAppend([x], s[1..], q);
      FilterAppend([s[0]], s[1..], q);
      FilterAppend([x], s, q);
      assert !(q(x) && q(s[0]));
      assert [s[0]] + s[1..] == s;
    }
  }

  /** The sort is stable: the elements of any class of mutually tied ones
      come out in the order they went in. */
  lemma {:induction false} SortStable<T(!new)>(s: seq<T>, le: (T, T) -> bool, q: T -> bool)
    requires forall y, z :: q(y) && q(z) ==> le(y, z)
    ensures Filter(SortBy(s, le), q) == Filter(s, q)
  {
    if |s| > 0 {
      var tail := SortBy(s[1..], le);
      assert SortBy(s, le) == Insert(s[0], tail, le);
      SortStable(s[1..], le, q);
      InsertStable(s[0], tail, le, q);
      calc {
        Filter(Insert(s[0], tail, le), q);
        Filter([s[0]] + tail, q);
        { FilterAppend([s[0]], tail, q); }
        Filter([s[0]], q) + Filter(s[1..], q);
        { FilterAppend([s[0]], s[1..], q); assert [s[0]] + s[1..] == s; }
        Filter(s, q);
      }
    }
  }

  /** For a consistent comparator: the elements that tie with `x` keep their
      input order. */
  lemma SortKeepsTies<T(!new)>(s: seq<T>, le: (T, T) -> bool)
    requires TotalPreorder(le)
    ensures forall x :: Filter(SortBy(s, le), TiesOf(le, x)) == Filter(s, TiesOf(le, x))
  {
    forall x ensures Filter(SortBy(s, le), TiesOf(le, x)) == Filter(s, TiesOf(le, x)) {
      SortStable(s, le, TiesOf(le, x));
    }
  }
}
