/**
 * `Array.prototype.sort` with a comparator: a stable sort by a total
 * preorder `le` ("a may come before b"). The pages sort records by time and
 * by a chain of tie-breakers; each comparator is shown to be a total preorder
 * where it is used.
 */
module Sorting {
  import Seqs

  /** `le` relates every pair in at least one direction and is transitive. */
  ghost predicate TotalPreorder<T(!new)>(le: (T, T) -> bool) {
    (forall a, b :: le(a, b) || le(b, a)) &&
    (forall a, b, c :: le(a, b) && le(b, c) ==> le(a, c))
  }

  /** Every element may come before every later element. */
  predicate SortedBy<T>(s: seq<T>, le: (T, T) -> bool) {
    forall i, j :: 0 <= i < j < |s| ==> le(s[i], s[j])
  }

  /** Inserts `x` after the leading elements that may come before it. */
  function InsertBy<T>(x: T, s: seq<T>, le: (T, T) -> bool): (r: seq<T>)
    ensures multiset(r) == multiset(s) + multiset{x}
  {
    if |s| == 0 then [x]
    else if le(s[0], x) then
      assert s == [s[0]] + s[1..];
      [s[0]] + InsertBy(x, s[1..], le)
    else [x] + s
  }

  /** Inserting into a sorted sequence keeps it sorted. */
  lemma {:induction false} InsertSorted<T(!new)>(x: T, s: seq<T>, le: (T, T) -> bool)
    requires TotalPreorder(le)
    requires SortedBy(s, le)
    ensures SortedBy(InsertBy(x, s, le), le)
  {
    if |s| > 0 {
      var r := InsertBy(x, s, le);
      if le(s[0], x) {
        var tail := InsertBy(x, s[1..], le);
        InsertSorted(x, s[1..], le);
        assert r == [s[0]] + tail;
        forall k | 0 <= k < |tail|
          ensures le(s[0], tail[k])
        {
          assert tail[k] in multiset(s[1..]) + multiset{x};
          if tail[k] != x {
            assert tail[k] in s[1..];
          }
        }
      } else {
        assert le(x, s[0]);
        assert r == [x] + s;
      }
    }
  }

  /** The sorted rearrangement of `s`. */
  function SortBy<T(!new)>(s: seq<T>, le: (T, T) -> bool): (r: seq<T>)
    requires TotalPreorder(le)
    ensures multiset(r) == multiset(s)
    ensures SortedBy(r, le)
  {
    if |s| == 0 then []
    else
      var rest := SortBy(s[..|s| - 1], le);
      InsertSorted(s[|s| - 1], rest, le);
      assert s == s[..|s| - 1] + [s[|s| - 1]];
      InsertBy(s[|s| - 1], rest, le)
  }

  /** The elements `le` cannot tell apart from `x`: those ordered both ways with it. */
  function EquivTo<T>(le: (T, T) -> bool, x: T): T -> bool {
    (y: T) => le(x, y) && le(y, x)
  }

  /**
   * Inserting `y` into a sorted sequence puts it after every element
   * equivalent to it, so the elements of any one class keep their order,
   * with `y` last among its own.
   */
  lemma {:induction false} InsertStable<T(!new)>(x: T, y: T, s: seq<T>, le: (T, T) -> bool)
    requires TotalPreorder(le)
    requires SortedBy(s, le)
    ensures Seqs.Filter(InsertBy(y, s, le), EquivTo(le, x)) ==
      Seqs.Filter(s, EquivTo(le, x)) + (if EquivTo(le, x)(y) then [y] else [])
  {
    var e := EquivTo(le, x);
    if |s| == 0 {
      assert [y][..0] == [];
    } else if le(s[0], y) {
      InsertStable(x, y, s[1..], le);
      InsertStableSkip(y, s, le, e);
    } else {
      if e(y) {
        NoneEquivalentAfter(x, y, s, le);
        Seqs.FilterNone(s, e);
      }
      InsertStableFront(y, s, le, e);
    }
  }

  /** The step of `InsertStable` past a leading element that may come before `y`. */
  lemma InsertStableSkip<T(!new)>(y: T, s: seq<T>, le: (T, T) -> bool, e: T -> bool)
    requires |s| > 0 && le(s[0], y)
    requires Seqs.Filter(InsertBy(y, s[1..], le), e) == Seqs.Filter(s[1..], e) + (if e(y) then [y] else [])
    ensures Seqs.Filter(InsertBy(y, s, le), e) == Seqs.Filter(s, e) + (if e(y) then [y] else [])
  {
    var t := InsertBy(y, s[1..], le);
    InsertBySkips(y, s, le);
    var r := [s[0]] + t;
    assert r[0] == s[0] && r[1..] == t;
    Seqs.FilterHead(r, e);
    Seqs.FilterHead(s, e);
    Seqs.ConcatAssoc(if e(s[0]) then [s[0]] else [], Seqs.Filter(s[1..], e), if e(y) then [y] else []);
  }

  /** Past a leading element that may come before `x`, insertion goes into the rest. */
  lemma InsertBySkips<T>(x: T, s: seq<T>, le: (T, T) -> bool)
    requires |s| > 0 && le(s[0], x)
    ensures InsertBy(x, s, le) == [s[0]] + InsertBy(x, s[1..], le)
  {
  }

  /** The step of `InsertStable` that puts `y` in front, where nothing equivalent to it follows. */
  lemma InsertStableFront<T(!new)>(y: T, s: seq<T>, le: (T, T) -> bool, e: T -> bool)
    requires |s| > 0 && !le(s[0], y)
    requires e(y) ==> Seqs.Filter(s, e) == []
    ensures Seqs.Filter(InsertBy(y, s, le), e) == Seqs.Filter(s, e) + (if e(y) then [y] else [])
  {
    Seqs.FilterConcat([y], s, e);
    assert [y][..0] == [];
  }

  /**
   * When a sorted sequence starts with an element that may not come before
   * `y`, none of its elements is equivalent to `y`.
   */
  lemma NoneEquivalentAfter<T(!new)>(x: T, y: T, s: seq<T>, le: (T, T) -> bool)
    requires TotalPreorder(le)
    requires SortedBy(s, le)
    requires |s| > 0 && !le(s[0], y)
    requires EquivTo(le, x)(y)
    ensures forall k :: 0 <= k < |s| ==> !EquivTo(le, x)(s[k])
  {
    forall k | 0 <= k < |s|
      ensures !EquivTo(le, x)(s[k])
    {
      if k > 0 {
        assert le(s[0], s[k]);
      }
    }
  }

  /**
   * The sort is stable: the elements equivalent to any `x` appear in the
   * result in the order they had in the input.
   */
  lemma {:induction false} SortByStable<T(!new)>(s: seq<T>, le: (T, T) -> bool, x: T)
    requires TotalPreorder(le)
    ensures Seqs.Filter(SortBy(s, le), EquivTo(le, x)) == Seqs.Filter(s, EquivTo(le, x))
  {
    if |s| > 0 {
      var init := s[..|s| - 1];
      SortByStable(init, le, x);
      InsertStable(x, s[|s| - 1], SortBy(init, le), le);
    }
  }

  /**
   * Taking the first `n` elements of a sorted sequence leaves out only
   * elements that every kept one may come before.
   */
  lemma SortedPrefixKeepsFirst<T>(s: seq<T>, n: nat, le: (T, T) -> bool)
    requires SortedBy(s, le) && n <= |s|
    ensures multiset(s[..n]) <= multiset(s)
    ensures forall x, i :: x in multiset(s) - multiset(s[..n]) && 0 <= i < n ==> le(s[i], x)
  {
    var rest := s[n..];
    assert s == s[..n] + rest;
    assert multiset(s) - multiset(s[..n]) == multiset(rest);
    forall x, i | x in multiset(s) - multiset(s[..n]) && 0 <= i < n
      ensures le(s[i], x)
    {
      assert x in rest;
      var k :| 0 <= k < |rest| && rest[k] == x;
      assert s[n + k] == x;
    }
  }

  /** Filtering a sorted sequence leaves it sorted. */
  lemma {:induction false} FilterSorted<T(!new)>(s: seq<T>, p: T -> bool, le: (T, T) -> bool)
    requires SortedBy(s, le)
    ensures SortedBy(Seqs.Filter(s, p), le)
  {
    if |s| > 0 {
      var init := s[..|s| - 1];
      var x := s[|s| - 1];
      assert SortedBy(init, le) by {
        forall i, j | 0 <= i < j < |init|
          ensures le(init[i], init[j])
        {
          assert init[i] == s[i] && init[j] == s[j];
        }
      }
      FilterSorted(init, p, le);
      if p(x) {
        var f := Seqs.Filter(init, p);
        Seqs.FilterMembers(init, p);
        forall i | 0 <= i < |f|
          ensures le(f[i], x)
        {
          assert f[i] in init;
          var j :| 0 <= j < |init| && init[j] == f[i];
          assert s[j] == f[i];
        }
      }
    }
  }

  /**
   * Lexicographic order on strings, by character code: the order
   * `localeCompare` is taken to stand for.
   */
  predicate StrLe(a: string, b: string) {
    |a| == 0 || (|b| > 0 && (a[0] < b[0] || (a[0] == b[0] && StrLe(a[1..], b[1..]))))
  }

  /** Any two strings are ordered one way or the other. */
  lemma {:induction false} StrLeTotal(a: string, b: string)
    ensures StrLe(a, b) || StrLe(b, a)
  {
    if |a| > 0 && |b| > 0 && a[0] == b[0] {
      StrLeTotal(a[1..], b[1..]);
    }
  }

  /** The order is transitive. */
  lemma {:induction false} StrLeTransitive(a: string, b: string, c: string)
    requires StrLe(a, b) && StrLe(b, c)
    ensures StrLe(a, c)
  {
    if |a| > 0 && a[0] == b[0] && b[0] == c[0] {
      StrLeTransitive(a[1..], b[1..], c[1..]);
    }
  }

  /** Strings ordered both ways are equal. */
  lemma {:induction false} StrLeAntisymmetric(a: string, b: string)
    requires StrLe(a, b) && StrLe(b, a)
    ensures a == b
  {
    if |a| > 0 {
      StrLeAntisymmetric(a[1..], b[1..]);
      assert a == [a[0]] + a[1..];
      assert b == [b[0]] + b[1..];
    }
  }
}
