/**
 * Python's `sorted(xs, key=..., reverse=...)` on string keys: string order is
 * code point by code point, and the sort is stable in both directions.
 */
module Sorting {

  /** Python's `str` comparison `a <= b`. */
  predicate LexLe(a: string, b: string) {
    if |a| == 0 then true
    else if |b| == 0 then false
    else if a[0] != b[0] then a[0] < b[0]
    else LexLe(a[1..], b[1..])
  }

  lemma {:induction false} LexLeTotal(a: string, b: string)
    ensures LexLe(a, b) || LexLe(b, a)
  {
    if |a| > 0 && |b| > 0 && a[0] == b[0] {
      LexLeTotal(a[1..], b[1..]);
    }
  }

  lemma {:induction false} LexLeRefl(a: string)
    ensures LexLe(a, a)
  {
    if |a| > 0 {
      LexLeRefl(a[1..]);
    }
  }

  lemma {:induction false} LexLeTrans(a: string, b: string, c: string)
    requires LexLe(a, b) && LexLe(b, c)
    ensures LexLe(a, c)
  {
    if |a| > 0 && |b| > 0 && |c| > 0 && a[0] == b[0] && b[0] == c[0] {
      LexLeTrans(a[1..], b[1..], c[1..]);
    }
  }

  /** `a` may come before `b`: ascending, or with `reverse=True` descending. */
  predicate KeyLe(a: string, b: string, reverse: bool) {
    if reverse then LexLe(b, a) else LexLe(a, b)
  }

  lemma KeyLeTotal(a: string, b: string, reverse: bool)
    ensures KeyLe(a, b, reverse) || KeyLe(b, a, reverse)
  {
    LexLeTotal(a, b);
  }

  lemma KeyLeTrans(a: string, b: string, c: string, reverse: bool)
    requires KeyLe(a, b, reverse) && KeyLe(b, c, reverse)
    ensures KeyLe(a, c, reverse)
  {
    if reverse {
      LexLeTrans(c, b, a);
    } else {
      LexLeTrans(a, b, c);
    }
  }

  /** Ordered by the given key in the given direction. */
  predicate SortedBy<T>(s: seq<T>, key: T -> string, reverse: bool) {
    forall i, j :: 0 <= i < j < |s| ==> KeyLe(key(s[i]), key(s[j]), reverse)
  }

  /**
   * Inserts `x` into an ordered list after every element that may come before
   * it, which keeps elements with equal keys in their original order.
   */
  function InsertBy<T>(s: seq<T>, x: T, key: T -> string, reverse: bool): (r: seq<T>)
    requires SortedBy(s, key, reverse)
    ensures multiset(r) == multiset(s) + multiset{x}
    ensures SortedBy(r, key, reverse)
  {
    if |s| == 0 then [x]
    else
      var last := s[|s| - 1];
      var init := s[..|s| - 1];
      assert s == init + [last];
      if KeyLe(key(last), key(x), reverse) then
        AllBeforeLast(s, x, key, reverse);
        AppendKeepsSorted(s, x, key, reverse);
        s + [x]
      else
        var t := InsertBy(init, x, key, reverse);
        KeyLeTotal(key(last), key(x), reverse);
        AllBeforePermuted(init, t, x, last, key, reverse);
        AppendKeepsSorted(t, last, key, reverse);
        t + [last]
  }

  /** An element that may come after every element of an ordered list may be appended to it. */
  lemma AppendKeepsSorted<T>(s: seq<T>, x: T, key: T -> string, reverse: bool)
    requires SortedBy(s, key, reverse)
    requires forall i :: 0 <= i < |s| ==> KeyLe(key(s[i]), key(x), reverse)
    ensures SortedBy(s + [x], key, reverse)
  {
  }

  /** An element that may come after the last of an ordered list may come after all of it. */
  lemma AllBeforeLast<T>(s: seq<T>, x: T, key: T -> string, reverse: bool)
    requires SortedBy(s, key, reverse) && |s| > 0
    requires KeyLe(key(s[|s| - 1]), key(x), reverse)
    ensures forall i :: 0 <= i < |s| ==> KeyLe(key(s[i]), key(x), reverse)
  {
    forall i | 0 <= i < |s| ensures KeyLe(key(s[i]), key(x), reverse) {
      if i < |s| - 1 {
        KeyLeTrans(key(s[i]), key(s[|s| - 1]), key(x), reverse);
      }
    }
  }

  /** Bounds on the elements of a list and on `x` bound every element of a permutation of both. */
  lemma AllBeforePermuted<T>(init: seq<T>, t: seq<T>, x: T, last: T, key: T -> string, reverse: bool)
    requires multiset(t) == multiset(init) + multiset{x}
    requires forall i :: 0 <= i < |init| ==> KeyLe(key(init[i]), key(last), reverse)
    requires KeyLe(key(x), key(last), reverse)
    ensures forall i :: 0 <= i < |t| ==> KeyLe(key(t[i]), key(last), reverse)
  {
    forall y | y in multiset(t) ensures KeyLe(key(y), key(last), reverse) {
      assert y in multiset(init) || y == x;
    }
    forall i | 0 <= i < |t| ensures KeyLe(key(t[i]), key(last), reverse) {
      assert t[i] in multiset(t);
    }
  }

  /** `sorted(s, key=key, reverse=reverse)`: an insertion sort. */
  function SortBy<T>(s: seq<T>, key: T -> string, reverse: bool): (r: seq<T>)
    ensures multiset(r) == multiset(s)
    ensures SortedBy(r, key, reverse)
  {
    if |s| == 0 then []
    else
      assert s == s[..|s| - 1] + [s[|s| - 1]];
      InsertBy(SortBy(s[..|s| - 1], key, reverse), s[|s| - 1], key, reverse)
  }

  /** The elements of `s` whose key is `k`, in their order in `s`. */
  function WithKey<T>(s: seq<T>, key: T -> string, k: string): seq<T> {
    if |s| == 0 then []
    else WithKey(s[..|s| - 1], key, k) + (if key(s[|s| - 1]) == k then [s[|s| - 1]] else [])
  }

  /** `[x]` when `x` has the key `k`, otherwise nothing. */
  function IfKey<T>(x: T, key: T -> string, k: string): seq<T> {
    if key(x) == k then [x] else []
  }

  lemma WithKeyAppend<T>(s: seq<T>, x: T, key: T -> string, k: string)
    ensures WithKey(s + [x], key, k) == WithKey(s, key, k) + IfKey(x, key, k)
  {
    assert (s + [x])[..|s|] == s;
  }

  /** Two elements with different keys may be swapped without changing any key's elements. */
  lemma IfKeySwap<T>(x: T, y: T, key: T -> string, k: string)
    requires key(x) != key(y)
    ensures IfKey(x, key, k) + IfKey(y, key, k) == IfKey(y, key, k) + IfKey(x, key, k)
  {
  }

  /** Inserting keeps every element with the key of `x` before `x`, and elements with any other key in place. */
  lemma {:induction false} InsertByStable<T>(s: seq<T>, x: T, key: T -> string, reverse: bool, k: string)
    requires SortedBy(s, key, reverse)
    ensures WithKey(InsertBy(s, x, key, reverse), key, k) == WithKey(s + [x], key, k)
  {
    if |s| > 0 && !KeyLe(key(s[|s| - 1]), key(x), reverse) {
      var init := s[..|s| - 1];
      InsertByPastLast(s, x, key, reverse);
      InsertByStable(init, x, key, reverse, k);
      LexLeRefl(key(x));
      assert key(s[|s| - 1]) != key(x);
      PassLastStable(s, InsertBy(init, x, key, reverse), x, key, k);
    } else {
      InsertByAfterLast(s, x, key, reverse);
    }
  }

  /**
   * When `t` keeps the order of each key within all but the last element of
   * `s` followed by `x`, and the last element's key differs from `x`'s, then
   * `t` followed by that last element keeps the order of `s` followed by `x`.
   */
  lemma PassLastStable<T>(s: seq<T>, t: seq<T>, x: T, key: T -> string, k: string)
    requires |s| > 0 && key(s[|s| - 1]) != key(x)
    requires WithKey(t, key, k) == WithKey(s[..|s| - 1] + [x], key, k)
    ensures WithKey(t + [s[|s| - 1]], key, k) == WithKey(s + [x], key, k)
  {
    var init, last := s[..|s| - 1], s[|s| - 1];
    IfKeySwap(x, last, key, k);
    calc {
      WithKey(t + [last], key, k);
      { WithKeyAppend(t, last, key, k); }
      WithKey(t, key, k) + IfKey(last, key, k);
      { WithKeyAppend(init, x, key, k); }
      WithKey(init, key, k) + IfKey(x, key, k) + IfKey(last, key, k);
      WithKey(init, key, k) + (IfKey(last, key, k) + IfKey(x, key, k));
      WithKey(s, key, k) + IfKey(x, key, k);
      { WithKeyAppend(s, x, key, k); }
      WithKey(s + [x], key, k);
    }
  }

  /** An element that may follow the last one (or any, in an empty list) is appended. */
  lemma InsertByAfterLast<T>(s: seq<T>, x: T, key: T -> string, reverse: bool)
    requires SortedBy(s, key, reverse) && (|s| == 0 || KeyLe(key(s[|s| - 1]), key(x), reverse))
    ensures InsertBy(s, x, key, reverse) == s + [x]
  {
  }

  /** An element that must come before the last one is inserted into the rest. */
  lemma InsertByPastLast<T>(s: seq<T>, x: T, key: T -> string, reverse: bool)
    requires SortedBy(s, key, reverse) && |s| > 0 && !KeyLe(key(s[|s| - 1]), key(x), reverse)
    ensures SortedBy(s[..|s| - 1], key, reverse)
    ensures InsertBy(s, x, key, reverse) == InsertBy(s[..|s| - 1], x, key, reverse) + [s[|s| - 1]]
  {
  }

  /** Sorting a list sorts all but its last element and then inserts that one. */
  lemma SortByLast<T>(s: seq<T>, key: T -> string, reverse: bool)
    requires |s| > 0
    ensures SortBy(s, key, reverse) == InsertBy(SortBy(s[..|s| - 1], key, reverse), s[|s| - 1], key, reverse)
  {
  }

  /**
   * `sorted` is stable, also with `reverse=True`: the elements sharing any
   * one key come out in the order they went in.
   */
  lemma {:induction false} SortByStable<T>(s: seq<T>, key: T -> string, reverse: bool, k: string)
    ensures WithKey(SortBy(s, key, reverse), key, k) == WithKey(s, key, k)
  {
    if |s| > 0 {
      var init := s[..|s| - 1];
      var sorted := SortBy(init, key, reverse);
      SortByLast(s, key, reverse);
      InsertByStable(sorted, s[|s| - 1], key, reverse, k);
      SortByStable(init, key, reverse, k);
      AppendStable(SortBy(s, key, reverse), sorted, s, key, k);
    }
  }

  /** The step of `SortByStable`: inserting the last element into the sorted rest. */
  lemma AppendStable<T>(r: seq<T>, sorted: seq<T>, s: seq<T>, key: T -> string, k: string)
    requires |s| > 0
    requires WithKey(r, key, k) == WithKey(sorted + [s[|s| - 1]], key, k)
    requires WithKey(sorted, key, k) == WithKey(s[..|s| - 1], key, k)
    ensures WithKey(r, key, k) == WithKey(s, key, k)
  {
    WithKeyAppend(sorted, s[|s| - 1], key, k);
    assert WithKey(s, key, k) == WithKey(s[..|s| - 1], key, k) + IfKey(s[|s| - 1], key, k);
  }




}
