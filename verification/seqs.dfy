/** The list operations every tracker is built from: `filter`, `reduce` into a
    sum or an average, and the record-store operations delete-by-id and
    update-by-id that the hooks write as `filter` and `map` over their lists. */
module Seqs {

  /** The elements of `s` that satisfy `p`, in their original order
      (`Array.prototype.filter`). */
  function Filter<T(!new)>(s: seq<T>, p: T -> bool): (r: seq<T>)
    ensures |r| <= |s|
    ensures forall x :: x in r <==> x in s && p(x)
  {
    if s == [] then []
    else
      assert s == [s[0]] + s[1..];
      (if p(s[0]) then [s[0]] else []) + Filter(s[1..], p)
  }

  /** The negation of a predicate. */
  function Not<T>(p: T -> bool): T -> bool {
    x => !p(x)
  }

  /** "Has key `k`": the test a delete-by-id or a group-by applies. */
  function KeyIs<T, K(==)>(key: T -> K, k: K): T -> bool {
    x => key(x) == k
  }

  /** Filtering a concatenation filters each part: the filter keeps order. */
  lemma {:induction false} FilterConcat<T(!new)>(s: seq<T>, t: seq<T>, p: T -> bool)
    ensures Filter(s + t, p) == Filter(s, p) + Filter(t, p)
  {
    if s == [] {
      assert s + t == t;
    } else {
      assert (s + t)[1..] == s[1..] + t;
      FilterConcat(s[1..], t, p);
    }
  }

  /** A filter that every element passes returns the list unchanged. */
  lemma {:induction false} FilterAll<T(!new)>(s: seq<T>, p: T -> bool)
    requires forall x :: x in s ==> p(x)
    ensures Filter(s, p) == s
  {
    if s != [] {
      FilterAll(s[1..], p);
    }
  }

  /** A filter that no element passes returns the empty list. */
  lemma FilterNone<T(!new)>(s: seq<T>, p: T -> bool)
    requires forall x :: x in s ==> !p(x)
    ensures Filter(s, p) == []
  {
  }

  /** `reduce((total, x) => total + f(x), 0)` over integers. */
  function Sum<T>(s: seq<T>, f: T -> int): int {
    if s == [] then 0 else f(s[0]) + Sum(s[1..], f)
  }

  /** A sum of non-negative values is non-negative. */
  lemma {:induction false} SumNonNegative<T>(s: seq<T>, f: T -> int)
    requires forall x :: x in s ==> 0 <= f(x)
    ensures 0 <= Sum(s, f)
  {
    if s != [] {
      SumNonNegative(s[1..], f);
    }
  }

  /** `reduce((total, x) => total + f(x), 0)` over reals. */
  function SumReal<T>(s: seq<T>, f: T -> real): real {
    if s == [] then 0.0 else f(s[0]) + SumReal(s[1..], f)
  }

  /** The constant 1, so that `Sum(s, One)` counts. */
  function One<T>(x: T): int {
    1
  }

  lemma {:induction false} SumConcat<T>(s: seq<T>, t: seq<T>, f: T -> int)
    ensures Sum(s + t, f) == Sum(s, f) + Sum(t, f)
  {
    if s == [] {
      assert s + t == t;
    } else {
      assert (s + t)[1..] == s[1..] + t;
      SumConcat(s[1..], t, f);
    }
  }

  lemma {:induction false} SumOne<T>(s: seq<T>)
    ensures Sum(s, One) == |s|
  {
    if s != [] {
      SumOne(s[1..]);
    }
  }

  /** The elements that pass a filter and those that fail it account for the
      whole sum. */
  lemma {:induction false} SumSplit<T(!new)>(s: seq<T>, p: T -> bool, f: T -> int)
    ensures Sum(s, f) == Sum(Filter(s, p), f) + Sum(Filter(s, Not(p)), f)
  {
    if s != [] {
      SumSplit(s[1..], p, f);
      assert Filter(s, p) == (if p(s[0]) then [s[0]] else []) + Filter(s[1..], p);
      assert Filter(s, Not(p)) == (if p(s[0]) then [] else [s[0]]) + Filter(s[1..], Not(p));
      SumConcat(if p(s[0]) then [s[0]] else [], Filter(s[1..], p), f);
      SumConcat(if p(s[0]) then [] else [s[0]], Filter(s[1..], Not(p)), f);
    }
  }

  /** Over non-negative values, the sum of the elements a test accepts lies
      between 0 and the whole sum. */
  lemma SumFilterBounds<T(!new)>(s: seq<T>, p: T -> bool, f: T -> int)
    requires forall x :: x in s ==> 0 <= f(x)
    ensures 0 <= Sum(Filter(s, p), f) <= Sum(s, f)
  {
    SumSplit(s, p, f);
    SumNonNegative(Filter(s, p), f);
    SumNonNegative(Filter(s, Not(p)), f);
  }

  /** A sum of values that all lie in [lo, hi] lies in [lo * n, hi * n]. */
  lemma {:induction false} SumRealBounds<T>(s: seq<T>, f: T -> real, lo: real, hi: real)
    requires forall x :: x in s ==> lo <= f(x) <= hi
    ensures lo * (|s| as real) <= SumReal(s, f) <= hi * (|s| as real)
  {
    if s != [] {
      var t := s[1..];
      assert forall x :: x in t ==> x in s;
      SumRealBounds(t, f, lo, hi);
      var n := |t| as real;
      var a, b := SumReal(t, f), f(s[0]);
      assert SumReal(s, f) == b + a;
      assert lo <= b <= hi by { assert s[0] in s; }
      assert lo * n <= a <= hi * n;
      calc {
        lo * (|s| as real);
        lo * (n + 1.0);
        lo * n + lo;
      <= a + b;
      }
      calc {
        a + b;
      <= hi * n + hi;
        hi * (n + 1.0);
        hi * (|s| as real);
      }
    }
  }

  /** Summing integers as reals gives the integer sum. */
  lemma {:induction false} SumRealOfInts<T>(s: seq<T>, f: T -> int, g: T -> real)
    requires forall x :: x in s ==> g(x) == f(x) as real
    ensures SumReal(s, g) == Sum(s, f) as real
  {
    if s != [] {
      assert s[0] in s;
      assert forall x :: x in s[1..] ==> x in s;
      SumRealOfInts(s[1..], f, g);
    }
  }

  /** `if (s.length === 0) return 0; return total / s.length;` */
  function Mean<T>(s: seq<T>, f: T -> real): (r: real)
    ensures s == [] ==> r == 0.0
    ensures s != [] ==> r * (|s| as real) == SumReal(s, f)
  {
    if s == [] then 0.0 else SumReal(s, f) / (|s| as real)
  }

  /** The average of values that all lie in [lo, hi] lies in [lo, hi]. */
  lemma MeanBounds<T>(s: seq<T>, f: T -> real, lo: real, hi: real)
    requires s != []
    requires forall x :: x in s ==> lo <= f(x) <= hi
    ensures lo <= Mean(s, f) <= hi
  {
    SumRealBounds(s, f, lo, hi);
    var n := |s| as real;
    var m := Mean(s, f);
    assert m * n == SumReal(s, f);
    assert (m - lo) * n >= 0.0;
    assert (hi - m) * n >= 0.0;
  }

  /** Sum of `f` over the elements whose key is `keys[0]`, then `keys[1]`,
      and so on: the totals of a group-by added up in key order. */
  function SumPerKey<T(!new), K(==)>(s: seq<T>, key: T -> K, keys: seq<K>, f: T -> int): int {
    if keys == [] then 0
    else Sum(Filter(s, KeyIs(key, keys[0])), f) + SumPerKey(s, key, keys[1..], f)
  }

  /** No key occurs twice. */
  predicate Distinct<K(==)>(keys: seq<K>) {
    forall i, j :: 0 <= i < j < |keys| ==> keys[i] != keys[j]
  }

  lemma {:induction false} SumPerKeyEmpty<T(!new), K>(key: T -> K, keys: seq<K>, f: T -> int)
    ensures SumPerKey([], key, keys, f) == 0
  {
    if keys != [] {
      SumPerKeyEmpty(key, keys[1..], f);
    }
  }

  /** Prepending one element adds its value to the sum of its own key. */
  lemma {:induction false} SumPerKeyCons<T(!new), K>(x: T, s: seq<T>, key: T -> K, keys: seq<K>, f: T -> int)
    requires Distinct(keys)
    ensures SumPerKey([x] + s, key, keys, f) == SumPerKey(s, key, keys, f) + (if key(x) in keys then f(x) else 0)
  {
    if keys != [] {
      var k := keys[0];
      assert ([x] + s)[1..] == s;
      assert Filter([x] + s, KeyIs(key, k)) == (if key(x) == k then [x] else []) + Filter(s, KeyIs(key, k));
      SumConcat(if key(x) == k then [x] else [], Filter(s, KeyIs(key, k)), f);
      assert Distinct(keys[1..]) by {
        forall i, j | 0 <= i < j < |keys[1..]| ensures keys[1..][i] != keys[1..][j] {
          assert keys[1..][i] == keys[i + 1] && keys[1..][j] == keys[j + 1];
        }
      }
      SumPerKeyCons(x, s, key, keys[1..], f);
      assert key(x) in keys <==> key(x) == k || key(x) in keys[1..];
      if key(x) == k {
        assert key(x) !in keys[1..] by {
          forall j | 0 <= j < |keys[1..]| ensures keys[1..][j] != k {
            assert keys[1..][j] == keys[j + 1];
          }
        }
      }
    }
  }

  /** Group totals over a list of distinct keys that covers every element's
      key add up to the total. */
  lemma {:induction false} SumPerKeyCovers<T(!new), K>(s: seq<T>, key: T -> K, keys: seq<K>, f: T -> int)
    requires Distinct(keys)
    requires forall x :: x in s ==> key(x) in keys
    ensures SumPerKey(s, key, keys, f) == Sum(s, f)
  {
    if s == [] {
      SumPerKeyEmpty(key, keys, f);
    } else {
      assert s == [s[0]] + s[1..];
      assert s[0] in s;
      assert forall x :: x in s[1..] ==> x in s;
      SumPerKeyCovers(s[1..], key, keys, f);
      SumPerKeyCons(s[0], s[1..], key, keys, f);
    }
  }

  /** Delete-by-id: `s.filter(x => key(x) !== k)`. */
  function RemoveKey<T(!new), K(==)>(s: seq<T>, key: T -> K, k: K): (r: seq<T>)
    ensures forall x :: x in r <==> x in s && key(x) != k
    ensures |r| <= |s|
  {
    Filter(s, Not(KeyIs(key, k)))
  }

  /** Deleting a key no element carries leaves the list unchanged. */
  lemma RemoveUnknownKey<T(!new), K>(s: seq<T>, key: T -> K, k: K)
    requires forall x :: x in s ==> key(x) != k
    ensures RemoveKey(s, key, k) == s
  {
    FilterAll(s, Not(KeyIs(key, k)));
  }

  /** Deleting from a list with a new head deletes from the tail and keeps or
      drops the head: the survivors keep their order. */
  lemma RemoveKeyCons<T(!new), K>(x: T, s: seq<T>, key: T -> K, k: K)
    ensures RemoveKey([x] + s, key, k) == (if key(x) == k then [] else [x]) + RemoveKey(s, key, k)
  {
    assert ([x] + s)[1..] == s;
  }

  /** Update-by-id: `s.map(x => key(x) === k ? g(x) : x)`. */
  function UpdateKey<T, K(==)>(s: seq<T>, key: T -> K, k: K, g: T -> T): (r: seq<T>)
    ensures |r| == |s|
    ensures forall i :: 0 <= i < |s| && key(s[i]) != k ==> r[i] == s[i]
    ensures forall i :: 0 <= i < |s| && key(s[i]) == k ==> r[i] == g(s[i])
  {
    if s == [] then []
    else [if key(s[0]) == k then g(s[0]) else s[0]] + UpdateKey(s[1..], key, k, g)
  }

  /** Updating a key no element carries leaves the list unchanged. */
  lemma UpdateUnknownKey<T, K>(s: seq<T>, key: T -> K, k: K, g: T -> T)
    requires forall x :: x in s ==> key(x) != k
    ensures UpdateKey(s, key, k, g) == s
  {
    var r := UpdateKey(s, key, k, g);
    forall i | 0 <= i < |s| ensures r[i] == s[i] {
      assert s[i] in s;
    }
  }

  /** When `g` keeps the key and applying it twice is applying it once, the
      update is idempotent. */
  lemma UpdateKeyTwice<T, K>(s: seq<T>, key: T -> K, k: K, g: T -> T)
    requires forall x :: key(g(x)) == key(x)
    requires forall x :: g(g(x)) == g(x)
    ensures UpdateKey(UpdateKey(s, key, k, g), key, k, g) == UpdateKey(s, key, k, g)
  {
  }

  /** When `g` keeps the key, deleting after updating is just deleting. */
  lemma {:induction false} UpdateThenRemove<T(!new), K>(s: seq<T>, key: T -> K, k: K, g: T -> T)
    requires forall x :: key(g(x)) == key(x)
    ensures RemoveKey(UpdateKey(s, key, k, g), key, k) == RemoveKey(s, key, k)
  {
    if s != [] {
      var u := UpdateKey(s, key, k, g);
      assert u == [u[0]] + u[1..];
      assert u[1..] == UpdateKey(s[1..], key, k, g);
      assert s == [s[0]] + s[1..];
      RemoveKeyCons(u[0], u[1..], key, k);
      RemoveKeyCons(s[0], s[1..], key, k);
      UpdateThenRemove(s[1..], key, k, g);
    }
  }

  /** `[f(from), f(from + 1), ..., f(from + n - 1)]`: a series built by
      pushing one entry per step, in ascending order. */
  function Tabulate<T>(from: int, n: nat, f: int -> T): (r: seq<T>)
    ensures |r| == n
  {
    if n == 0 then [] else Tabulate(from, n - 1, f) + [f(from + n - 1)]
  }

  /** Entry `k` of a tabulated series is `f(from + k)`. */
  lemma {:induction false} TabulateAt<T>(from: int, n: nat, f: int -> T, k: nat)
    requires k < n
    ensures Tabulate(from, n, f)[k] == f(from + k)
  {
    if k < n - 1 {
      TabulateAt(from, n - 1, f, k);
    }
  }
}
