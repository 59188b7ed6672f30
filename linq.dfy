/** The LINQ operators the service uses, over finite sequences:
    Select, Where(..).Select(..).FirstOrDefault() and a stable OrderBy. */
module Linq {
  import opened Wrappers
  import Ordinal

  /** Enumerable.Select followed by ToList: f applied to every element, in order. */
  function Select<T, U>(s: seq<T>, f: T -> U): (r: seq<U>)
    ensures |r| == |s|
    ensures forall i | 0 <= i < |s| :: r[i] == f(s[i])
  {
    if s == [] then [] else [f(s[0])] + Select(s[1..], f)
  }

  /** Position of the first element that satisfies p, if any. */
  function FirstIndex<T>(s: seq<T>, p: T -> bool): (r: Option<nat>)
    ensures r.None? <==> forall i | 0 <= i < |s| :: !p(s[i])
    ensures r.Some? ==> r.value < |s| && p(s[r.value])
    ensures r.Some? ==> forall j | 0 <= j < r.value :: !p(s[j])
  {
    if s == [] then None
    else if p(s[0]) then Some(0)
    else
      match FirstIndex(s[1..], p)
      case None =>
        assert forall i | 1 <= i < |s| :: s[i] == s[1..][i - 1];
        None
      case Some(k) =>
        assert forall j | 1 <= j < k + 1 :: s[j] == s[1..][j - 1];
        Some(k + 1)
  }

  /** `s.Where(p).Select(f).FirstOrDefault()`: f of the first element that
      satisfies p, or None (the default) when no element does. */
  function FirstOrNone<T, U>(s: seq<T>, p: T -> bool, f: T -> U): (r: Option<U>)
    ensures r.None? <==> forall i | 0 <= i < |s| :: !p(s[i])
    ensures r.Some? ==> exists i | 0 <= i < |s| ::
                          p(s[i]) && r.value == f(s[i]) && forall j | 0 <= j < i :: !p(s[j])
  {
    match FirstIndex(s, p)
    case None => None
    case Some(i) => Some(f(s[i]))
  }

  /** An index one further on, for a search that skipped the head. */
  function ShiftIndex(k: Option<nat>): Option<nat>
  {
    match k
    case None => None
    case Some(i) => Some(i + 1)
  }

  /** Rows after a match never change the answer, and a prefix without a
      match never contributes to it. */
  lemma {:induction false} FirstOrNoneAppend<T, U>(s: seq<T>, t: seq<T>, p: T -> bool, f: T -> U)
    ensures FirstOrNone(s + t, p, f) ==
            if FirstOrNone(s, p, f).Some? then FirstOrNone(s, p, f) else FirstOrNone(t, p, f)
  {
    if s != [] {
      assert (s + t)[0] == s[0];
      if !p(s[0]) {
        assert (s + t)[1..] == s[1..] + t;
        FirstOrNoneAppend(s[1..], t, p, f);
        assert FirstIndex(s + t, p) == ShiftIndex(FirstIndex(s[1..] + t, p));
        assert FirstIndex(s, p) == ShiftIndex(FirstIndex(s[1..], p));
      }
    } else {
      assert s + t == t;
    }
  }

  /** Every pair of elements is in order by key. */
  ghost predicate SortedBy<T>(s: seq<T>, key: T -> string)
  {
    forall i, j | 0 <= i < j < |s| :: Ordinal.Le(key(s[i]), key(s[j]))
  }

  /** The elements of s whose key is n, in the order of s. */
  function WithKey<T>(s: seq<T>, key: T -> string, n: string): seq<T>
  {
    if s == [] then [] else (if key(s[0]) == n then [s[0]] else []) + WithKey(s[1..], key, n)
  }

  /** Places x before the first element of t whose key is not below x's. */
  function Insert<T>(x: T, t: seq<T>, key: T -> string): (r: seq<T>)
    ensures |r| == |t| + 1
    ensures multiset(r) == multiset(t) + multiset{x}
  {
    if t == [] || Ordinal.Le(key(x), key(t[0])) then [x] + t
    else
      assert t == [t[0]] + t[1..];
      [t[0]] + Insert(x, t[1..], key)
  }

  /** Enumerable.OrderBy(key) with the ordinal comparer, as an insertion sort:
      the result is a permutation of s. */
  function OrderBy<T>(s: seq<T>, key: T -> string): (r: seq<T>)
    ensures |r| == |s|
    ensures multiset(r) == multiset(s)
  {
    if s == [] then []
    else
      assert s == [s[0]] + s[1..];
      Insert(s[0], OrderBy(s[1..], key), key)
  }

  lemma {:induction false} InsertSorted<T>(x: T, t: seq<T>, key: T -> string)
    requires SortedBy(t, key)
    ensures SortedBy(Insert(x, t, key), key)
  {
    if t == [] || Ordinal.Le(key(x), key(t[0])) {
      forall j | 0 <= j < |t|
        ensures Ordinal.Le(key(x), key(t[j]))
      {
        if j > 0 {
          Ordinal.LeTransitive(key(x), key(t[0]), key(t[j]));
        }
      }
    } else {
      var rest := Insert(x, t[1..], key);
      InsertSorted(x, t[1..], key);
      Ordinal.LeTotal(key(x), key(t[0]));
      forall k | 0 <= k < |rest|
        ensures Ordinal.Le(key(t[0]), key(rest[k]))
      {
        var y := rest[k];
        assert y in multiset(rest);
        if y != x {
          assert y in multiset(t[1..]);
          var j :| 0 <= j < |t[1..]| && t[1..][j] == y;
          assert t[j + 1] == y;
        }
      }
      var r := [t[0]] + rest;
      forall i, j | 0 <= i < j < |r|
        ensures Ordinal.Le(key(r[i]), key(r[j]))
      {
        if i > 0 {
          assert r[i] == rest[i - 1] && r[j] == rest[j - 1];
        } else {
          assert r[j] == rest[j - 1];
        }
      }
    }
  }

  /** OrderBy puts the elements in non-decreasing order of key. */
  lemma {:induction false} OrderBySorted<T>(s: seq<T>, key: T -> string)
    ensures SortedBy(OrderBy(s, key), key)
  {
    if s != [] {
      OrderBySorted(s[1..], key);
      InsertSorted(s[0], OrderBy(s[1..], key), key);
    }
  }

  lemma {:induction false} WithKeyInsert<T>(x: T, t: seq<T>, key: T -> string, n: string)
    ensures WithKey(Insert(x, t, key), key, n) ==
            (if key(x) == n then [x] else []) + WithKey(t, key, n)
  {
    if t == [] || Ordinal.Le(key(x), key(t[0])) {
      assert ([x] + t)[1..] == t;
    } else {
      WithKeyInsert(x, t[1..], key, n);
      Ordinal.LeReflexive(key(x));
      assert key(x) == n ==> key(t[0]) != n;
      assert ([t[0]] + Insert(x, t[1..], key))[1..] == Insert(x, t[1..], key);
    }
  }

  /** OrderBy is stable: elements with equal keys keep their relative order. */
  lemma {:induction false} OrderByStable<T>(s: seq<T>, key: T -> string, n: string)
    ensures WithKey(OrderBy(s, key), key, n) == WithKey(s, key, n)
  {
    if s != [] {
      OrderByStable(s[1..], key, n);
      WithKeyInsert(s[0], OrderBy(s[1..], key), key, n);
    }
  }

  lemma {:induction false} SelectInsert<T, U>(x: T, t: seq<T>, key: T -> string, f: T -> U, key': U -> string)
    requires forall y :: key'(f(y)) == key(y)
    ensures Select(Insert(x, t, key), f) == Insert(f(x), Select(t, f), key')
  {
    if t == [] || Ordinal.Le(key(x), key(t[0])) {
      assert ([x] + t)[1..] == t;
    } else {
      SelectInsert(x, t[1..], key, f, key');
      assert ([t[0]] + Insert(x, t[1..], key))[1..] == Insert(x, t[1..], key);
    }
  }

  /** Sorting and then projecting equals projecting and then sorting, when
      the projection keeps the key. */
  lemma {:induction false} SelectOrderBy<T, U>(s: seq<T>, key: T -> string, f: T -> U, key': U -> string)
    requires forall y :: key'(f(y)) == key(y)
    ensures Select(OrderBy(s, key), f) == OrderBy(Select(s, f), key')
  {
    if s != [] {
      SelectOrderBy(s[1..], key, f, key');
      SelectInsert(s[0], OrderBy(s[1..], key), key, f, key');
    }
  }

  /** Some element has key n exactly when the elements with key n are not none. */
  lemma {:induction false} WithKeyNonEmpty<T>(s: seq<T>, key: T -> string, n: string)
    ensures WithKey(s, key, n) != [] <==> exists i | 0 <= i < |s| :: key(s[i]) == n
  {
    if s != [] {
      WithKeyNonEmpty(s[1..], key, n);
      assert forall i | 0 < i < |s| :: s[i] == s[1..][i - 1];
    }
  }

  /** Two sequences sorted by key that hold the same elements of every key in
      the same order are equal. */
  lemma {:induction false} SortedStableUnique<T>(a: seq<T>, b: seq<T>, key: T -> string)
    requires SortedBy(a, key) && SortedBy(b, key)
    requires forall n :: WithKey(a, key, n) == WithKey(b, key, n)
    ensures a == b
    decreases |a|
  {
    assert (a == []) == (b == []) by {
      if a != [] { assert WithKey(b, key, key(a[0])) == WithKey(a, key, key(a[0])) != []; }
      if b != [] { assert WithKey(a, key, key(b[0])) == WithKey(b, key, key(b[0])) != []; }
    }
    if a != [] {
      var ka, kb := key(a[0]), key(b[0]);
      assert Ordinal.Le(ka, kb) by {
        WithKeyNonEmpty(a, key, kb);
        assert WithKey(a, key, kb) == WithKey(b, key, kb) != [];
        var i :| 0 <= i < |a| && key(a[i]) == kb;
        Ordinal.LeReflexive(ka);
      }
      assert Ordinal.Le(kb, ka) by {
        WithKeyNonEmpty(b, key, ka);
        assert WithKey(b, key, ka) == WithKey(a, key, ka) != [];
        var i :| 0 <= i < |b| && key(b[i]) == ka;
        Ordinal.LeReflexive(kb);
      }
      Ordinal.LeAntisymmetric(ka, kb);
      assert a[0] == WithKey(a, key, ka)[0] == WithKey(b, key, ka)[0] == b[0];
      forall n
        ensures WithKey(a[1..], key, n) == WithKey(b[1..], key, n)
      {
        var head := if ka == n then [a[0]] else [];
        assert WithKey(a, key, n) == head + WithKey(a[1..], key, n);
        assert WithKey(b, key, n) == head + WithKey(b[1..], key, n);
        assert WithKey(a[1..], key, n) == WithKey(a, key, n)[|head|..];
        assert WithKey(b[1..], key, n) == WithKey(b, key, n)[|head|..];
      }
      assert SortedBy(a[1..], key) by {
        forall i, j | 0 <= i < j < |a[1..]|
          ensures Ordinal.Le(key(a[1..][i]), key(a[1..][j]))
        {
          assert a[1..][i] == a[i + 1] && a[1..][j] == a[j + 1];
        }
      }
      assert SortedBy(b[1..], key) by {
        forall i, j | 0 <= i < j < |b[1..]|
          ensures Ordinal.Le(key(b[1..][i]), key(b[1..][j]))
        {
          assert b[1..][i] == b[i + 1] && b[1..][j] == b[j + 1];
        }
      }
      SortedStableUnique(a[1..], b[1..], key);
      assert a == [a[0]] + a[1..] && b == [b[0]] + b[1..];
    }
  }

  /** OrderBy is the only sorted arrangement of s that keeps the elements of
      each key in input order, so every stable sort by key agrees with it. */
  lemma OrderByUnique<T>(s: seq<T>, r: seq<T>, key: T -> string)
    requires SortedBy(r, key)
    requires forall n :: WithKey(r, key, n) == WithKey(s, key, n)
    ensures r == OrderBy(s, key)
  {
    OrderBySorted(s, key);
    forall n
      ensures WithKey(OrderBy(s, key), key, n) == WithKey(r, key, n)
    {
      OrderByStable(s, key, n);
    }
    SortedStableUnique(OrderBy(s, key), r, key);
  }
}
