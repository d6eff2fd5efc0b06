/** Sorting by a string key, in code-point order: stable, and canonical where the keys differ. */
module Sorting {
  /** Lexicographic order of code points. */
  predicate Below(a: string, b: string) {
    a == "" || (b != "" && (a[0] < b[0] || (a[0] == b[0] && Below(a[1..], b[1..]))))
  }

  /** Either `a` is a prefix of `b`, or where they first differ `a` has the lesser code point. */
  lemma {:induction false} BelowIff(a: string, b: string)
    ensures Below(a, b) <==> a <= b || exists k :: Differs(a, b, k) && a[k] < b[k]
  {
    if a == "" {
    } else if b == "" {
    } else if a[0] != b[0] {
      assert Differs(a, b, 0);
      assert forall k | Differs(a, b, k) :: k == 0;
    } else {
      BelowIff(a[1..], b[1..]);
      assert a <= b <==> a[1..] <= b[1..];
      if k :| Differs(a[1..], b[1..], k) && a[1..][k] < b[1..][k] {
        assert Differs(a, b, k + 1);
      }
      if k :| Differs(a, b, k) && a[k] < b[k] {
        assert Differs(a[1..], b[1..], k - 1);
      }
    }
  }

  /** `a` and `b` differ first at `k`. */
  predicate Differs(a: string, b: string, k: int) {
    0 <= k < |a| && k < |b| && a[k] != b[k] && a[..k] == b[..k]
  }

  lemma BelowTotal(a: string, b: string)
    ensures Below(a, b) || Below(b, a)
  {
  }

  lemma BelowAntisymmetric(a: string, b: string)
    requires Below(a, b) && Below(b, a)
    ensures a == b
  {
    if a != "" && b != "" {
      BelowAntisymmetric(a[1..], b[1..]);
      assert a == [a[0]] + a[1..] && b == [b[0]] + b[1..];
    }
  }

  lemma BelowTransitive(a: string, b: string, c: string)
    requires Below(a, b) && Below(b, c)
    ensures Below(a, c)
  {
  }

  function InsertBy<T>(key: T -> string, x: T, xs: seq<T>): seq<T> {
    if xs == [] || Below(key(x), key(xs[0])) then [x] + xs
    else [xs[0]] + InsertBy(key, x, xs[1..])
  }

  function SortBy<T>(key: T -> string, xs: seq<T>): seq<T> {
    if xs == [] then [] else InsertBy(key, xs[0], SortBy(key, xs[1..]))
  }

  ghost predicate SortedBy<T>(key: T -> string, xs: seq<T>) {
    forall i, j | 0 <= i < j < |xs| :: Below(key(xs[i]), key(xs[j]))
  }

  ghost predicate DistinctBy<T>(key: T -> string, xs: seq<T>) {
    forall i, j | 0 <= i < j < |xs| :: key(xs[i]) != key(xs[j])
  }

  lemma {:induction false} InsertSorts<T>(key: T -> string, x: T, xs: seq<T>)
    requires SortedBy(key, xs)
    ensures SortedBy(key, InsertBy(key, x, xs))
    ensures multiset(InsertBy(key, x, xs)) == multiset{x} + multiset(xs)
  {
    if xs == [] {
    } else if Below(key(x), key(xs[0])) {
      forall j | 0 <= j < |xs|
        ensures Below(key(x), key(xs[j]))
      {
        if j > 0 {
          BelowTransitive(key(x), key(xs[0]), key(xs[j]));
        }
      }
    } else {
      BelowTotal(key(x), key(xs[0]));
      InsertSorts(key, x, xs[1..]);
      var rest := InsertBy(key, x, xs[1..]);
      assert xs == [xs[0]] + xs[1..];
      forall j | 0 <= j < |rest|
        ensures Below(key(xs[0]), key(rest[j]))
      {
        assert rest[j] in multiset(rest);
        if rest[j] != x {
          assert rest[j] in multiset(xs[1..]);
        }
      }
    }
  }

  lemma {:induction false} SortSorts<T>(key: T -> string, xs: seq<T>)
    ensures SortedBy(key, SortBy(key, xs)) && multiset(SortBy(key, xs)) == multiset(xs)
    ensures |SortBy(key, xs)| == |xs|
  {
    if xs == [] {
    } else {
      SortSorts(key, xs[1..]);
      InsertSorts(key, xs[0], SortBy(key, xs[1..]));
      assert xs == [xs[0]] + xs[1..];
    }
    assert |multiset(SortBy(key, xs))| == |multiset(xs)|;
  }

  /** The elements with the key `k`, in order. */
  function WithKey<T>(key: T -> string, xs: seq<T>, k: string): seq<T> {
    if xs == [] then []
    else (if key(xs[0]) == k then [xs[0]] else []) + WithKey(key, xs[1..], k)
  }

  lemma {:induction false} InsertIsStable<T>(key: T -> string, x: T, xs: seq<T>, k: string)
    requires SortedBy(key, xs)
    ensures WithKey(key, InsertBy(key, x, xs), k) == WithKey(key, [x] + xs, k)
  {
    var all := [x] + xs;
    assert all[1..] == xs;
    if xs == [] || Below(key(x), key(xs[0])) {
    } else {
      InsertIsStable(key, x, xs[1..], k);
      var rest := InsertBy(key, x, xs[1..]);
      var sorted := [xs[0]] + rest;
      assert sorted[1..] == rest && InsertBy(key, x, xs) == sorted;
      assert ([x] + xs[1..])[1..] == xs[1..];
      assert key(x) != key(xs[0]) by {
        BelowTotal(key(x), key(xs[0]));
      }
    }
  }

  /** Elements with equal keys stay in the order they came in. */
  lemma {:induction false} SortIsStable<T>(key: T -> string, xs: seq<T>, k: string)
    ensures WithKey(key, SortBy(key, xs), k) == WithKey(key, xs, k)
  {
    if xs != [] {
      SortSorts(key, xs[1..]);
      SortIsStable(key, xs[1..], k);
      InsertIsStable(key, xs[0], SortBy(key, xs[1..]), k);
      var all := [xs[0]] + SortBy(key, xs[1..]);
      assert all[1..] == SortBy(key, xs[1..]);
    }
  }

  lemma SameElements<T>(xs: seq<T>, ys: seq<T>)
    requires multiset(xs) == multiset(ys)
    ensures forall x :: x in xs <==> x in ys
  {
    forall x
      ensures x in xs <==> x in ys
    {
      assert x in multiset(xs) <==> x in multiset(ys);
    }
  }

  lemma SameHead<T>(key: T -> string, xs: seq<T>, ys: seq<T>)
    requires SortedBy(key, xs) && SortedBy(key, ys) && DistinctBy(key, xs) && multiset(xs) == multiset(ys)
    requires xs != [] && ys != []
    ensures xs[0] == ys[0]
  {
    SameElements(xs, ys);
    assert xs[0] in xs && ys[0] in ys;
    var i :| 0 <= i < |ys| && ys[i] == xs[0];
    var j :| 0 <= j < |xs| && xs[j] == ys[0];
    if j > 0 && i > 0 {
      BelowAntisymmetric(key(xs[0]), key(ys[0]));
    }
  }

  lemma {:induction false} SortedIsCanonical<T>(key: T -> string, xs: seq<T>, ys: seq<T>)
    requires SortedBy(key, xs) && SortedBy(key, ys) && DistinctBy(key, xs) && multiset(xs) == multiset(ys)
    ensures xs == ys
  {
    assert |xs| == |multiset(xs)| == |multiset(ys)| == |ys|;
    if xs == [] {
    } else {
      SameHead(key, xs, ys);
      assert xs == [xs[0]] + xs[1..] && ys == [ys[0]] + ys[1..];
      assert multiset(xs[1..]) == multiset(xs) - multiset{xs[0]};
      assert multiset(ys[1..]) == multiset(ys) - multiset{ys[0]};
      SortedIsCanonical(key, xs[1..], ys[1..]);
    }
  }

  /** Distinct keys stay distinct under permutation. */
  lemma DistinctIsInvariant<T>(key: T -> string, xs: seq<T>, ys: seq<T>)
    requires DistinctBy(key, xs) && multiset(xs) == multiset(ys)
    ensures DistinctBy(key, ys)
  {
    forall i, j | 0 <= i < j < |ys|
      ensures key(ys[i]) != key(ys[j])
    {
      if key(ys[i]) == key(ys[j]) {
        SameElements(xs, ys);
        assert ys[i] in ys && ys[j] in ys;
        var a :| 0 <= a < |xs| && xs[a] == ys[i];
        var b :| 0 <= b < |xs| && xs[b] == ys[j];
        assert a == b;
        TwiceInMultiset(ys, i, j);
        OnceInMultiset(key, xs, a);
        assert false;
      }
    }
  }

  lemma TwiceInMultiset<T>(ys: seq<T>, i: nat, j: nat)
    requires i < j < |ys| && ys[i] == ys[j]
    ensures multiset(ys)[ys[i]] >= 2
  {
    assert ys == ys[..j] + [ys[j]] + ys[j + 1..];
    assert ys[..j][i] == ys[i];
    assert multiset(ys[..j])[ys[i]] >= 1;
  }

  lemma OnceInMultiset<T>(key: T -> string, xs: seq<T>, a: nat)
    requires DistinctBy(key, xs) && a < |xs|
    ensures multiset(xs)[xs[a]] == 1
  {
    assert xs == xs[..a] + [xs[a]] + xs[a + 1..];
    assert xs[a] !in xs[..a] && xs[a] !in xs[a + 1..];
  }

  /** However the elements arrive, the sorted sequence is the same. */
  lemma SortIsCanonical<T>(key: T -> string, xs: seq<T>, ys: seq<T>)
    requires DistinctBy(key, xs) && multiset(xs) == multiset(ys)
    ensures SortBy(key, xs) == SortBy(key, ys)
  {
    SortSorts(key, xs);
    SortSorts(key, ys);
    DistinctIsInvariant(key, xs, SortBy(key, xs));
    SortedIsCanonical(key, SortBy(key, xs), SortBy(key, ys));
  }
}
