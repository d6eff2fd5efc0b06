/** Sums over finite sets. */
module Sums {
  ghost function SumOver<T(!new)>(s: set<T>, f: T -> nat): nat {
    if s == {} then 0
    else
      var x :| x in s;
      f(x) + SumOver(s - {x}, f)
  }

  lemma {:induction false} SumOverAdds<T(!new)>(s: set<T>, x: T, f: T -> nat)
    requires x !in s
    ensures SumOver(s + {x}, f) == SumOver(s, f) + f(x)
    decreases s
  {
    var all := s + {x};
    var first :| first in all && SumOver(all, f) == f(first) + SumOver(all - {first}, f);
    if first == x {
      assert all - {first} == s;
    } else {
      var fewer := s - {first};
      assert all - {first} == fewer + {x};
      SumOverAdds(fewer, x, f);
      assert s == fewer + {first};
      SumOverAdds(fewer, first, f);
    }
  }

  lemma SumOverOne<T(!new)>(x: T, f: T -> nat)
    ensures SumOver({x}, f) == f(x)
  {
    SumOverAdds({}, x, f);
    assert {} + {x} == {x};
  }

  /** An injective image has as many elements, and the same sum where the terms agree. */
  lemma {:induction false} SumOverImage<S(!new), T(!new)>(s: set<S>, t: set<T>, g: S -> T, f: S -> nat, e: T -> nat)
    requires t == set x | x in s :: g(x)
    requires forall x, y | x in s && y in s && g(x) == g(y) :: x == y
    requires forall x | x in s :: f(x) == e(g(x))
    ensures |t| == |s| && SumOver(t, e) == SumOver(s, f)
    decreases s
  {
    if s == {} {
      assert t == {};
    } else {
      var x :| x in s;
      var s', t' := s - {x}, t - {g(x)};
      assert t' == set y | y in s' :: g(y);
      SumOverImage(s', t', g, f, e);
      assert s == s' + {x} && t == t' + {g(x)};
      SumOverAdds(s', x, f);
      SumOverAdds(t', g(x), e);
    }
  }

  lemma {:induction false} SumOverAgrees<T(!new)>(s: set<T>, f: T -> nat, e: T -> nat)
    requires forall x | x in s :: f(x) == e(x)
    ensures SumOver(s, f) == SumOver(s, e)
    decreases s
  {
    if s != {} {
      var x :| x in s;
      SumOverAgrees(s - {x}, f, e);
      assert s == (s - {x}) + {x};
      SumOverAdds(s - {x}, x, f);
      SumOverAdds(s - {x}, x, e);
    }
  }
}
