/** Time, optional values and the counting lemmas shared by the other modules. */
module Basics {

  datatype Option<+T> = None | Some(value: T)

  // Instants and durations are whole nanoseconds, as in Go's time package.
  type Time = int

  const SECOND: int := 1_000_000_000
  const MINUTE: int := 60 * SECOND
  const HOUR: int := 60 * MINUTE
  const DAY: int := 24 * HOUR

  /** A set injected into another one is no larger. */
  lemma {:induction false} InjectionBound<A, B>(a: set<A>, b: set<B>, f: map<A, B>)
    requires f.Keys == a
    requires forall x :: x in a ==> f[x] in b
    requires forall x, y :: x in a && y in a && f[x] == f[y] ==> x == y
    ensures |a| <= |b|
  {
    if a == {} {
    } else {
      var x :| x in a;
      InjectionBound(a - {x}, b - {f[x]}, f - {x});
    }
  }

  /** If every fibre of `f` over `b` has at most `k` members, `a` has at most `k * |b|`. */
  lemma {:induction false} FibreBound<A, B>(a: set<A>, b: set<B>, f: map<A, B>, k: nat)
    requires f.Keys == a
    requires forall x :: x in a ==> f[x] in b
    requires forall y :: y in b ==> |Fibre(f, y)| <= k
    ensures |a| <= k * |b|
  {
    if b == {} {
      assert a == {};
    } else {
      var y :| y in b;
      var g := f - Fibre(f, y);
      forall z | z in b - {y} ensures |Fibre(g, z)| <= k {
        assert Fibre(g, z) == Fibre(f, z);
      }
      FibreBound(g.Keys, b - {y}, g, k);
      assert a == Fibre(f, y) + g.Keys;
      calc {
        k * |b - {y}| + k;
        k * (|b - {y}| + 1);
        { assert |b - {y}| + 1 == |b|; }
        k * |b|;
      }
    }
  }

  ghost function Fibre<A, B>(f: map<A, B>, y: B): set<A> {
    set x | x in f && f[x] == y
  }

  lemma SubsetBound<T>(a: set<T>, b: set<T>)
    requires a <= b
    ensures |a| <= |b|
  {
    assert |b| == |a| + |b - a|;
  }
}
