/** Failure and absence, shared by every module of the model. */
module Basics {

  datatype Option<+T> = None | Some(value: T)

  /** `Raise` stands for an exception of the original program. */
  datatype Result<+T, +E> = Ok(value: T) | Raise(error: E)

  function Last<T>(s: seq<T>): T
    requires s != []
  {
    s[|s| - 1]
  }

  function Front<T>(s: seq<T>): seq<T>
    requires s != []
  {
    s[..|s| - 1]
  }

  /** Every element occurs once; the executable form of `len(set(s)) == len(s)`. */
  predicate AllDifferent<T(==)>(s: seq<T>) {
    forall i, j | 0 <= i < j < |s| :: s[i] != s[j]
  }

  /** The images of all elements, one behind the other. */
  function FlatMap<S, T>(s: seq<S>, f: S -> seq<T>): seq<T> {
    if s == [] then [] else FlatMap(Front(s), f) + f(Last(s))
  }

  lemma {:induction false} FlatMapConcat<S, T>(first: seq<S>, second: seq<S>, f: S -> seq<T>)
    ensures FlatMap(first + second, f) == FlatMap(first, f) + FlatMap(second, f)
  {
    if second == [] {
      assert first + second == first;
    } else {
      assert Front(first + second) == first + Front(second) && Last(first + second) == Last(second);
      FlatMapConcat(first, Front(second), f);
      Associative(FlatMap(first, f), FlatMap(Front(second), f), f(Last(second)));
    }
  }

  lemma FlatMapOne<S, T>(x: S, f: S -> seq<T>)
    ensures FlatMap([x], f) == f(x)
  {
    assert Front([x]) == [];
  }

  lemma Associative<T>(a: seq<T>, b: seq<T>, c: seq<T>)
    ensures a + b + c == a + (b + c)
  {
  }

  /** Where something that was not so has become so. */
  lemma {:induction false} Turning(f: nat -> bool, n: nat) returns (k: nat)
    requires !f(0) && f(n)
    ensures k < n && !f(k) && f(k + 1)
  {
    if f(n - 1) {
      k := Turning(f, n - 1);
    } else {
      k := n - 1;
    }
  }
}
