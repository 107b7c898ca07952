/** Stable sorting by key, as Python's `sorted` does it. */
module Sorting {
  import opened Basics

  /** Keys are triples compared in order; a shorter key fills the places in front with zero. */
  datatype Key = Key(first: int, second: int, third: int)

  predicate Below(a: Key, b: Key) {
    || a.first < b.first
    || (a.first == b.first && a.second < b.second)
    || (a.first == b.first && a.second == b.second && a.third < b.third)
  }

  /** How many elements of a sorted sequence stay in front of a newcomer: all but those above it. */
  function Place<T>(s: seq<T>, x: T, key: T -> Key): (n: nat)
    ensures n <= |s|
    ensures n > 0 ==> !Below(key(x), key(s[n - 1]))
    ensures forall i | n <= i < |s| :: Below(key(x), key(s[i]))
  {
    if s == [] || !Below(key(x), key(Last(s))) then |s| else Place(Front(s), x, key)
  }

  function Insert<T>(s: seq<T>, x: T, key: T -> Key): seq<T> {
    var n := Place(s, x, key);
    s[..n] + [x] + s[n..]
  }

  function SortBy<T>(s: seq<T>, key: T -> Key): seq<T> {
    if s == [] then [] else Insert(SortBy(Front(s), key), Last(s), key)
  }

  ghost predicate Sorted<T>(s: seq<T>, key: T -> Key) {
    forall i, j | 0 <= i < j < |s| :: !Below(key(s[j]), key(s[i]))
  }

  ghost predicate StrictlySorted<T>(s: seq<T>, key: T -> Key) {
    forall i, j | 0 <= i < j < |s| :: Below(key(s[i]), key(s[j]))
  }

  lemma InsertKeepsOrder<T>(s: seq<T>, x: T, key: T -> Key)
    requires Sorted(s, key)
    ensures Sorted(Insert(s, x, key), key)
  {
    var n, t := Place(s, x, key), Insert(s, x, key);
    forall i, j | 0 <= i < j < |t| ensures !Below(key(t[j]), key(t[i])) {
      if j == n {
        assert t[i] == s[i] && (i == n - 1 || !Below(key(s[n - 1]), key(s[i])));
      } else if i == n {
        assert t[j] == s[j - 1] && Below(key(x), key(s[j - 1]));
      } else {
        assert t[i] == s[if i < n then i else i - 1] && t[j] == s[if j < n then j else j - 1];
      }
    }
  }

  lemma InsertAdds<T>(s: seq<T>, x: T, key: T -> Key)
    ensures multiset(Insert(s, x, key)) == multiset(s) + multiset{x}
  {
    var n := Place(s, x, key);
    assert s == s[..n] + s[n..];
  }

  lemma {:induction false} SortSorts<T>(s: seq<T>, key: T -> Key)
    ensures Sorted(SortBy(s, key), key)
    ensures multiset(SortBy(s, key)) == multiset(s)
  {
    if s != [] {
      SortSorts(Front(s), key);
      InsertKeepsOrder(SortBy(Front(s), key), Last(s), key);
      InsertAdds(SortBy(Front(s), key), Last(s), key);
      assert s == Front(s) + [Last(s)];
    }
  }

  lemma InPermutation<T>(s: seq<T>, t: seq<T>, i: nat) returns (j: nat)
    requires multiset(s) == multiset(t) && i < |s|
    ensures j < |t| && t[j] == s[i]
  {
    assert s[i] in multiset(t);
    j :| 0 <= j < |t| && t[j] == s[i];
  }

  /** There is only one way to put elements with different keys in order. */
  lemma {:induction false} SortedIsUnique<T>(s: seq<T>, t: seq<T>, key: T -> Key)
    requires multiset(s) == multiset(t) && StrictlySorted(s, key) && Sorted(t, key)
    ensures s == t
  {
    assert |s| == |multiset(s)| == |multiset(t)| == |t|;
    if s != [] {
      var j := InPermutation(s, t, 0);
      var i := InPermutation(t, s, 0);
      assert s[0] == t[0];
      assert s == [s[0]] + s[1..] && t == [t[0]] + t[1..];
      assert multiset(s[1..]) == multiset(s) - multiset{s[0]};
      assert multiset(t[1..]) == multiset(t) - multiset{t[0]};
      SortedIsUnique(s[1..], t[1..], key);
    }
  }

  // ---- Stability ----

  /** The elements of one key, in order. */
  function OfKey<T>(s: seq<T>, key: T -> Key, k: Key): seq<T> {
    if s == [] then [] else OfKey(Front(s), key, k) + (if key(Last(s)) == k then [Last(s)] else [])
  }

  lemma {:induction false} OfKeyConcat<T>(first: seq<T>, second: seq<T>, key: T -> Key, k: Key)
    ensures OfKey(first + second, key, k) == OfKey(first, key, k) + OfKey(second, key, k)
  {
    if second == [] {
      assert first + second == first;
    } else {
      assert Front(first + second) == first + Front(second);
      OfKeyConcat(first, Front(second), key, k);
    }
  }

  lemma {:induction false} OfKeyNone<T>(s: seq<T>, key: T -> Key, k: Key)
    requires forall i | 0 <= i < |s| :: key(s[i]) != k
    ensures OfKey(s, key, k) == []
  {
    if s != [] {
      OfKeyNone(Front(s), key, k);
    }
  }

  lemma InsertBehindEquals<T>(s: seq<T>, x: T, key: T -> Key, k: Key)
    ensures OfKey(Insert(s, x, key), key, k) == OfKey(s, key, k) + (if key(x) == k then [x] else [])
  {
    var n := Place(s, x, key);
    OfKeyConcat(s[..n] + [x], s[n..], key, k);
    OfKeyConcat(s[..n], [x], key, k);
    OfKeyConcat(s[..n], s[n..], key, k);
    assert s[..n] + s[n..] == s;
    assert Front([x]) == [];
    if key(x) == k {
      OfKeyNone(s[n..], key, k);
    }
  }

  /** Sorting leaves the elements of one key in the order they had. */
  lemma {:induction false} SortIsStable<T>(s: seq<T>, key: T -> Key, k: Key)
    ensures OfKey(SortBy(s, key), key, k) == OfKey(s, key, k)
  {
    if s != [] {
      SortIsStable(Front(s), key, k);
      InsertBehindEquals(SortBy(Front(s), key), Last(s), key, k);
    }
  }
}
