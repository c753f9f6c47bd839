/** Python's sorted() with a key, as a stable insertion sort on sequences. */
module Sorting {

  predicate SortedBy<T>(key: T -> real, s: seq<T>)
  {
    forall i, j :: 0 <= i < j < |s| ==> key(s[i]) <= key(s[j])
  }

  /** Insert x after every element whose key is not above its own. */
  function InsertBy<T>(key: T -> real, x: T, s: seq<T>): seq<T>
  {
    if s == [] || key(x) < key(s[0]) then [x] + s
    else [s[0]] + InsertBy(key, x, s[1..])
  }

  /** The elements in ascending order of key; equal keys keep their order. */
  function SortBy<T>(key: T -> real, s: seq<T>): seq<T>
  {
    if s == [] then [] else InsertBy(key, s[|s| - 1], SortBy(key, s[..|s| - 1]))
  }

  /** Inserting keeps a lower bound that x and every element of s respect. */
  lemma {:induction false} InsertByBound<T>(key: T -> real, x: T, s: seq<T>, lo: real)
    requires key(x) >= lo && forall k :: 0 <= k < |s| ==> key(s[k]) >= lo
    ensures forall k :: 0 <= k < |InsertBy(key, x, s)| ==> key(InsertBy(key, x, s)[k]) >= lo
  {
    if s != [] && key(x) >= key(s[0]) {
      InsertByBound(key, x, s[1..], lo);
    }
  }

  lemma {:induction false} InsertBySorted<T>(key: T -> real, x: T, s: seq<T>)
    requires SortedBy(key, s)
    ensures SortedBy(key, InsertBy(key, x, s))
  {
    if s != [] && key(x) >= key(s[0]) {
      var tail := s[1..];
      var rest := InsertBy(key, x, tail);
      InsertBySorted(key, x, tail);
      InsertByBound(key, x, tail, key(s[0]));
      var r := InsertBy(key, x, s);
      assert r == [s[0]] + rest;
      forall i, j | 0 <= i < j < |r|
        ensures key(r[i]) <= key(r[j])
      {
        assert r[j] == rest[j - 1];
        if i > 0 {
          assert r[i] == rest[i - 1];
        }
      }
    }
  }

  lemma {:induction false} InsertByElements<T>(key: T -> real, x: T, s: seq<T>)
    ensures multiset(InsertBy(key, x, s)) == multiset(s) + multiset{x}
  {
    if s != [] && key(x) >= key(s[0]) {
      InsertByElements(key, x, s[1..]);
      assert s == [s[0]] + s[1..];
    }
  }

  /** The sorted sequence is in ascending order of key and has the same elements. */
  lemma {:induction false} SortByCorrect<T>(key: T -> real, s: seq<T>)
    ensures SortedBy(key, SortBy(key, s))
    ensures multiset(SortBy(key, s)) == multiset(s)
  {
    if s != [] {
      var init := s[..|s| - 1];
      SortByCorrect(key, init);
      InsertBySorted(key, s[|s| - 1], SortBy(key, init));
      InsertByElements(key, s[|s| - 1], SortBy(key, init));
      assert s == init + [s[|s| - 1]];
    }
  }
}
