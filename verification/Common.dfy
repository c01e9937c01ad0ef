/** A value that may be missing. */
module Options {
  datatype Option<T> = None | Some(value: T)
}

/** A stable sort by a key. */
module Sorting {
  function Insert<T>(x: T, s: seq<T>, key: T -> real): seq<T> {
    if s == [] || key(x) < key(s[0]) then [x] + s else [s[0]] + Insert(x, s[1..], key)
  }

  function SortBy<T>(s: seq<T>, key: T -> real): seq<T> {
    if s == [] then [] else Insert(s[|s| - 1], SortBy(s[..|s| - 1], key), key)
  }

  ghost predicate Ascends<T>(s: seq<T>, key: T -> real) {
    forall i, j :: 0 <= i < j < |s| ==> key(s[i]) <= key(s[j])
  }

  lemma PrependAscends<T>(x: T, s: seq<T>, key: T -> real)
    requires Ascends(s, key) && (s != [] ==> key(x) <= key(s[0]))
    ensures Ascends([x] + s, key)
  {
  }

  lemma {:induction false} InsertAscends<T>(x: T, s: seq<T>, key: T -> real)
    requires Ascends(s, key)
    ensures Ascends(Insert(x, s, key), key)
    ensures Insert(x, s, key)[0] == x || (s != [] && Insert(x, s, key)[0] == s[0] && key(s[0]) <= key(x))
  {
    if s == [] || key(x) < key(s[0]) {
      PrependAscends(x, s, key);
    } else {
      var tail := Insert(x, s[1..], key);
      InsertAscends(x, s[1..], key);
      hide Insert;
      PrependAscends(s[0], tail, key);
    }
  }

  lemma {:induction false} InsertPermutes<T>(x: T, s: seq<T>, key: T -> real)
    ensures multiset(Insert(x, s, key)) == multiset(s) + multiset{x}
  {
    if s != [] && key(x) >= key(s[0]) {
      InsertPermutes(x, s[1..], key);
      assert s == [s[0]] + s[1..];
    }
  }

  /** The result is in order and holds the same elements. */
  lemma {:induction false} SortBySorts<T>(s: seq<T>, key: T -> real)
    ensures Ascends(SortBy(s, key), key) && multiset(SortBy(s, key)) == multiset(s)
  {
    if s != [] {
      var n := |s| - 1;
      SortBySorts(s[..n], key);
      InsertAscends(s[n], SortBy(s[..n], key), key);
      InsertPermutes(s[n], SortBy(s[..n], key), key);
      assert s == s[..n] + [s[n]];
      hide Insert, Ascends;
    }
  }
}
