/** `orderBy: { <column>: 'desc' }` of the database queries: rows in
    descending order of a key. The database leaves the order of rows with
    equal keys open; the model picks one (an insertion sort) and promises
    only the descending order and the permutation. */
module Ordering {

  predicate SortedDesc<T>(s: seq<T>, key: T -> int) {
    forall i, j :: 0 <= i < j < |s| ==> key(s[i]) >= key(s[j])
  }

  /** Places x before the first element whose key is smaller. */
  function InsertDesc<T>(x: T, s: seq<T>, key: T -> int): (r: seq<T>)
    ensures |r| == |s| + 1
  {
    if s == [] then [x]
    else if key(x) >= key(s[0]) then [x] + s
    else [s[0]] + InsertDesc(x, s[1..], key)
  }

  /** The rows of s, greatest key first. */
  function SortDesc<T>(s: seq<T>, key: T -> int): (r: seq<T>)
    ensures |r| == |s|
  {
    if s == [] then [] else InsertDesc(s[0], SortDesc(s[1..], key), key)
  }

  /** Every key of the result is x's key or a key of s. */
  lemma {:induction false} InsertDescKeys<T>(x: T, s: seq<T>, key: T -> int)
    ensures forall i :: 0 <= i < |InsertDesc(x, s, key)| ==>
      key(InsertDesc(x, s, key)[i]) == key(x) || exists j :: 0 <= j < |s| && key(InsertDesc(x, s, key)[i]) == key(s[j])
  {
    var r := InsertDesc(x, s, key);
    if s != [] && key(x) < key(s[0]) {
      var rest := InsertDesc(x, s[1..], key);
      InsertDescKeys(x, s[1..], key);
      assert r == [s[0]] + rest;
      forall i | 0 <= i < |r|
        ensures key(r[i]) == key(x) || exists j :: 0 <= j < |s| && key(r[i]) == key(s[j])
      {
        if i == 0 {
          assert key(r[i]) == key(s[0]);
        } else {
          assert r[i] == rest[i - 1];
          if key(rest[i - 1]) != key(x) {
            var j :| 0 <= j < |s[1..]| && key(rest[i - 1]) == key(s[1..][j]);
            assert key(r[i]) == key(s[j + 1]);
          }
        }
      }
    }
  }

  lemma {:induction false} InsertDescSorted<T>(x: T, s: seq<T>, key: T -> int)
    requires SortedDesc(s, key)
    ensures SortedDesc(InsertDesc(x, s, key), key)
  {
    var r := InsertDesc(x, s, key);
    if s != [] && key(x) < key(s[0]) {
      var rest := InsertDesc(x, s[1..], key);
      InsertDescSorted(x, s[1..], key);
      InsertDescKeys(x, s[1..], key);
      assert r == [s[0]] + rest;
      forall i, j | 0 <= i < j < |r|
        ensures key(r[i]) >= key(r[j])
      {
        if i == 0 {
          assert r[j] == rest[j - 1];
          if key(rest[j - 1]) != key(x) {
            var k :| 0 <= k < |s[1..]| && key(rest[j - 1]) == key(s[1..][k]);
            assert key(s[0]) >= key(s[k + 1]);
          }
        } else {
          assert r[i] == rest[i - 1] && r[j] == rest[j - 1];
        }
      }
    }
  }

  lemma {:induction false} InsertDescPermutes<T>(x: T, s: seq<T>, key: T -> int)
    ensures multiset(InsertDesc(x, s, key)) == multiset(s) + multiset{x}
  {
    if s != [] && key(x) < key(s[0]) {
      InsertDescPermutes(x, s[1..], key);
      assert s == [s[0]] + s[1..];
    }
  }

  /** The ordered result is sorted and holds exactly the rows it was given. */
  lemma {:induction false} SortDescCorrect<T>(s: seq<T>, key: T -> int)
    ensures SortedDesc(SortDesc(s, key), key)
    ensures multiset(SortDesc(s, key)) == multiset(s)
  {
    if s != [] {
      SortDescCorrect(s[1..], key);
      InsertDescSorted(s[0], SortDesc(s[1..], key), key);
      InsertDescPermutes(s[0], SortDesc(s[1..], key), key);
      assert s == [s[0]] + s[1..];
    }
  }
}
