/** A stable insertion sort by a string key, ascending or descending, as the
    content store's `order(key asc|desc)` applies it. */
module Sorting {
  import opened Text

  datatype Direction = Asc | Desc

  /** `x` may come before `y` in the order of `key` and `dir`. */
  predicate Precedes<T>(x: T, y: T, key: T -> string, dir: Direction) {
    match dir
    case Asc => StrLe(key(x), key(y))
    case Desc => StrLe(key(y), key(x))
  }

  ghost predicate SortedBy<T>(s: seq<T>, key: T -> string, dir: Direction) {
    forall i, j :: 0 <= i < j < |s| ==> Precedes(s[i], s[j], key, dir)
  }

  /** Insert `x` before the first element it may precede. */
  function Insert<T>(x: T, s: seq<T>, key: T -> string, dir: Direction): seq<T>
    decreases |s|
  {
    if s == [] then [x]
    else if Precedes(x, s[0], key, dir) then [x] + s
    else [s[0]] + Insert(x, s[1..], key, dir)
  }

  /** `order(key dir)`: a sorted permutation of `s`, built by inserting each
      element into the sorted rest. */
  function Sort<T>(s: seq<T>, key: T -> string, dir: Direction): (r: seq<T>)
    ensures multiset(r) == multiset(s)
    ensures SortedBy(r, key, dir)
    decreases |s|
  {
    if s == [] then []
    else
      var rest := Sort(s[1..], key, dir);
      InsertSorted(s[0], rest, key, dir);
      InsertPermutes(s[0], rest, key, dir);
      assert s == [s[0]] + s[1..];
      Insert(s[0], rest, key, dir)
  }

  lemma PrecedesTotal<T>(x: T, y: T, key: T -> string, dir: Direction)
    ensures Precedes(x, y, key, dir) || Precedes(y, x, key, dir)
  {
    StrLeTotal(key(x), key(y));
  }

  lemma PrecedesTransitive<T>(x: T, y: T, z: T, key: T -> string, dir: Direction)
    requires Precedes(x, y, key, dir) && Precedes(y, z, key, dir)
    ensures Precedes(x, z, key, dir)
  {
    if dir == Asc {
      StrLeTransitive(key(x), key(y), key(z));
    } else {
      StrLeTransitive(key(z), key(y), key(x));
    }
  }

  lemma {:induction false} InsertPermutes<T>(x: T, s: seq<T>, key: T -> string, dir: Direction)
    ensures multiset(Insert(x, s, key, dir)) == multiset(s) + multiset{x}
    decreases |s|
  {
    if s != [] && !Precedes(x, s[0], key, dir) {
      InsertPermutes(x, s[1..], key, dir);
      assert s == [s[0]] + s[1..];
    }
  }

  /** Prepending an element that may precede every element keeps a sequence sorted. */
  lemma ConsSorted<T>(x: T, s: seq<T>, key: T -> string, dir: Direction)
    requires SortedBy(s, key, dir)
    requires forall y :: y in s ==> Precedes(x, y, key, dir)
    ensures SortedBy([x] + s, key, dir)
  {
    var r := [x] + s;
    forall i, j | 0 <= i < j < |r| ensures Precedes(r[i], r[j], key, dir) {
      if i == 0 {
        assert r[j] == s[j - 1];
      } else {
        assert r[i] == s[i - 1] && r[j] == s[j - 1];
      }
    }
  }

  lemma {:induction false} InsertSorted<T>(x: T, s: seq<T>, key: T -> string, dir: Direction)
    requires SortedBy(s, key, dir)
    ensures SortedBy(Insert(x, s, key, dir), key, dir)
    decreases |s|
  {
    if s == [] {
    } else if Precedes(x, s[0], key, dir) {
      forall y | y in s ensures Precedes(x, y, key, dir) {
        var k :| 0 <= k < |s| && s[k] == y;
        if k > 0 {
          PrecedesTransitive(x, s[0], y, key, dir);
        }
      }
      ConsSorted(x, s, key, dir);
    } else {
      PrecedesTotal(x, s[0], key, dir);
      var rest := s[1..];
      assert SortedBy(rest, key, dir) by {
        forall i, j | 0 <= i < j < |rest| ensures Precedes(rest[i], rest[j], key, dir) {
          assert rest[i] == s[i + 1] && rest[j] == s[j + 1];
        }
      }
      InsertSorted(x, rest, key, dir);
      var tail := Insert(x, rest, key, dir);
      InsertPermutes(x, rest, key, dir);
      forall y | y in tail ensures Precedes(s[0], y, key, dir) {
        assert y in multiset(tail);
        if y != x {
          assert y in multiset(rest);
          var k :| 0 <= k < |rest| && rest[k] == y;
          assert s[k + 1] == y;
        }
      }
      ConsSorted(s[0], tail, key, dir);
    }
  }

  /** Sorting keeps the length and the elements. */
  lemma SortMembers<T>(s: seq<T>, key: T -> string, dir: Direction)
    ensures |Sort(s, key, dir)| == |s|
    ensures forall x :: x in Sort(s, key, dir) <==> x in s
  {
    var r := Sort(s, key, dir);
    assert |multiset(r)| == |r| && |multiset(s)| == |s|;
    forall x ensures x in r <==> x in s {
      assert x in r <==> x in multiset(r);
      assert x in s <==> x in multiset(s);
    }
  }
}
