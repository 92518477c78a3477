/** Stock datatypes, and the ORDER BY that every table query relies on. */
module Prelude {

  datatype Option<+T> = None | Some(value: T)

  datatype Result<+T, +E> = Ok(value: T) | Err(error: E)

  lemma {:induction false} SubsetIsSmaller<T>(a: set<T>, b: set<T>)
    requires a <= b
    ensures |a| <= |b|
  {
    if a != {} {
      var x :| x in a;
      SubsetIsSmaller(a - {x}, b - {x});
    }
  }

  /** A sort key: the ordering column first, the row id to break ties. */
  type Key = (int, int)

  predicate Before(a: Key, b: Key) {
    a.0 < b.0 || (a.0 == b.0 && a.1 < b.1)
  }

  predicate Increasing(s: seq<Key>) {
    forall i, j :: 0 <= i < j < |s| ==> Before(s[i], s[j])
  }

  predicate IsLeast(s: set<Key>, m: Key) {
    m in s && forall x | x in s && x != m :: Before(m, x)
  }

  lemma LeastExists(s: set<Key>) returns (m: Key)
    requires s != {}
    ensures IsLeast(s, m)
  {
    m :| m in s;
    if s != {m} {
      var k, rest := m, s - {m};
      var n := LeastExists(rest);
      m := if Before(n, k) then n else k;
      forall x | x in s && x != m ensures Before(m, x) {
        assert x == k || x in rest;
      }
    }
  }

  function Least(s: set<Key>): (m: Key)
    requires s != {}
    ensures IsLeast(s, m)
  {
    assert exists m :: IsLeast(s, m) by { var m := LeastExists(s); }
    var m :| m in s && IsLeast(s, m);
    m
  }

  /** The keys of `s` in ascending order. */
  function Ascending(s: set<Key>): (r: seq<Key>)
    ensures |r| == |s|
    ensures forall x :: x in r <==> x in s
    ensures Increasing(r)
  {
    if s == {} then []
    else
      var m := Least(s);
      var rest := Ascending(s - {m});
      assert forall x :: x in [m] + rest <==> x == m || x in rest;
      assert forall i :: 0 <= i < |rest| ==> rest[i] in s - {m};
      [m] + rest
  }

  /** There is only one way to sort. */
  lemma AscendingUnique(s: set<Key>, r: seq<Key>)
    requires Increasing(r)
    requires forall x :: x in r <==> x in s
    ensures r == Ascending(s)
  {
    if r != [] {
      assert r[0] in s;
      var m := Least(s);
      assert m in r;
      var i :| 0 <= i < |r| && r[i] == m;
      var rest := r[1..];
      assert r == [m] + rest;
      assert forall x :: x in rest <==> x in s - {m} by {
        forall x ensures x in rest <==> x in s - {m} {
          if x in rest {
            var j :| 0 <= j < |rest| && rest[j] == x;
            assert r[j + 1] == x && Before(r[0], r[j + 1]);
          }
        }
      }
      AscendingUnique(s - {m}, rest);
    }
  }

  /** The keys that come before `key`. */
  function KeysBefore(s: set<Key>, key: Key): set<Key> {
    set x | x in s && Before(x, key)
  }

  lemma {:induction false} IncreasingCount(r: seq<Key>)
    requires Increasing(r)
    ensures |set x | x in r| == |r|
  {
    if r != [] {
      var front, last := r[..|r| - 1], r[|r| - 1];
      IncreasingCount(front);
      assert forall i :: 0 <= i < |front| ==> front[i] == r[i] && Before(r[i], last);
      assert (set x | x in r) == (set x | x in front) + {last};
    }
  }

  lemma BeforeMeansEarlier(r: seq<Key>, j: nat, i: nat)
    requires Increasing(r) && i < |r| && j < |r| && Before(r[j], r[i])
    ensures j < i
  {
  }

  /** A key's place in the sorted list is the number of keys before it. */
  lemma PlaceIsRank(s: set<Key>, i: nat)
    requires i < |Ascending(s)|
    ensures |KeysBefore(s, Ascending(s)[i])| == i
  {
    var all := Ascending(s);
    IncreasingCount(all[..i]);
    forall x ensures x in KeysBefore(s, all[i]) <==> x in all[..i] {
      if x in all[..i] { assert x in all; }
      if x in KeysBefore(s, all[i]) {
        var j :| 0 <= j < |all| && all[j] == x;
        BeforeMeansEarlier(all, j, i);
        assert all[..i][j] == x;
      }
    }
    assert KeysBefore(s, all[i]) == set x | x in all[..i];
  }
}
