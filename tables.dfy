/** Row selection over a table held as a sequence, in table order. */
module Tables {

  /** The rows of `s` that satisfy `keep`, in their order in `s`. */
  function Filter<T(!new)>(s: seq<T>, keep: T -> bool): (r: seq<T>)
    ensures |r| <= |s|
    ensures forall x :: x in r <==> x in s && keep(x)
  {
    if |s| == 0 then []
    else
      assert s == [s[0]] + s[1..];
      (if keep(s[0]) then [s[0]] else []) + Filter(s[1..], keep)
  }

  /** Selection keeps every copy of a kept row and no copy of any other. */
  lemma {:induction false} FilterCounts<T(!new)>(s: seq<T>, keep: T -> bool)
    ensures forall x :: keep(x) ==> multiset(Filter(s, keep))[x] == multiset(s)[x]
    ensures forall x :: !keep(x) ==> multiset(Filter(s, keep))[x] == 0
    ensures multiset(Filter(s, keep)) <= multiset(s)
  {
    if |s| > 0 {
      FilterCounts(s[1..], keep);
      assert s == [s[0]] + s[1..];
    }
  }

  /** Selecting from two tables laid end to end selects from each in turn. */
  lemma {:induction false} FilterAppend<T(!new)>(a: seq<T>, b: seq<T>, keep: T -> bool)
    ensures Filter(a + b, keep) == Filter(a, keep) + Filter(b, keep)
  {
    if |a| == 0 {
      assert a + b == b;
    } else {
      var head := if keep(a[0]) then [a[0]] else [];
      assert (a + b)[0] == a[0];
      assert (a + b)[1..] == a[1..] + b;
      calc {
        Filter(a + b, keep);
        head + Filter(a[1..] + b, keep);
        { FilterAppend(a[1..], b, keep); }
        head + (Filter(a[1..], keep) + Filter(b, keep));
        (head + Filter(a[1..], keep)) + Filter(b, keep);
        Filter(a, keep) + Filter(b, keep);
      }
    }
  }

  /** Selecting with a condition every row meets gives the table back unchanged. */
  lemma {:induction false} FilterKeepsAll<T(!new)>(s: seq<T>, keep: T -> bool)
    requires forall x :: x in s ==> keep(x)
    ensures Filter(s, keep) == s
  {
    if |s| > 0 {
      FilterKeepsAll(s[1..], keep);
      assert s == [s[0]] + s[1..];
    }
  }

  /** All rows have different keys. */
  ghost predicate UniqueKeys<T(!new)>(s: seq<T>, key: T -> string) {
    forall a, b :: 0 <= a < b < |s| ==> key(s[a]) != key(s[b])
  }

  /** Under unique keys, two rows with the same key are the same row. */
  lemma UniqueKeySameRow<T(!new)>(s: seq<T>, key: T -> string, x: T, y: T)
    requires UniqueKeys(s, key) && x in s && y in s && key(x) == key(y)
    ensures x == y
  {
    var i :| 0 <= i < |s| && s[i] == x;
    var j :| 0 <= j < |s| && s[j] == y;
    assert key(s[i]) == key(s[j]);
  }

  /** A row whose key no other row has occurs once. */
  lemma UniqueKeyOccursOnce<T(!new)>(s: seq<T>, key: T -> string, i: int)
    requires UniqueKeys(s, key) && 0 <= i < |s|
    ensures multiset(s)[s[i]] == 1
  {
    assert s == s[..i] + [s[i]] + s[i + 1..];
    assert s[i] !in s[..i] by {
      forall a | 0 <= a < i ensures s[a] != s[i] { }
    }
    assert s[i] !in s[i + 1..] by {
      forall a | i + 1 <= a < |s| ensures s[a] != s[i] { }
    }
  }

  /** Selecting rows of one key from a table with unique keys yields at most one row. */
  lemma {:induction false} UniqueKeyAtMostOne<T(!new)>(s: seq<T>, rows: seq<T>, key: T -> string, k: string)
    requires UniqueKeys(s, key)
    requires forall x :: x in rows ==> key(x) == k
    requires multiset(rows) <= multiset(s)
    ensures |rows| <= 1
  {
    if |rows| > 1 {
      assert rows[0] in multiset(s) && rows[1] in multiset(s);
      var i :| 0 <= i < |s| && s[i] == rows[0];
      var j :| 0 <= j < |s| && s[j] == rows[1];
      if i == j {
        assert multiset(rows)[rows[0]] >= 2 by {
          assert rows == [rows[0], rows[1]] + rows[2..];
        }
        UniqueKeyOccursOnce(s, key, i);
      }
      assert false;
    }
  }

  /** Appending a row whose key no row has keeps keys unique. */
  lemma AppendUniqueKey<T(!new)>(s: seq<T>, key: T -> string, x: T)
    requires UniqueKeys(s, key)
    requires forall y :: y in s ==> key(y) != key(x)
    ensures UniqueKeys(s + [x], key)
  {
    var r := s + [x];
    forall i, j | 0 <= i < j < |r| ensures key(r[i]) != key(r[j]) {
      assert r[i] == s[i];
      if j < |s| {
        assert r[j] == s[j];
      } else {
        assert s[i] in s;
      }
    }
  }

  /** Selection keeps keys unique. */
  lemma {:induction false} FilterUniqueKeys<T(!new)>(s: seq<T>, keep: T -> bool, key: T -> string)
    requires UniqueKeys(s, key)
    ensures UniqueKeys(Filter(s, keep), key)
  {
    if |s| > 0 {
      FilterUniqueKeys(s[1..], keep, key);
      var rest := Filter(s[1..], keep);
      forall x | x in rest ensures key(x) != key(s[0]) {
        var k :| 0 <= k < |s[1..]| && s[1..][k] == x;
        assert s[k + 1] == x;
      }
      if keep(s[0]) {
        var r := [s[0]] + rest;
        forall a, b | 0 <= a < b < |r| ensures key(r[a]) != key(r[b]) {
          assert r[b] == rest[b - 1];
          if a > 0 {
            assert r[a] == rest[a - 1];
          }
        }
      }
    }
  }

  /** Dropping every copy of `e` and then selecting with a condition `e` meets selects
      as many rows fewer as `e` had copies. */
  lemma {:induction false} FilterRemovedCount<T(!new)>(s: seq<T>, stay: T -> bool, keep: T -> bool, e: T)
    requires forall x :: stay(x) <==> x != e
    requires keep(e)
    ensures |Filter(Filter(s, stay), keep)| == |Filter(s, keep)| - multiset(s)[e]
  {
    if |s| > 0 {
      var t := s[1..];
      FilterRemovedCount(t, stay, keep, e);
      var head := if keep(s[0]) then [s[0]] else [];
      assert multiset(s)[e] == multiset(t)[e] + (if s[0] == e then 1 else 0) by {
        assert s == [s[0]] + t;
      }
      assert |Filter(s, keep)| == |head| + |Filter(t, keep)|;
      if stay(s[0]) {
        assert |Filter(Filter(s, stay), keep)| == |head| + |Filter(Filter(t, stay), keep)| by {
          var u := Filter(s, stay);
          assert u == [s[0]] + Filter(t, stay);
          assert u[0] == s[0] && u[1..] == Filter(t, stay);
        }
      } else {
        assert Filter(s, stay) == Filter(t, stay);
      }
    }
  }
}
