/**
 ORDER BY ... LIMIT: the first `k` elements of a set under a strict total order.
 */
module Pick {

  ghost predicate StrictTotal(less: (int, int) -> bool) {
    && (forall x :: !less(x, x))
    && (forall x, y :: less(x, y) || x == y || less(y, x))
    && (forall x, y, z :: less(x, y) && less(y, z) ==> less(x, z))
  }

  ghost predicate Ascending(ids: seq<int>, less: (int, int) -> bool) {
    forall i, j :: 0 <= i < j < |ids| ==> less(ids[i], ids[j])
  }

  ghost predicate IsFirst(s: set<int>, less: (int, int) -> bool, k: nat, ids: seq<int>) {
    && Ascending(ids, less)
    && (forall i :: 0 <= i < |ids| ==> ids[i] in s)
    && |ids| == (if k <= |s| then k else |s|)
    && (forall i, y :: 0 <= i < |ids| && y in s && y !in ids ==> less(ids[i], y))
  }

  function ById(x: int, y: int): bool {
    x < y
  }

  lemma SomeMember<T>(s: set<T>) returns (m: T)
    requires s != {}
    ensures m in s
  {
    m :| m in s;
  }

  lemma {:induction false} LeastExists(s: set<int>, less: (int, int) -> bool) returns (m: int)
    requires StrictTotal(less) && s != {}
    ensures m in s && forall y :: y in s && y != m ==> less(m, y)
  {
    var first := SomeMember(s);
    var rest := s - {first};
    if rest == {} {
      m := first;
      forall y | y in s ensures y == first {
        assert y in rest || y == first;
      }
    } else {
      var least := LeastExists(rest, less);
      m := if less(least, first) then least else first;
      forall y | y in s && y != m ensures less(m, y) {
        if y != first && y != least {
          assert y in rest && less(least, y);
        }
      }
    }
  }

  // A LIMIT query has one answer only.
  lemma {:induction false} FirstIsUnique(s: set<int>, less: (int, int) -> bool, k: nat, a: seq<int>, b: seq<int>)
    requires StrictTotal(less) && IsFirst(s, less, k, a) && IsFirst(s, less, k, b)
    ensures a == b
    decreases k
  {
    if a != [] {
      HeadIsLeast(s, less, k, a);
      HeadIsLeast(s, less, k, b);
      assert a[0] == b[0];
      TailIsFirst(s, less, k, a);
      TailIsFirst(s, less, k, b);
      FirstIsUnique(s - {a[0]}, less, k - 1, a[1..], b[1..]);
      assert a == [a[0]] + a[1..] && b == [b[0]] + b[1..];
    } else {
      assert b == [];
    }
  }

  lemma HeadIsLeast(s: set<int>, less: (int, int) -> bool, k: nat, a: seq<int>)
    requires StrictTotal(less) && IsFirst(s, less, k, a) && a != []
    ensures a[0] in s && forall y :: y in s && y != a[0] ==> less(a[0], y)
  {
    forall y | y in s && y != a[0] ensures less(a[0], y) {
      if y in a {
        var i :| 0 <= i < |a| && a[i] == y;
      }
    }
  }

  lemma TailIsFirst(s: set<int>, less: (int, int) -> bool, k: nat, a: seq<int>)
    requires StrictTotal(less) && IsFirst(s, less, k, a) && a != []
    ensures k > 0 && IsFirst(s - {a[0]}, less, k - 1, a[1..])
  {
    forall i | 0 <= i < |a[1..]| ensures a[1..][i] != a[0] {
      assert less(a[0], a[i + 1]);
    }
    forall i, y | 0 <= i < |a[1..]| && y in s - {a[0]} && y !in a[1..] ensures less(a[1..][i], y) {
      assert a == [a[0]] + a[1..];
      assert y !in a;
    }
  }

  lemma {:induction false} DistinctCount(ids: seq<int>, less: (int, int) -> bool)
    requires StrictTotal(less) && Ascending(ids, less)
    ensures |set x | x in ids| == |ids|
  {
    if ids != [] {
      DistinctCount(ids[1..], less);
      assert (set x | x in ids) == (set x | x in ids[1..]) + {ids[0]} by {
        assert ids == [ids[0]] + ids[1..];
      }
      forall i | 0 < i < |ids| ensures ids[i] != ids[0] {
        assert less(ids[0], ids[i]);
      }
      assert ids[0] !in ids[1..];
    } else {
      assert (set x | x in ids) == {};
    }
  }

  lemma SubsetCount(a: set<int>, b: set<int>)
    requires a <= b
    ensures |a| <= |b|
    ensures |a| == |b| ==> a == b
  {
    assert b == a + (b - a);
    assert |b| == |a| + |b - a|;
  }

  lemma AscendingSnoc(ids: seq<int>, m: int, less: (int, int) -> bool)
    requires Ascending(ids, less) && forall i :: 0 <= i < |ids| ==> less(ids[i], m)
    ensures Ascending(ids + [m], less)
  {
    var r := ids + [m];
    forall i, j | 0 <= i < j < |r| ensures less(r[i], r[j]) {
      assert r[i] == ids[i];
    }
  }

  // A LIMIT query has an answer.
  lemma {:induction false} FirstExists(s: set<int>, less: (int, int) -> bool, k: nat) returns (ids: seq<int>)
    requires StrictTotal(less)
    ensures IsFirst(s, less, k, ids)
    decreases k
  {
    ids := [];
    if k > 0 && s != {} {
      var m := LeastExists(s, less);
      var rest := FirstExists(s - {m}, less, k - 1);
      ids := [m] + rest;
      assert forall i :: 0 <= i < |rest| ==> rest[i] in s - {m};
      assert forall y :: y in s && y !in ids ==> y in s - {m} && y !in rest;
      forall i, j | 0 <= i < j < |ids| ensures less(ids[i], ids[j]) {
        assert ids[j] == rest[j - 1] && (i > 0 ==> ids[i] == rest[i - 1]);
      }
    }
  }

  method TakeFirst(s: set<int>, less: (int, int) -> bool, k: nat) returns (ids: seq<int>)
    requires StrictTotal(less)
    ensures IsFirst(s, less, k, ids)
  {
    ids := [];
    var rest := s;
    while |ids| < k && rest != {}
      invariant Ascending(ids, less) && |ids| <= k && |ids| + |rest| == |s|
      invariant forall i :: 0 <= i < |ids| ==> ids[i] in s
      invariant forall x :: x in s <==> x in ids || x in rest
      invariant forall i, y :: 0 <= i < |ids| && y in rest ==> less(ids[i], y)
      decreases rest
    {
      ghost var least := LeastExists(rest, less);
      var m :| m in rest && forall y :: y in rest && y != m ==> less(m, y);
      AscendingSnoc(ids, m, less);
      ids, rest := ids + [m], rest - {m};
    }
  }
}
