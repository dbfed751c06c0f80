/** Deterministic enumeration of a finite set: what `ORDER BY … LIMIT` and Python's
    `sorted` contribute to the rest of the model. */
module Ordering {

  ghost predicate StrictTotalOrder<T(!new)>(less: (T, T) -> bool) {
    && (forall a :: !less(a, a))
    && (forall a, b, c :: less(a, b) && less(b, c) ==> less(a, c))
    && (forall a, b :: a != b ==> less(a, b) || less(b, a))
  }

  ghost predicate IsLeast<T(!new)>(m: T, s: set<T>, less: (T, T) -> bool) {
    m in s && forall x | x in s :: x == m || less(m, x)
  }

  ghost predicate Ascending<T(!new)>(r: seq<T>, less: (T, T) -> bool) {
    forall i, j | 0 <= i < j < |r| :: less(r[i], r[j])
  }

  lemma {:induction false} LeastExists<T(!new)>(s: set<T>, less: (T, T) -> bool)
    requires s != {} && StrictTotalOrder(less)
    ensures exists m :: IsLeast(m, s, less)
    decreases |s|
  {
    var x :| x in s;
    if s == {x} {
      assert IsLeast(x, s, less);
    } else {
      LeastExists(s - {x}, less);
      var y :| IsLeast(y, s - {x}, less);
      if less(x, y) {
        forall z | z in s ensures z == x || less(x, z) {
          if z != x { assert z in s - {x}; }
        }
        assert IsLeast(x, s, less);
      } else {
        assert IsLeast(y, s, less);
      }
    }
  }

  function Least<T(!new)>(s: set<T>, less: (T, T) -> bool): (m: T)
    requires s != {} && StrictTotalOrder(less)
    ensures IsLeast(m, s, less)
  {
    LeastExists(s, less);
    var m :| m in s && forall x | x in s :: x == m || less(m, x);
    m
  }

  /** The members of `s` from first to last. */
  function Ordered<T(!new)>(s: set<T>, less: (T, T) -> bool): (r: seq<T>)
    requires StrictTotalOrder(less)
    ensures |r| == |s| && Ascending(r, less)
    ensures forall x :: x in r <==> x in s
    decreases |s|
  {
    if s == {} then []
    else
      var m := Least(s, less);
      [m] + Ordered(s - {m}, less)
  }

  /** `ORDER BY … LIMIT k`. */
  function First<T(!new)>(s: set<T>, less: (T, T) -> bool, k: nat): (r: seq<T>)
    requires StrictTotalOrder(less)
    ensures |r| == (if k <= |s| then k else |s|) && Ascending(r, less)
    ensures forall x | x in r :: x in s
    ensures forall x, y | x in r && y in s && y !in r :: less(x, y)
  {
    var all := Ordered(s, less);
    var r := if k <= |all| then all[..k] else all;
    assert forall x, y | x in r && y in s && y !in r :: less(x, y) by {
      forall x, y | x in r && y in s && y !in r ensures less(x, y) {
        var i :| 0 <= i < |r| && r[i] == x;
        var j :| 0 <= j < |all| && all[j] == y;
        assert j >= |r|;
      }
    }
    r
  }

  lemma AscendingIsDistinct<T(!new)>(r: seq<T>, less: (T, T) -> bool)
    requires StrictTotalOrder(less) && Ascending(r, less)
    ensures forall i, j | 0 <= i < j < |r| :: r[i] != r[j]
  {
  }

  lemma {:induction false} SetSize<T(!new)>(r: seq<T>, s: set<T>)
    requires forall i, j | 0 <= i < j < |r| :: r[i] != r[j]
    requires forall x :: x in r <==> x in s
    ensures |r| == |s|
    decreases |r|
  {
    if r == [] {
      assert s == {};
    } else {
      var last := r[|r| - 1];
      var front := r[..|r| - 1];
      forall x ensures x in front <==> x in s - {last} {
        if x in s - {last} { assert x in r; }
      }
      SetSize(front, s - {last});
      assert s == (s - {last}) + {last};
    }
  }

  lemma HeadIsLeast<T(!new)>(r: seq<T>, x: T, less: (T, T) -> bool)
    requires Ascending(r, less) && x in r
    ensures x == r[0] || less(r[0], x)
  {
    var i :| 0 <= i < |r| && r[i] == x;
    if i > 0 {
      assert less(r[0], r[i]);
    }
  }

  /** An ascending enumeration of a set is the only one. */
  lemma {:induction false} AscendingUnique<T(!new)>(p: seq<T>, q: seq<T>, less: (T, T) -> bool)
    requires StrictTotalOrder(less) && Ascending(p, less) && Ascending(q, less)
    requires forall x :: x in p <==> x in q
    ensures p == q
    decreases |p|
  {
    assert q != [] ==> q[0] in p;
    if p != [] {
      assert p[0] in q;
      assert q[0] in p;
      HeadIsLeast(p, q[0], less);
      HeadIsLeast(q, p[0], less);
      assert p[0] == q[0];
      forall x ensures x in p[1..] <==> x in q[1..] {
        assert x in p[1..] <==> x in p && x != p[0];
        assert x in q[1..] <==> x in q && x != q[0];
      }
      AscendingUnique(p[1..], q[1..], less);
      assert p == [p[0]] + p[1..] && q == [q[0]] + q[1..];
    }
  }

  lemma SubsetSize<T>(a: set<T>, b: set<T>)
    requires a <= b
    ensures |a| <= |b|
  {
    assert |b| == |a| + |b - a| by { assert a + (b - a) == b; }
  }

  function IdSet(ids: seq<nat>): set<nat> { set i | i in ids }

  /** The order of ids and other naturals. */
  predicate NatLess(a: nat, b: nat) { a < b }

  predicate NatMore(a: nat, b: nat) { a > b }

  lemma NatOrders()
    ensures StrictTotalOrder(NatLess) && StrictTotalOrder(NatMore)
  {
  }

  function MinOf(s: set<nat>): (m: nat)
    requires s != {}
    ensures m in s && forall x | x in s :: m <= x
  {
    NatOrders();
    Least(s, NatLess)
  }

  function MaxOf(s: set<nat>): (m: nat)
    requires s != {}
    ensures m in s && forall x | x in s :: x <= m
  {
    NatOrders();
    Least(s, NatMore)
  }
}
