/**
 A table of rows stamped with whole seconds, cut to its newest rows. Rows of
 one second go by key, but for one row that may be kept last among its equals.
 */
module CappedTable {
  import opened Documents
  import opened Wrappers

  type Rows = map<string, int>

  /** x goes before y when the table is cut. */
  predicate Before(m: Rows, keep: Option<string>, x: string, y: string)
    requires x in m && y in m
  {
    m[x] < m[y]
    || (m[x] == m[y] && keep != Some(x) && keep == Some(y))
    || (m[x] == m[y] && (keep == Some(x) <==> keep == Some(y)) && x != y && Le(x, y))
  }

  lemma BeforeIsStrictOrder(m: Rows, keep: Option<string>, x: string, y: string, z: string)
    requires x in m && y in m && z in m
    ensures !Before(m, keep, x, x)
    ensures x != y ==> (Before(m, keep, x, y) <==> !Before(m, keep, y, x))
    ensures Before(m, keep, x, y) && Before(m, keep, y, z) ==> Before(m, keep, x, z)
  {
    LeIsTotalOrder(x, y, z);
    LeIsTotalOrder(y, z, x);
  }

  predicate IsOldest(m: Rows, keep: Option<string>, x: string) {
    x in m && forall y :: y in m && y != x ==> Before(m, keep, x, y)
  }

  lemma {:induction false} OldestExists(m: Rows, keep: Option<string>, among: set<string>) returns (o: string)
    requires among != {} && among <= m.Keys
    ensures o in among && forall y :: y in among && y != o ==> Before(m, keep, o, y)
    decreases among
  {
    hide Before;
    var x :| x in among;
    o := x;
    if among != {x} {
      var r := OldestExists(m, keep, among - {x});
      BeforeIsStrictOrder(m, keep, x, r, x);
      o := if Before(m, keep, x, r) then x else r;
      forall y | y in among && y != o ensures Before(m, keep, o, y) {
        if o == x { BeforeIsStrictOrder(m, keep, x, r, y); }
      }
    }
  }

  function Oldest(m: Rows, keep: Option<string>): (x: string)
    requires m != map[]
    ensures IsOldest(m, keep, x)
  {
    assert exists x :: x in m && IsOldest(m, keep, x) by {
      var x := OldestExists(m, keep, m.Keys);
      assert IsOldest(m, keep, x);
    }
    assert forall x, y :: IsOldest(m, keep, x) && IsOldest(m, keep, y) ==> x == y by {
      forall x, y | IsOldest(m, keep, x) && IsOldest(m, keep, y) ensures x == y { BeforeIsStrictOrder(m, keep, x, y, x); }
    }
    var x :| x in m && IsOldest(m, keep, x);
    x
  }

  /** The table without its oldest rows beyond the cap. */
  function Capped(m: Rows, keep: Option<string>, cap: nat): (r: Rows)
    ensures |r| <= cap
    ensures forall x :: x in r ==> x in m && r[x] == m[x]
    decreases |m|
  {
    if |m| <= cap then m
    else
      var o := Oldest(m, keep);
      assert (m - {o}).Keys == m.Keys - {o};
      Capped(m - {o}, keep, cap)
  }

  function After(m: Rows, keep: Option<string>, k: string): set<string>
    requires k in m
  {
    set x | x in m && Before(m, keep, k, x)
  }

  /** A row survives exactly when fewer than cap rows come after it. */
  lemma {:induction false} KeptExactly(m: Rows, keep: Option<string>, cap: nat, k: string)
    requires k in m
    ensures k in Capped(m, keep, cap) <==> |After(m, keep, k)| < cap
    decreases |m|
  {
    hide Before;
    BeforeIsStrictOrder(m, keep, k, k, k);
    SubsetSize(After(m, keep, k), m.Keys - {k});
    if |m| > cap {
      var o := Oldest(m, keep);
      var rest := m - {o};
      assert rest.Keys == m.Keys - {o};
      if k == o {
        assert After(m, keep, k) == m.Keys - {k};
      } else {
        KeptExactly(rest, keep, cap, k);
        SameAfter(m, keep, o, k);
      }
    }
  }

  lemma SameAfter(m: Rows, keep: Option<string>, o: string, k: string)
    requires k in m && k != o && IsOldest(m, keep, o)
    ensures After(m - {o}, keep, k) == After(m, keep, k)
  {
    BeforeIsStrictOrder(m, keep, o, k, o);
  }

  lemma SubsetSize<T>(a: set<T>, b: set<T>)
    ensures a <= b ==> |a| <= |b|
  {
    if a <= b { assert b == a + (b - a); }
  }

  /** Other rows of k's second or later. */
  function Rivals(m: Rows, k: string): set<string>
    requires k in m
  {
    set x | x in m && x != k && m[x] >= m[k]
  }

  lemma FewRivalsKeep(m: Rows, keep: Option<string>, cap: nat, k: string)
    requires k in m && |Rivals(m, k)| < cap
    ensures k in Capped(m, keep, cap)
  {
    KeptExactly(m, keep, cap, k);
    BeforeIsStrictOrder(m, keep, k, k, k);
    SubsetSize(After(m, keep, k), Rivals(m, k));
  }

  /** The row kept last is never the one dropped, if no row is of a later second. */
  lemma KeptRowStays(m: Rows, k: string, cap: nat)
    requires k in m && cap > 0 && forall x :: x in m ==> m[x] <= m[k]
    ensures k in Capped(m, Some(k), cap)
  {
    KeptExactly(m, Some(k), cap, k);
    assert After(m, Some(k), k) == {};
  }

  /** Putting one row in and cutting adds at most that row to another's rivals. */
  lemma OneMoreRival(m: Rows, m': Rows, k: string, x: string, at: int)
    requires k in m && k in m' && x != k
    requires forall y :: y in m' ==> y in m[x := at] && m'[y] == m[x := at][y]
    ensures Rivals(m', k) <= Rivals(m, k) + {x} && |Rivals(m', k)| <= |Rivals(m, k)| + 1
  {
    SubsetSize(Rivals(m', k), Rivals(m, k) + {x});
  }

  /** Sorting and deleting the first rows over the cap. */
  method CutToCap(m: Rows, keep: Option<string>, cap: nat) returns (r: Rows)
    ensures r == Capped(m, keep, cap)
  {
    r := m;
    var overflow := |m| - cap;
    while overflow > 0
      invariant overflow == (if |m| <= cap then |m| else |r|) - cap
      invariant |m| <= cap ==> r == m
      invariant |m| > cap ==> |r| >= cap
      invariant Capped(r, keep, cap) == Capped(m, keep, cap)
    {
      var o := Oldest(r, keep);
      assert (r - {o}).Keys == r.Keys - {o};
      r := r - {o};
      overflow := overflow - 1;
    }
  }
}
