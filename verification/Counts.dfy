/** Note and coin counts keyed by denomination, and what they are worth.
    A missing key counts as zero, as with `dict.get(denomination, 0)`. */
module Counts {
  type Counts = map<int, int>

  function Get(c: Counts, d: int): int {
    if d in c then c[d] else 0
  }

  function Add(a: Counts, b: Counts): Counts {
    map d | d in a.Keys + b.Keys :: Get(a, d) + Get(b, d)
  }

  function Sub(a: Counts, b: Counts): Counts {
    map d | d in a.Keys + b.Keys :: Get(a, d) - Get(b, d)
  }

  /** A set of numbers is empty or has a witness. */
  lemma Inhabited(s: set<int>)
    ensures s == {} || exists x :: x in s
  {
    if forall x :: x !in s {
      assert s == {};
    }
  }

  /** Pointwise agreement: the keys holding zero may differ. */
  ghost predicate Same(a: Counts, b: Counts) {
    forall d :: Get(a, d) == Get(b, d)
  }

  ghost predicate NonNegative(c: Counts) {
    forall d :: Get(c, d) >= 0
  }

  /** Positive counts of positive denominations. */
  ghost predicate Coins(plan: Counts) {
    forall d :: d in plan ==> d > 0 && plan[d] > 0
  }

  /** Total face value. The key is chosen arbitrarily; WorthSplit shows that the
      choice does not matter. */
  ghost function Worth(c: Counts): int
    decreases c.Keys
  {
    if d :| d in c then d * c[d] + Worth(c - {d}) else 0
  }

  /** Any key may be split off. */
  lemma {:induction false} WorthSplit(c: Counts, d: int)
    requires d in c
    ensures Worth(c) == d * c[d] + Worth(c - {d})
    decreases c.Keys
  {
    var e :| e in c && Worth(c) == e * c[e] + Worth(c - {e});
    if e != d {
      WorthSplit(c - {e}, d);
      WorthSplit(c - {d}, e);
      assert c - {e} - {d} == c - {d} - {e};
    }
  }

  /** Splitting off a denomination that may be missing. */
  lemma WorthWithout(c: Counts, d: int)
    ensures Worth(c) == d * Get(c, d) + Worth(c - {d})
  {
    if d in c {
      WorthSplit(c, d);
    } else {
      assert c - {d} == c;
    }
  }

  lemma WorthInsert(c: Counts, d: int, n: int)
    requires d !in c
    ensures Worth(c[d := n]) == d * n + Worth(c)
  {
    WorthSplit(c[d := n], d);
    assert c[d := n] - {d} == c;
  }

  lemma {:induction false} WorthNonNegative(c: Counts)
    requires forall d :: d in c ==> d > 0 && c[d] >= 0
    ensures Worth(c) >= 0
    decreases c.Keys
  {
    if d :| d in c {
      WorthSplit(c, d);
      WorthNonNegative(c - {d});
      assert d * c[d] >= 0;
    }
  }

  /** Equal counts are worth the same, whichever zero entries they carry. */
  lemma {:induction false} WorthSame(a: Counts, b: Counts)
    requires Same(a, b)
    ensures Worth(a) == Worth(b)
    decreases a.Keys
  {
    if d :| d in a {
      WorthWithout(a, d);
      WorthWithout(b, d);
      forall e ensures Get(a - {d}, e) == Get(b - {d}, e) {
        assert Get(a, e) == Get(b, e);
      }
      WorthSame(a - {d}, b - {d});
    } else {
      forall e ensures Get(b, e) == 0 {
        assert Get(a, e) == 0;
      }
      WorthOfZeros(b);
    }
  }

  lemma {:induction false} WorthOfZeros(c: Counts)
    requires forall d :: Get(c, d) == 0
    ensures Worth(c) == 0
    decreases c.Keys
  {
    if d :| d in c {
      WorthSplit(c, d);
      assert Get(c, d) == 0;
      forall e ensures Get(c - {d}, e) == 0 {
        assert Get(c, e) == 0;
      }
      WorthOfZeros(c - {d});
    }
  }

  /** Worth is additive. */
  lemma {:induction false} WorthAdd(a: Counts, b: Counts)
    ensures Worth(Add(a, b)) == Worth(a) + Worth(b)
    decreases b.Keys
  {
    if d :| d in b {
      WorthSplit(b, d);
      WorthWithout(a, d);
      WorthWithout(Add(a, b), d);
      assert Add(a, b) - {d} == Add(a - {d}, b - {d});
      assert Get(Add(a, b), d) == Get(a, d) + Get(b, d);
      assert d * (Get(a, d) + Get(b, d)) == d * Get(a, d) + d * Get(b, d);
      WorthAdd(a - {d}, b - {d});
    } else {
      assert Add(a, b) == a;
    }
  }

  lemma WorthSub(a: Counts, b: Counts)
    ensures Worth(Sub(a, b)) == Worth(a) - Worth(b)
  {
    WorthAdd(Sub(a, b), b);
    WorthSame(Add(Sub(a, b), b), a);
  }

  /** The entries of a plan a loop has dealt with, `left` being still to come. */
  function Except(plan: Counts, left: set<int>): Counts {
    map d | d in plan && d !in left :: plan[d]
  }

  lemma NothingDone(c: Counts, plan: Counts)
    ensures var none := Except(plan, plan.Keys); Add(c, none) == c && Sub(c, none) == c
  {
  }

  lemma EverythingDone(plan: Counts)
    ensures Except(plan, {}) == plan
  {
  }

  lemma AddOneMore(c: Counts, plan: Counts, left: set<int>, d: int)
    requires d in left && d in plan
    ensures var so := Add(c, Except(plan, left));
            so[d := Get(so, d) + plan[d]] == Add(c, Except(plan, left - {d}))
  {
  }

  lemma SubOneMore(c: Counts, plan: Counts, left: set<int>, d: int)
    requires d in left && d in plan
    ensures var so := Sub(c, Except(plan, left));
            so[d := Get(so, d) - plan[d]] == Sub(c, Except(plan, left - {d}))
  {
  }
}
