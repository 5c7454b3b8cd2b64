/** Exact payout planning from a bounded stock of coins and notes
    (`ChangeManager.plan_change`). */
module ChangePlanning {
  import opened Wrappers
  import opened Counts

  datatype PlanError = NegativeTarget

  /** A payout drawn from `available`: positive counts, none above the stock. */
  ghost predicate Fits(plan: Counts, available: Counts) {
    forall d :: d in plan ==> d > 0 && 0 < plan[d] <= Get(available, d)
  }

  ghost predicate Pays(plan: Counts, available: Counts, target: int) {
    Fits(plan, available) && Worth(plan) == target
  }

  /** Some bounded combination of the stock is worth `target`. */
  ghost predicate Payable(available: Counts, target: int) {
    exists plan :: Pays(plan, available, target)
  }

  /** `d` is the largest denomination on which the plans differ, and `p` uses more of it. */
  ghost predicate PrefersAt(p: Counts, q: Counts, d: int) {
    Get(p, d) > Get(q, d) && forall e :: e > d ==> Get(p, e) == Get(q, e)
  }

  ghost predicate Prefers(p: Counts, q: Counts) {
    exists d :: PrefersAt(p, q, d)
  }

  /** The plan of exact worth that is lexicographically greatest by descending
      denomination. */
  ghost predicate IsBest(plan: Counts, available: Counts, target: int) {
    && Pays(plan, available, target)
    && forall other :: Pays(other, available, target) ==> other == plan || Prefers(plan, other)
  }

  /** What `plan_change` must return, whatever the search does. */
  ghost function BestPlan(available: Counts, target: int): Option<Counts> {
    if plan :| IsBest(plan, available, target) then Some(plan) else None
  }

  lemma PrefersIsAsymmetric(p: Counts, q: Counts, d: int)
    requires PrefersAt(p, q, d)
    ensures !Prefers(q, p)
  {
    forall d' ensures !PrefersAt(q, p, d') {
      if d' < d {
        assert Get(q, d) != Get(p, d);
      }
    }
  }

  /** The greedy-optimal plan is unique, so the contract of PlanChange determines its result. */
  lemma BestPlanIsUnique(p: Counts, q: Counts, available: Counts, target: int)
    requires IsBest(p, available, target) && IsBest(q, available, target)
    ensures p == q
  {
    if d :| PrefersAt(p, q, d) {
      PrefersIsAsymmetric(p, q, d);
    }
  }

  /** `plan` draws only on `denoms[index..]`. */
  ghost predicate Suffix(plan: Counts, denoms: seq<int>, index: nat) {
    forall d :: d in plan ==> exists j :: index <= j < |denoms| && denoms[j] == d
  }

  ghost predicate PaysFrom(plan: Counts, available: Counts, denoms: seq<int>, index: nat, target: int) {
    Pays(plan, available, target) && Suffix(plan, denoms, index)
  }

  ghost predicate NonePays(available: Counts, denoms: seq<int>, index: nat, target: int) {
    forall plan :: !PaysFrom(plan, available, denoms, index, target)
  }

  ghost predicate Denominations(denoms: seq<int>, available: Counts) {
    && (forall i :: 0 <= i < |denoms| ==> denoms[i] > 0 && Get(available, denoms[i]) > 0)
    && forall i, j :: 0 <= i < j < |denoms| ==> denoms[i] > denoms[j]
  }

  /** Leaving out the head denomination of a suffix plan leaves a plan of the next suffix. */
  lemma DropHead(plan: Counts, available: Counts, denoms: seq<int>, index: nat, target: int)
    requires Denominations(denoms, available) && index < |denoms|
    requires PaysFrom(plan, available, denoms, index, target)
    ensures var d := denoms[index];
            && PaysFrom(plan - {d}, available, denoms, index + 1, target - d * Get(plan, d))
            && 0 <= Get(plan, d) <= Get(available, d)
            && d * Get(plan, d) <= target
  {
    var d := denoms[index];
    WorthWithout(plan, d);
    WorthNonNegative(plan - {d});
    forall e | e in plan - {d} ensures exists j :: index + 1 <= j < |denoms| && denoms[j] == e {
      var j :| index <= j < |denoms| && denoms[j] == e;
      assert j != index;
    }
  }

  /** A head count that still fits is at most the quotient the search starts from. */
  lemma HeadCountBound(d: int, n: int, target: int)
    requires d > 0 && d * n <= target
    ensures n <= target / d
  {
    var q := target / d;
    assert target < d * q + d;
    assert d * (q + 1 - n) == d * q + d - d * n;
    PositiveFactor(d, q + 1 - n);
  }

  lemma CountFits(d: int, n: int, target: int)
    requires d > 0 && 0 <= n <= target / d
    ensures d * n <= target
  {
    assert d * n <= d * (target / d);
  }

  lemma PositiveFactor(d: int, x: int)
    requires d > 0 && d * x > 0
    ensures x > 0
  {
  }

  /** Every key of a suffix plan is at most the head denomination. */
  lemma HeadIsLargest(plan: Counts, denoms: seq<int>, index: nat, available: Counts)
    requires Denominations(denoms, available) && index < |denoms| && Suffix(plan, denoms, index)
    ensures forall e :: e in plan ==> e <= denoms[index]
  {
    forall e | e in plan ensures e <= denoms[index] {
      var j :| index <= j < |denoms| && denoms[j] == e;
    }
  }

  /** Plans of the next suffix do not use the head denomination. */
  lemma HeadUnused(rest: Counts, denoms: seq<int>, index: nat, available: Counts)
    requires Denominations(denoms, available) && index < |denoms| && Suffix(rest, denoms, index + 1)
    ensures forall e :: e in rest ==> e < denoms[index]
  {
    forall e | e in rest ensures e < denoms[index] {
      var j :| index + 1 <= j < |denoms| && denoms[j] == e;
    }
  }

  function WithHead(rest: Counts, d: int, count: int): Counts {
    if count > 0 then rest[d := count] else rest
  }

  /** `count` pieces of the head denomination in front of a plan for what remains. */
  lemma PrependHead(rest: Counts, available: Counts, denoms: seq<int>, index: nat, target: int, count: int)
    requires Denominations(denoms, available) && index < |denoms|
    requires 0 <= count <= Get(available, denoms[index])
    requires PaysFrom(rest, available, denoms, index + 1, target - denoms[index] * count)
    ensures PaysFrom(WithHead(rest, denoms[index], count), available, denoms, index, target)
  {
    var d := denoms[index];
    var plan := WithHead(rest, d, count);
    HeadUnused(rest, denoms, index, available);
    WorthInsert(rest, d, count);
    forall e | e in plan ensures exists j :: index <= j < |denoms| && denoms[j] == e {
      if e in rest {
        var j :| index + 1 <= j < |denoms| && denoms[j] == e;
      } else {
        assert denoms[index] == e;
      }
    }
  }

  /** A best rest behind the largest workable head count beats every rival `q`. */
  lemma PrependBeats(rest: Counts, q: Counts, available: Counts, denoms: seq<int>, index: nat, target: int, count: int)
    requires Denominations(denoms, available) && index < |denoms|
    requires 0 <= count && Suffix(rest, denoms, index + 1)
    requires PaysFrom(q, available, denoms, index, target) && Get(q, denoms[index]) <= count
    requires Get(q, denoms[index]) == count
             ==> q - {denoms[index]} == rest || Prefers(rest, q - {denoms[index]})
    ensures q == WithHead(rest, denoms[index], count) || Prefers(WithHead(rest, denoms[index], count), q)
  {
    var d := denoms[index];
    var plan := WithHead(rest, d, count);
    HeadUnused(rest, denoms, index, available);
    HeadIsLargest(q, denoms, index, available);
    if Get(q, d) < count {
      assert PrefersAt(plan, q, d);
    } else if q - {d} == rest {
      assert q == plan;
    } else {
      var w :| PrefersAt(rest, q - {d}, w);
      BeatsAtRest(rest, q, d, count, w);
    }
  }

  lemma BeatsAtRest(rest: Counts, q: Counts, d: int, count: int, w: int)
    requires d !in rest && 0 <= count == Get(q, d)
    requires PrefersAt(rest, q - {d}, w) && w < d
    requires forall e :: e in q ==> 0 < q[e]
    ensures PrefersAt(WithHead(rest, d, count), q, w)
  {
    var plan := WithHead(rest, d, count);
    forall e | e > w ensures Get(plan, e) == Get(q, e) {
      assert Get(rest, e) == Get(q - {d}, e);
    }
  }

  /** The recursive search: counts of the head denomination are tried from the largest down
      and the first success is returned. */
  method Backtrack(available: Counts, denoms: seq<int>, index: nat, remaining: nat) returns (plan: Option<Counts>)
    requires Denominations(denoms, available) && index <= |denoms|
    ensures plan.None? ==> NonePays(available, denoms, index, remaining)
    ensures plan.Some? ==> BestFrom(plan.value, available, denoms, index, remaining)
    decreases |denoms| - index
  {
    if remaining == 0 {
      NothingPaysZero(available);
      return Some(map[]);
    }
    if index >= |denoms| {
      NothingLeft(available, denoms, index, remaining);
      return None;
    }
    var denomination := denoms[index];
    var fitting := remaining / denomination;
    var count := if available[denomination] <= fitting then available[denomination] else fitting;
    HeadCountAtMost(available, denoms, index, remaining, count);
    while count >= 0
      invariant -1 <= count <= available[denomination]
      invariant count <= fitting
      invariant HeadBound(available, denoms, index, remaining, count)
      decreases count + 1
    {
      CountFits(denomination, count, remaining);
      var rest := Backtrack(available, denoms, index + 1, remaining - denomination * count);
      if rest.Some? {
        PrependBest(rest.value, available, denoms, index, remaining, count);
        return Some(WithHead(rest.value, denomination, count));
      }
      LowerHeadBound(available, denoms, index, remaining, count, remaining - denomination * count);
      count := count - 1;
    }
    NoHeadCountLeft(available, denoms, index, remaining);
    return None;
  }

  /** `plan` pays `target` from the suffix and no rival is preferred to it. */
  ghost predicate BestFrom(plan: Counts, available: Counts, denoms: seq<int>, index: nat, target: int) {
    && PaysFrom(plan, available, denoms, index, target)
    && forall q :: PaysFrom(q, available, denoms, index, target) ==> q == plan || Prefers(plan, q)
  }

  /** No plan uses more than `count` pieces of the head denomination. */
  ghost predicate HeadBound(available: Counts, denoms: seq<int>, index: nat, target: int, count: int)
    requires index < |denoms|
  {
    forall q :: PaysFrom(q, available, denoms, index, target) ==> Get(q, denoms[index]) <= count
  }

  lemma HeadCountAtMost(available: Counts, denoms: seq<int>, index: nat, target: nat, count: int)
    requires Denominations(denoms, available) && index < |denoms|
    requires count == var f := target / denoms[index];
                      if Get(available, denoms[index]) <= f then Get(available, denoms[index]) else f
    ensures HeadBound(available, denoms, index, target, count)
  {
    forall q | PaysFrom(q, available, denoms, index, target) ensures Get(q, denoms[index]) <= count {
      DropHead(q, available, denoms, index, target);
      HeadCountBound(denoms[index], Get(q, denoms[index]), target);
    }
  }

  lemma LowerHeadBound(available: Counts, denoms: seq<int>, index: nat, target: int, count: int, rest: int)
    requires Denominations(denoms, available) && index < |denoms|
    requires HeadBound(available, denoms, index, target, count)
    requires rest == target - denoms[index] * count
    requires NonePays(available, denoms, index + 1, rest)
    ensures HeadBound(available, denoms, index, target, count - 1)
  {
    forall q | PaysFrom(q, available, denoms, index, target) ensures Get(q, denoms[index]) <= count - 1 {
      DropHead(q, available, denoms, index, target);
    }
  }

  lemma NoHeadCountLeft(available: Counts, denoms: seq<int>, index: nat, target: int)
    requires Denominations(denoms, available) && index < |denoms|
    requires HeadBound(available, denoms, index, target, -1)
    ensures NonePays(available, denoms, index, target)
  {
    forall q ensures !PaysFrom(q, available, denoms, index, target) {
      if Fits(q, available) {
        assert Get(q, denoms[index]) >= 0;
      }
    }
  }

  lemma NothingLeft(available: Counts, denoms: seq<int>, index: nat, target: int)
    requires index >= |denoms| && target != 0
    ensures NonePays(available, denoms, index, target)
  {
    forall q ensures !PaysFrom(q, available, denoms, index, target) {
      if Suffix(q, denoms, index) {
        assert forall d :: d !in q;
        WorthOfZeros(q);
      }
    }
  }

  lemma PrependBest(rest: Counts, available: Counts, denoms: seq<int>, index: nat, target: int, count: int)
    requires Denominations(denoms, available) && index < |denoms|
    requires 0 <= count <= Get(available, denoms[index])
    requires BestFrom(rest, available, denoms, index + 1, target - denoms[index] * count)
    requires HeadBound(available, denoms, index, target, count)
    ensures BestFrom(WithHead(rest, denoms[index], count), available, denoms, index, target)
  {
    PrependHead(rest, available, denoms, index, target, count);
    forall q | PaysFrom(q, available, denoms, index, target)
      ensures q == WithHead(rest, denoms[index], count) || Prefers(WithHead(rest, denoms[index], count), q)
    {
      DropHead(q, available, denoms, index, target);
      PrependBeats(rest, q, available, denoms, index, target, count);
    }
  }

  /** Zero is paid by the empty plan only. */
  lemma NothingPaysZero(available: Counts)
    ensures Pays(map[], available, 0)
    ensures forall q :: Pays(q, available, 0) ==> q == map[]
  {
    forall q | Fits(q, available) ensures q == map[] || Worth(q) > 0 {
      if d :| d in q {
        WorthSplit(q, d);
        WorthNonNegative(q - {d});
        assert d * q[d] > 0;
      } else {
        Inhabited(q.Keys);
      }
    }
  }

  /** The positive entries of `available`, largest first. */
  method StockedDenominations(available: Counts) returns (denoms: seq<int>)
    requires forall d :: d in available ==> d > 0
    ensures Denominations(denoms, available)
    ensures forall d :: d in available && available[d] > 0 ==> d in denoms
  {
    denoms := [];
    var left := set d | d in available && available[d] > 0;
    while left != {}
      invariant left <= available.Keys
      invariant Denominations(denoms, available)
      invariant forall d :: d in available && available[d] > 0 ==> d in denoms || d in left
      invariant forall d :: d in left ==> available[d] > 0
      invariant forall d, i :: d in left && 0 <= i < |denoms| ==> denoms[i] > d
      decreases left
    {
      Inhabited(left);
      var m := Largest(left);
      denoms := denoms + [m];
      left := left - {m};
    }
  }

  method Largest(s: set<int>) returns (m: int)
    requires exists x :: x in s
    ensures m in s && forall x :: x in s ==> x <= m
  {
    m :| m in s;
    var left := s - {m};
    while left != {}
      invariant left <= s && m in s
      invariant forall x :: x in s ==> x in left || x <= m
      decreases left
    {
      Inhabited(left);
      var x :| x in left;
      if x > m {
        m := x;
      }
      left := left - {x};
    }
  }

  /** `plan_change`: sound, complete, and greedy-optimal. A negative target is an error. */
  method PlanChange(available: Counts, target: int) returns (plan: Result<Option<Counts>, PlanError>)
    requires forall d :: d in available ==> d > 0
    ensures plan.Err? <==> target < 0
    ensures plan.Ok? ==> (plan.value.None? <==> !Payable(available, target))
    ensures plan.Ok? && plan.value.Some? ==> IsBest(plan.value.value, available, target)
    ensures plan.Ok? ==> plan.value == BestPlan(available, target)
  {
    if target < 0 {
      return Err(NegativeTarget);
    }
    var best;
    if target == 0 {
      NothingPaysZero(available);
      best := Some(map[]);
      assert IsBest(map[], available, 0);
    } else {
      var denoms := StockedDenominations(available);
      best := Backtrack(available, denoms, 0, target);
      forall q | Pays(q, available, target) ensures PaysFrom(q, available, denoms, 0, target) {
        forall d | d in q ensures exists j :: 0 <= j < |denoms| && denoms[j] == d {
          assert d in denoms;
        }
      }
    }
    BestPlanChosen(best, available, target);
    return Ok(best);
  }

  lemma BestPlanChosen(plan: Option<Counts>, available: Counts, target: int)
    requires plan.None? ==> !Payable(available, target)
    requires plan.Some? ==> IsBest(plan.value, available, target)
    ensures plan == BestPlan(available, target)
  {
    if plan.Some? {
      var best := BestPlan(available, target);
      assert best.Some? && IsBest(best.value, available, target);
      BestPlanIsUnique(plan.value, best.value, available, target);
    }
  }

  /* ---------- a payable target has a best plan ---------- */

  /** Among the suffix plans with at most `count` pieces of the head denomination there is a best one. */
  lemma {:induction false} SomeBest(available: Counts, denoms: seq<int>, index: nat, target: int, count: int)
    requires Denominations(denoms, available) && index < |denoms|
    requires -1 <= count <= Get(available, denoms[index]) && HeadBound(available, denoms, index, target, count)
    requires !NonePays(available, denoms, index, target)
    ensures exists plan :: BestFrom(plan, available, denoms, index, target)
    decreases |denoms| - index, 0, count + 1
  {
    if count == -1 {
      NoHeadCountLeft(available, denoms, index, target);
    } else {
      var rest := target - denoms[index] * count;
      if NonePays(available, denoms, index + 1, rest) {
        LowerHeadBound(available, denoms, index, target, count, rest);
        SomeBest(available, denoms, index, target, count - 1);
      } else {
        SomeBestRest(available, denoms, index + 1, rest);
        var best :| BestFrom(best, available, denoms, index + 1, rest);
        PrependBest(best, available, denoms, index, target, count);
      }
    }
  }

  /** The same with the head count bounded by the stock alone. */
  lemma {:induction false} SomeBestRest(available: Counts, denoms: seq<int>, index: nat, target: int)
    requires Denominations(denoms, available) && index <= |denoms|
    requires !NonePays(available, denoms, index, target)
    ensures exists plan :: BestFrom(plan, available, denoms, index, target)
    decreases |denoms| - index, 1
  {
    if index < |denoms| {
      forall q | PaysFrom(q, available, denoms, index, target) ensures Get(q, denoms[index]) <= Get(available, denoms[index]) {
        DropHead(q, available, denoms, index, target);
      }
      SomeBest(available, denoms, index, target, Get(available, denoms[index]));
    } else {
      OnlyEmptyLeft(available, denoms, index, target);
    }
  }

  lemma OnlyEmptyLeft(available: Counts, denoms: seq<int>, index: nat, target: int)
    requires index >= |denoms| && !NonePays(available, denoms, index, target)
    ensures BestFrom(map[], available, denoms, index, target)
  {
    forall q | PaysFrom(q, available, denoms, index, target) ensures q == map[] {
      Inhabited(q.Keys);
    }
  }

  /** Stocked denominations can be listed largest first. */
  lemma {:induction false} Descending(available: Counts, stocked: set<int>) returns (denoms: seq<int>)
    requires forall d :: d in stocked ==> d > 0 && Get(available, d) > 0
    ensures Denominations(denoms, available)
    ensures forall d :: d in denoms <==> d in stocked
    decreases stocked
  {
    Inhabited(stocked);
    if stocked == {} {
      denoms := [];
    } else {
      var d := Smallest(stocked);
      var larger := Descending(available, stocked - {d});
      denoms := larger + [d];
      forall i | 0 <= i < |larger| ensures larger[i] > d {
        assert larger[i] in larger;
      }
    }
  }

  lemma {:induction false} Smallest(s: set<int>) returns (m: int)
    requires exists x :: x in s
    ensures m in s && forall x :: x in s ==> m <= x
    decreases s
  {
    m :| m in s;
    if x :| x in s && x < m {
      assert x in s - {m};
      var n := Smallest(s - {m});
      assert forall y :: y in s ==> y == m || y in s - {m};
      m := n;
    }
  }

  /** The best plan exists exactly for the payable targets. */
  lemma BestPlanIffPayable(available: Counts, target: int)
    ensures BestPlan(available, target).Some? <==> Payable(available, target)
  {
    if plan :| Pays(plan, available, target) {
      var denoms := Descending(available, set d | d in available && d > 0 && available[d] > 0);
      forall q | Pays(q, available, target) ensures PaysFrom(q, available, denoms, 0, target) {
        forall d | d in q ensures exists j :: 0 <= j < |denoms| && denoms[j] == d {
          assert d in denoms;
        }
      }
      SomeBestRest(available, denoms, 0, target);
      var best :| BestFrom(best, available, denoms, 0, target);
      assert IsBest(best, available, target);
    }
  }
}
