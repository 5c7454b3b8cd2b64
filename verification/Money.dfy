/** The cash ledger: accounting counts, reserved counts and the drift latch
    (`MoneyInventory`). */
module Money {
  import opened Wrappers
  import opened Counts

  datatype Ledger = Ledger(accounting: Counts, reserved: Counts, exactChangeOnly: bool, drift: bool)

  datatype MoneyError = InsufficientChange

  function Max(a: int, b: int): int {
    if a >= b then a else b
  }

  function Available(l: Ledger): Counts {
    map d | d in l.accounting :: Max(0, l.accounting[d] - Get(l.reserved, d))
  }

  predicate CanReserve(l: Ledger, plan: Counts) {
    forall d :: d in plan ==> Get(Available(l), d) >= plan[d]
  }

  /** Subtract `plan`, stopping at zero on the keys it names. */
  function ClampedSub(c: Counts, plan: Counts): Counts {
    map d | d in c.Keys + plan.Keys :: if d in plan then Max(0, Get(c, d) - plan[d]) else c[d]
  }

  function Reserve(l: Ledger, plan: Counts): Ledger {
    l.(reserved := Add(l.reserved, plan))
  }

  function Release(l: Ledger, plan: Counts): Ledger {
    l.(reserved := ClampedSub(l.reserved, plan))
  }

  function Consume(l: Ledger, plan: Counts): Ledger {
    l.(accounting := Sub(l.accounting, plan), reserved := ClampedSub(l.reserved, plan))
  }

  class MoneyInventory {
    var accountingCounts: map<int, int>
    var reservedCounts: map<int, int>
    var exactChangeOnly: bool
    var driftDetected: bool

    function View(): Ledger
      reads this
    {
      Ledger(accountingCounts, reservedCounts, exactChangeOnly, driftDetected)
    }

    constructor (accounting: Counts, exactChangeOnly: bool)
      ensures View() == Ledger(accounting, map[], exactChangeOnly, false)
    {
      accountingCounts, reservedCounts := accounting, map[];
      this.exactChangeOnly, driftDetected := exactChangeOnly, false;
    }

    method AvailableCounts() returns (available: Counts)
      ensures available == Available(View())
    {
      available := map[];
      var left := accountingCounts.Keys;
      while left != {}
        invariant left <= accountingCounts.Keys
        invariant available == map d | d in accountingCounts.Keys - left :: Available(View())[d]
        decreases left
      {
        Inhabited(left);
        var denomination :| denomination in left;
        var reserved := Get(reservedCounts, denomination);
        available := available[denomination := Max(0, accountingCounts[denomination] - reserved)];
        left := left - {denomination};
      }
    }

    method ReservePlan(plan: Counts) returns (reserved: Result<Counts, MoneyError>)
      modifies this
      ensures reserved == if old(CanReserve(View(), plan)) then Ok(plan) else Err(InsufficientChange)
      ensures View() == if reserved.Ok? then Reserve(old(View()), plan) else old(View())
    {
      hide Add, Except;
      var available := AvailableCounts();
      if exists d :: d in plan && Get(available, d) < plan[d] {
        return Err(InsufficientChange);
      }
      var left := plan.Keys;
      NothingDone(reservedCounts, plan);
      while left != {}
        invariant left <= plan.Keys
        invariant reservedCounts == Add(old(reservedCounts), Except(plan, left))
        invariant accountingCounts == old(accountingCounts) && exactChangeOnly == old(exactChangeOnly)
        invariant driftDetected == old(driftDetected)
        decreases left
      {
        Inhabited(left);
        var denomination :| denomination in left;
        AddOneMore(old(reservedCounts), plan, left, denomination);
        reservedCounts := reservedCounts[denomination := Get(reservedCounts, denomination) + plan[denomination]];
        left := left - {denomination};
      }
      EverythingDone(plan);
      return Ok(plan);
    }

    method ReleasePlan(plan: Counts)
      modifies this
      ensures View() == Release(old(View()), plan)
    {
      var left := plan.Keys;
      while left != {}
        invariant left <= plan.Keys
        invariant reservedCounts == ClampedSub(old(reservedCounts), Except(plan, left))
        invariant accountingCounts == old(accountingCounts) && exactChangeOnly == old(exactChangeOnly)
        invariant driftDetected == old(driftDetected)
        decreases left
      {
        Inhabited(left);
        var denomination :| denomination in left;
        ClampOneMore(old(reservedCounts), plan, left, denomination);
        reservedCounts := reservedCounts[denomination := Max(0, Get(reservedCounts, denomination) - plan[denomination])];
        left := left - {denomination};
      }
      assert Except(plan, {}) == plan;
    }

    method ConsumePlan(plan: Counts)
      modifies this
      ensures View() == Consume(old(View()), plan)
    {
      hide Sub, ClampedSub, Except;
      var left := plan.Keys;
      NothingDone(accountingCounts, plan);
      NothingClamped(reservedCounts, plan);
      while left != {}
        invariant left <= plan.Keys
        invariant accountingCounts == Sub(old(accountingCounts), Except(plan, left))
        invariant reservedCounts == ClampedSub(old(reservedCounts), Except(plan, left))
        invariant exactChangeOnly == old(exactChangeOnly) && driftDetected == old(driftDetected)
        decreases left
      {
        Inhabited(left);
        var denomination :| denomination in left;
        SubOneMore(old(accountingCounts), plan, left, denomination);
        accountingCounts := accountingCounts[denomination := Get(accountingCounts, denomination) - plan[denomination]];
        ClampOneMore(old(reservedCounts), plan, left, denomination);
        reservedCounts := reservedCounts[denomination := Max(0, Get(reservedCounts, denomination) - plan[denomination])];
        left := left - {denomination};
      }
      EverythingDone(plan);
    }

    method MarkDrift()
      modifies this`driftDetected
      ensures View() == old(View()).(drift := true)
    {
      driftDetected := true;
    }
  }

  lemma NothingClamped(c: Counts, plan: Counts)
    ensures ClampedSub(c, Except(plan, plan.Keys)) == c
  {
  }

  lemma ClampOneMore(c: Counts, plan: Counts, left: set<int>, d: int)
    requires d in left && d in plan
    ensures var so := ClampedSub(c, Except(plan, left));
            so[d := Max(0, Get(so, d) - plan[d])] == ClampedSub(c, Except(plan, left - {d}))
  {
  }

  /** What a plan takes out of the ledger comes back on release. */
  lemma ReserveThenRelease(l: Ledger, plan: Counts)
    requires NonNegative(l.reserved) && forall d :: d in plan ==> plan[d] >= 0
    ensures Available(Release(Reserve(l, plan), plan)) == Available(l)
    ensures Same(Release(Reserve(l, plan), plan).reserved, l.reserved)
  {
    forall d ensures Get(Release(Reserve(l, plan), plan).reserved, d) == Get(l.reserved, d) {
      assert Get(l.reserved, d) >= 0;
    }
  }
}

/** Every run of reserve, release and consume over outstanding reserves. */
module LedgerRuns {
  import opened Counts
  import opened Money

  /** A reserve is closed by naming its place among the outstanding ones, so it is closed once. */
  datatype LedgerOp = Take(plan: Counts) | GiveBack(index: nat) | PayOut(index: nat)

  datatype Books = Books(ledger: Ledger, outstanding: seq<Counts>, paidOut: Counts)

  function Without(s: seq<Counts>, i: nat): seq<Counts>
    requires i < |s|
  {
    s[..i] + s[i + 1..]
  }

  function Step(b: Books, op: LedgerOp): Books {
    match op
    case Take(plan) =>
      if CanReserve(b.ledger, plan) then
        b.(ledger := Reserve(b.ledger, plan), outstanding := b.outstanding + [plan])
      else b
    case GiveBack(i) =>
      if i < |b.outstanding| then
        b.(ledger := Release(b.ledger, b.outstanding[i]), outstanding := Without(b.outstanding, i))
      else b
    case PayOut(i) =>
      if i < |b.outstanding| then
        Books(Consume(b.ledger, b.outstanding[i]), Without(b.outstanding, i), Add(b.paidOut, b.outstanding[i]))
      else b
  }

  function Run(b: Books, ops: seq<LedgerOp>): Books {
    if ops == [] then b else Step(Run(b, ops[..|ops| - 1]), ops[|ops| - 1])
  }

  ghost function Held(outstanding: seq<Counts>, d: int): int {
    if outstanding == [] then 0 else Held(outstanding[..|outstanding| - 1], d) + Get(outstanding[|outstanding| - 1], d)
  }

  ghost predicate Plan(c: Counts) {
    forall d :: d in c ==> c[d] >= 0
  }

  ghost predicate Balanced(b: Books, initial: Counts) {
    && (forall i :: 0 <= i < |b.outstanding| ==> Plan(b.outstanding[i]))
    && (forall d :: Get(b.ledger.reserved, d) == Held(b.outstanding, d))
    && (forall d :: Get(b.ledger.reserved, d) <= Get(b.ledger.accounting, d))
    && (forall d :: Get(b.ledger.accounting, d) + Get(b.paidOut, d) == Get(initial, d))
  }

  lemma {:induction false} HeldSplit(s: seq<Counts>, i: nat, d: int)
    requires i < |s|
    ensures Held(s, d) == Held(Without(s, i), d) + Get(s[i], d)
  {
    var front := s[..|s| - 1];
    if i < |front| {
      HeldSplit(front, i, d);
      assert Without(s, i)[..|s| - 2] == Without(front, i);
    } else {
      assert Without(s, i) == front;
    }
  }

  lemma {:induction false} HeldNonNegative(s: seq<Counts>, d: int)
    requires forall i :: 0 <= i < |s| ==> Plan(s[i])
    ensures Held(s, d) >= 0
  {
    if s != [] {
      assert Plan(s[|s| - 1]);
      HeldNonNegative(s[..|s| - 1], d);
    }
  }

  /** Closing an outstanding reserve never meets the clamp at zero. */
  lemma ClampIsExact(b: Books, initial: Counts, i: nat, d: int)
    requires Balanced(b, initial) && i < |b.outstanding|
    ensures Get(ClampedSub(b.ledger.reserved, b.outstanding[i]), d)
         == Get(b.ledger.reserved, d) - Get(b.outstanding[i], d)
         == Held(Without(b.outstanding, i), d) >= 0
  {
    HeldSplit(b.outstanding, i, d);
    HeldNonNegative(Without(b.outstanding, i), d);
    assert Get(b.ledger.reserved, d) == Held(b.outstanding, d);
  }

  lemma StepKeepsBalance(b: Books, initial: Counts, op: LedgerOp)
    requires Balanced(b, initial)
    requires op.Take? ==> Plan(op.plan)
    ensures Balanced(Step(b, op), initial)
  {
    hide Balanced, Plan, CanReserve;
    match op
    case Take(plan) =>
      if CanReserve(b.ledger, plan) {
        TakeKeepsBalance(b, initial, plan);
      }
    case GiveBack(i) =>
      if i < |b.outstanding| {
        GiveBackKeepsBalance(b, initial, i);
      }
    case PayOut(i) =>
      if i < |b.outstanding| {
        PayOutKeepsBalance(b, initial, i);
      }
  }

  lemma TakeKeepsBalance(b: Books, initial: Counts, plan: Counts)
    requires Balanced(b, initial) && CanReserve(b.ledger, plan) && Plan(plan)
    ensures Balanced(Step(b, Take(plan)), initial)
  {
    var next := Step(b, Take(plan));
    forall d ensures Get(next.ledger.reserved, d) == Held(next.outstanding, d) <= Get(next.ledger.accounting, d) {
      assert next.outstanding[..|b.outstanding|] == b.outstanding;
      assert Get(b.ledger.reserved, d) == Held(b.outstanding, d);
      assert d in plan ==> Get(Available(b.ledger), d) >= plan[d];
    }
  }

  lemma GiveBackKeepsBalance(b: Books, initial: Counts, i: nat)
    requires Balanced(b, initial) && i < |b.outstanding|
    ensures Balanced(Step(b, GiveBack(i)), initial)
  {
    hide Held, ClampedSub, Plan;
    CloseKeepsBalance(b, initial, i);
  }

  lemma PayOutKeepsBalance(b: Books, initial: Counts, i: nat)
    requires Balanced(b, initial) && i < |b.outstanding|
    ensures Balanced(Step(b, PayOut(i)), initial)
  {
    hide Held, ClampedSub, Plan;
    CloseKeepsBalance(b, initial, i);
    forall d ensures Get(Step(b, PayOut(i)).ledger.accounting, d) + Get(Step(b, PayOut(i)).paidOut, d) == Get(initial, d) {
      assert Get(b.ledger.accounting, d) + Get(b.paidOut, d) == Get(initial, d);
    }
  }

  lemma CloseKeepsBalance(b: Books, initial: Counts, i: nat)
    requires Balanced(b, initial) && i < |b.outstanding|
    ensures forall d :: Get(ClampedSub(b.ledger.reserved, b.outstanding[i]), d) == Held(Without(b.outstanding, i), d)
    ensures forall d :: Get(ClampedSub(b.ledger.reserved, b.outstanding[i]), d)
                        <= Get(Sub(b.ledger.accounting, b.outstanding[i]), d) <= Get(b.ledger.accounting, d)
    ensures forall j :: 0 <= j < |b.outstanding| - 1 ==> Plan(Without(b.outstanding, i)[j])
  {
    forall d
      ensures Get(ClampedSub(b.ledger.reserved, b.outstanding[i]), d) == Held(Without(b.outstanding, i), d)
      ensures Get(ClampedSub(b.ledger.reserved, b.outstanding[i]), d)
              <= Get(Sub(b.ledger.accounting, b.outstanding[i]), d) <= Get(b.ledger.accounting, d)
    {
      ClampIsExact(b, initial, i, d);
      assert Plan(b.outstanding[i]);
      assert Get(b.ledger.reserved, d) <= Get(b.ledger.accounting, d);
    }
    forall j | 0 <= j < |b.outstanding| - 1 ensures Plan(Without(b.outstanding, i)[j]) {
      assert Without(b.outstanding, i)[j] == if j < i then b.outstanding[j] else b.outstanding[j + 1];
    }
  }

  /** In every run the reserved counts are the outstanding reserves, covered by the accounting
      counts, and every piece is either accounted for or paid out. */
  lemma {:induction false} RunKeepsBalance(l: Ledger, ops: seq<LedgerOp>)
    requires NonNegative(l.accounting) && forall d :: Get(l.reserved, d) == 0
    requires forall i :: 0 <= i < |ops| && ops[i].Take? ==> Plan(ops[i].plan)
    ensures Balanced(Run(Books(l, [], map[]), ops), l.accounting)
  {
    var start := Books(l, [], map[]);
    if ops == [] {
      assert forall d :: Get(l.accounting, d) >= 0;
      assert Balanced(start, l.accounting);
    } else {
      RunKeepsBalance(l, ops[..|ops| - 1]);
      StepKeepsBalance(Run(start, ops[..|ops| - 1]), l.accounting, ops[|ops| - 1]);
    }
  }

  /** Value is conserved over every run. */
  lemma RunConservesValue(l: Ledger, ops: seq<LedgerOp>)
    requires NonNegative(l.accounting) && forall d :: Get(l.reserved, d) == 0
    requires forall i :: 0 <= i < |ops| && ops[i].Take? ==> Plan(ops[i].plan)
    ensures var b := Run(Books(l, [], map[]), ops);
            Worth(b.ledger.accounting) + Worth(b.paidOut) == Worth(l.accounting)
  {
    RunKeepsBalance(l, ops);
    var b := Run(Books(l, [], map[]), ops);
    WorthAdd(b.ledger.accounting, b.paidOut);
    forall d ensures Get(Add(b.ledger.accounting, b.paidOut), d) == Get(l.accounting, d) {
      assert Get(b.ledger.accounting, d) + Get(b.paidOut, d) == Get(l.accounting, d);
    }
    WorthSame(Add(b.ledger.accounting, b.paidOut), l.accounting);
  }
}
