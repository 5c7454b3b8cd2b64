/** Payout planning, reservation and settlement (`ChangeManager`), and the guarantee the pre-sale
    check gives. */
module SaleAssessment {
  import opened Wrappers
  import opened Counts
  import opened ChangePlanning
  import opened WorstCase
  import opened Money

  datatype Assessment = Assessment(supported: bool, plan: Counts)

  function Positive(denoms: seq<int>): seq<int> {
    if denoms == [] then []
    else (if denoms[0] > 0 then [denoms[0]] else []) + Positive(denoms[1..])
  }

  /** What `_calculate_worst_case_change` returns. */
  ghost function WorstCaseOf(l: Ledger, denoms: seq<int>, price: int): Option<int> {
    if l.exactChangeOnly || Positive(denoms) == [] then Some(0)
    else if !EveryOverpaymentPayable(Available(l), Positive(denoms), price) then None
    else if w :| IsWorst(Positive(denoms), price, w) then Some(w)
    else None
  }

  ghost function Assess(l: Ledger, denoms: seq<int>, price: int): Assessment {
    if l.drift then Assessment(false, map[])
    else
      match WorstCaseOf(l, denoms, price)
      case None => Assessment(false, map[])
      case Some(worst) =>
        if worst == 0 then Assessment(true, map[])
        else
          match BestPlan(Available(l), worst)
          case None => Assessment(false, map[])
          case Some(plan) => Assessment(true, plan)
  }

  lemma {:induction false} PositiveKeeps(denoms: seq<int>, d: int)
    ensures d in Positive(denoms) <==> d in denoms && d > 0
  {
    if denoms != [] {
      PositiveKeeps(denoms[1..], d);
      assert d in denoms <==> d == denoms[0] || d in denoms[1..];
    }
  }

  /** The configured notes and the positive ones among them accept the same payments. */
  lemma PositiveAccepts(denoms: seq<int>, notes: seq<int>)
    ensures Accepts(Positive(denoms), notes) <==> Accepts(denoms, notes)
  {
    forall i | 0 <= i < |notes| ensures notes[i] in Positive(denoms) <==> notes[i] in denoms && notes[i] > 0 {
      PositiveKeeps(denoms, notes[i]);
    }
  }

  /** Overpayments are bounded by the largest note, so a largest one exists. */
  lemma {:induction false} LargestOverpayment(denoms: seq<int>, price: int, bound: int)
    requires exists change :: Overpayment(denoms, price, change)
    requires forall change :: Overpayment(denoms, price, change) ==> change <= bound
    ensures exists worst :: IsWorst(denoms, price, worst)
    decreases bound
  {
    if Overpayment(denoms, price, bound) {
      assert IsWorst(denoms, price, bound);
    } else {
      var change :| Overpayment(denoms, price, change);
      var amount, d := LastNote(denoms, price, change);
      LargestOverpayment(denoms, price, bound - 1);
    }
  }

  lemma {:induction false} LargestNote(denoms: seq<int>) returns (largest: int)
    ensures forall d :: d in denoms ==> d <= largest
  {
    if denoms == [] {
      largest := 0;
    } else {
      var rest := LargestNote(denoms[1..]);
      largest := Max(denoms[0], rest);
      assert forall d :: d in denoms ==> d == denoms[0] || d in denoms[1..];
    }
  }

  lemma WorstExists(denoms: seq<int>, price: int)
    requires denoms != [] && forall d :: d in denoms ==> d > 0
    ensures exists worst :: IsWorst(denoms, price, worst)
  {
    assert Accepts(denoms, []) && Total([]) == 0;
    SomeOverpayment(denoms, price, 0, denoms[0]);
    var largest := LargestNote(denoms);
    forall change | Overpayment(denoms, price, change) ensures change <= Max(largest, largest - price) {
      var amount, d := LastNote(denoms, price, change);
    }
    LargestOverpayment(denoms, price, Max(largest, largest - price));
  }

  /** The branch for a worst case without a plan is never taken: a sale is supported exactly when there
      is no drift and, unless the check is switched off, every overpayment can be paid out. */
  lemma SupportedExactly(l: Ledger, denoms: seq<int>, price: int)
    ensures Assess(l, denoms, price).supported <==>
              && !l.drift
              && (l.exactChangeOnly || Positive(denoms) == [] || EveryOverpaymentPayable(Available(l), Positive(denoms), price))
    ensures var worst := WorstCaseOf(l, denoms, price);
            worst.Some? ==> worst.value == 0 || BestPlan(Available(l), worst.value).Some?
  {
    if !l.exactChangeOnly && Positive(denoms) != [] {
      forall d | d in Positive(denoms) ensures d > 0 {
        PositiveKeeps(denoms, d);
      }
      WorstExists(Positive(denoms), price);
      var worst := WorstCaseOf(l, denoms, price);
      if worst.Some? {
        BestPlanIffPayable(Available(l), worst.value);
      }
    }
  }

  /** A plan drawn from what is available can always be reserved. */
  lemma BestPlanIsReservable(l: Ledger, target: int)
    ensures BestPlan(Available(l), target).Some? ==>
              && CanReserve(l, BestPlan(Available(l), target).value)
              && Coins(BestPlan(Available(l), target).value)
              && Worth(BestPlan(Available(l), target).value) == target
  {
  }

  /** The ledger with the approved plan held for the sale. */
  function Holding(l: Ledger, plan: Counts): Ledger {
    if plan == map[] then l else Reserve(l, plan)
  }

  function Freed(l: Ledger, plan: Counts): Ledger {
    if plan == map[] then l else Release(l, plan)
  }

  lemma AssessedPlanIsReservable(l: Ledger, denoms: seq<int>, price: int)
    ensures var plan := Assess(l, denoms, price).plan; CanReserve(l, plan) && Coins(plan)
  {
    var worst := WorstCaseOf(l, denoms, price);
    if worst.Some? {
      BestPlanIsReservable(l, worst.value);
    }
  }

  /** The settlement guarantee. When a sale is approved, its plan can be reserved, and whatever notes
      are then taken, once they first reach the price the held plan can be given back and a plan worth
      exactly the overpayment found and reserved in its place. */
  lemma ApprovedSaleCanBeSettled(l: Ledger, denoms: seq<int>, price: int, notes: seq<int>)
    requires Assess(l, denoms, price).supported
    requires !l.exactChangeOnly && Positive(denoms) != []
    requires NonNegative(l.reserved)
    requires Accepts(denoms, notes) && FirstCrossing(notes, price)
    ensures var plan := Assess(l, denoms, price).plan;
            var freed, due := Freed(Holding(l, plan), plan), Total(notes) - price;
            && CanReserve(l, plan)
            && due >= 0
            && BestPlan(Available(freed), due).Some?
            && Worth(BestPlan(Available(freed), due).value) == due
            && CanReserve(freed, BestPlan(Available(freed), due).value)
  {
    hide Assess, WorstCaseOf, BestPlan, Accepts, CanReserve;
    var plan := Assess(l, denoms, price).plan;
    var freed, due := Freed(Holding(l, plan), plan), Total(notes) - price;
    SupportedExactly(l, denoms, price);
    PositiveAccepts(denoms, notes);
    assert Overpayment(Positive(denoms), price, due);
    AssessedPlanIsReservable(l, denoms, price);
    ReserveThenRelease(l, plan);
    BestPlanIffPayable(Available(l), due);
    BestPlanIsReservable(freed, due);
  }
}

/** Settling a sale over the ledger, the transaction and the payout device (`finalize_reserve`, `dispense`,
    `dispense_refund`). */
module ChangeManagement {
  import opened Wrappers
  import opened Counts
  import opened ChangePlanning
  import opened WorstCase
  import opened Money
  import opened SaleAssessment
  import opened Sale
  import Dispenser
  import PayoutDevice

  /** Give back what a transaction still holds. */
  function ReleaseHeld(l: Ledger, t: Txn): Ledger {
    if t.reserve.Some? then Release(l, t.reserve.value.counts) else l
  }

  /** Whatever a transaction holds is a plan of positive denominations. */
  ghost predicate HoldsCoins(t: Txn) {
    t.reserve.Some? ==> Coins(t.reserve.value.counts)
  }

  datatype Settlement = Settlement(ledger: Ledger, txn: Txn, error: Option<Failure>)

  /** The worst-case reserve is given back, and the exact one taken in its place. */
  ghost function Finalize(l: Ledger, t: Txn): Settlement {
    var freed := ReleaseHeld(l, t);
    if t.changeDue == 0 then Settlement(freed, t.DropReserve(), None)
    else
      match BestPlan(Available(freed), t.changeDue)
      case None => Settlement(freed, t.DropReserve(), Some(ChangeUnavailable))
      case Some(plan) => Settlement(Reserve(freed, plan), t.AttachReserve(plan), None)
  }

  /** The ledger after the reply to a payout of `plan`; no reply means the device raised. */
  function Settled(l: Ledger, plan: Counts, reply: Option<Dispenser.Reply>): Ledger {
    match reply
    case None => l
    case Some(Dispensed) => Consume(l, plan)
    case Some(_) => l.(drift := true)
  }

  function PayoutFailure(reply: Option<Dispenser.Reply>): Option<Failure> {
    match reply
    case None => Some(DispenserFailed)
    case Some(Dispensed) => None
    case Some(Partial) => Some(PayoutPartial)
    case Some(_) => Some(PayoutIncomplete)
  }

  function AfterChange(l: Ledger, t: Txn, reply: Option<Dispenser.Reply>): Settlement
    requires t.reserve.Some?
  {
    var marked :=
      match reply
      case None => t
      case Some(Dispensed) => t.MarkReserve(Consumed).MarkChangeDispensed()
      case Some(Partial) => t.MarkReserve(ReserveAmbiguous).MarkChangePartial()
      case Some(_) => t.MarkReserve(ReserveAmbiguous).MarkAmbiguous();
    Settlement(Settled(l, t.reserve.value.counts, reply), marked, PayoutFailure(reply))
  }

  class ChangeManager {
    const inventory: MoneyInventory
    const dispenser: PayoutDevice.MockChangeDispenser
    const acceptedBills: seq<int>

    constructor (inventory: MoneyInventory, dispenser: PayoutDevice.MockChangeDispenser, acceptedBills: seq<int>)
      ensures this.inventory == inventory && this.dispenser == dispenser && this.acceptedBills == acceptedBills
    {
      this.inventory, this.dispenser, this.acceptedBills := inventory, dispenser, acceptedBills;
    }

    /** Denominations are positive. */
    ghost predicate Ready()
      reads inventory
    {
      forall d :: d in inventory.accountingCounts ==> d > 0
    }

    method PlanFor(target: nat) returns (plan: Option<Counts>)
      requires Ready()
      ensures plan == BestPlan(Available(inventory.View()), target)
    {
      var available := inventory.AvailableCounts();
      var planned := PlanChange(available, target);
      plan := planned.value;
    }

    method CalculateWorstCaseChange(price: nat) returns (worst: Option<int>)
      requires Ready()
      ensures worst == WorstCaseOf(inventory.View(), acceptedBills, price)
    {
      if inventory.exactChangeOnly {
        return Some(0);
      }
      var denominations := Positive(acceptedBills);
      if denominations == [] {
        return Some(0);
      }
      forall d | d in denominations ensures d > 0 {
        PositiveKeeps(acceptedBills, d);
      }
      var available := inventory.AvailableCounts();
      worst := WorstCaseChange(available, denominations, price);
    }

    method AssessSale(price: nat) returns (assessment: Assessment)
      requires Ready()
      ensures assessment == Assess(inventory.View(), acceptedBills, price)
    {
      if inventory.driftDetected {
        return Assessment(false, map[]);
      }
      var worst := CalculateWorstCaseChange(price);
      if worst.None? {
        return Assessment(false, map[]);
      }
      if worst.value == 0 {
        return Assessment(true, map[]);
      }
      WorstIsNonNegative(inventory.View(), acceptedBills, price);
      var plan := PlanFor(worst.value);
      if plan.None? {
        return Assessment(false, map[]);
      }
      return Assessment(true, plan.value);
    }

    method FinalizeReserve(transaction: Transaction) returns (error: Option<Failure>)
      requires Ready()
      modifies inventory, transaction
      ensures Ready()
      ensures Settlement(inventory.View(), transaction.View(), error) == Finalize(old(inventory.View()), old(transaction.View()))
    {
      if transaction.changeReserve.Some? {
        inventory.ReleasePlan(transaction.changeReserve.value.counts);
        transaction.DropChangeReserve();
      }
      if transaction.changeDue == 0 {
        return None;
      }
      var plan := PlanFor(transaction.changeDue);
      if plan.None? {
        return Some(ChangeUnavailable);
      }
      BestPlanIsReservable(inventory.View(), transaction.changeDue);
      var reserved := inventory.ReservePlan(plan.value);
      transaction.AttachChangeReserve(plan.value);
      return None;
    }

    /** `dispense` once a payout is due: one call of the device, then the books and the transaction. */
    method Dispense(transaction: Transaction, id: nat)
      returns (error: Option<Failure>, ghost payout: Dispenser.Payout, ghost b: Dispenser.Behaviour)
      requires Ready() && transaction.changeReserve.Some? && Coins(transaction.changeReserve.value.counts)
      modifies inventory, transaction, dispenser, dispenser.runner
      ensures Ready()
      ensures var counts := old(transaction.changeReserve.value.counts);
              payout == Dispenser.Pay(old(dispenser.View()), Dispenser.Request(id, Dispenser.Change), counts, b)
      ensures dispenser.View() == payout.hopper
      ensures Settlement(inventory.View(), transaction.View(), error)
           == AfterChange(old(inventory.View()), old(transaction.View()), payout.reply)
    {
      var counts := transaction.changeReserve.value.counts;
      var outcome := dispenser.Dispense(Dispenser.Request(id, Dispenser.Change), counts);
      b := PayoutDevice.BehaviourOf(outcome);
      payout := Dispenser.Pay(old(dispenser.View()), Dispenser.Request(id, Dispenser.Change), counts, b);
      if outcome.Raises? {
        return Some(DispenserFailed), payout, b;
      }
      if outcome.result.reply.Dispensed? {
        inventory.ConsumePlan(counts);
        transaction.MarkChangeReserve(Consumed);
        transaction.MarkChangeDispensed();
        return None, payout, b;
      }
      transaction.MarkChangeReserve(ReserveAmbiguous);
      inventory.MarkDrift();
      if outcome.result.reply.Partial? {
        transaction.MarkChangePartial();
        return Some(PayoutPartial), payout, b;
      }
      transaction.MarkAmbiguous();
      return Some(PayoutIncomplete), payout, b;
    }

    /** `dispense_refund` of a positive amount; the reserve taken for it is not kept anywhere. */
    method DispenseRefund(id: nat, amount: nat)
      returns (error: Option<Failure>, ghost payout: Option<Dispenser.Payout>, ghost b: Dispenser.Behaviour)
      requires Ready() && amount > 0
      modifies inventory, dispenser, dispenser.runner
      ensures Ready()
      ensures match BestPlan(Available(old(inventory.View())), amount)
              case None =>
                error == Some(ChangeUnavailable) && payout.None?
                && inventory.View() == old(inventory.View()) && dispenser.View() == old(dispenser.View())
              case Some(plan) =>
                && payout == Some(Dispenser.Pay(old(dispenser.View()), Dispenser.Request(id, Dispenser.Refund), plan, b))
                && dispenser.View() == payout.value.hopper
                && inventory.View() == Settled(Reserve(old(inventory.View()), plan), plan, payout.value.reply)
                && error == PayoutFailure(payout.value.reply)
    {
      b := Dispenser.Raise;
      var plan := PlanFor(amount);
      if plan.None? {
        return Some(ChangeUnavailable), None, b;
      }
      BestPlanIsReservable(inventory.View(), amount);
      var reserved := inventory.ReservePlan(plan.value);
      var outcome := dispenser.Dispense(Dispenser.Request(id, Dispenser.Refund), plan.value);
      b := PayoutDevice.BehaviourOf(outcome);
      payout := Some(Dispenser.Pay(old(dispenser.View()), Dispenser.Request(id, Dispenser.Refund), plan.value, b));
      if outcome.Raises? {
        return Some(DispenserFailed), payout, b;
      }
      if outcome.result.reply.Dispensed? {
        inventory.ConsumePlan(plan.value);
        return None, payout, b;
      }
      inventory.MarkDrift();
      if outcome.result.reply.Partial? {
        return Some(PayoutPartial), payout, b;
      }
      return Some(PayoutIncomplete), payout, b;
    }
  }

  lemma WorstIsNonNegative(l: Ledger, denoms: seq<int>, price: int)
    ensures WorstCaseOf(l, denoms, price).Some? ==> WorstCaseOf(l, denoms, price).value >= 0
  {
    var worst := WorstCaseOf(l, denoms, price);
    if worst.Some? && worst.value != 0 {
      var amount, d := LastNote(Positive(denoms), price, worst.value);
    }
  }
}
