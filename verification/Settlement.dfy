/** Once cash has been asked for, the sale can be settled: the guarantee of the pre-sale check carried
    through the whole session, whatever notes are taken and whatever else happens meanwhile. */
module Settlement {
  import opened Wrappers
  import opened Counts
  import opened ChangePlanning
  import opened WorstCase
  import opened Money
  import opened SaleAssessment
  import opened ChangeManagement
  import opened Fsm
  import opened Sale
  import opened Protocol
  import Dispenser

  /** The session has counted `notes`, and still holds the plan approved against the ledger `base`. */
  ghost predicate Open(c: Core, id: TxnId, base: Ledger, plan: Counts, notes: seq<int>) {
    && c.active == Some(id) && id in c.txns
    && c.money == Holding(base, plan)
    && Assess(base, c.denoms, c.txns[id].price) == Assessment(true, plan)
    && Accepts(c.denoms, notes)
    && (notes == [] || Total(notes) < c.txns[id].price)
    && Counted(c.txns[id], plan, Total(notes))
  }

  /** What the open session's transaction records. */
  predicate Counted(t: Txn, plan: Counts, total: int) {
    && t.session.Some? && t.session.value.status != SessionCancelled
    && t.session.value.accepted == total == t.accepted
    && t.reserve == if plan == map[] then None else Some(Reservation(plan, Active))
  }

  /** A first AcceptCash for a transaction opens the session. */
  lemma SessionOpens(c: Core, id: TxnId)
    requires c.active == Some(id) && id in c.txns && c.txns[id].reserve.None? && c.txns[id].accepted == 0
    requires AcceptCash(c, id, true).error.None?
    ensures Open(AcceptCash(c, id, true).core, id, c.money, Assess(c.money, c.denoms, c.txns[id].price).plan, [])
  {
    hide Assess;
    var a := Assess(c.money, c.denoms, c.txns[id].price);
    assert a == Assessment(true, a.plan);
    if a.plan == map[] {
    } else {
    }
  }

  /** Commands that neither take or give cash for another sale, nor end this one. */
  predicate Bystander(id: TxnId, cmd: Command) {
    match cmd
    case AcceptCashCmd(_, _) => false
    case CancelCmd(_, _, _) => false
    case ValidatorCmd(event, _) => !event.BillStacked?
    case ConfirmPickupCmd(other, _) => other != id
    case RecoverCmd(other) => other != id
    case _ => true
  }

  /** Nothing the session depends on has changed. */
  ghost predicate Undisturbed(c: Core, d: Core, id: TxnId) {
    && d.active == c.active && id in c.txns && id in d.txns && d.money == c.money && d.denoms == c.denoms
    && d.txns[id].session == c.txns[id].session && d.txns[id].accepted == c.txns[id].accepted
    && d.txns[id].reserve == c.txns[id].reserve && d.txns[id].price == c.txns[id].price
  }

  lemma BystanderLeaves(c: Core, id: TxnId, cmd: Command)
    requires c.active == Some(id) && id in c.txns && Bystander(id, cmd)
    ensures Undisturbed(c, Handle(c, cmd).core, id)
  {
    hide ConfirmPickup, PickupTimeout, RecoverTransaction, ProcessValidatorEvent, RowsToSave;
    match cmd
    case StartPurchaseCmd(_, _, _, _, _) =>
    case ValidatorCmd(event, devices) => OtherEventLeaves(c, id, event, devices);
    case ConfirmPickupCmd(other, closes) => OtherPickupLeaves(c, id, other, closes);
    case PickupTimeoutCmd(other, closes) => TimeoutLeaves(c, id, other, closes);
    case EnterServiceCmd =>
    case ExitServiceCmd =>
    case HealthCmd(_) =>
    case RecoverCmd(other) => OtherRecoveryLeaves(c, id, other);
  }

  lemma OtherEventLeaves(c: Core, id: TxnId, e: ValidatorEvent, d: Devices)
    requires c.active == Some(id) && id in c.txns && !e.BillStacked?
    ensures Undisturbed(c, ProcessValidatorEvent(c, e, d).core, id)
  {
    hide RowsToSave;
  }

  lemma OtherPickupLeaves(c: Core, id: TxnId, other: TxnId, closes: bool)
    requires c.active == Some(id) && id in c.txns && other != id
    ensures Undisturbed(c, ConfirmPickup(c, other, closes).core, id)
  {
    hide RowsToSave;
  }

  lemma TimeoutLeaves(c: Core, id: TxnId, other: TxnId, closes: bool)
    requires id in c.txns
    ensures Undisturbed(c, PickupTimeout(c, other, closes).core, id)
  {
    hide RowsToSave;
  }

  lemma OtherRecoveryLeaves(c: Core, id: TxnId, other: TxnId)
    requires c.active == Some(id) && id in c.txns && other != id
    ensures Undisturbed(c, RecoverTransaction(c, other).core, id)
  {
    hide RowsToSave, AssessRecovery;
    if other in c.txns {
      match AssessRecovery(c.txns[other])
      case OperatorReview =>
      case PendingReview =>
      case NothingToDo =>
      case CancelSafe =>
    }
  }

  /** A note below the price leaves the session open. */
  lemma NoteKeepsOpen(c: Core, id: TxnId, base: Ledger, plan: Counts, notes: seq<int>, bill: nat, d: Devices)
    requires Open(c, id, base, plan, notes) && bill in c.denoms && bill > 0 && Total(notes) + bill < c.txns[id].price
    ensures var r := ProcessValidatorEvent(c, BillStacked(Some(bill)), d);
            r.error.None? && Open(r.core, id, base, plan, notes + [bill])
  {
    hide Assess;
    TotalSnoc(notes, bill);
  }

  /** The notes counted by a run of commands. */
  function Notes(events: seq<Event>): seq<int> {
    if events == [] then []
    else
      var front, last := Notes(events[..|events| - 1]), events[|events| - 1];
      if last.Completed? && last.cmd.ValidatorCmd? && last.cmd.event.BillStacked? && last.cmd.event.bill.Some?
      then front + [last.cmd.event.bill.value] else front
  }

  /** Bystanders and accepted notes, in any order. */
  predicate SessionEvent(id: TxnId, denoms: seq<int>, e: Event) {
    && e.Completed?
    && (Bystander(id, e.cmd)
        || (e.cmd.ValidatorCmd? && e.cmd.event.BillStacked? && e.cmd.event.bill.Some?
            && e.cmd.event.bill.value in denoms && e.cmd.event.bill.value > 0))
  }

  lemma {:induction false} SessionStaysOpen(c: Core, id: TxnId, base: Ledger, plan: Counts, events: seq<Event>)
    requires Open(c, id, base, plan, [])
    requires forall i :: 0 <= i < |events| ==> SessionEvent(id, c.denoms, events[i])
    requires events == [] || Total(Notes(events)) < c.txns[id].price
    ensures Open(Run(c, events), id, base, plan, Notes(events))
    ensures Run(c, events).denoms == c.denoms && Run(c, events).txns[id].price == c.txns[id].price
  {
    hide Handle, Assess, Counted;
    if events != [] {
      var front, last := events[..|events| - 1], events[|events| - 1];
      NotesGrow(id, c.denoms, events);
      SessionStaysOpen(c, id, base, plan, front);
      SessionStep(Run(c, front), id, base, plan, Notes(front), last);
    }
  }

  lemma NotesGrow(id: TxnId, denoms: seq<int>, events: seq<Event>)
    requires events != [] && SessionEvent(id, denoms, events[|events| - 1])
    ensures Total(Notes(events[..|events| - 1])) <= Total(Notes(events))
  {
    var front, last := Notes(events[..|events| - 1]), events[|events| - 1];
    if !Bystander(id, last.cmd) {
      TotalSnoc(front, last.cmd.event.bill.value);
    } else if last.cmd.ValidatorCmd? {
    }
  }

  /** The notes after one more event. */
  function NotesAfter(id: TxnId, notes: seq<int>, e: Event): seq<int>
    requires e.Completed? && (Bystander(id, e.cmd) || (e.cmd.ValidatorCmd? && e.cmd.event.BillStacked? && e.cmd.event.bill.Some?))
  {
    if Bystander(id, e.cmd) then notes else notes + [e.cmd.event.bill.value]
  }

  lemma SessionStep(c: Core, id: TxnId, base: Ledger, plan: Counts, notes: seq<int>, e: Event)
    requires Open(c, id, base, plan, notes) && SessionEvent(id, c.denoms, e)
    requires var more := NotesAfter(id, notes, e); more == [] || Total(more) < c.txns[id].price
    ensures var d := Handle(c, e.cmd).core;
            Open(d, id, base, plan, NotesAfter(id, notes, e)) && d.denoms == c.denoms && d.txns[id].price == c.txns[id].price
  {
    hide Handle, Assess;
    if Bystander(id, e.cmd) {
      BystanderLeaves(c, id, e.cmd);
    } else {
      TotalSnoc(notes, e.cmd.event.bill.value);
      NoteKeepsOpen(c, id, base, plan, notes, e.cmd.event.bill.value, e.cmd.devices);
      NoteIsHandled(c, e.cmd, id);
    }
  }

  lemma NoteIsHandled(c: Core, cmd: Command, id: TxnId)
    requires cmd.ValidatorCmd?
    ensures Handle(c, cmd) == ProcessValidatorEvent(c, cmd.event, cmd.devices)
  {
  }

  /* ---------- the note that reaches the price ---------- */

  /** The transaction and the rows after the crossing note is counted. */
  function AfterNote(c: Core, id: TxnId, bill: nat): Core
    requires id in c.txns && c.txns[id].RecordCash(bill).Ok?
  {
    var heard := c.Log([c.Save(None)]);
    var put := heard.Put(id, c.txns[id].RecordCash(bill).value);
    put.Log([put.Save(Some(id))])
  }

  /** All notes but the last left the total below the price. */
  lemma CrossingIsFirst(denoms: seq<int>, notes: seq<int>, bill: int, price: int)
    requires Accepts(denoms, notes) && bill in denoms && bill > 0
    requires notes == [] || Total(notes) < price
    requires Total(notes) + bill >= price
    ensures Accepts(denoms, notes + [bill]) && FirstCrossing(notes + [bill], price)
    ensures Total(notes + [bill]) == Total(notes) + bill
  {
    TotalSnoc(notes, bill);
    forall k | 0 < k < |notes + [bill]| ensures Total((notes + [bill])[..k]) < price {
      assert (notes + [bill])[..k] == notes[..k];
      PrefixTotals(denoms, notes, k);
    }
  }

  /** The ledger and the transaction from which the final reserve is taken. */
  ghost predicate Crossed(c: Core, id: TxnId, base: Ledger, plan: Counts, total: int) {
    && id in c.txns
    && c.money == Holding(base, plan)
    && c.txns[id].changeDue == total - c.txns[id].price >= 0
    && c.txns[id].reserve == if plan == map[] then None else Some(Reservation(plan, Active))
  }

  /** The reserve is finalised without failing, for a plan worth exactly the overpayment. */
  lemma CrossedFinalizes(c: Core, id: TxnId, base: Ledger, plan: Counts, notes: seq<int>, denoms: seq<int>)
    requires Crossed(c, id, base, plan, Total(notes))
    requires Assess(base, denoms, c.txns[id].price) == Assessment(true, plan)
    requires !base.exactChangeOnly && Positive(denoms) != [] && NonNegative(base.reserved)
    requires Accepts(denoms, notes) && FirstCrossing(notes, c.txns[id].price)
    ensures var r := FinalizeReserve(c, id);
            && r.error.None?
            && r.core.txns[id].changeDue == c.txns[id].changeDue
            && (c.txns[id].changeDue > 0 ==> FinalReserve(base, plan, r.core.txns[id], c.txns[id].changeDue))
  {
    hide Assess, BestPlan, Accepts, FirstCrossing;
    ApprovedSaleCanBeSettled(base, denoms, c.txns[id].price, notes);
    BestPlanIsReservable(Freed(Holding(base, plan), plan), c.txns[id].changeDue);
  }

  /** The transaction holds a plan worth `due`, drawn from what was available when the sale was approved. */
  ghost predicate FinalReserve(base: Ledger, plan: Counts, t: Txn, due: int) {
    && t.reserve.Some?
    && Worth(t.reserve.value.counts) == due && Coins(t.reserve.value.counts)
    && CanReserve(Freed(Holding(base, plan), plan), t.reserve.value.counts)
  }

  lemma NoteCrosses(c: Core, id: TxnId, base: Ledger, plan: Counts, notes: seq<int>, bill: nat)
    requires Open(c, id, base, plan, notes) && Total(notes) + bill >= c.txns[id].price
    ensures c.txns[id].RecordCash(bill).Ok?
    ensures var r := ConfirmPayment(AfterNote(c, id, bill), id, true);
            && (r.error.None? || r.error == Some(TransitionRefused))
            && Crossed(r.core, id, base, plan, Total(notes) + bill)
            && r.core.txns[id].price == c.txns[id].price
  {
    hide Assess, Accepts, RowsToSave, Total;
  }

  /** Counting `bill` as the note that reaches the price leaves a payment whose reserve, once confirmed, is finalised
      without failing, for a plan worth exactly the overpayment. */
  ghost predicate SettlesExactly(c: Core, id: TxnId, bill: nat, disables: bool, overpaid: int) {
    && id in c.txns && c.txns[id].RecordCash(bill).Ok?
    && var confirmed := ConfirmPayment(AfterNote(c, id, bill), id, disables);
    && (confirmed.error.None? ==> confirmed.core.txns[id].changeDue == overpaid)
    && (confirmed.error.None? ==> FinalizedFor(confirmed.core, id, overpaid))
  }

  ghost predicate FinalizedFor(c: Core, id: TxnId, due: int)
    requires id in c.txns
  {
    var f := FinalizeReserve(c, id);
    && f.error.None?
    && (due > 0 ==>
          && f.core.txns[id].reserve.Some?
          && Worth(f.core.txns[id].reserve.value.counts) == due && Coins(f.core.txns[id].reserve.value.counts))
  }

  lemma CrossingSettles(c: Core, id: TxnId, base: Ledger, plan: Counts, notes: seq<int>, bill: nat, disables: bool)
    requires Open(c, id, base, plan, notes) && bill in c.denoms && bill > 0 && Total(notes) + bill >= c.txns[id].price
    requires !base.exactChangeOnly && Positive(c.denoms) != [] && NonNegative(base.reserved)
    ensures SettlesExactly(c, id, bill, disables, Total(notes) + bill - c.txns[id].price)
  {
    hide Assess, Accepts, FirstCrossing, Positive, ConfirmPayment, FinalizeReserve;
    NoteCrosses(c, id, base, plan, notes, bill);
    CrossingIsFirst(c.denoms, notes, bill, c.txns[id].price);
    ConfirmFailures(AfterNote(c, id, bill), id, disables);
    CrossedFinalizes(ConfirmPayment(AfterNote(c, id, bill), id, true).core, id, base, plan, notes + [bill], c.denoms);
  }

  /** A payment whose reserve can be finalised never ends for lack of change, however the devices behave. */
  lemma FinalizedNeverLacksChange(c: Core, id: TxnId, d: Devices, due: int)
    requires id in c.txns
    requires var confirmed := ConfirmPayment(c, id, d.disables);
             confirmed.error.None? ==> confirmed.core.txns[id].changeDue == due && FinalizedFor(confirmed.core, id, due)
    ensures CompletePayment(c, id, d).error != Some(ChangeUnavailable)
  {
    hide ConfirmPayment, SettleChange, VendProduct, OpenForPickup, FinalizeReserve;
    ConfirmFailures(c, id, d.disables);
    var confirmed := ConfirmPayment(c, id, d.disables);
    if confirmed.error.None? {
      SettleFailures(confirmed.core, id, d.payout);
      HandOutFailures(SettleChange(confirmed.core, id, d.payout).core, id, d);
    }
  }

  lemma HandOutFailures(c: Core, id: TxnId, d: Devices)
    requires id in c.txns
    ensures VendProduct(c, id, d.vends).error != Some(ChangeUnavailable)
    ensures OpenForPickup(VendProduct(c, id, d.vends).core, id, d.opens).error != Some(ChangeUnavailable)
  {
    hide VendProduct, OpenForPickup;
    LateFailures(c, id, d.vends, d.opens);
    LateFailures(VendProduct(c, id, d.vends).core, id, d.vends, d.opens);
  }

  /** A note handled by the active transaction. */
  lemma NoteIsCounted(c: Core, id: TxnId, bill: nat, d: Devices)
    requires c.active == Some(id) && id in c.txns && c.txns[id].RecordCash(bill).Ok?
    requires c.txns[id].RecordCash(bill).value.accepted >= c.txns[id].price
    ensures ProcessValidatorEvent(c, BillStacked(Some(bill)), d) == CompletePayment(AfterNote(c, id, bill), id, d)
  {
    hide CompletePayment;
  }

  /** However the devices behave, a payment taken after an approved sale never ends for lack of change. */
  lemma NoPaymentLacksChange(c: Core, id: TxnId, bill: nat, d: Devices, overpaid: int)
    requires c.active == Some(id) && SettlesExactly(c, id, bill, d.disables, overpaid)
    requires c.txns[id].RecordCash(bill).value.accepted >= c.txns[id].price
    ensures ProcessValidatorEvent(c, BillStacked(Some(bill)), d).error != Some(ChangeUnavailable)
  {
    hide ProcessValidatorEvent, CompletePayment, ConfirmPayment, FinalizedFor;
    NoteIsCounted(c, id, bill, d);
    FinalizedNeverLacksChange(AfterNote(c, id, bill), id, d, overpaid);
  }

  /** The whole session: after a first AcceptCash, any mixture of accepted notes and bystander commands, and the note
      that first reaches the price, the reserve is finalised for exactly the overpayment and the payment never ends
      for lack of change. */
  lemma EverySessionCanBeSettled(c: Core, id: TxnId, events: seq<Event>, bill: nat, d: Devices)
    requires c.active == Some(id) && id in c.txns && c.txns[id].reserve.None? && c.txns[id].accepted == 0
    requires AcceptCash(c, id, true).error.None?
    requires !c.money.exactChangeOnly && Positive(c.denoms) != [] && NonNegative(c.money.reserved)
    requires forall i :: 0 <= i < |events| ==> SessionEvent(id, c.denoms, events[i])
    requires events == [] || Total(Notes(events)) < c.txns[id].price
    requires bill in c.denoms && bill > 0 && Total(Notes(events)) + bill >= c.txns[id].price
    ensures var now := Run(AcceptCash(c, id, true).core, events);
            && SettlesExactly(now, id, bill, d.disables, Total(Notes(events)) + bill - c.txns[id].price)
            && ProcessValidatorEvent(now, BillStacked(Some(bill)), d).error != Some(ChangeUnavailable)
  {
    hide Run, ProcessValidatorEvent, AcceptCash, Assess, Accepts, Positive, Open, SettlesExactly, SessionEvent, Notes, Total;
    var plan := Assess(c.money, c.denoms, c.txns[id].price).plan;
    SessionOpens(c, id);
    OpeningKeeps(c, id);
    SessionStaysOpen(AcceptCash(c, id, true).core, id, c.money, plan, events);
    OpenSettles(Run(AcceptCash(c, id, true).core, events), id, c.money, plan, Notes(events), bill, d);
  }

  lemma OpenSettles(c: Core, id: TxnId, base: Ledger, plan: Counts, notes: seq<int>, bill: nat, d: Devices)
    requires Open(c, id, base, plan, notes) && bill in c.denoms && bill > 0 && Total(notes) + bill >= c.txns[id].price
    requires !base.exactChangeOnly && Positive(c.denoms) != [] && NonNegative(base.reserved)
    ensures SettlesExactly(c, id, bill, d.disables, Total(notes) + bill - c.txns[id].price)
    ensures ProcessValidatorEvent(c, BillStacked(Some(bill)), d).error != Some(ChangeUnavailable)
  {
    hide ProcessValidatorEvent, Assess, Accepts, Positive, SettlesExactly;
    CrossingSettles(c, id, base, plan, notes, bill, d.disables);
    CountedIsEnough(c, id, plan, notes, bill);
    NoPaymentLacksChange(c, id, bill, d, Total(notes) + bill - c.txns[id].price);
  }

  lemma CountedIsEnough(c: Core, id: TxnId, plan: Counts, notes: seq<int>, bill: nat)
    requires id in c.txns && Counted(c.txns[id], plan, Total(notes)) && Total(notes) + bill >= c.txns[id].price
    ensures c.txns[id].RecordCash(bill).Ok? && c.txns[id].RecordCash(bill).value.accepted >= c.txns[id].price
  {
  }

  lemma OpeningKeeps(c: Core, id: TxnId)
    requires id in c.txns
    ensures var r := AcceptCash(c, id, true).core;
            r.denoms == c.denoms && id in r.txns && r.txns[id].price == c.txns[id].price
  {
    hide Assess;
  }

  lemma ConfirmFailures(c: Core, id: TxnId, disables: bool)
    requires id in c.txns
    ensures ConfirmPayment(c, id, disables).error != Some(ChangeUnavailable)
    ensures !disables ==> ConfirmPayment(c, id, disables).error.Some?
  {
  }

  lemma SettleFailures(c: Core, id: TxnId, b: Dispenser.Behaviour)
    requires id in c.txns && FinalizeReserve(c, id).error.None?
    requires c.txns[id].changeDue > 0 ==> FinalizeReserve(c, id).core.txns[id].reserve.Some?
    ensures SettleChange(c, id, b).error != Some(ChangeUnavailable)
  {
    hide FinalizeReserve, PayChange;
    PayChangeFailures(FinalizeReserve(c, id).core, id, b);
  }

  lemma PayChangeFailures(c: Core, id: TxnId, b: Dispenser.Behaviour)
    requires id in c.txns
    ensures c.txns[id].reserve.Some? ==> PayChange(c, id, b).error != Some(ChangeUnavailable)
  {
    hide Dispenser.Pay;
  }

  lemma LateFailures(c: Core, id: TxnId, vends: bool, opens: bool)
    requires id in c.txns
    ensures VendProduct(c, id, vends).error != Some(ChangeUnavailable)
    ensures OpenForPickup(c, id, opens).error != Some(ChangeUnavailable)
  {
  }

  /* ---------- with working devices the sale completes ---------- */

  const WORKING := Devices(true, Dispenser.Attempt(Dispenser.Dispensed), true, true)

  /** What the hopper holds covers any plan the ledger can reserve. */
  lemma HopperCovers(counts: Counts, base: Ledger, held: Counts, plan: Counts)
    requires Same(counts, base.accounting) && NonNegative(base.reserved) && Coins(plan) && Coins(held)
    requires CanReserve(Freed(Holding(base, held), held), plan)
    ensures Dispenser.Covers(counts, plan)
  {
    var freed := Freed(Holding(base, held), held);
    ReserveThenRelease(base, held);
    forall d | d in plan ensures Get(counts, d) >= plan[d] {
      assert Get(Available(freed), d) >= plan[d] > 0;
      assert Get(counts, d) == Get(base.accounting, d) && Get(base.reserved, d) >= 0;
    }
  }

  lemma DevicePays(c: Core, id: TxnId, plan: Counts)
    requires id in c.txns && c.txns[id].changeDue > 0
    requires c.txns[id].reserve.Some? && c.txns[id].reserve.value.counts == plan
    requires Dispenser.Request(id, Dispenser.Change) !in c.hopper.replies
    requires Dispenser.Covers(c.hopper.counts, plan)
    ensures var r := DispenseChangeDue(c, id, WORKING.payout);
            && r.error.None? && r.core.fsm == c.fsm && r.core.hopper.counts == Sub(c.hopper.counts, plan)
            && r.core.slots == c.slots
            && r.core.txns[id] == c.txns[id].MarkReserve(Consumed).MarkChangeDispensed()
  {
  }

  lemma ChangeIsPaid(c: Core, id: TxnId, plan: Counts)
    requires id in c.txns && c.fsm == PAYMENT_ACCEPTED && c.txns[id].changeDue > 0
    requires c.txns[id].reserve.Some? && c.txns[id].reserve.value.counts == plan
    requires Dispenser.Request(id, Dispenser.Change) !in c.hopper.replies
    requires Dispenser.Covers(c.hopper.counts, plan)
    ensures var r := PayChange(c, id, WORKING.payout);
            && r.error.None? && r.core.fsm == DISPENSING_CHANGE && r.core.hopper.counts == Sub(c.hopper.counts, plan)
            && r.core.slots == c.slots
            && r.core.txns[id] == c.txns[id].MarkChangePending().MarkReserve(Consumed).MarkChangeDispensed()
  {
    hide DispenseChangeDue, Dispenser.Covers;
    DevicePays(AnnounceChange(c, id), id, plan);
  }

  lemma ProductIsHandedOut(c: Core, id: TxnId)
    requires id in c.txns && (c.fsm == PAYMENT_ACCEPTED || c.fsm == DISPENSING_CHANGE) && c.txns[id].payment.Confirmed?
    requires c.txns[id].changeDue > 0 ==> c.txns[id].payout.Dispensed?
    requires c.txns[id].slot in c.slots && c.slots[c.txns[id].slot].Sellable()
    ensures var v := VendProduct(c, id, true);
            && v.error.None?
            && v.core.hopper == c.hopper
            && var slot := c.slots[c.txns[id].slot];
            && v.core.slots == c.slots[c.txns[id].slot := slot.(quantity := slot.quantity - 1)]
            && var o := OpenForPickup(v.core, id, true);
            && o.error.None? && o.core.fsm == WAITING_FOR_CUSTOMER_PICKUP
            && o.core.hopper == v.core.hopper && o.core.slots == v.core.slots
  {
    hide VendProduct, OpenForPickup;
    ProductIsVended(c, id);
    WindowIsOpened(VendProduct(c, id, true).core, id);
  }

  lemma ProductIsVended(c: Core, id: TxnId)
    requires id in c.txns && (c.fsm == PAYMENT_ACCEPTED || c.fsm == DISPENSING_CHANGE) && c.txns[id].payment.Confirmed?
    requires c.txns[id].changeDue > 0 ==> c.txns[id].payout.Dispensed?
    requires c.txns[id].slot in c.slots && c.slots[c.txns[id].slot].Sellable()
    ensures var v := VendProduct(c, id, true);
            && v.error.None? && v.core.fsm == DISPENSING_PRODUCT && v.core.hopper == c.hopper
            && var slot := c.slots[c.txns[id].slot];
               v.core.slots == c.slots[c.txns[id].slot := slot.(quantity := slot.quantity - 1)]
  {
    hide RowsToSave;
  }

  lemma WindowIsOpened(c: Core, id: TxnId)
    requires id in c.txns && c.fsm == DISPENSING_PRODUCT
    ensures var o := OpenForPickup(c, id, true);
            && o.error.None? && o.core.fsm == WAITING_FOR_CUSTOMER_PICKUP && o.core.hopper == c.hopper && o.core.slots == c.slots
  {
    hide RowsToSave;
  }

  /** What a settled sale has done: the overpayment left the hopper, one piece left the slot, and the
      customer is at the window. */
  ghost predicate Delivered(before: Core, after: Core, id: TxnId, due: int)
    requires id in before.txns && before.txns[id].slot in before.slots
  {
    && after.fsm == WAITING_FOR_CUSTOMER_PICKUP
    && (exists paid :: Coins(paid) && Worth(paid) == due && Same(after.hopper.counts, Sub(before.hopper.counts, paid)))
    && var slot := before.slots[before.txns[id].slot];
       after.slots == before.slots[before.txns[id].slot := slot.(quantity := slot.quantity - 1)]
  }

  lemma FinalizeMovesNoCash(c: Core, id: TxnId)
    requires id in c.txns
    ensures var r := FinalizeReserve(c, id).core;
            && r.fsm == c.fsm && r.hopper == c.hopper && r.slots == c.slots
            && r.txns[id].slot == c.txns[id].slot && r.txns[id].payment == c.txns[id].payment
  {
  }

  /** The settlement part: the exact change is paid from the hopper. */
  lemma ChangeIsSettled(c: Core, id: TxnId, base: Ledger, plan: Counts, notes: seq<int>, denoms: seq<int>)
    requires Crossed(c, id, base, plan, Total(notes)) && c.fsm == PAYMENT_ACCEPTED
    requires Assess(base, denoms, c.txns[id].price) == Assessment(true, plan)
    requires !base.exactChangeOnly && Positive(denoms) != [] && NonNegative(base.reserved)
    requires Accepts(denoms, notes) && FirstCrossing(notes, c.txns[id].price)
    requires Same(c.hopper.counts, base.accounting) && Dispenser.Request(id, Dispenser.Change) !in c.hopper.replies
    requires c.txns[id].payment.Confirmed?
    ensures var r := SettleChange(c, id, WORKING.payout);
            && r.error.None? && (r.core.fsm == PAYMENT_ACCEPTED || r.core.fsm == DISPENSING_CHANGE)
            && r.core.slots == c.slots && r.core.txns[id].slot == c.txns[id].slot && r.core.txns[id].payment.Confirmed?
            && (r.core.txns[id].changeDue > 0 ==> r.core.txns[id].payout.Dispensed?)
            && exists paid :: Coins(paid) && Worth(paid) == c.txns[id].changeDue
                 && Same(r.core.hopper.counts, Sub(c.hopper.counts, paid))
  {
    hide Assess, Accepts, FirstCrossing, PayChange, CanReserve, FinalizeReserve, Coins, Worth, Same, Positive;
    CrossedFinalizes(c, id, base, plan, notes, denoms);
    FinalizeMovesNoCash(c, id);
    var f := FinalizeReserve(c, id).core;
    if c.txns[id].changeDue > 0 {
      var paid := f.txns[id].reserve.value.counts;
      AssessedPlanIsReservable(base, denoms, c.txns[id].price);
      HopperCovers(c.hopper.counts, base, plan, paid);
      ChangeIsPaid(f, id, paid);
      SameIsReflexive(Sub(c.hopper.counts, paid));
    } else {
      NothingLeaves(c.hopper.counts);
    }
  }

  lemma SameIsReflexive(c: Counts)
    ensures Same(c, c)
  {
  }

  lemma NothingLeaves(counts: Counts)
    ensures Same(counts, Sub(counts, map[])) && Coins(map[]) && Worth(map[]) == 0
  {
  }

  lemma NoteConfirms(c: Core, id: TxnId, base: Ledger, plan: Counts, notes: seq<int>, bill: nat)
    requires Open(c, id, base, plan, notes) && Total(notes) + bill >= c.txns[id].price && c.fsm == ACCEPTING_CASH
    ensures c.txns[id].RecordCash(bill).Ok?
    ensures var r := ConfirmPayment(AfterNote(c, id, bill), id, true);
            && r.error.None? && r.core.fsm == PAYMENT_ACCEPTED && r.core.hopper == c.hopper && r.core.slots == c.slots
            && r.core.txns[id].slot == c.txns[id].slot && r.core.txns[id].payment.Confirmed?
  {
    hide Assess, Accepts;
  }

  /** With working devices and a hopper that holds what the ledger says, the note that reaches the price
      completes the sale: exact change out, one piece out of the slot, customer at the window. */
  lemma SaleCompletes(c: Core, id: TxnId, base: Ledger, plan: Counts, notes: seq<int>, bill: nat)
    requires Open(c, id, base, plan, notes) && bill in c.denoms && bill > 0 && Total(notes) + bill >= c.txns[id].price
    requires !base.exactChangeOnly && Positive(c.denoms) != [] && NonNegative(base.reserved)
    requires c.fsm == ACCEPTING_CASH && c.txns[id].slot in c.slots && c.slots[c.txns[id].slot].Sellable()
    requires Same(c.hopper.counts, base.accounting) && Dispenser.Request(id, Dispenser.Change) !in c.hopper.replies
    ensures var r := ProcessValidatorEvent(c, BillStacked(Some(bill)), WORKING);
            r.error.None? && Delivered(c, r.core, id, Total(notes) + bill - c.txns[id].price)
  {
    hide Assess, CompletePayment, ConfirmPayment, Accepts, FirstCrossing, ProcessValidatorEvent, Positive, Delivered;
    NoteCrosses(c, id, base, plan, notes, bill);
    NoteConfirms(c, id, base, plan, notes, bill);
    CrossingIsFirst(c.denoms, notes, bill, c.txns[id].price);
    CountedIsEnough(c, id, plan, notes, bill);
    NoteIsCounted(c, id, bill, WORKING);
    var counted := AfterNote(c, id, bill);
    CountingKeepsGoods(c, id, bill);
    ConfirmedCompletes(counted, id, base, plan, notes + [bill], c.denoms);
    DeliveredFrom(c, counted, CompletePayment(counted, id, WORKING).core, id, Total(notes) + bill - c.txns[id].price);
  }

  lemma CountingKeepsGoods(c: Core, id: TxnId, bill: nat)
    requires id in c.txns && c.txns[id].RecordCash(bill).Ok?
    ensures var d := AfterNote(c, id, bill);
            && id in d.txns && d.hopper == c.hopper && d.slots == c.slots
            && d.txns[id].slot == c.txns[id].slot && d.txns[id].price == c.txns[id].price
  {
  }

  /** Delivery only depends on the goods before it. */
  lemma DeliveredFrom(c: Core, d: Core, after: Core, id: TxnId, due: int)
    requires id in c.txns && id in d.txns && c.txns[id].slot == d.txns[id].slot && c.txns[id].slot in c.slots
    requires d.hopper == c.hopper && d.slots == c.slots && Delivered(d, after, id, due)
    ensures Delivered(c, after, id, due)
  {
  }

  lemma ConfirmedCompletes(c: Core, id: TxnId, base: Ledger, plan: Counts, notes: seq<int>, denoms: seq<int>)
    requires id in c.txns && c.txns[id].slot in c.slots && c.slots[c.txns[id].slot].Sellable()
    requires var r := ConfirmPayment(c, id, true);
             && r.error.None? && r.core.fsm == PAYMENT_ACCEPTED && r.core.hopper == c.hopper && r.core.slots == c.slots
             && r.core.txns[id].slot == c.txns[id].slot && r.core.txns[id].payment.Confirmed?
             && Crossed(r.core, id, base, plan, Total(notes)) && r.core.txns[id].price == c.txns[id].price
    requires Assess(base, denoms, c.txns[id].price) == Assessment(true, plan)
    requires !base.exactChangeOnly && Positive(denoms) != [] && NonNegative(base.reserved)
    requires Accepts(denoms, notes) && FirstCrossing(notes, c.txns[id].price)
    requires Same(c.hopper.counts, base.accounting) && Dispenser.Request(id, Dispenser.Change) !in c.hopper.replies
    ensures var r := CompletePayment(c, id, WORKING);
            r.error.None? && Delivered(c, r.core, id, Total(notes) - c.txns[id].price)
  {
    hide Assess, SettleChange, VendProduct, OpenForPickup, ConfirmPayment, Accepts, FirstCrossing, Positive;
    var confirmed := ConfirmPayment(c, id, true);
    ChangeIsSettled(confirmed.core, id, base, plan, notes, denoms);
    ProductIsHandedOut(SettleChange(confirmed.core, id, WORKING.payout).core, id);
  }
}
