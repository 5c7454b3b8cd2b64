/** What the customer agreed to is what is sold: which selections start a purchase, and the product, slot and price that the
    motor is commanded for. */
module AgreedTerms {
  import opened Wrappers
  import opened Counts
  import opened ChangePlanning
  import opened Money
  import opened SaleAssessment
  import opened ChangeManagement
  import opened Fsm
  import opened Sale
  import opened Protocol
  import opened TraceFacts
  import opened ProtocolInvariant
  import opened ProtocolRuns
  import Dispenser

  /** The product, the slot and the price named when the purchase was started. */
  datatype Terms = Terms(product: ProductId, slot: SlotId, price: nat)

  function TermsOf(t: Txn): Terms {
    Terms(t.product, t.slot, t.price)
  }

  ghost predicate Agreed(terms: map<TxnId, Terms>, rows: map<TxnId, Txn>) {
    forall id :: id in rows ==> id in terms && TermsOf(rows[id]) == terms[id]
  }

  /** Rows are written and the motor is commanded under the terms of their transactions. */
  ghost predicate UnderTerms(terms: map<TxnId, Terms>, a: Action) {
    && (a.SaveAll? ==> Agreed(terms, a.rows))
    && (a.Motor? ==> a.id in terms && TermsOf(a.txn) == terms[a.id])
  }

  ghost predicate AllUnderTerms(terms: map<TxnId, Terms>, actions: seq<Action>) {
    forall i :: 0 <= i < |actions| ==> UnderTerms(terms, actions[i])
  }

  ghost predicate Kept(c: Core, terms: map<TxnId, Terms>) {
    Agreed(terms, c.txns) && AllUnderTerms(terms, c.trace)
  }

  /* ---------- marks ---------- */

  lemma RowsAreAgreed(c: Core, primary: Option<TxnId>, terms: map<TxnId, Terms>)
    requires Agreed(terms, c.txns)
    ensures UnderTerms(terms, c.Save(primary))
  {
  }

  lemma PutIsAgreed(c: Core, id: TxnId, t: Txn, terms: map<TxnId, Terms>)
    requires Kept(c, terms) && id in c.txns && TermsOf(t) == TermsOf(c.txns[id])
    ensures Kept(c.Put(id, t), terms)
  {
  }

  lemma LogKeeps(c: Core, actions: seq<Action>, terms: map<TxnId, Terms>)
    requires Kept(c, terms) && AllUnderTerms(terms, actions)
    ensures Kept(c.Log(actions), terms)
  {
  }

  /** One transaction marked under its terms, and rows of the result written. */
  lemma MarkKeeps(c: Core, d: Core, id: TxnId, t: Txn, terms: map<TxnId, Terms>)
    requires Kept(c, terms) && id in c.txns && TermsOf(t) == TermsOf(c.txns[id])
    requires d.txns == c.txns[id := t] && d.trace == c.trace
    ensures Kept(d, terms) && forall primary :: UnderTerms(terms, d.Save(primary))
  {
    hide AllUnderTerms;
    forall primary ensures UnderTerms(terms, d.Save(primary)) {
      RowsAreAgreed(d, primary, terms);
    }
  }

  lemma SameKeeps(c: Core, d: Core, terms: map<TxnId, Terms>)
    requires Kept(c, terms) && d.txns == c.txns && d.trace == c.trace
    ensures Kept(d, terms) && forall primary :: UnderTerms(terms, d.Save(primary))
  {
    hide AllUnderTerms;
    forall primary ensures UnderTerms(terms, d.Save(primary)) {
      RowsAreAgreed(d, primary, terms);
    }
  }

  /* ---------- payment, change and vend ---------- */

  lemma ConfirmKeeps(c: Core, id: TxnId, disables: bool, terms: map<TxnId, Terms>)
    requires Kept(c, terms) && id in c.txns
    ensures Kept(ConfirmPayment(c, id, disables).core, terms)
  {
    hide Kept, CloseAcceptance;
    if c.txns[id].ConfirmPayment().Ok? {
      AcceptanceKeeps(c, id, c.txns[id].ConfirmPayment().value, disables, terms);
    }
  }

  lemma AcceptanceKeeps(c: Core, id: TxnId, t: Txn, disables: bool, terms: map<TxnId, Terms>)
    requires Kept(c, terms) && id in c.txns && TermsOf(t) == TermsOf(c.txns[id])
    ensures Kept(CloseAcceptance(c, id, t, disables).core, terms)
  {
    hide Kept, RowsToSave, Agreed;
    var disabling := [Intent(id, DisableOnPayment), Disable(id), Outcome(id, DisableOnPayment, Succeeded)];
    if !disables {
      var d := c.Put(id, t.MarkAmbiguous()).At(RECOVERY_PENDING);
      MarkKeeps(c, d, id, t.MarkAmbiguous(), terms);
      LogKeeps(d, [Intent(id, DisableOnPayment), Disable(id), Outcome(id, DisableOnPayment, OutcomeAmbiguous)], terms);
    } else if c.Reaches(PAYMENT_ACCEPTED) {
      var d := c.Put(id, t).At(PAYMENT_ACCEPTED);
      MarkKeeps(c, d, id, t, terms);
      LogKeeps(d, disabling + [d.Save(Some(id))], terms);
    } else {
      MarkKeeps(c, c.Put(id, t), id, t, terms);
      LogKeeps(c.Put(id, t), disabling, terms);
    }
  }

  lemma FinalizeKeeps(c: Core, id: TxnId, terms: map<TxnId, Terms>)
    requires Kept(c, terms) && id in c.txns
    ensures Kept(FinalizeReserve(c, id).core, terms)
  {
    hide Kept, BestPlan;
    var d := FinalizeReserve(c, id).core;
    MarkKeeps(c, d, id, d.txns[id], terms);
  }

  lemma AnnounceKeeps(c: Core, id: TxnId, terms: map<TxnId, Terms>)
    requires Kept(c, terms) && id in c.txns
    ensures Kept(AnnounceChange(c, id), terms)
  {
    hide Kept, RowsToSave, Agreed;
    var d := c.Put(id, c.txns[id].MarkChangePending()).At(DISPENSING_CHANGE);
    MarkKeeps(c, d, id, c.txns[id].MarkChangePending(), terms);
    LogKeeps(d, [Intent(id, DispenseChange), d.Save(Some(id))], terms);
  }

  lemma DispenseKeeps(c: Core, id: TxnId, b: Dispenser.Behaviour, terms: map<TxnId, Terms>)
    requires Kept(c, terms) && id in c.txns
    ensures Kept(DispenseChangeDue(c, id, b).core, terms)
  {
    hide Kept, Dispenser.Pay, RowsToSave, Agreed;
    var t := c.txns[id];
    if t.changeDue > 0 && t.reserve.Some? {
      var req := Dispenser.Request(id, Dispenser.Change);
      var p := Dispenser.Pay(c.hopper, req, t.reserve.value.counts, b);
      var d := DispenseChangeDue(c, id, b).core;
      SettledTerms(c.money, t, p.reply);
      MarkKeeps(c, d.(trace := c.trace), id, d.txns[id], terms);
      LogKeeps(d.(trace := c.trace), [Payout(req, p.reply, p.paid)], terms);
    }
  }

  lemma SettledTerms(l: Ledger, t: Txn, reply: Option<Dispenser.Reply>)
    requires t.reserve.Some?
    ensures TermsOf(AfterChange(l, t, reply).txn) == TermsOf(t)
  {
  }

  lemma SettleKeeps(c: Core, id: TxnId, b: Dispenser.Behaviour, terms: map<TxnId, Terms>)
    requires Kept(c, terms) && id in c.txns
    ensures Kept(SettleChange(c, id, b).core, terms)
  {
    hide Kept, FinalizeReserve, PayChange;
    FinalizeKeeps(c, id, terms);
    var f := FinalizeReserve(c, id).core;
    SameKeeps(f, f.At(RECOVERY_PENDING), terms);
    PayChangeKeeps(f, id, b, terms);
    var paid := PayChange(f, id, b).core;
    SameKeeps(paid, paid.At(RECOVERY_PENDING), terms);
  }

  lemma PayChangeKeeps(c: Core, id: TxnId, b: Dispenser.Behaviour, terms: map<TxnId, Terms>)
    requires Kept(c, terms) && id in c.txns
    ensures Kept(PayChange(c, id, b).core, terms)
  {
    hide Kept, AnnounceChange, DispenseChangeDue, RowsToSave, Agreed;
    MarkKeeps(c, c.Put(id, c.txns[id].MarkChangePending()), id, c.txns[id].MarkChangePending(), terms);
    if c.Reaches(DISPENSING_CHANGE) {
      AnnouncedIsKnown(c, id);
      AnnounceKeeps(c, id, terms);
      DispenseKeeps(AnnounceChange(c, id), id, b, terms);
      var paid := DispenseChangeDue(AnnounceChange(c, id), id, b).core;
      SameKeeps(paid, paid, terms);
      LogKeeps(paid, [Outcome(id, DispenseChange, OutcomeAmbiguous)], terms);
      LogKeeps(paid, [Outcome(id, DispenseChange, Succeeded), paid.Save(Some(id))], terms);
    }
  }

  lemma AnnouncedIsKnown(c: Core, id: TxnId)
    requires id in c.txns
    ensures id in AnnounceChange(c, id).txns
  {
  }

  lemma VendKeeps(c: Core, id: TxnId, vends: bool, terms: map<TxnId, Terms>)
    requires Kept(c, terms) && id in c.txns
    ensures Kept(VendProduct(c, id, vends).core, terms)
  {
    hide Kept, DispenseAuthorized, RowsToSave, Agreed;
    if c.txns[id].AuthorizeVend().Ok? {
      AuthorizedKeeps(c, id, c.txns[id].AuthorizeVend().value, vends, terms);
    } else {
      SameKeeps(c, c, terms);
      LogKeeps(c, [c.Save(Some(id))], terms);
    }
  }

  lemma AuthorizedKeeps(c: Core, id: TxnId, t: Txn, vends: bool, terms: map<TxnId, Terms>)
    requires Kept(c, terms) && id in c.txns && TermsOf(t) == TermsOf(c.txns[id])
    ensures Kept(DispenseAuthorized(c, id, t, vends).core, terms)
  {
    hide Kept, RunMotor, RowsToSave, Agreed;
    var d := c.Put(id, t);
    MarkKeeps(c, d, id, t, terms);
    LogKeeps(d, [d.Save(Some(id))], terms);
    SameKeeps(d, d.At(DISPENSING_PRODUCT), terms);
    MotorKeeps(d.At(DISPENSING_PRODUCT), id, t, vends, terms);
  }

  lemma MotorKeeps(c: Core, id: TxnId, t: Txn, vends: bool, terms: map<TxnId, Terms>)
    requires Kept(c, terms) && id in c.txns && c.txns[id] == t
    ensures Kept(RunMotor(c, id, t, vends).core, terms)
  {
    hide Kept, RowsToSave, TakeFromSlot;
    var actions := [c.Save(Some(id)), Intent(id, VendMotor), Motor(id, t, vends)];
    SameKeeps(c, c, terms);
    MotorIsAgreed(c, id, t, vends, terms);
    LogKeeps(c, actions, terms);
    var m := c.Log(actions);
    if vends {
      LogKeeps(m, [Outcome(id, VendMotor, Succeeded)], terms);
      SlotKeeps(m.Log([Outcome(id, VendMotor, Succeeded)]), id, t, terms);
    } else {
      var d := m.Put(id, t.MarkFaulted()).At(FAULT);
      MarkKeeps(m, d, id, t.MarkFaulted(), terms);
      LogKeeps(d, [Outcome(id, VendMotor, OutcomeAmbiguous)], terms);
    }
  }

  lemma MotorIsAgreed(c: Core, id: TxnId, t: Txn, vends: bool, terms: map<TxnId, Terms>)
    requires Kept(c, terms) && id in c.txns && c.txns[id] == t
    ensures UnderTerms(terms, Motor(id, t, vends))
  {
  }

  lemma SlotKeeps(c: Core, id: TxnId, t: Txn, terms: map<TxnId, Terms>)
    requires Kept(c, terms) && id in c.txns && c.txns[id] == t
    ensures Kept(TakeFromSlot(c, id, t).core, terms)
  {
    hide Kept, RowsToSave, Agreed;
    if t.slot in c.slots && c.slots[t.slot].Sellable() {
      var slot := c.slots[t.slot];
      var d := c.(slots := c.slots[t.slot := slot.(quantity := slot.quantity - 1)]).Put(id, t.MarkProductDispensed());
      MarkKeeps(c, d, id, t.MarkProductDispensed(), terms);
      LogKeeps(d, [d.Save(Some(id))], terms);
    }
  }

  lemma OpenKeeps(c: Core, id: TxnId, opens: bool, terms: map<TxnId, Terms>)
    requires Kept(c, terms) && id in c.txns
    ensures Kept(OpenForPickup(c, id, opens).core, terms)
  {
    hide Kept, RowsToSave, Agreed;
    var t := if opens then c.txns[id].MarkWindowOpened() else c.txns[id].MarkFaulted();
    var d := c.Put(id, t).At(if opens then WAITING_FOR_CUSTOMER_PICKUP else FAULT);
    MarkKeeps(c, d, id, t, terms);
    LogKeeps(d, [Intent(id, OpenWindow), Window(id, true), Outcome(id, OpenWindow, Succeeded), d.Save(Some(id))], terms);
    LogKeeps(d, [Intent(id, OpenWindow), Window(id, true), Outcome(id, OpenWindow, OutcomeAmbiguous)], terms);
  }

  lemma CompleteKeeps(c: Core, id: TxnId, d: Devices, terms: map<TxnId, Terms>)
    requires Kept(c, terms) && id in c.txns
    ensures Kept(CompletePayment(c, id, d).core, terms)
  {
    hide Kept, ConfirmPayment, SettleChange, VendProduct, OpenForPickup;
    ConfirmKeeps(c, id, d.disables, terms);
    var confirmed := ConfirmPayment(c, id, d.disables).core;
    SettleKeeps(confirmed, id, d.payout, terms);
    var settled := SettleChange(confirmed, id, d.payout).core;
    VendKeeps(settled, id, d.vends, terms);
    OpenKeeps(VendProduct(settled, id, d.vends).core, id, d.opens, terms);
  }

  lemma ValidatorKeeps(c: Core, e: ValidatorEvent, d: Devices, terms: map<TxnId, Terms>)
    requires Kept(c, terms)
    ensures Kept(ProcessValidatorEvent(c, e, d).core, terms)
  {
    hide Kept, StackBill, FaultValidator, RowsToSave, Agreed;
    var heard := c.Log([c.Save(None)]);
    SameKeeps(c, c, terms);
    LogKeeps(c, [c.Save(None)], terms);
    if c.active.Some? && c.active.value in c.txns {
      FaultKeeps(heard, c.active.value, terms);
      if e.BillStacked? && e.bill.Some? {
        BillKeeps(heard, c.active.value, e.bill.value, d, terms);
      }
    }
  }

  lemma FaultKeeps(c: Core, id: TxnId, terms: map<TxnId, Terms>)
    requires Kept(c, terms) && id in c.txns
    ensures Kept(FaultValidator(c, id).core, terms)
  {
    hide Kept;
    MarkKeeps(c, FaultValidator(c, id).core, id, c.txns[id].MarkFaulted(), terms);
  }

  lemma BillKeeps(c: Core, id: TxnId, bill: nat, d: Devices, terms: map<TxnId, Terms>)
    requires Kept(c, terms) && id in c.txns
    ensures Kept(StackBill(c, id, bill, d).core, terms)
  {
    hide Kept, CompletePayment, RowsToSave, Agreed;
    if c.txns[id].RecordCash(bill).Ok? {
      var put := c.Put(id, c.txns[id].RecordCash(bill).value);
      MarkKeeps(c, put, id, c.txns[id].RecordCash(bill).value, terms);
      LogKeeps(put, [put.Save(Some(id))], terms);
      CompleteKeeps(put.Log([put.Save(Some(id))]), id, d, terms);
    }
  }

  /* ---------- cancellation ---------- */

  lemma CancelKeeps(c: Core, id: TxnId, disables: bool, b: Dispenser.Behaviour, terms: map<TxnId, Terms>)
    requires Kept(c, terms)
    ensures Kept(CancelPurchase(c, id, disables, b).core, terms)
  {
    hide Kept, RefundCash, CloseCancelled;
    if id in c.txns {
      if disables {
        var actions := [Intent(id, DisableOnCancel), Disable(id), Outcome(id, DisableOnCancel, Succeeded)];
        LogKeeps(c, actions, terms);
        RefundKeeps(c.Log(actions), id, b, terms);
        CloseKeeps(c.Log(actions), id, terms);
        CloseKeeps(RefundCash(c.Log(actions), id, b).core, id, terms);
      } else {
        var d := c.Put(id, c.txns[id].MarkAmbiguous()).At(RECOVERY_PENDING);
        MarkKeeps(c, d, id, c.txns[id].MarkAmbiguous(), terms);
        LogKeeps(d, [Intent(id, DisableOnCancel), Disable(id), Outcome(id, DisableOnCancel, OutcomeAmbiguous)], terms);
      }
    }
  }

  lemma RefundKeeps(c: Core, id: TxnId, b: Dispenser.Behaviour, terms: map<TxnId, Terms>)
    requires Kept(c, terms) && id in c.txns
    ensures Kept(RefundCash(c, id, b).core, terms)
  {
    hide Kept, AnnounceRefund, PayRefund, RefundFailure, RowsToSave, Agreed;
    AnnounceRefundKeeps(c, id, terms);
    var announced := AnnounceRefund(c, id);
    PayRefundKeeps(announced, id, c.txns[id].accepted, b, terms);
    var r := PayRefund(announced, id, c.txns[id].accepted, b).core;
    SameKeeps(r, r, terms);
    LogKeeps(r, [Outcome(id, DispenseRefund, Succeeded), r.Save(Some(id))], terms);
    FailureKeeps(r, id, terms);
  }

  lemma AnnounceRefundKeeps(c: Core, id: TxnId, terms: map<TxnId, Terms>)
    requires Kept(c, terms) && id in c.txns
    ensures Kept(AnnounceRefund(c, id), terms) && id in AnnounceRefund(c, id).txns
  {
    hide Kept, RowsToSave, Agreed;
    var d := c.(money := ReleaseHeld(c.money, c.txns[id])).Put(id, c.txns[id].DropReserve());
    MarkKeeps(c, d, id, c.txns[id].DropReserve(), terms);
    LogKeeps(d, [d.Save(Some(id)), Intent(id, DispenseRefund)], terms);
  }

  lemma PayRefundKeeps(c: Core, id: TxnId, amount: int, b: Dispenser.Behaviour, terms: map<TxnId, Terms>)
    requires Kept(c, terms)
    ensures Kept(PayRefund(c, id, amount, b).core, terms)
  {
    hide Kept, BestPlan, Dispenser.Pay;
    var best := BestPlan(Available(c.money), amount);
    if best.Some? {
      var req := Dispenser.Request(id, Dispenser.Refund);
      var p := Dispenser.Pay(c.hopper, req, best.value, b);
      var d := PayRefund(c, id, amount, b).core;
      SameKeeps(c, d.(trace := c.trace), terms);
      LogKeeps(d.(trace := c.trace), [Payout(req, p.reply, p.paid)], terms);
    }
  }

  lemma FailureKeeps(c: Core, id: TxnId, terms: map<TxnId, Terms>)
    requires Kept(c, terms) && id in c.txns
    ensures Kept(RefundFailure(c, id), terms)
  {
    hide Kept, RowsToSave, Agreed;
    var d := c.Put(id, c.txns[id].MarkAmbiguous()).At(RECOVERY_PENDING);
    MarkKeeps(c, d, id, c.txns[id].MarkAmbiguous(), terms);
    LogKeeps(d, [Outcome(id, DispenseRefund, OutcomeAmbiguous), d.Save(Some(id))], terms);
  }

  lemma CloseKeeps(c: Core, id: TxnId, terms: map<TxnId, Terms>)
    requires Kept(c, terms) && id in c.txns
    ensures Kept(CloseCancelled(c, id).core, terms)
  {
    hide Kept, RowsToSave, Agreed;
    var t := c.txns[id].DropReserve().Cancel();
    var d := c.(money := ReleaseHeld(c.money, c.txns[id])).Put(id, t);
    MarkKeeps(c, d, id, t, terms);
    MarkKeeps(c, d.ClearActive(id).At(IDLE), id, t, terms);
    LogKeeps(d.ClearActive(id).At(IDLE), [d.Save(Some(id))], terms);
  }

  /* ---------- the other commands ---------- */

  lemma AcceptKeeps(c: Core, id: TxnId, enabled: bool, terms: map<TxnId, Terms>)
    requires Kept(c, terms)
    ensures Kept(AcceptCash(c, id, enabled).core, terms)
  {
    hide Kept, Assess, ReserveForSale, BeginSession;
    if c.SalesAllowed() && id in c.txns {
      var plan := Assess(c.money, c.denoms, c.txns[id].price).plan;
      ReserveKeeps(c, id, plan, terms);
      BeginKeeps(ReserveForSale(c, id, plan), id, enabled, terms);
    }
  }

  lemma ReserveKeeps(c: Core, id: TxnId, plan: Counts, terms: map<TxnId, Terms>)
    requires Kept(c, terms) && id in c.txns
    ensures Kept(ReserveForSale(c, id, plan), terms) && id in ReserveForSale(c, id, plan).txns
  {
    hide Kept, RowsToSave, Agreed;
    var d := c.(money := Reserve(c.money, plan)).Put(id, c.txns[id].AttachReserve(plan));
    MarkKeeps(c, d, id, c.txns[id].AttachReserve(plan), terms);
    LogKeeps(d, [d.Save(Some(id))], terms);
  }

  lemma BeginKeeps(c: Core, id: TxnId, enabled: bool, terms: map<TxnId, Terms>)
    requires Kept(c, terms) && id in c.txns
    ensures Kept(BeginSession(c, id, enabled).core, terms)
  {
    hide Kept, RowsToSave, Agreed;
    var t := c.txns[id].StartSession();
    MarkKeeps(c, c.Put(id, t), id, t, terms);
    var d := c.Put(id, t).At(ACCEPTING_CASH);
    MarkKeeps(c, d, id, t, terms);
    LogKeeps(d, [Intent(id, EnableAcceptance), Enable(id), Outcome(id, EnableAcceptance, Succeeded), d.Save(Some(id))], terms);
    var f := c.Put(id, t.MarkFaulted()).At(FAULT).Block(ValidatorFault);
    MarkKeeps(c, f, id, t.MarkFaulted(), terms);
    LogKeeps(f, [Intent(id, EnableAcceptance), Enable(id), Outcome(id, EnableAcceptance, OutcomeAmbiguous)], terms);
  }

  lemma PickupKeeps(c: Core, id: TxnId, closes: bool, terms: map<TxnId, Terms>)
    requires Kept(c, terms)
    ensures Kept(ConfirmPickup(c, id, closes).core, terms)
  {
    hide Kept, ClosePickup;
    if id in c.txns {
      MarkKeeps(c, c.Put(id, c.txns[id].ConfirmPickup()), id, c.txns[id].ConfirmPickup(), terms);
      ClosingKeeps(c, id, c.txns[id].ConfirmPickup(), closes, terms);
    }
  }

  lemma ClosingKeeps(c: Core, id: TxnId, t: Txn, closes: bool, terms: map<TxnId, Terms>)
    requires Kept(c, terms) && id in c.txns && TermsOf(t) == TermsOf(c.txns[id])
    ensures Kept(ClosePickup(c, id, t, closes).core, terms)
  {
    hide Kept, RowsToSave, Agreed;
    if closes {
      var d := c.Put(id, t.MarkWindowClosed());
      MarkKeeps(c, d, id, t.MarkWindowClosed(), terms);
      MarkKeeps(c, d.ClearActive(id).At(IDLE), id, t.MarkWindowClosed(), terms);
      LogKeeps(d.ClearActive(id).At(IDLE), [Intent(id, CloseOnPickup), Window(id, false), Outcome(id, CloseOnPickup, Succeeded),
                                            d.Save(Some(id)), d.Save(Some(id))], terms);
    } else {
      var d := c.Put(id, t.MarkFaulted()).At(CLOSING_DELIVERY_WINDOW);
      MarkKeeps(c, d, id, t.MarkFaulted(), terms);
      LogKeeps(d, [Intent(id, CloseOnPickup), Window(id, false), Outcome(id, CloseOnPickup, OutcomeAmbiguous)], terms);
    }
  }

  lemma TimeoutKeeps(c: Core, id: TxnId, closes: bool, terms: map<TxnId, Terms>)
    requires Kept(c, terms)
    ensures Kept(PickupTimeout(c, id, closes).core, terms)
  {
    hide Kept, RowsToSave, Agreed;
    if id in c.txns && c.txns[id].status.WaitingForCustomerPickup? {
      SameKeeps(c, c, terms);
      var d := c.Put(id, c.txns[id].MarkPickupTimedOut()).At(RECOVERY_PENDING).Block(RecoveryBlock);
      MarkKeeps(c, d, id, c.txns[id].MarkPickupTimedOut(), terms);
      LogKeeps(d, [c.Save(Some(id)), Intent(id, CloseOnTimeout), Window(id, false), Outcome(id, CloseOnTimeout, Succeeded),
                   d.Save(Some(id)), d.Save(Some(id))], terms);
      var f := c.Put(id, c.txns[id].MarkFaulted()).At(FAULT).Block(DeliveryWindowFault);
      MarkKeeps(c, f, id, c.txns[id].MarkFaulted(), terms);
      LogKeeps(f, [c.Save(Some(id)), Intent(id, CloseOnTimeout), Window(id, false), Outcome(id, CloseOnTimeout, OutcomeAmbiguous),
                   f.Save(Some(id)), f.Save(Some(id))], terms);
    }
  }

  lemma ServiceKeeps(c: Core, found: set<Blocker>, terms: map<TxnId, Terms>)
    requires Kept(c, terms)
    ensures Kept(EnterServiceMode(c), terms) && Kept(ExitServiceMode(c), terms) && Kept(HealthPoll(c, found), terms)
  {
    hide Kept, RowsToSave, Agreed;
    SameKeeps(c, c, terms);
    var entered, left, polled := EnterServiceMode(c), ExitServiceMode(c), HealthPoll(c, found);
    SameKeeps(c, entered.(trace := c.trace), terms);
    SameKeeps(c, left.(trace := c.trace), terms);
    SameKeeps(c, polled.(trace := c.trace), terms);
    LogKeeps(entered.(trace := c.trace), [c.Save(None)], terms);
    LogKeeps(left.(trace := c.trace), [c.Save(None)], terms);
    LogKeeps(polled.(trace := c.trace), [c.Save(None)], terms);
  }

  lemma RecoverKeeps(c: Core, id: TxnId, terms: map<TxnId, Terms>)
    requires Kept(c, terms)
    ensures Kept(RecoverTransaction(c, id).core, terms)
  {
    hide Kept, RowsToSave, Agreed, AssessRecovery;
    if id in c.txns {
      SameKeeps(c, c, terms);
      var d := c.At(RECOVERY_PENDING).Block(RecoveryBlock);
      SameKeeps(c, d, terms);
      LogKeeps(d, [c.Save(Some(id))], terms);
      LogKeeps(d, [c.Save(Some(id)), c.Save(Some(id))], terms);
      var e := c.(blockers := c.blockers - {RecoveryBlock}).Put(id, c.txns[id].Cancel()).ClearActive(id).At(IDLE);
      MarkKeeps(c, e, id, c.txns[id].Cancel(), terms);
      LogKeeps(e, [c.Save(Some(id)), e.Save(Some(id))], terms);
    }
  }

  /** The terms of a purchase are those of the command that starts it. */
  function TermsAfter(terms: map<TxnId, Terms>, cmd: Command): map<TxnId, Terms> {
    match cmd
    case StartPurchaseCmd(id, product, slot, price, _) => terms[id := Terms(product, slot, price)]
    case _ => terms
  }

  lemma StartKeeps(c: Core, id: TxnId, product: ProductId, slot: SlotId, price: nat, agrees: bool, terms: map<TxnId, Terms>)
    requires Kept(c, terms)
    requires Inv(c) && id !in c.issued
    ensures Kept(StartPurchase(c, id, product, slot, price, agrees).core, terms[id := Terms(product, slot, price)])
  {
    hide Kept, RowsToSave, Selectable, Core.SalesAllowed, Core.Reaches, Base, SaleReady;
    var more := terms[id := Terms(product, slot, price)];
    UnusedTerms(c, id, Terms(product, slot, price), terms);
    if c.SalesAllowed() && Selectable(c, product, slot) && agrees && c.active.None? {
      var d := c.(txns := c.txns[id := NewTxn(price, slot, product)], active := Some(id), issued := c.issued + {id});
      NewIsAgreed(c, d, id, NewTxn(price, slot, product), more);
      SameKeeps(d, d, more);
      SameKeeps(d, d.At(WAITING_FOR_PAYMENT), more);
      LogKeeps(d.At(WAITING_FOR_PAYMENT), [d.Save(Some(id))], more);
    }
  }

  /** Nothing is recorded yet under an identifier that was never issued. */
  lemma UnusedTerms(c: Core, id: TxnId, t: Terms, terms: map<TxnId, Terms>)
    requires Kept(c, terms) && Inv(c) && id !in c.issued
    ensures Kept(c, terms[id := t])
  {
    hide Sound, Vended, Saved, Paid, PayoutWentWrong, Stock;
    forall i | 0 <= i < |c.trace| ensures UnderTerms(terms[id := t], c.trace[i]) {
      assert UnderTerms(terms, c.trace[i]);
    }
  }

  lemma NewIsAgreed(c: Core, d: Core, id: TxnId, t: Txn, terms: map<TxnId, Terms>)
    requires Kept(c, terms) && id in terms && TermsOf(t) == terms[id] && d.txns == c.txns[id := t] && d.trace == c.trace
    ensures Kept(d, terms)
  {
  }

  lemma HandleKeeps(c: Core, cmd: Command, terms: map<TxnId, Terms>)
    requires Inv(c) && Kept(c, terms) && (cmd.StartPurchaseCmd? ==> cmd.id !in c.issued)
    ensures Kept(Handle(c, cmd).core, TermsAfter(terms, cmd))
  {
    hide Inv, Kept, StartPurchase, AcceptCash, ProcessValidatorEvent, CancelPurchase, ConfirmPickup, PickupTimeout,
      RecoverTransaction, EnterServiceMode, ExitServiceMode, HealthPoll;
    match cmd
    case StartPurchaseCmd(id, product, slot, price, agrees) => StartKeeps(c, id, product, slot, price, agrees, terms);
    case AcceptCashCmd(id, enabled) => AcceptKeeps(c, id, enabled, terms);
    case ValidatorCmd(event, devices) => ValidatorKeeps(c, event, devices, terms);
    case CancelCmd(id, disables, payout) => CancelKeeps(c, id, disables, payout, terms);
    case ConfirmPickupCmd(id, closes) => PickupKeeps(c, id, closes, terms);
    case PickupTimeoutCmd(id, closes) => TimeoutKeeps(c, id, closes, terms);
    case EnterServiceCmd => ServiceKeeps(c, {}, terms);
    case ExitServiceCmd => ServiceKeeps(c, {}, terms);
    case HealthCmd(found) => ServiceKeeps(c, found, terms);
    case RecoverCmd(id) => RecoverKeeps(c, id, terms);
  }

  /* ---------- which selections are sold ---------- */

  /** The machine may sell: nothing blocks it, no technician is at work, and its state is not one of the unsafe ones. */
  predicate Selling(c: Core) {
    && c.blockers == {} && !c.serviceMode
    && c.shown !in {BOOT, SELF_TEST, OUT_OF_SERVICE, FAULT, SERVICE_MODE, RECOVERY_PENDING}
  }

  lemma SellingIsAllowed(c: Core)
    ensures c.SalesAllowed() <==> Selling(c)
  {
  }

  /** The product is sold, and the slot is an enabled one that holds this product and has stock. */
  predicate Offered(c: Core, product: ProductId, slot: SlotId) {
    && product in c.products && c.products[product]
    && slot in c.slots && c.slots[slot].product == product && c.slots[slot].enabled && c.slots[slot].quantity > 0
  }

  /** A purchase starts exactly when the machine may sell, the slot holds the enabled product in stock, the sensor agrees, no sale
      is under way and the machine is idle. Then there is one new transaction under the terms named, it is the active one, and
      its row is saved. An unavailable selection is refused as such, and a refusal before that leaves everything as it was. */
  lemma StartSellsExactly(c: Core, id: TxnId, product: ProductId, slot: SlotId, price: nat, agrees: bool)
    ensures var r := StartPurchase(c, id, product, slot, price, agrees);
            && (r.error.None? <==> Selling(c) && Offered(c, product, slot) && agrees && c.active.None?
                                   && (c.fsm.IDLE? || c.fsm.PRODUCT_SELECTED?))
            && (r.error.None? ==>
                  && r.core.txns.Keys == c.txns.Keys + {id}
                  && (forall other :: other in c.txns && other != id ==> r.core.txns[other] == c.txns[other])
                  && TermsOf(r.core.txns[id]) == Terms(product, slot, price) && r.core.txns[id].accepted == 0
                  && !r.core.txns[id].Terminal() && r.core.txns[id].payment.PaymentPending? && r.core.txns[id].reserve.None?
                  && r.core.active == Some(id) && r.core.fsm.WAITING_FOR_PAYMENT? && r.core.shown.WAITING_FOR_PAYMENT?
                  && r.core.money == c.money && r.core.hopper == c.hopper && r.core.slots == c.slots
                  && id in Saved(r.core.trace) && Saved(r.core.trace)[id] == r.core.txns[id])
            && (r.error == Some(SalesBlocked) <==> !Selling(c))
            && (r.error == Some(SelectionUnavailable) <==> Selling(c) && !Offered(c, product, slot))
            && (r.error == Some(SensorMismatch) <==> Selling(c) && Offered(c, product, slot) && !agrees)
            && (r.error == Some(TransactionActive) <==> Selling(c) && Offered(c, product, slot) && agrees && c.active.Some?)
            && (r.error.Some? ==>
                  || (r.error.value in {SalesBlocked, SelectionUnavailable, SensorMismatch, TransactionActive} && r.core == c)
                  || r.error.value == TransitionRefused)
  {
    hide RowsToSave, Saved, Core.SalesAllowed;
    SellingIsAllowed(c);
    var d := c.(txns := c.txns[id := NewTxn(price, slot, product)], active := Some(id), issued := c.issued + {id});
    RowIsWritten(d, id);
    SavedSnoc(c.trace, d.Rows(Some(id)), d.money);
  }

  /* ---------- restarts and runs ---------- */

  lemma {:induction false} SavedIsAgreed(trace: seq<Action>, terms: map<TxnId, Terms>)
    requires AllUnderTerms(terms, trace)
    ensures Agreed(terms, Saved(trace))
  {
    if trace != [] {
      SavedIsAgreed(trace[..|trace| - 1], terms);
      assert UnderTerms(terms, trace[|trace| - 1]);
    }
  }

  lemma {:induction false} MarksAreAgreed(txns: map<TxnId, Txn>, rows: seq<(TxnId, StepKey)>, terms: map<TxnId, Terms>)
    requires Agreed(terms, txns)
    ensures Agreed(terms, MarkAll(txns, rows))
  {
    if rows != [] {
      MarksAreAgreed(txns, rows[..|rows| - 1], terms);
    }
  }

  lemma RestartKeeps(c: Core, order: seq<TxnId>, money: Ledger, counts: Counts, slots: map<SlotId, Slot>, terms: map<TxnId, Terms>)
    requires AllUnderTerms(terms, c.trace)
    ensures Kept(Restart(c, order, money, counts, slots), terms)
  {
    hide Saved, InterruptedRows, MarkAll, FirstOpen, NeedsRecovery;
    SavedIsAgreed(c.trace, terms);
    MarksAreAgreed(Restored(c.trace), InterruptedRows(c.trace, |c.trace|), terms);
  }

  /** The terms named by the purchases of a run. */
  function AllTerms(events: seq<Event>): map<TxnId, Terms> {
    if events == [] then map[] else TermsAfter(AllTerms(events[..|events| - 1]), events[|events| - 1].cmd)
  }

  lemma {:induction false} RunKeepsTerms(c: Core, events: seq<Event>)
    requires Initial(c) && FreshRun(c, events)
    ensures Kept(Run(c, events), AllTerms(events))
  {
    hide Inv, Kept, Handle, Restart, TermsAfter;
    if events == [] {
      StartsKept(c);
    } else {
      var front, e := events[..|events| - 1], events[|events| - 1];
      var before := Run(c, front);
      RunKeepsTerms(c, front);
      RunKeepsInv(c, front);
      HandleKeeps(before, e.cmd, AllTerms(front));
      if e.Crash? {
        CutKeeps(Handle(before, e.cmd).core, CutTrace(before, e.cmd, e.done), AllTerms(events));
        RestartKeeps(Handle(before, e.cmd).core.(trace := CutTrace(before, e.cmd, e.done)), e.order, e.money, e.counts, e.slots,
                     AllTerms(events));
      }
    }
  }

  lemma StartsKept(c: Core)
    requires Initial(c)
    ensures Kept(c, map[])
  {
  }

  lemma CutKeeps(full: Core, cut: seq<Action>, terms: map<TxnId, Terms>)
    requires Kept(full, terms) && cut <= full.trace
    ensures AllUnderTerms(terms, cut)
  {
    forall i | 0 <= i < |cut| ensures UnderTerms(terms, cut[i]) {
      assert UnderTerms(terms, full.trace[i]);
    }
  }

  /** Over every run, crashes included: the motor is commanded for the product, the slot and the price that the command
      starting the purchase named, and the slot then holds that product with a piece to give. */
  lemma MotorServesWhatWasBought(c: Core, events: seq<Event>, i: nat)
    requires Initial(c) && FreshRun(c, events)
    requires i < |Run(c, events).trace| && Run(c, events).trace[i].Motor?
    ensures var trace := Run(c, events).trace;
            var id, t := trace[i].id, trace[i].txn;
            && id in AllTerms(events) && AllTerms(events)[id] == Terms(t.product, t.slot, t.price)
            && t.slot in Stock(trace[..i]) && var slot := Stock(trace[..i])[t.slot];
               slot.product == t.product && slot.enabled && slot.quantity > 0
  {
    hide Run, FreshRun, AllTerms, Stock, Paid, Saved;
    RunKeepsTerms(c, events);
    VendOnlyWhenSettled(c, events, i);
    assert UnderTerms(AllTerms(events), Run(c, events).trace[i]);
  }
}
