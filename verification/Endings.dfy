/** How each handler ends: what becomes of the transaction, the machine, the blockers and the goods, and what is saved, on
    success and on every failure. */
module Endings {
  import opened Wrappers
  import opened Counts
  import opened ChangePlanning
  import opened Money
  import opened SaleAssessment
  import opened ChangeManagement
  import opened Fsm
  import opened Sale
  import opened Protocol
  import opened TraceFacts
  import opened ProtocolInvariant
  import opened WorstCase
  import AgreedTerms
  import FsmRuns
  import Dispenser

  /** The transaction has become `t`, and every other one is as it was. */
  predicate Becomes(c: Core, d: Core, id: TxnId, t: Txn) {
    id in c.txns && d.txns == c.txns[id := t]
  }

  /** Engine and status show the same state. */
  predicate StandsAt(d: Core, state: MachineState) {
    d.fsm == state && d.shown == state
  }

  /** No cash was paid or set aside, and no piece was handed out. */
  predicate NothingMoved(c: Core, d: Core) {
    d.money == c.money && d.hopper == c.hopper && d.slots == c.slots
  }

  /** The active sale, the blockers and service mode are as they were. */
  predicate SameMode(c: Core, d: Core) {
    d.active == c.active && d.blockers == c.blockers && d.serviceMode == c.serviceMode
  }

  /** The transaction's saved row is the one in memory. */
  ghost predicate SavedNow(d: Core, id: TxnId) {
    id in d.txns && id in Saved(d.trace) && Saved(d.trace)[id] == d.txns[id]
  }

  predicate LastIs(trace: seq<Action>, a: Action) {
    trace != [] && trace[|trace| - 1] == a
  }

  lemma SavedByLast(before: seq<Action>, d: Core, id: TxnId)
    requires id in d.txns && d.trace == before + [d.Save(Some(id))]
    ensures SavedNow(d, id)
  {
    hide Saved;
    RowIsWritten(d, id);
    SavedSnoc(before, d.Rows(Some(id)), d.money);
  }

  /** From where the purchase states are reached. */
  lemma ReachedFrom(c: Core)
    ensures c.Reaches(ACCEPTING_CASH) <==> c.fsm in {WAITING_FOR_PAYMENT, ACCEPTING_CASH}
    ensures c.Reaches(PAYMENT_ACCEPTED) <==> c.fsm in {ACCEPTING_CASH, PAYMENT_ACCEPTED}
    ensures c.Reaches(DISPENSING_CHANGE) <==> c.fsm in {PAYMENT_ACCEPTED, DISPENSING_CHANGE}
    ensures c.Reaches(DISPENSING_PRODUCT) <==> c.fsm in {PAYMENT_ACCEPTED, DISPENSING_CHANGE, DISPENSING_PRODUCT}
    ensures c.Reaches(OPENING_DELIVERY_WINDOW) <==> c.fsm in {DISPENSING_PRODUCT, OPENING_DELIVERY_WINDOW}
  {
  }

  /** An event saves the transaction it is about, or else the active one, and every transaction still to be settled; what was
      saved of the others stays. */
  lemma SavesExactly(c: Core, primary: Option<TxnId>, id: TxnId)
    ensures var d := c.Log([c.Save(primary)]);
            var about := if primary.Some? then primary == Some(id) else c.active == Some(id);
            if id in c.txns && (about || c.txns[id].status !in {Status.Completed, Status.Cancelled} || c.txns[id].recovery != NoRecovery)
            then SavedNow(d, id)
            else (id in Saved(d.trace) <==> id in Saved(c.trace)) && (id in Saved(d.trace) ==> Saved(d.trace)[id] == Saved(c.trace)[id])
  {
    hide Saved;
    SavedSnoc(c.trace, c.Rows(primary), c.money);
  }

  /* ---------- asking for cash and taking notes ---------- */

  /** The ledger can be trusted and every overpayment the sale can end with can be paid out. */
  ghost predicate ChangeIsSafe(l: Ledger, denoms: seq<int>, price: int) {
    && !l.drift
    && (l.exactChangeOnly || Positive(denoms) == [] || EveryOverpaymentPayable(Available(l), Positive(denoms), price))
  }

  /** Cash is asked for exactly when the machine may sell, the transaction is there, the change is safe, the machine waits for
      payment and the validator answers. A refusal before the session leaves everything as it was. */
  lemma AsksForCashExactly(c: Core, id: TxnId, enabled: bool)
    ensures var r := AcceptCash(c, id, enabled);
            var known := AgreedTerms.Selling(c) && id in c.txns;
            var safe := known && ChangeIsSafe(c.money, c.denoms, c.txns[id].price);
            && (r.error.None? <==> safe && c.fsm in {WAITING_FOR_PAYMENT, ACCEPTING_CASH} && enabled)
            && (r.error == Some(SalesBlocked) <==> !AgreedTerms.Selling(c))
            && (r.error == Some(UnknownTransaction) <==> AgreedTerms.Selling(c) && id !in c.txns)
            && (r.error == Some(CashUnsafe) <==> known && !safe)
            && (r.error.Some? && r.error.value in {SalesBlocked, UnknownTransaction, CashUnsafe} ==> r.core == c)
            && (r.error.None? ==> StandsAt(r.core, ACCEPTING_CASH) && SavedNow(r.core, id) && r.core.blockers == {})
  {
    hide BeginSession, ReserveForSale, Assess, Saved, RowsToSave, Available, EveryOverpaymentPayable, AgreedTerms.Selling, Core.SalesAllowed;
    AgreedTerms.SellingIsAllowed(c);
    SellingIsUnblocked(c);
    if id in c.txns {
      SupportedExactly(c.money, c.denoms, c.txns[id].price);
      var d := ReserveForSale(c, id, Assess(c.money, c.denoms, c.txns[id].price).plan);
      ReserveKeepsMode(c, id, Assess(c.money, c.denoms, c.txns[id].price).plan);
      SessionEnds(d, id, enabled);
    }
  }

  lemma SellingIsUnblocked(c: Core)
    ensures AgreedTerms.Selling(c) ==> c.blockers == {}
  {
  }

  /** The approved plan is held by the sale, and saved, before any cash is asked for. */
  lemma ReserveEnds(c: Core, id: TxnId, plan: Counts)
    requires id in c.txns
    ensures var d := ReserveForSale(c, id, plan);
            && d.fsm == c.fsm && d.shown == c.shown && SameMode(c, d) && d.hopper == c.hopper && d.slots == c.slots
            && if plan == map[] then d == c
               else
                 && d.money == c.money.(reserved := Add(c.money.reserved, plan)) && SavedNow(d, id)
                 && Becomes(c, d, id, c.txns[id].(reserve := Some(Reservation(plan, Active)), payout := PayoutStatus.Reserved))
  {
    hide RowsToSave, Saved, Add;
    if plan != map[] {
      var d := c.(money := Reserve(c.money, plan)).Put(id, c.txns[id].AttachReserve(plan));
      SavedByLast(d.trace, d.Log([d.Save(Some(id))]), id);
    }
  }

  lemma ReserveKeepsMode(c: Core, id: TxnId, plan: Counts)
    requires id in c.txns
    ensures var d := ReserveForSale(c, id, plan); id in d.txns && d.fsm == c.fsm && SameMode(c, d)
  {
    hide RowsToSave, Saved, Reserve;
  }

  /** The validator is asked for notes in a new, empty session; when it does not answer, the transaction is faulted and sales
      are blocked. */
  lemma SessionEnds(c: Core, id: TxnId, enabled: bool)
    requires id in c.txns
    ensures var r, d := BeginSession(c, id, enabled), BeginSession(c, id, enabled).core;
            var t := c.txns[id].(session := Some(Session(SessionAccepting, 0, [])), status := AcceptingCash, payment := Accepting);
            && NothingMoved(c, d) && d.active == c.active && d.serviceMode == c.serviceMode
            && if c.fsm !in {WAITING_FOR_PAYMENT, ACCEPTING_CASH} then
                 r.error == Some(TransitionRefused) && Becomes(c, d, id, t) && d.fsm == c.fsm && d.shown == c.shown && d.trace == c.trace
               else if enabled then
                 r.error.None? && Becomes(c, d, id, t) && StandsAt(d, ACCEPTING_CASH) && d.blockers == c.blockers && SavedNow(d, id)
               else
                 && r.error == Some(ValidatorFailed) && Becomes(c, d, id, t.(status := Faulted, recovery := RecoveryPending))
                 && StandsAt(d, FAULT) && d.blockers == c.blockers + {ValidatorFault}
                 && LastIs(d.trace, Outcome(id, EnableAcceptance, OutcomeAmbiguous))
  {
    ReachedFrom(c);
    hide RowsToSave, Saved, Core.Reaches;
    var d := BeginSession(c, id, true).core;
    if c.Reaches(ACCEPTING_CASH) && enabled {
      var asked := [Intent(id, EnableAcceptance), Enable(id), Outcome(id, EnableAcceptance, Succeeded)];
      assert d.trace == (c.trace + asked) + [d.Save(Some(id))];
      SavedByLast(c.trace + asked, d, id);
    }
  }

  /** A note below the price is counted and saved, and nothing else happens; without an open session it is refused. */
  lemma NoteEnds(c: Core, id: TxnId, bill: nat, d: Devices)
    requires id in c.txns
    ensures var t, r := c.txns[id], StackBill(c, id, bill, d);
            && (t.session.None? ==> r == Step(c, Some(SaleFailure(NoSession))))
            && (t.session.Some? && t.session.value.status.SessionCancelled? ==> r == Step(c, Some(SaleFailure(SessionIsCancelled))))
            && (t.session.Some? && !t.session.value.status.SessionCancelled? && t.session.value.accepted + bill < t.price ==>
                  var counted := t.session.value.accepted + bill;
                  var session := Session(t.session.value.status, counted, t.session.value.bills + [bill]);
                  && r.error.None? && Becomes(c, r.core, id, t.(session := Some(session), accepted := counted))
                  && NothingMoved(c, r.core) && SameMode(c, r.core) && r.core.fsm == c.fsm && r.core.shown == c.shown
                  && SavedNow(r.core, id))
  {
    hide RowsToSave, Saved, CompletePayment;
    if c.txns[id].RecordCash(bill).Ok? {
      var put := c.Put(id, c.txns[id].RecordCash(bill).value);
      SavedByLast(put.trace, put.Log([put.Save(Some(id))]), id);
    }
  }

  /** A broken validator faults the active sale and blocks sales; an event without a note's value is refused; any other event, or
      one without an active sale, only saves. */
  lemma OtherEventsEnd(c: Core, e: ValidatorEvent, d: Devices)
    ensures var heard, r := c.Log([c.Save(None)]), ProcessValidatorEvent(c, e, d);
            if c.active.None? || c.active.value !in c.txns || e.OtherValidatorEvent? then r == Step(heard, None)
            else if e.BillStacked? then e.bill.None? ==> r == Step(heard, Some(MissingBillValue))
            else
              var id := c.active.value;
              && Becomes(c, r.core, id, c.txns[id].(status := Faulted, recovery := RecoveryPending))
              && NothingMoved(c, r.core) && r.core.active == c.active && r.core.blockers == c.blockers + {ValidatorFault}
              && (if c.fsm.FAULT? || Allowed(c.fsm, FAULT) then StandsAt(r.core, FAULT) && r.error == Some(ValidatorFailed)
                  else r.core.fsm == c.fsm && r.core.shown == c.shown && r.error == Some(TransitionRefused))
  {
    hide RowsToSave, StackBill, Allowed;
  }

  /* ---------- payment ---------- */

  /** A paid price is confirmed with the overpayment due, once the validator has stopped; when it does not, the transaction goes up
      for review with the machine in recovery. */
  lemma PaymentEnds(c: Core, id: TxnId, disables: bool)
    requires id in c.txns
    ensures var t, r, d := c.txns[id], ConfirmPayment(c, id, disables), ConfirmPayment(c, id, disables).core;
            && NothingMoved(c, d) && SameMode(c, d)
            && if t.accepted < t.price then r == Step(c, Some(SaleFailure(BelowPrice)))
               else
                 var session := if t.session.Some? then Some(t.session.value.(status := SessionCompleted)) else None;
                 var paid := t.(payment := Confirmed, status := PaymentAccepted, session := session, changeDue := t.accepted - t.price,
                                payout := if t.accepted == t.price then NotRequired else t.payout);
                 if !disables then
                   && Becomes(c, d, id, paid.(status := Ambiguous, recovery := ManualReview)) && StandsAt(d, RECOVERY_PENDING)
                   && r.error == Some(ValidatorFailed) && LastIs(d.trace, Outcome(id, DisableOnPayment, OutcomeAmbiguous))
                 else if c.fsm in {ACCEPTING_CASH, PAYMENT_ACCEPTED} then
                   Becomes(c, d, id, paid) && StandsAt(d, PAYMENT_ACCEPTED) && r.error.None? && SavedNow(d, id)
                 else Becomes(c, d, id, paid) && d.fsm == c.fsm && d.shown == c.shown && r.error == Some(TransitionRefused)
  {
    hide RowsToSave, Saved, CloseAcceptance;
    if c.txns[id].accepted >= c.txns[id].price {
      AcceptanceEnds(c, id, c.txns[id].ConfirmPayment().value, disables);
    }
  }

  /** The validator stops for the confirmed payment `t`, or the transaction goes up for review. */
  lemma AcceptanceEnds(c: Core, id: TxnId, t: Txn, disables: bool)
    requires id in c.txns
    ensures var r, d := CloseAcceptance(c, id, t, disables), CloseAcceptance(c, id, t, disables).core;
            && NothingMoved(c, d) && SameMode(c, d)
            && if !disables then
                 && Becomes(c, d, id, t.(status := Ambiguous, recovery := ManualReview)) && StandsAt(d, RECOVERY_PENDING)
                 && r.error == Some(ValidatorFailed) && LastIs(d.trace, Outcome(id, DisableOnPayment, OutcomeAmbiguous))
               else if c.fsm in {ACCEPTING_CASH, PAYMENT_ACCEPTED} then
                 Becomes(c, d, id, t) && StandsAt(d, PAYMENT_ACCEPTED) && r.error.None? && SavedNow(d, id)
               else Becomes(c, d, id, t) && d.fsm == c.fsm && d.shown == c.shown && r.error == Some(TransitionRefused)
  {
    ReachedFrom(c);
    hide RowsToSave, Saved, Core.Reaches;
    if disables && c.Reaches(PAYMENT_ACCEPTED) {
      var d := CloseAcceptance(c, id, t, true).core;
      var stopped := [Intent(id, DisableOnPayment), Disable(id), Outcome(id, DisableOnPayment, Succeeded)];
      assert d.trace == (c.trace + stopped) + [d.Save(Some(id))];
      SavedByLast(c.trace + stopped, d, id);
    }
  }

  /** The final reserve: what the sale held is given back; for a due change the best exact plan is taken in its place, unless nothing
      in stock pays it. */
  lemma FinalizeEnds(c: Core, id: TxnId)
    requires id in c.txns
    ensures var t, r, d := c.txns[id], FinalizeReserve(c, id), FinalizeReserve(c, id).core;
            var freed := if t.reserve.Some? then Release(c.money, t.reserve.value.counts) else c.money;
            && d.hopper == c.hopper && d.slots == c.slots && SameMode(c, d) && d.fsm == c.fsm && d.shown == c.shown && d.trace == c.trace
            && (r.error.None? <==> t.changeDue == 0 || Payable(Available(freed), t.changeDue))
            && if t.changeDue == 0 || r.error.Some? then
                 && (r.error.Some? ==> r.error == Some(ChangeUnavailable))
                 && Becomes(c, d, id, t.(reserve := None)) && d.money == freed
               else
                 && d.txns[id].reserve.Some? && var plan := d.txns[id].reserve.value.counts;
                    && IsBest(plan, Available(freed), t.changeDue) && d.money == freed.(reserved := Add(freed.reserved, plan))
                    && Becomes(c, d, id, t.(reserve := Some(Reservation(plan, Active)), payout := PayoutStatus.Reserved))
  {
    hide Available, Release, Add, Payable, IsBest, BestPlan;
    var freed := ReleaseHeld(c.money, c.txns[id]);
    if c.txns[id].changeDue > 0 {
      BestPlanIffPayable(Available(freed), c.txns[id].changeDue);
      FoundIsBest(Available(freed), c.txns[id].changeDue);
    }
  }

  lemma FoundIsBest(available: Counts, target: int)
    ensures BestPlan(available, target).Some? ==> IsBest(BestPlan(available, target).value, available, target)
  {
    hide IsBest;
  }

  /** What each answer of the payout device means for a due change: paid, or up for review with the drift latch set, or, when the
      device raised, neither. */
  lemma ChangeEnds(c: Core, id: TxnId, b: Dispenser.Behaviour)
    requires id in c.txns && c.fsm.PAYMENT_ACCEPTED? && c.txns[id].changeDue > 0 && c.txns[id].reserve.Some?
    ensures var t, r, d := c.txns[id], PayChange(c, id, b), PayChange(c, id, b).core;
            var plan := t.reserve.value.counts;
            var p := Dispenser.Pay(c.hopper, Dispenser.Request(id, Dispenser.Change), plan, b);
            var asked := t.(payout := PayoutPending, status := DispensingChange);
            && StandsAt(d, DISPENSING_CHANGE) && SameMode(c, d) && d.slots == c.slots && d.hopper == p.hopper
            && (match p.reply
               case Some(Dispensed) =>
                 && r.error.None? && SavedNow(d, id) && d.money == Consume(c.money, plan)
                 && Becomes(c, d, id, asked.(payout := PayoutStatus.Dispensed, reserve := Some(Reservation(plan, Consumed))))
               case Some(Partial) =>
                 && r.error == Some(PayoutPartial) && d.money == c.money.(drift := true)
                 && Becomes(c, d, id, asked.(payout := PartiallyPaid, status := Ambiguous, recovery := RecoveryPending,
                                             reserve := Some(Reservation(plan, ReserveAmbiguous))))
               case Some(_) =>
                 && r.error == Some(PayoutIncomplete) && d.money == c.money.(drift := true)
                 && Becomes(c, d, id, asked.(status := Ambiguous, recovery := ManualReview,
                                             reserve := Some(Reservation(plan, ReserveAmbiguous))))
               case None => r.error == Some(DispenserFailed) && d.money == c.money && Becomes(c, d, id, asked))
            && (r.error.Some? ==> LastIs(d.trace, Outcome(id, DispenseChange, OutcomeAmbiguous)))
  {
    ReachedFrom(c);
    hide RowsToSave, Saved, Dispenser.Pay, Consume, Core.Reaches, SettlePayout;
    var announced := AnnounceChange(c, id);
    var req := Dispenser.Request(id, Dispenser.Change);
    var p := Dispenser.Pay(announced.hopper, req, c.txns[id].reserve.value.counts, b);
    PayoutEnds(AfterDevice(announced, req, p), id, p);
    if PayChange(c, id, b).error.None? {
      ChangeIsSaved(c, id, b);
    }
  }

  /** Change without a reserve is refused once it is announced. */
  lemma ChangeWithoutReserveEnds(c: Core, id: TxnId, b: Dispenser.Behaviour)
    requires id in c.txns && c.fsm.PAYMENT_ACCEPTED? && c.txns[id].changeDue > 0 && c.txns[id].reserve.None?
    ensures var r := PayChange(c, id, b);
            && r.error == Some(ChangeUnavailable) && NothingMoved(c, r.core) && SameMode(c, r.core)
            && Becomes(c, r.core, id, c.txns[id].(payout := PayoutPending, status := DispensingChange))
            && StandsAt(r.core, DISPENSING_CHANGE) && LastIs(r.core.trace, Outcome(id, DispenseChange, OutcomeAmbiguous))
  {
    ReachedFrom(c);
    hide RowsToSave, Core.Reaches;
  }

  lemma PayoutEnds(c: Core, id: TxnId, p: Dispenser.Payout)
    requires id in c.txns && c.txns[id].reserve.Some?
    ensures var r, d, t := SettlePayout(c, id, p), SettlePayout(c, id, p).core, c.txns[id];
            var plan := t.reserve.value.counts;
            && d.fsm == c.fsm && d.shown == c.shown && SameMode(c, d) && d.slots == c.slots && d.hopper == c.hopper
            && match p.reply
               case Some(Dispensed) =>
                 && r.error.None? && d.money == Consume(c.money, plan)
                 && Becomes(c, d, id, t.(payout := PayoutStatus.Dispensed, reserve := Some(Reservation(plan, Consumed))))
               case Some(Partial) =>
                 && r.error == Some(PayoutPartial) && d.money == c.money.(drift := true)
                 && Becomes(c, d, id, t.(payout := PartiallyPaid, status := Ambiguous, recovery := RecoveryPending,
                                         reserve := Some(Reservation(plan, ReserveAmbiguous))))
               case Some(_) =>
                 && r.error == Some(PayoutIncomplete) && d.money == c.money.(drift := true)
                 && Becomes(c, d, id, t.(status := Ambiguous, recovery := ManualReview,
                                         reserve := Some(Reservation(plan, ReserveAmbiguous))))
               case None => r.error == Some(DispenserFailed) && d.money == c.money && Becomes(c, d, id, t)
  {
    hide Consume;
  }

  lemma ChangeIsSaved(c: Core, id: TxnId, b: Dispenser.Behaviour)
    requires id in c.txns && c.fsm.PAYMENT_ACCEPTED? && PayChange(c, id, b).error.None?
    ensures SavedNow(PayChange(c, id, b).core, id)
  {
    hide RowsToSave, Saved, Dispenser.Pay, DispenseChangeDue;
    var r := PayChange(c, id, b);
    var paid := DispenseChangeDue(AnnounceChange(c, id), id, b).core;
    assert r.core.trace == (paid.trace + [Outcome(id, DispenseChange, Succeeded)]) + [r.core.Save(Some(id))];
    SavedByLast(paid.trace + [Outcome(id, DispenseChange, Succeeded)], r.core, id);
  }

  /** Where the machine cannot pay out, a due change is only marked. */
  lemma ChangeElsewhereEnds(c: Core, id: TxnId, b: Dispenser.Behaviour)
    requires id in c.txns && c.fsm !in {PAYMENT_ACCEPTED, DISPENSING_CHANGE}
    ensures var r := PayChange(c, id, b);
            && r.error == Some(TransitionRefused) && NothingMoved(c, r.core) && SameMode(c, r.core)
            && r.core.fsm == c.fsm && r.core.shown == c.shown && r.core.trace == c.trace
            && Becomes(c, r.core, id, c.txns[id].(payout := PayoutPending, status := DispensingChange))
  {
    ReachedFrom(c);
    hide Core.Reaches;
  }

  /** A settlement that fails anywhere else leads to recovery where the table has a way to it. */
  lemma SettlementElsewhereEnds(c: Core, id: TxnId, b: Dispenser.Behaviour)
    requires id in c.txns && c.fsm !in {PAYMENT_ACCEPTED, DISPENSING_CHANGE}
    ensures var r := SettleChange(c, id, b);
            r.error.Some? ==>
              if c.fsm in {SELF_TEST, ACCEPTING_CASH, DISPENSING_PRODUCT, OPENING_DELIVERY_WINDOW, WAITING_FOR_CUSTOMER_PICKUP,
                           CLOSING_DELIVERY_WINDOW, OUT_OF_SERVICE, FAULT, SERVICE_MODE}
              then StandsAt(r.core, RECOVERY_PENDING)
              else r.core.fsm == c.fsm && r.core.shown == c.shown
  {
    FsmRuns.BeforeIsExact(RECOVERY_PENDING, c.fsm);
    hide RowsToSave, Dispenser.Pay, BestPlan, PayChange, Allowed;
    var f := FinalizeReserve(c, id);
    if f.error.None? && c.txns[id].changeDue > 0 {
      ChangeElsewhereEnds(f.core, id, b);
    }
  }

  /** Whatever goes wrong while the change is settled leaves the machine in recovery. */
  lemma SettlementEnds(c: Core, id: TxnId, b: Dispenser.Behaviour)
    requires id in c.txns && c.fsm.PAYMENT_ACCEPTED?
    ensures var r := SettleChange(c, id, b);
            && (r.error.Some? ==> StandsAt(r.core, RECOVERY_PENDING))
            && (r.error.None? && c.txns[id].changeDue == 0 ==>
                  r.core.fsm == c.fsm && r.core.hopper == c.hopper && r.core.trace == c.trace && r.core.txns[id].reserve.None?)
            && (r.error.None? && c.txns[id].changeDue > 0 ==> StandsAt(r.core, DISPENSING_CHANGE))
  {
    FsmRuns.BeforeIsExact(RECOVERY_PENDING, PAYMENT_ACCEPTED);
    FsmRuns.BeforeIsExact(RECOVERY_PENDING, DISPENSING_CHANGE);
    hide RowsToSave, Dispenser.Pay, BestPlan, PayChange, Allowed;
    var f := FinalizeReserve(c, id);
    if f.error.None? && c.txns[id].changeDue > 0 {
      ChangeStands(f.core, id, b);
    }
  }

  lemma ChangeStands(c: Core, id: TxnId, b: Dispenser.Behaviour)
    requires id in c.txns && c.fsm.PAYMENT_ACCEPTED? && c.txns[id].changeDue > 0 && c.txns[id].reserve.Some?
    ensures StandsAt(PayChange(c, id, b).core, DISPENSING_CHANGE)
  {
    hide Becomes, SameMode, SavedNow, Dispenser.Pay, PayChange;
    ChangeEnds(c, id, b);
  }

  /* ---------- product and window ---------- */

  /** The motor turns for a paid-up sale whose slot serves it: the slot has one piece less and the row is saved; or the motor fails,
      the sale is faulted and the slot is as it was. An unpaid or unsettled sale is refused. */
  lemma VendEnds(c: Core, id: TxnId, vends: bool)
    requires id in c.txns && (c.fsm.PAYMENT_ACCEPTED? || c.fsm.DISPENSING_CHANGE?) && Serves(c.slots, c.txns[id])
    ensures var t, r, d := c.txns[id], VendProduct(c, id, vends), VendProduct(c, id, vends).core;
            && d.money == c.money && d.hopper == c.hopper && SameMode(c, d)
            && if t.payment != Confirmed then r == Step(c.Log([c.Save(Some(id))]), Some(SaleFailure(NotConfirmed)))
               else if t.changeDue > 0 && t.payout != PayoutStatus.Dispensed then
                 r == Step(c.Log([c.Save(Some(id))]), Some(SaleFailure(ChangeUnresolved)))
               else if vends then
                 && r.error.None? && StandsAt(d, DISPENSING_PRODUCT) && SavedNow(d, id)
                 && Becomes(c, d, id, t.(dispense := ProductDispensed, status := OpeningDeliveryWindow))
                 && d.slots == c.slots[t.slot := Slot(t.product, c.slots[t.slot].quantity - 1, true)]
               else
                 && r.error == Some(MotorFailed) && StandsAt(d, FAULT) && d.slots == c.slots
                 && Becomes(c, d, id, t.(dispense := Authorized, status := Faulted, recovery := RecoveryPending))
                 && LastIs(d.trace, Outcome(id, VendMotor, OutcomeAmbiguous))
  {
    ReachedFrom(c);
    hide RowsToSave, Saved, RunMotor, Core.Reaches, SavedNow, LastIs;
    if c.txns[id].AuthorizeVend().Ok? {
      MotorEnds(c.Put(id, c.txns[id].AuthorizeVend().value).At(DISPENSING_PRODUCT), id, vends);
    }
  }

  /** Where the machine cannot dispense, a settled sale is only authorised, and saved as such. */
  lemma VendElsewhereEnds(c: Core, id: TxnId, vends: bool)
    requires id in c.txns && c.fsm !in {PAYMENT_ACCEPTED, DISPENSING_CHANGE, DISPENSING_PRODUCT}
    requires c.txns[id].payment.Confirmed? && (c.txns[id].changeDue == 0 || c.txns[id].payout.Dispensed?)
    ensures var r := VendProduct(c, id, vends);
            && r.error == Some(TransitionRefused) && NothingMoved(c, r.core) && SameMode(c, r.core)
            && r.core.fsm == c.fsm && r.core.shown == c.shown && SavedNow(r.core, id)
            && Becomes(c, r.core, id, c.txns[id].(dispense := Authorized, status := DispensingProduct))
  {
    ReachedFrom(c);
    hide RowsToSave, Saved, Core.Reaches;
    var d := c.Put(id, c.txns[id].AuthorizeVend().value);
    SavedByLast(d.trace, d.Log([d.Save(Some(id))]), id);
  }

  /** A slot that cannot give a piece refuses, and keeps what it has. */
  lemma EmptySlotEnds(c: Core, id: TxnId, t: Txn)
    requires id in c.txns
    requires t.slot in c.slots ==> !c.slots[t.slot].enabled || c.slots[t.slot].quantity <= 0
    ensures TakeFromSlot(c, id, t) == Step(c, Some(SlotEmpty))
  {
  }

  lemma MotorEnds(c: Core, id: TxnId, vends: bool)
    requires id in c.txns && c.fsm == c.shown == DISPENSING_PRODUCT && Serves(c.slots, c.txns[id])
    ensures var t, r, d := c.txns[id], RunMotor(c, id, c.txns[id], vends), RunMotor(c, id, c.txns[id], vends).core;
            && d.money == c.money && d.hopper == c.hopper && SameMode(c, d)
            && if vends then
                 && r.error.None? && StandsAt(d, DISPENSING_PRODUCT) && SavedNow(d, id)
                 && Becomes(c, d, id, t.(dispense := ProductDispensed, status := OpeningDeliveryWindow))
                 && d.slots == c.slots[t.slot := Slot(t.product, c.slots[t.slot].quantity - 1, true)]
               else
                 && r.error == Some(MotorFailed) && StandsAt(d, FAULT) && d.slots == c.slots
                 && Becomes(c, d, id, t.(status := Faulted, recovery := RecoveryPending))
                 && LastIs(d.trace, Outcome(id, VendMotor, OutcomeAmbiguous))
  {
    hide RowsToSave, Saved;
    if vends {
      var d := RunMotor(c, id, c.txns[id], true).core;
      var run := ((c.trace + [c.Save(Some(id)), Intent(id, VendMotor), Motor(id, c.txns[id], true)])
                  + [Outcome(id, VendMotor, Succeeded)]);
      assert d.trace == run + [d.Save(Some(id))];
      SavedByLast(run, d, id);
    }
  }

  /** The window opens for the customer, or the sale is faulted. */
  lemma WindowEnds(c: Core, id: TxnId, opens: bool)
    requires id in c.txns
    ensures var t, r, d := c.txns[id], OpenForPickup(c, id, opens), OpenForPickup(c, id, opens).core;
            && NothingMoved(c, d) && SameMode(c, d)
            && if c.fsm !in {DISPENSING_PRODUCT, OPENING_DELIVERY_WINDOW} then r == Step(c, Some(TransitionRefused))
               else if opens then
                 && r.error.None? && StandsAt(d, WAITING_FOR_CUSTOMER_PICKUP) && SavedNow(d, id)
                 && Becomes(c, d, id, t.(delivery := WindowOpened, status := WaitingForCustomerPickup))
               else
                 && r.error == Some(WindowFailed) && StandsAt(d, FAULT)
                 && Becomes(c, d, id, t.(status := Faulted, recovery := RecoveryPending))
                 && LastIs(d.trace, Outcome(id, OpenWindow, OutcomeAmbiguous))
  {
    ReachedFrom(c);
    hide RowsToSave, Saved, Core.Reaches;
    if c.fsm in {DISPENSING_PRODUCT, OPENING_DELIVERY_WINDOW} {
      var d := OpenForPickup(c, id, true).core;
      var asked := [Intent(id, OpenWindow), Window(id, true), Outcome(id, OpenWindow, Succeeded)];
      assert d.trace == (c.trace + asked) + [d.Save(Some(id))];
      SavedByLast(c.trace + asked, d, id);
    }
  }

  /* ---------- pickup and timeout ---------- */

  /** The customer has the flowers: with the window closed the sale is completed and saved as such, nothing about it is left to
      resolve, and the machine is free; with a window that stays open the sale is faulted. */
  lemma PickupEnds(c: Core, id: TxnId, closes: bool)
    requires id in c.txns && c.fsm in {WAITING_FOR_CUSTOMER_PICKUP, CLOSING_DELIVERY_WINDOW}
    ensures var t, r, d := c.txns[id], ConfirmPickup(c, id, closes), ConfirmPickup(c, id, closes).core;
            && NothingMoved(c, d) && d.blockers == c.blockers && d.serviceMode == c.serviceMode
            && if closes then
                 && r.error.None? && StandsAt(d, IDLE) && d.active == (if c.active == Some(id) then None else c.active)
                 && Becomes(c, d, id, t.(delivery := WindowClosed, status := Status.Completed)) && SavedNow(d, id)
                 && (t.recovery.NoRecovery? ==> !d.txns[id].Unresolved()) && HasOutcome(d.trace, id, CloseOnPickup)
               else
                 && r.error == Some(WindowFailed) && StandsAt(d, CLOSING_DELIVERY_WINDOW) && d.active == c.active
                 && Becomes(c, d, id, t.(delivery := PickupConfirmed, status := Faulted, recovery := RecoveryPending))
                 && LastIs(d.trace, Outcome(id, CloseOnPickup, OutcomeAmbiguous))
  {
    hide RowsToSave, Saved;
    if closes {
      var r := ConfirmPickup(c, id, true).core;
      var closed := [Intent(id, CloseOnPickup), Window(id, false), Outcome(id, CloseOnPickup, Succeeded)];
      var d := c.Put(id, c.txns[id].ConfirmPickup().MarkWindowClosed());
      var saved := (c.trace + closed) + [d.Save(Some(id))];
      assert r.trace == saved + [d.Save(Some(id))];
      RowIsWritten(d, id);
      SavedSnoc(saved, d.Rows(Some(id)), d.money);
      assert r.trace[|c.trace| + 2] == Outcome(id, CloseOnPickup, Succeeded);
    }
  }

  /** A pickup nobody waits for changes no machine state: an unknown one nothing at all. */
  lemma PickupElsewhereEnds(c: Core, id: TxnId, closes: bool)
    requires c.fsm !in {WAITING_FOR_CUSTOMER_PICKUP, CLOSING_DELIVERY_WINDOW}
    ensures var r := ConfirmPickup(c, id, closes);
            if id !in c.txns then r == Step(c, Some(UnknownTransaction))
            else
              && r.error == Some(TransitionRefused) && NothingMoved(c, r.core) && SameMode(c, r.core)
              && r.core.fsm == c.fsm && r.core.trace == c.trace
              && Becomes(c, r.core, id, c.txns[id].(delivery := PickupConfirmed, status := ClosingDeliveryWindow))
  {
  }

  /** A customer who does not come: the window is closed and the sale goes up for review with sales blocked, or the window is stuck
      and the machine faults; a sale that does not wait for pickup is left alone. */
  lemma TimeoutEnds(c: Core, id: TxnId, closes: bool)
    ensures var r, d := PickupTimeout(c, id, closes), PickupTimeout(c, id, closes).core;
            && r.error.None? && NothingMoved(c, d) && d.active == c.active && d.serviceMode == c.serviceMode
            && if id !in c.txns || c.txns[id].status != WaitingForCustomerPickup then d == c
               else if closes then
                 && Becomes(c, d, id, c.txns[id].(status := PickupTimedOut, delivery := WindowClosed, recovery := ManualReview))
                 && StandsAt(d, RECOVERY_PENDING) && d.blockers == c.blockers + {RecoveryBlock} && !d.SalesAllowed() && SavedNow(d, id)
               else
                 && Becomes(c, d, id, c.txns[id].(status := Faulted, recovery := RecoveryPending))
                 && StandsAt(d, FAULT) && d.blockers == c.blockers + {DeliveryWindowFault} && !d.SalesAllowed() && SavedNow(d, id)
  {
    hide RowsToSave, Saved;
    var d := PickupTimeout(c, id, closes).core;
    if id in c.txns && c.txns[id].status.WaitingForCustomerPickup? {
      TimeoutIsSaved(c, id, closes);
    }
  }

  lemma TimeoutIsSaved(c: Core, id: TxnId, closes: bool)
    requires id in c.txns && c.txns[id].status.WaitingForCustomerPickup?
    ensures SavedNow(PickupTimeout(c, id, closes).core, id)
  {
    hide RowsToSave, Saved;
    var d := PickupTimeout(c, id, closes).core;
    var tried := [c.Save(Some(id)), Intent(id, CloseOnTimeout), Window(id, false),
                  Outcome(id, CloseOnTimeout, if closes then Succeeded else OutcomeAmbiguous), d.Save(Some(id))];
    assert d.trace == (c.trace + tried) + [d.Save(Some(id))];
    SavedByLast(c.trace + tried, d, id);
  }

  /* ---------- cancellation ---------- */

  /** A validator that does not stop puts the cancelled sale up for review. */
  lemma CancelWithoutStopEnds(c: Core, id: TxnId, b: Dispenser.Behaviour)
    ensures var r, d := CancelPurchase(c, id, false, b), CancelPurchase(c, id, false, b).core;
            && NothingMoved(c, d) && SameMode(c, d)
            && if id !in c.txns then r == Step(c, Some(UnknownTransaction))
               else
                 && r.error == Some(ValidatorFailed) && StandsAt(d, RECOVERY_PENDING)
                 && Becomes(c, d, id, c.txns[id].(status := Ambiguous, recovery := ManualReview))
                 && LastIs(d.trace, Outcome(id, DisableOnCancel, OutcomeAmbiguous))
  {
  }

  /** A closed cancellation leaves nothing held, the session cancelled, the row saved and the machine idle; where the machine cannot
      go to CANCELLED it is refused with the transaction already cancelled. */
  lemma CloseEnds(c: Core, id: TxnId)
    requires id in c.txns
    ensures var t, r, d := c.txns[id], CloseCancelled(c, id), CloseCancelled(c, id).core;
            var session := if t.session.Some? then Some(t.session.value.(status := SessionCancelled)) else None;
            && Becomes(c, d, id, t.(reserve := None, status := Cancelled, payment := PaymentCancelled, session := session))
            && d.hopper == c.hopper && d.slots == c.slots && d.blockers == c.blockers && d.serviceMode == c.serviceMode
            && d.money == (if t.reserve.Some? then Release(c.money, t.reserve.value.counts) else c.money)
            && if c.fsm in {PRODUCT_SELECTED, CHECKING_AVAILABILITY, CHECKING_CHANGE, WAITING_FOR_PAYMENT, ACCEPTING_CASH, CANCELLED} then
                 && r.error.None? && StandsAt(d, IDLE) && d.active == (if c.active == Some(id) then None else c.active)
                 && SavedNow(d, id)
               else
                 r.error == Some(TransitionRefused) && d.fsm == c.fsm && d.shown == c.shown && d.active == c.active && d.trace == c.trace
  {
    hide RowsToSave, Saved, Release;
    if c.Reaches(CANCELLED) {
      var d := c.(money := ReleaseHeld(c.money, c.txns[id])).Put(id, c.txns[id].DropReserve().Cancel());
      RowIsWritten(d, id);
      SavedSnoc(c.trace, d.Rows(Some(id)), d.money);
    }
  }

  /** A refund is dispensed and saved, or the sale goes up for review, saved as such, with the machine in recovery. */
  lemma RefundEnds(c: Core, id: TxnId, b: Dispenser.Behaviour)
    requires id in c.txns
    ensures var t, r, d := c.txns[id], RefundCash(c, id, b), RefundCash(c, id, b).core;
            && d.slots == c.slots && SameMode(c, d) && SavedNow(d, id)
            && if r.error.None? then Becomes(c, d, id, t.(reserve := None)) && d.fsm == c.fsm && d.shown == c.shown
               else
                 && Becomes(c, d, id, t.(reserve := None, status := Ambiguous, recovery := ManualReview))
                 && StandsAt(d, RECOVERY_PENDING)
                 && r.error.value in {ChangeUnavailable, DispenserFailed, PayoutPartial, PayoutIncomplete}
  {
    hide RowsToSave, Saved, PayRefund, AnnounceRefund;
    var announced := AnnounceRefund(c, id);
    AnnouncedRefund(c, id);
    PaidRefund(announced, id, c.txns[id].accepted, b);
    var r := RefundCash(c, id, b);
    var refunded := PayRefund(announced, id, c.txns[id].accepted, b).core;
    if r.error.None? {
      assert r.core.trace == (refunded.trace + [Outcome(id, DispenseRefund, Succeeded)]) + [r.core.Save(Some(id))];
      SavedByLast(refunded.trace + [Outcome(id, DispenseRefund, Succeeded)], r.core, id);
    } else {
      assert r.core.trace == (refunded.trace + [Outcome(id, DispenseRefund, OutcomeAmbiguous)]) + [r.core.Save(Some(id))];
      SavedByLast(refunded.trace + [Outcome(id, DispenseRefund, OutcomeAmbiguous)], r.core, id);
    }
  }

  lemma AnnouncedRefund(c: Core, id: TxnId)
    requires id in c.txns
    ensures var d := AnnounceRefund(c, id);
            && Becomes(c, d, id, c.txns[id].(reserve := None)) && d.fsm == c.fsm && d.shown == c.shown && SameMode(c, d)
            && d.slots == c.slots && d.hopper == c.hopper
  {
    hide RowsToSave;
  }

  lemma PaidRefund(c: Core, id: TxnId, amount: int, b: Dispenser.Behaviour)
    ensures var r, d := PayRefund(c, id, amount, b), PayRefund(c, id, amount, b).core;
            && d.txns == c.txns && d.fsm == c.fsm && d.shown == c.shown && SameMode(c, d) && d.slots == c.slots
            && (r.error.Some? ==> r.error.value in {ChangeUnavailable, DispenserFailed, PayoutPartial, PayoutIncomplete})
  {
    hide BestPlan, Dispenser.Pay;
  }

  /* ---------- service mode and health ---------- */

  /** Service mode is entered and left from every state, with sales closed in between, and touches no sale. */
  lemma ServiceEnds(c: Core)
    ensures var d := EnterServiceMode(c);
            && d.serviceMode && StandsAt(d, SERVICE_MODE) && !d.SalesAllowed() && LastIs(d.trace, c.Save(None))
            && d.txns == c.txns && d.active == c.active && d.blockers == c.blockers && NothingMoved(c, d)
    ensures var d := ExitServiceMode(c);
            && !d.serviceMode && StandsAt(d, IDLE) && (d.SalesAllowed() <==> c.blockers == {}) && LastIs(d.trace, c.Save(None))
            && d.txns == c.txns && d.active == c.active && d.blockers == c.blockers && NothingMoved(c, d)
  {
    hide RowsToSave;
  }

  /** A poll of the devices sets exactly its own three blockers to what it found, and touches nothing else; a finding is an event
      at which rows are saved. */
  lemma HealthEnds(c: Core, found: set<Blocker>)
    ensures var d := HealthPoll(c, found);
            && (forall b: Blocker :: b in d.blockers <==>
                  if b in {DeviceFault, ServiceDoorOpen, CriticalTemperature} then b in found else b in c.blockers)
            && d.txns == c.txns && d.active == c.active && d.fsm == c.fsm && d.shown == c.shown && d.serviceMode == c.serviceMode
            && NothingMoved(c, d)
            && (if found !! {DeviceFault, ServiceDoorOpen, CriticalTemperature} then d.trace == c.trace
                else d.trace == c.trace + [c.Save(None)])
  {
    hide RowsToSave;
  }
}
