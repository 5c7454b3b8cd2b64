/** Restart after a crash at any point: what is blocked, what is put up for review, and what can
    no longer happen. */
module CrashRecovery {
  import opened Wrappers
  import opened Counts
  import opened Money
  import opened Fsm
  import opened Sale
  import opened Protocol
  import opened TraceFacts
  import opened ProtocolInvariant
  import opened ProtocolRuns
  import Dispenser
  import ChangePlanning

  /** A restart blocks sales exactly when some durable transaction is unresolved or interrupted, and
      then brings every such transaction back. */
  lemma RestartBlocksSales(c: Core, order: seq<TxnId>, money: Ledger, counts: Counts, slots: map<SlotId, Slot>)
    ensures var r := Restart(c, order, money, counts, slots);
            && (if exists id :: NeedsRecovery(c.trace, id)
                then r.fsm.RECOVERY_PENDING? && RecoveryBlock in r.blockers && !r.SalesAllowed()
                else r.fsm.IDLE? && r.blockers == {} && r.SalesAllowed())
            && (forall id :: id in r.txns <==> NeedsRecovery(c.trace, id))
  {
    hide Saved, InterruptedRows, MarkAll, FirstOpen, NeedsRecovery;
    MarkAllKeys(Restored(c.trace), InterruptedRows(c.trace, |c.trace|));
    forall id ensures id in Restored(c.trace) <==> NeedsRecovery(c.trace, id) {
      NeedsRecoveryIsSaved(c.trace, id);
    }
    if id :| NeedsRecovery(c.trace, id) {
      assert id in Restored(c.trace);
    } else {
      assert Restored(c.trace) == map[];
    }
  }

  lemma NeedsRecoveryIsSaved(trace: seq<Action>, id: TxnId)
    ensures NeedsRecovery(trace, id) ==> id in Saved(trace)
  {
  }

  lemma {:induction false} SavedGrows(trace: seq<Action>, n: nat)
    requires n <= |trace|
    ensures Saved(trace[..n]).Keys <= Saved(trace).Keys
  {
    if n < |trace| {
      SavedGrows(trace[..|trace| - 1], n);
      assert trace[..|trace| - 1][..n] == trace[..n];
    } else {
      assert trace[..n] == trace;
    }
  }

  /** Money and goods are only touched for transactions whose row is already durable. */
  lemma InterruptedIsSaved(trace: seq<Action>, id: TxnId, key: StepKey)
    requires Sound(trace) && Interrupted(trace, id, key) && MovesGoods(key)
    ensures NeedsRecovery(trace, id)
  {
    hide Saved, Sound;
    var i :| 0 <= i < |trace| && trace[i] == Intent(id, key);
    SoundAt(trace, i);
    SavedGrows(trace, i);
  }

  lemma {:induction false} InterruptedIsListed(trace: seq<Action>, upTo: nat, id: TxnId, key: StepKey)
    requires upTo <= |trace| && Interrupted(trace, id, key) && Intent(id, key) in trace[..upTo]
    ensures (id, key) in InterruptedRows(trace, upTo)
  {
    if trace[upTo - 1] != Intent(id, key) {
      assert trace[..upTo] == trace[..upTo - 1] + [trace[upTo - 1]];
      InterruptedIsListed(trace, upTo - 1, id, key);
    }
  }

  /** Only interrupted actions are listed. */
  lemma {:induction false} ListedIsInterrupted(trace: seq<Action>, upTo: nat, id: TxnId, key: StepKey)
    requires upTo <= |trace| && (id, key) in InterruptedRows(trace, upTo)
    ensures Interrupted(trace, id, key)
  {
    if (id, key) in InterruptedRows(trace, upTo - 1) {
      ListedIsInterrupted(trace, upTo - 1, id, key);
    }
  }

  /** A transaction has an interrupted action exactly when the journal query lists one for it. */
  lemma ListedExactly(trace: seq<Action>, id: TxnId)
    ensures (exists key :: Interrupted(trace, id, key))
            <==> exists i :: 0 <= i < |InterruptedRows(trace, |trace|)| && InterruptedRows(trace, |trace|)[i].0 == id
  {
    var rows := InterruptedRows(trace, |trace|);
    assert trace[..|trace|] == trace;
    if key :| Interrupted(trace, id, key) {
      InterruptedIsListed(trace, |trace|, id, key);
      assert (id, key) in rows;
    }
    if i :| 0 <= i < |rows| && rows[i].0 == id {
      ListedIsInterrupted(trace, |trace|, id, rows[i].1);
    }
  }

  /** A review mark on a transaction is never undone by later marks. */
  lemma {:induction false} ReviewMarkStays(txns: map<TxnId, Txn>, rows: seq<(TxnId, StepKey)>, id: TxnId, key: StepKey)
    requires id in txns && NeedsReview(key) && (id, key) in rows
    ensures id in MarkAll(txns, rows) && MarkAll(txns, rows)[id].status.Ambiguous?
  {
    var front, last := rows[..|rows| - 1], rows[|rows| - 1];
    MarkAllKeys(txns, front);
    if (id, key) in front {
      ReviewMarkStays(txns, front, id, key);
    } else {
      assert rows == front + [last];
      assert last == (id, key);
    }
  }

  /** An interrupted payout, refund or motor run comes back for manual review, with sales blocked. */
  lemma InterruptedIsReviewed(c: Core, order: seq<TxnId>, money: Ledger, counts: Counts, slots: map<SlotId, Slot>,
                              id: TxnId, key: StepKey)
    requires Sound(c.trace) && Interrupted(c.trace, id, key) && MovesGoods(key)
    ensures var r := Restart(c, order, money, counts, slots);
            && id in r.txns && r.txns[id].status.Ambiguous?
            && r.fsm.RECOVERY_PENDING? && RecoveryBlock in r.blockers
            && RecoverTransaction(r, id).error == Some(InterventionRequired)
            && RecoverTransaction(r, id).core.txns == r.txns
  {
    hide Saved, Sound, InterruptedRows, MarkAll, FirstOpen, NeedsRecovery;
    InterruptedIsSaved(c.trace, id, key);
    RestartBlocksSales(c, order, money, counts, slots);
    NeedsRecoveryIsSaved(c.trace, id);
    assert c.trace[..|c.trace|] == c.trace;
    InterruptedIsListed(c.trace, |c.trace|, id, key);
    ReviewMarkStays(Restored(c.trace), InterruptedRows(c.trace, |c.trace|), id, key);
  }

  /** The same for a crash at any point of any command after any run. */
  lemma CrashIsReviewed(c: Core, events: seq<Event>, e: Event, id: TxnId, key: StepKey)
    requires Initial(c) && FreshRun(c, events) && FreshIds(Run(c, events), e) && e.Crash?
    requires MovesGoods(key) && Interrupted(CutTrace(Run(c, events), e.cmd, e.done), id, key)
    ensures var r := Next(Run(c, events), e);
            && id in r.txns && r.txns[id].status.Ambiguous?
            && r.fsm.RECOVERY_PENDING? && RecoveryBlock in r.blockers
            && RecoverTransaction(r, id).error == Some(InterventionRequired)
            && RecoverTransaction(r, id).core.txns == r.txns
  {
    hide Run, FreshRun, Handle, Inv, Sound, Restart, Interrupted, RecoverTransaction;
    var before := Run(c, events);
    RunKeepsInv(c, events);
    HandleKeepsInv(before, e.cmd);
    var full := Handle(before, e.cmd).core;
    var cut := CutTrace(before, e.cmd, e.done);
    InvSound(full);
    SoundCut(full.trace, |cut|);
    InterruptedIsReviewed(full.(trace := cut), e.order, e.money, e.counts, e.slots, id, key);
  }

  /** Neither pays, vends nor enables. */
  predicate Harmless(a: Action) {
    !a.Payout? && !a.Motor? && !a.Enable?
  }

  /** Restart and recovery only do bookkeeping. */
  lemma RecoveryMovesNothing(c: Core, id: TxnId, order: seq<TxnId>, money: Ledger, counts: Counts, slots: map<SlotId, Slot>)
    ensures var r := Restart(c, order, money, counts, slots);
            && |c.trace| <= |r.trace| && r.trace[..|c.trace|] == c.trace
            && forall i :: |c.trace| <= i < |r.trace| ==> Harmless(r.trace[i])
    ensures var r := RecoverTransaction(c, id).core;
            && |c.trace| <= |r.trace| && r.trace[..|c.trace|] == c.trace && r.hopper == c.hopper && r.money == c.money
            && forall i :: |c.trace| <= i < |r.trace| ==> Harmless(r.trace[i])
  {
    hide Restart, Restored, RecoverTransaction;
    RestartTrace(c, order, money, counts, slots);
    RecoverIsHarmless(c, id);
  }

  lemma RecoverIsHarmless(c: Core, id: TxnId)
    ensures var r := RecoverTransaction(c, id).core;
            && |c.trace| <= |r.trace| && r.trace[..|c.trace|] == c.trace && r.hopper == c.hopper && r.money == c.money
            && forall i :: |c.trace| <= i < |r.trace| ==> Harmless(r.trace[i])
  {
    hide RowsToSave, AssessRecovery;
    if id in c.txns {
      match AssessRecovery(c.txns[id])
      case OperatorReview =>
      case PendingReview =>
      case NothingToDo =>
      case CancelSafe =>
    }
  }

  /** Not over, not up for review, and the payment never confirmed. */
  predicate SafeToCancel(t: Txn) {
    && t.status !in {Status.Completed, Status.Cancelled, PickupTimedOut, Ambiguous, Faulted}
    && t.payment != PaymentStatus.Confirmed
  }

  /** Recovery cancels exactly the transactions that are safe to cancel, and then frees the machine. A finished one it leaves
      alone; for every other one, a confirmed payment in particular, it calls for an operator and leaves the transaction as it
      is. In both cases the machine stays in recovery with sales blocked. Cash and goods stay where they are. */
  lemma RecoversExactly(c: Core, id: TxnId)
    ensures id !in c.txns ==> RecoverTransaction(c, id) == Step(c, Some(UnknownTransaction))
    ensures id in c.txns ==>
            var t, r, d := c.txns[id], RecoverTransaction(c, id), RecoverTransaction(c, id).core;
            && d.money == c.money && d.hopper == c.hopper && d.slots == c.slots && d.serviceMode == c.serviceMode
            && d.fsm == d.shown && d.txns.Keys == c.txns.Keys
            && (forall other :: other in c.txns && other != id ==> d.txns[other] == c.txns[other])
            && if SafeToCancel(t) then
                 && r.error.None? && d.fsm.IDLE? && d.blockers == c.blockers - {RecoveryBlock}
                 && d.active == (if c.active == Some(id) then None else c.active)
                 && d.txns[id].status.Cancelled? && d.txns[id].payment.PaymentCancelled?
                 && d.txns[id].accepted == t.accepted && d.txns[id].reserve == t.reserve
                 && id in Saved(d.trace) && Saved(d.trace)[id] == d.txns[id]
               else
                 && d.txns[id] == t && d.active == c.active
                 && d.fsm.RECOVERY_PENDING? && d.blockers == c.blockers + {RecoveryBlock}
                 && r.error == if t.status.Completed? || t.status.Cancelled? then None else Some(InterventionRequired)
  {
    hide Saved, AssessRecovery, SafeToCancel;
    if id in c.txns {
      hide RecoverTransaction;
      VerdictsExactly(c.txns[id]);
      if SafeToCancel(c.txns[id]) {
        SafeOneIsCancelled(c, id);
      } else {
        OtherOneIsLeft(c, id);
      }
    }
  }

  lemma OtherOneIsLeft(c: Core, id: TxnId)
    requires id in c.txns && !AssessRecovery(c.txns[id]).CancelSafe?
    ensures var r, d := RecoverTransaction(c, id), RecoverTransaction(c, id).core;
            && d.txns == c.txns && d.active == c.active && d.money == c.money && d.hopper == c.hopper && d.slots == c.slots
            && d.serviceMode == c.serviceMode && d.fsm == d.shown == RECOVERY_PENDING
            && d.blockers == c.blockers + {RecoveryBlock}
            && r.error == if AssessRecovery(c.txns[id]).NothingToDo? then None else Some(InterventionRequired)
  {
    hide RowsToSave, AssessRecovery;
    match AssessRecovery(c.txns[id])
    case OperatorReview =>
    case PendingReview =>
    case NothingToDo =>
  }

  /** Recovery saves the rows as they are when it begins, and again when it calls for an operator or has cancelled. */
  lemma RecoverySaves(c: Core, id: TxnId)
    requires id in c.txns
    ensures var before, after := c.trace, RecoverTransaction(c, id).core.trace;
            && |before| < |after| && after[..|before|] == before && after[|before|] == c.Save(Some(id))
            && (c.txns[id].status in {Status.Completed, Status.Cancelled} ==> |after| == |before| + 1)
            && (c.txns[id].status !in {Status.Completed, Status.Cancelled} ==>
                  |after| == |before| + 2 && after[|before| + 1].SaveAll?)
            && (!SafeToCancel(c.txns[id]) ==> after[|after| - 1] == c.Save(Some(id)))
  {
    hide RowsToSave, Saved, AssessRecovery, SafeToCancel;
    VerdictsExactly(c.txns[id]);
    match AssessRecovery(c.txns[id])
    case OperatorReview =>
    case PendingReview =>
    case NothingToDo =>
    case CancelSafe =>
  }

  lemma VerdictsExactly(t: Txn)
    ensures AssessRecovery(t).CancelSafe? <==> SafeToCancel(t)
    ensures AssessRecovery(t).NothingToDo? <==> t.status.Completed? || t.status.Cancelled?
    ensures AssessRecovery(t).OperatorReview? <==>
              || t.status in {PickupTimedOut, Ambiguous, Faulted}
              || (t.status !in {Status.Completed, Status.Cancelled} && t.payment.Confirmed?
                  && t.payout in {PartiallyPaid, PayoutFailed, PayoutAmbiguous})
  {
  }

  lemma SafeOneIsCancelled(c: Core, id: TxnId)
    requires id in c.txns && AssessRecovery(c.txns[id]).CancelSafe?
    ensures var t, r, d := c.txns[id], RecoverTransaction(c, id), RecoverTransaction(c, id).core;
            && r.error.None? && d.fsm == d.shown == IDLE && d.blockers == c.blockers - {RecoveryBlock}
            && d.money == c.money && d.hopper == c.hopper && d.slots == c.slots && d.serviceMode == c.serviceMode
            && d.active == (if c.active == Some(id) then None else c.active)
            && d.txns == c.txns[id := d.txns[id]]
            && d.txns[id].status.Cancelled? && d.txns[id].payment.PaymentCancelled?
            && d.txns[id].accepted == t.accepted && d.txns[id].reserve == t.reserve
            && id in Saved(d.trace) && Saved(d.trace)[id] == d.txns[id]
  {
    hide RowsToSave, Saved, AssessRecovery;
    var e := c.(blockers := c.blockers - {RecoveryBlock}).Put(id, c.txns[id].Cancel()).ClearActive(id).At(IDLE);
    RowIsWritten(e, id);
    SavedSnoc(c.trace + [c.Save(Some(id))], e.Rows(Some(id)), e.money);
    assert c.trace + [c.Save(Some(id)), e.Save(Some(id))] == (c.trace + [c.Save(Some(id))]) + [e.Save(Some(id))];
  }

  /* ---------- sales stay blocked until a safe recovery ---------- */

  predicate Blocked(c: Core) {
    RecoveryBlock in c.blockers && !InSale(c.fsm)
  }

  /** The one command that lifts the block: recovery of a transaction that is safe to cancel. */
  predicate LiftsBlock(c: Core, cmd: Command) {
    cmd.RecoverCmd? && cmd.id in c.txns && SafeToCancel(c.txns[cmd.id])
  }

  ghost predicate NoVendOrEnable(before: seq<Action>, after: seq<Action>) {
    && |before| <= |after| && after[..|before|] == before
    && forall i :: |before| <= i < |after| ==> !after[i].Motor? && !after[i].Enable?
  }

  lemma BlockedStays(c: Core, cmd: Command)
    requires Blocked(c) && !LiftsBlock(c, cmd)
    ensures Blocked(Handle(c, cmd).core) && NoVendOrEnable(c.trace, Handle(c, cmd).core.trace)
  {
    hide CancelPurchase, ConfirmPickup, PickupTimeout, RecoverTransaction, ProcessValidatorEvent, HealthPoll, RowsToSave;
    match cmd
    case StartPurchaseCmd(_, _, _, _, _) =>
    case AcceptCashCmd(_, _) =>
    case ValidatorCmd(event, devices) => BlockedValidator(c, event, devices);
    case CancelCmd(id, disables, payout) => BlockedCancel(c, id, disables, payout);
    case ConfirmPickupCmd(id, closes) => BlockedConfirm(c, id, closes);
    case PickupTimeoutCmd(id, closes) => BlockedTimeout(c, id, closes);
    case EnterServiceCmd =>
    case ExitServiceCmd =>
    case HealthCmd(found) => BlockedHealth(c, found);
    case RecoverCmd(id) => BlockedRecover(c, id);
  }

  lemma BlockedConfirm(c: Core, id: TxnId, closes: bool)
    requires Blocked(c)
    ensures var d := ConfirmPickup(c, id, closes).core; Blocked(d) && NoVendOrEnable(c.trace, d.trace)
  {
    hide ClosePickup;
    if id in c.txns && c.Reaches(CLOSING_DELIVERY_WINDOW) {
      BlockedClosing(c, id, c.txns[id].ConfirmPickup(), closes);
    }
  }

  lemma BlockedClosing(c: Core, id: TxnId, t: Txn, closes: bool)
    requires Blocked(c) && id in c.txns
    ensures var d := ClosePickup(c, id, t, closes).core; Blocked(d) && NoVendOrEnable(c.trace, d.trace)
  {
    hide RowsToSave;
  }

  lemma BlockedTimeout(c: Core, id: TxnId, closes: bool)
    requires Blocked(c)
    ensures var d := PickupTimeout(c, id, closes).core; Blocked(d) && NoVendOrEnable(c.trace, d.trace)
  {
    hide RowsToSave;
  }

  lemma BlockedHealth(c: Core, found: set<Blocker>)
    requires Blocked(c)
    ensures var d := HealthPoll(c, found); Blocked(d) && NoVendOrEnable(c.trace, d.trace)
  {
    hide RowsToSave;
  }

  lemma BlockedRecover(c: Core, id: TxnId)
    requires Blocked(c) && (id in c.txns ==> !SafeToCancel(c.txns[id]))
    ensures var d := RecoverTransaction(c, id).core; Blocked(d) && NoVendOrEnable(c.trace, d.trace)
  {
    hide RowsToSave, AssessRecovery, SafeToCancel;
    if id in c.txns {
      VerdictsExactly(c.txns[id]);
      match AssessRecovery(c.txns[id])
      case OperatorReview =>
      case PendingReview =>
      case NothingToDo =>
    }
  }

  lemma BlockedValidator(c: Core, e: ValidatorEvent, d: Devices)
    requires Blocked(c)
    ensures var r := ProcessValidatorEvent(c, e, d).core; Blocked(r) && NoVendOrEnable(c.trace, r.trace)
  {
    hide StackBill;
    var heard := c.Log([c.Save(None)]);
    if c.active.Some? && c.active.value in c.txns && e.BillStacked? && e.bill.Some? {
      BlockedBill(heard, c.active.value, e.bill.value, d);
    }
  }

  lemma BlockedBill(c: Core, id: TxnId, bill: nat, d: Devices)
    requires Blocked(c) && id in c.txns
    ensures var r := StackBill(c, id, bill, d).core; Blocked(r) && NoVendOrEnable(c.trace, r.trace)
  {
    hide ConfirmPayment, SettleChange, VendProduct, OpenForPickup, RowsToSave;
    if c.txns[id].RecordCash(bill).Ok? {
      var put := c.Put(id, c.txns[id].RecordCash(bill).value);
      BlockedPayment(put.Log([put.Save(Some(id))]), id, d.disables);
    }
  }

  /** Payment cannot be confirmed from outside a sale. */
  lemma BlockedPayment(c: Core, id: TxnId, disables: bool)
    requires Blocked(c) && id in c.txns
    ensures var r := ConfirmPayment(c, id, disables);
            r.error.Some? && Blocked(r.core) && NoVendOrEnable(c.trace, r.core.trace)
  {
    hide CloseAcceptance;
    if c.txns[id].ConfirmPayment().Ok? {
      BlockedAcceptance(c, id, c.txns[id].ConfirmPayment().value, disables);
    }
  }

  lemma BlockedAcceptance(c: Core, id: TxnId, t: Txn, disables: bool)
    requires Blocked(c) && id in c.txns
    ensures var r := CloseAcceptance(c, id, t, disables);
            r.error.Some? && Blocked(r.core) && NoVendOrEnable(c.trace, r.core.trace)
  {
    hide RowsToSave;
    if disables {
      assert !c.Reaches(PAYMENT_ACCEPTED);
    }
  }

  lemma BlockedCancel(c: Core, id: TxnId, disables: bool, b: Dispenser.Behaviour)
    requires Blocked(c)
    ensures var r := CancelPurchase(c, id, disables, b).core; Blocked(r) && NoVendOrEnable(c.trace, r.trace)
  {
    hide RefundCash, CloseCancelled;
    if id in c.txns && disables {
      var d := c.Log([Intent(id, DisableOnCancel), Disable(id), Outcome(id, DisableOnCancel, Succeeded)]);
      BlockedRefund(d, id, b);
      BlockedClose(d, id);
      BlockedClose(RefundCash(d, id, b).core, id);
      NoVendOrEnableAgain(c.trace, d.trace, RefundCash(d, id, b).core.trace);
      NoVendOrEnableAgain(c.trace, d.trace, CloseCancelled(d, id).core.trace);
      NoVendOrEnableAgain(c.trace, RefundCash(d, id, b).core.trace, CloseCancelled(RefundCash(d, id, b).core, id).core.trace);
    }
  }

  lemma BlockedRefund(c: Core, id: TxnId, b: Dispenser.Behaviour)
    requires Blocked(c) && id in c.txns
    ensures var r := RefundCash(c, id, b).core; Blocked(r) && NoVendOrEnable(c.trace, r.trace)
  {
    hide PayRefund, AnnounceRefund, RowsToSave, RefundCash;
    var announced := AnnounceRefund(c, id);
    BlockedAnnounce(c, id);
    BlockedPayRefund(announced, id, c.txns[id].accepted, b);
    var refunded := PayRefund(announced, id, c.txns[id].accepted, b).core;
    NoVendOrEnableAgain(c.trace, announced.trace, refunded.trace);
    BlockedAfterRefund(c, id, b, refunded);
    NoVendOrEnableAgain(c.trace, refunded.trace, RefundCash(c, id, b).core.trace);
  }

  lemma BlockedAfterRefund(c: Core, id: TxnId, b: Dispenser.Behaviour, refunded: Core)
    requires id in c.txns && refunded == PayRefund(AnnounceRefund(c, id), id, c.txns[id].accepted, b).core && Blocked(refunded)
    ensures var r := RefundCash(c, id, b).core; Blocked(r) && NoVendOrEnable(refunded.trace, r.trace)
  {
    hide PayRefund, AnnounceRefund, RowsToSave;
  }

  lemma BlockedAnnounce(c: Core, id: TxnId)
    requires Blocked(c) && id in c.txns
    ensures var r := AnnounceRefund(c, id); Blocked(r) && NoVendOrEnable(c.trace, r.trace) && r.txns.Keys == c.txns.Keys
  {
    hide RowsToSave;
  }

  lemma BlockedPayRefund(c: Core, id: TxnId, amount: int, b: Dispenser.Behaviour)
    requires Blocked(c)
    ensures var r := PayRefund(c, id, amount, b).core; Blocked(r) && NoVendOrEnable(c.trace, r.trace)
  {
    hide Dispenser.Pay, ChangePlanning.BestPlan;
  }

  lemma BlockedClose(c: Core, id: TxnId)
    requires Blocked(c) && id in c.txns
    ensures var r := CloseCancelled(c, id).core; Blocked(r) && NoVendOrEnable(c.trace, r.trace)
  {
    hide RowsToSave;
  }

  /** Completed commands only, none of which lifts the block when it arrives. */
  ghost predicate NoneLifts(c: Core, events: seq<Event>) {
    events == []
    || var front, last := events[..|events| - 1], events[|events| - 1];
       NoneLifts(c, front) && last.Completed? && !LiftsBlock(Run(c, front), last.cmd)
  }

  lemma {:induction false} StaysBlocked(c: Core, events: seq<Event>)
    requires Blocked(c) && NoneLifts(c, events)
    ensures Blocked(Run(c, events)) && NoVendOrEnable(c.trace, Run(c, events).trace)
  {
    hide Handle, LiftsBlock, Blocked;
    if events != [] {
      var front, last := events[..|events| - 1], events[|events| - 1];
      StaysBlocked(c, front);
      BlockedStays(Run(c, front), last.cmd);
      NoVendOrEnableAgain(c.trace, Run(c, front).trace, Run(c, events).trace);
    }
  }

  lemma NoVendOrEnableAgain(a: seq<Action>, b: seq<Action>, c: seq<Action>)
    requires NoVendOrEnable(a, b) && NoVendOrEnable(b, c)
    ensures NoVendOrEnable(a, c)
  {
    assert c[..|a|] == c[..|b|][..|a|];
    forall i | |a| <= i < |c| ensures !c[i].Motor? && !c[i].Enable? {
      assert i < |b| ==> c[i] == c[..|b|][i];
    }
  }

  /** A crash that leaves a durable transaction unresolved or interrupted ends cash acceptance and
      product delivery under all later commands, until a transaction that is safe to cancel is recovered. */
  lemma CrashStopsSales(c: Core, e: Event, later: seq<Event>, id: TxnId)
    requires e.Crash? && NeedsRecovery(CutTrace(c, e.cmd, e.done), id)
    requires NoneLifts(Next(c, e), later)
    ensures var restarted, now := Next(c, e), Run(Next(c, e), later);
            && restarted.fsm.RECOVERY_PENDING? && id in restarted.txns
            && RecoveryBlock in now.blockers && !now.SalesAllowed()
            && NoVendOrEnable(restarted.trace, now.trace)
  {
    hide Handle, LiftsBlock, Restart, NeedsRecovery, Run, NoneLifts;
    var cut := Handle(c, e.cmd).core.(trace := CutTrace(c, e.cmd, e.done));
    RestartBlocksSales(cut, e.order, e.money, e.counts, e.slots);
    StaysBlocked(Next(c, e), later);
  }
}
