/** The ledger that survives a crash. Every event saves it; a restart reads the last one saved, and finds the hopper as the
    payouts left it. */
module SavedLedger {
  import opened Wrappers
  import opened Counts
  import opened ChangePlanning
  import opened Money
  import opened SaleAssessment
  import opened ChangeManagement
  import opened Fsm
  import opened Sale
  import opened Protocol
  import opened TraceFacts
  import opened ProtocolInvariant
  import opened ProtocolRuns
  import opened CashBooks
  import Dispenser

  /** What the hopper holds: what the last start found, less all that was paid out since. */
  function HopperAt(trace: seq<Action>): Counts {
    if trace == [] then map[]
    else
      var last := trace[|trace| - 1];
      if last.Boot? then last.counts
      else if last.Payout? then Sub(HopperAt(trace[..|trace| - 1]), last.paid)
      else HopperAt(trace[..|trace| - 1])
  }

  /** The ledger in the database. */
  function LastLedger(trace: seq<Action>): Ledger {
    if trace == [] then Ledger(map[], map[], false, false)
    else
      var last := trace[|trace| - 1];
      if last.Boot? || last.SaveAll? then last.ledger else LastLedger(trace[..|trace| - 1])
  }

  /** Cash that left the hopper after the ledger was last saved. */
  function Unsaved(trace: seq<Action>): Counts {
    if trace == [] then map[]
    else
      var last := trace[|trace| - 1];
      if last.Boot? || last.SaveAll? then map[]
      else if last.Payout? then Add(Unsaved(trace[..|trace| - 1]), last.paid)
      else Unsaved(trace[..|trace| - 1])
  }

  ghost predicate Agrees(l: Ledger, counts: Counts) {
    NonNegative(l.reserved) && Agree(l, counts)
  }

  /** Whenever the ledger was saved or read, it agreed with the hopper. */
  ghost predicate SavesAgree(trace: seq<Action>) {
    trace == []
    || var front, last := trace[..|trace| - 1], trace[|trace| - 1];
       && SavesAgree(front)
       && (last.SaveAll? ==> Agrees(last.ledger, HopperAt(front)))
       && (last.Boot? ==> Agrees(last.ledger, last.counts))
  }

  predicate Booted(trace: seq<Action>) {
    trace != [] && trace[0].Boot?
  }

  lemma {:induction false} SavesCut(trace: seq<Action>, n: nat)
    requires SavesAgree(trace) && n <= |trace|
    ensures SavesAgree(trace[..n])
  {
    if n < |trace| {
      SavesCut(trace[..|trace| - 1], n);
      assert trace[..|trace| - 1][..n] == trace[..n];
    } else {
      assert trace[..n] == trace;
    }
  }

  /** The saved ledger accounts for what the hopper holds and what left it since. */
  lemma {:induction false} SavedPlusUnsaved(trace: seq<Action>)
    requires SavesAgree(trace) && Booted(trace)
    ensures NonNegative(LastLedger(trace).reserved)
    ensures LastLedger(trace).drift || Same(LastLedger(trace).accounting, Add(HopperAt(trace), Unsaved(trace)))
  {
    hide Agrees, NonNegative, Same;
    var front, last := trace[..|trace| - 1], trace[|trace| - 1];
    if last.Boot? {
      AgreesWithNothingUnsaved(last.ledger, last.counts);
    } else {
      SavedPlusUnsaved(front);
      if last.SaveAll? {
        AgreesWithNothingUnsaved(last.ledger, HopperAt(front));
      } else if last.Payout? {
        PaidIsUnsaved(HopperAt(front), Unsaved(front), last.paid, LastLedger(front).accounting);
      }
    }
  }

  lemma AgreesWithNothingUnsaved(l: Ledger, counts: Counts)
    requires Agrees(l, counts)
    ensures NonNegative(l.reserved) && (l.drift || Same(l.accounting, Add(counts, map[])))
  {
    if !l.drift {
      forall d ensures Get(l.accounting, d) == Get(Add(counts, map[]), d) {
        assert Get(l.accounting, d) == Get(counts, d);
      }
    }
  }

  lemma PaidIsUnsaved(hopper: Counts, unsaved: Counts, paid: Counts, accounting: Counts)
    ensures Same(accounting, Add(hopper, unsaved)) ==> Same(accounting, Add(Sub(hopper, paid), Add(unsaved, paid)))
  {
    if Same(accounting, Add(hopper, unsaved)) {
      forall d ensures Get(accounting, d) == Get(Add(Sub(hopper, paid), Add(unsaved, paid)), d) {
        assert Get(accounting, d) == Get(Add(hopper, unsaved), d);
      }
    }
  }

  /** The restored ledger agrees with the hopper exactly when it was already marked drifted or no cash left the hopper
      after it was saved. */
  lemma RestoredAgreesExactly(trace: seq<Action>, counts: Counts)
    requires SavesAgree(trace) && Booted(trace) && Same(counts, HopperAt(trace))
    ensures Agrees(LastLedger(trace), counts) <==> LastLedger(trace).drift || Same(Unsaved(trace), map[])
  {
    hide SavesAgree, HopperAt, LastLedger, Unsaved;
    SavedPlusUnsaved(trace);
    var l, hopper, unsaved := LastLedger(trace), HopperAt(trace), Unsaved(trace);
    if !l.drift {
      if Same(unsaved, map[]) {
        forall d ensures Get(l.accounting, d) == Get(counts, d) {
          assert Get(l.accounting, d) == Get(Add(hopper, unsaved), d) && Get(unsaved, d) == Get(map[], d);
          assert Get(counts, d) == Get(hopper, d);
        }
      }
      if Agrees(l, counts) {
        forall d ensures Get(unsaved, d) == Get(map[], d) {
          assert Get(l.accounting, d) == Get(Add(hopper, unsaved), d) && Get(l.accounting, d) == Get(counts, d);
          assert Get(counts, d) == Get(hopper, d);
        }
      }
    }
  }

  /* ---------- handlers ---------- */

  /** Memory, database and hopper agree. */
  ghost predicate Ledgered(c: Core) {
    && Books(c)
    && Booted(c.trace) && SavesAgree(c.trace)
    && Same(c.hopper.counts, HopperAt(c.trace))
  }

  /** An action that moves no cash, and saves, if anything, a ledger accounting for the same cash. */
  ghost predicate PaperAction(a: Action, l: Ledger) {
    && !a.Payout? && !a.Boot?
    && (a.SaveAll? ==> a.ledger.accounting == l.accounting && a.ledger.drift == l.drift)
    && (a.SaveAll? && NonNegative(l.reserved) ==> NonNegative(a.ledger.reserved))
  }

  ghost predicate Paperwork(before: seq<Action>, after: seq<Action>, l: Ledger) {
    && |before| <= |after| && after[..|before|] == before
    && forall i :: |before| <= i < |after| ==> PaperAction(after[i], l)
  }

  /** The same cash in the books and in the hopper. */
  ghost predicate SameMoney(c: Core, d: Core) {
    && d.hopper == c.hopper && d.money.accounting == c.money.accounting && d.money.drift == c.money.drift
    && (NonNegative(c.money.reserved) ==> NonNegative(d.money.reserved))
  }

  ghost predicate Paper(c: Core, d: Core) {
    SameMoney(c, d) && Paperwork(c.trace, d.trace, c.money)
  }

  lemma PaperLog(c: Core, d: Core, actions: seq<Action>)
    requires SameMoney(c, d) && d.trace == c.trace
    requires forall i :: 0 <= i < |actions| ==> PaperAction(actions[i], c.money)
    ensures Paper(c, d.Log(actions))
  {
  }

  lemma {:induction false} PaperworkKeepsSaves(before: seq<Action>, after: seq<Action>, l: Ledger)
    requires SavesAgree(before) && Booted(before) && Paperwork(before, after, l)
    requires Agree(l, HopperAt(before)) && NonNegative(l.reserved)
    ensures SavesAgree(after) && Booted(after) && HopperAt(after) == HopperAt(before)
    decreases |after|
  {
    if |after| == |before| {
      assert after == before;
    } else {
      var shorter := after[..|after| - 1];
      assert shorter[..|before|] == before;
      PaperworkKeepsSaves(before, shorter, l);
      assert PaperAction(after[|after| - 1], l);
    }
  }

  lemma PaperKeepsLedger(c: Core, d: Core)
    requires Ledgered(c) && Paper(c, d)
    ensures Ledgered(d)
  {
    hide SavesAgree, HopperAt;
    AgreeSame(c.money, c.hopper.counts, HopperAt(c.trace));
    PaperworkKeepsSaves(c.trace, d.trace, c.money);
  }

  lemma AgreeSame(l: Ledger, a: Counts, b: Counts)
    requires Agree(l, a) && Same(a, b)
    ensures Agree(l, b)
  {
    if !l.drift {
      forall d ensures Get(l.accounting, d) == Get(b, d) {
        assert Get(l.accounting, d) == Get(a, d) && Get(a, d) == Get(b, d);
      }
    }
  }

  /** A payout that keeps the books keeps the saved ones; the cash it moved is unsaved. */
  lemma PayoutKeepsLedger(c: Core, d: Core, req: Dispenser.Request, plan: Counts, b: Dispenser.Behaviour)
    requires Ledgered(c) && Books(d)
    requires var p := Dispenser.Pay(c.hopper, req, plan, b);
             d.hopper == p.hopper && d.trace == c.trace + [Payout(req, p.reply, p.paid)]
    ensures Ledgered(d)
  {
    hide Books, Dispenser.Pay;
    var p := Dispenser.Pay(c.hopper, req, plan, b);
    var a := Payout(req, p.reply, p.paid);
    assert d.trace[..|c.trace|] == c.trace;
    PayTakesWhatItPays(c.hopper, req, plan, b);
    SubSame(c.hopper.counts, HopperAt(c.trace), p.hopper.counts, p.paid);
  }

  lemma PayTakesWhatItPays(h: Dispenser.Hopper, req: Dispenser.Request, plan: Counts, b: Dispenser.Behaviour)
    ensures var p := Dispenser.Pay(h, req, plan, b); Same(p.hopper.counts, Sub(h.counts, p.paid))
  {
    assert Same(h.counts, Sub(h.counts, map[]));
  }

  lemma SubSame(a: Counts, b: Counts, left: Counts, paid: Counts)
    requires Same(a, b) && Same(left, Sub(a, paid))
    ensures Same(left, Sub(b, paid))
  {
    forall d ensures Get(left, d) == Get(Sub(b, paid), d) {
      assert Get(left, d) == Get(Sub(a, paid), d) && Get(a, d) == Get(b, d);
    }
  }

  /* ---------- payment, change and vend ---------- */

  lemma ConfirmPaper(c: Core, id: TxnId, disables: bool)
    requires id in c.txns
    ensures Paper(c, ConfirmPayment(c, id, disables).core)
  {
    hide CloseAcceptance;
    if c.txns[id].ConfirmPayment().Ok? {
      AcceptancePaper(c, id, c.txns[id].ConfirmPayment().value, disables);
    }
  }

  lemma AcceptancePaper(c: Core, id: TxnId, t: Txn, disables: bool)
    requires id in c.txns
    ensures Paper(c, CloseAcceptance(c, id, t, disables).core)
  {
    hide RowsToSave;
    var disabling := [Intent(id, DisableOnPayment), Disable(id), Outcome(id, DisableOnPayment, Succeeded)];
    var d := c.Put(id, t);
    if !disables {
      PaperLog(c, c.Put(id, t.MarkAmbiguous()).At(RECOVERY_PENDING),
               [Intent(id, DisableOnPayment), Disable(id), Outcome(id, DisableOnPayment, OutcomeAmbiguous)]);
    } else if c.Reaches(PAYMENT_ACCEPTED) {
      PaperLog(c, d.At(PAYMENT_ACCEPTED), disabling + [d.Save(Some(id))]);
    } else {
      PaperLog(c, d, disabling);
    }
  }

  lemma FinalizeKeepsLedger(c: Core, id: TxnId)
    requires Ledgered(c) && id in c.txns
    ensures Ledgered(FinalizeReserve(c, id).core)
  {
    hide SavesAgree, HopperAt, Books;
    FinalizeKeepsBooks(c, id);
    FinalizeWritesNothing(c, id);
  }

  lemma FinalizeWritesNothing(c: Core, id: TxnId)
    requires id in c.txns
    ensures FinalizeReserve(c, id).core.trace == c.trace && FinalizeReserve(c, id).core.hopper == c.hopper
  {
  }

  lemma AnnouncePaper(c: Core, id: TxnId)
    requires id in c.txns
    ensures Paper(c, AnnounceChange(c, id))
  {
    var d := c.Put(id, c.txns[id].MarkChangePending()).At(DISPENSING_CHANGE);
    PaperLog(c, d, [Intent(id, DispenseChange), d.Save(Some(id))]);
  }

  lemma DispenseKeepsLedger(c: Core, id: TxnId, b: Dispenser.Behaviour)
    requires Ledgered(c) && id in c.txns && c.txns[id].reserve.Some? && Coins(c.txns[id].reserve.value.counts)
    requires c.txns[id].changeDue > 0 && Dispenser.Request(id, Dispenser.Change) !in c.hopper.replies
    ensures Ledgered(DispenseChangeDue(c, id, b).core)
  {
    hide SavesAgree, HopperAt, Dispenser.Pay, Ledgered;
    var req, plan := Dispenser.Request(id, Dispenser.Change), c.txns[id].reserve.value.counts;
    LedgeredBooks(c);
    PayoutKeepsBooks(c.money, c.hopper, req, plan, b);
    ChangeIsSettledOnce(c, id, b);
    DispenseWrites(c, id, b);
    PayoutKeepsLedger(c, DispenseChangeDue(c, id, b).core, req, plan, b);
  }

  lemma LedgeredBooks(c: Core)
    requires Ledgered(c)
    ensures Books(c) && NonNegative(c.money.reserved) && Agree(c.money, c.hopper.counts)
  {
  }

  lemma DispenseWrites(c: Core, id: TxnId, b: Dispenser.Behaviour)
    requires id in c.txns && c.txns[id].reserve.Some? && c.txns[id].changeDue > 0
    ensures var req := Dispenser.Request(id, Dispenser.Change);
            var p := Dispenser.Pay(c.hopper, req, c.txns[id].reserve.value.counts, b);
            DispenseChangeDue(c, id, b).core.trace == c.trace + [Payout(req, p.reply, p.paid)]
  {
    hide Dispenser.Pay;
  }

  lemma PayChangeKeepsLedger(c: Core, id: TxnId, b: Dispenser.Behaviour)
    requires Ledgered(c) && id in c.txns && c.txns[id].reserve.Some? && Coins(c.txns[id].reserve.value.counts)
    requires c.txns[id].changeDue > 0 && Dispenser.Request(id, Dispenser.Change) !in c.hopper.replies
    ensures Ledgered(PayChange(c, id, b).core)
  {
    hide DispenseChangeDue, Ledgered, AnnounceChange;
    LedgeredBooks(c);
    var announced := AnnounceChange(c, id);
    AnnouncePaper(c, id);
    PaperKeepsLedger(c, announced);
    AnnounceKeeps(c, id);
    if c.Reaches(DISPENSING_CHANGE) {
      DispenseKeepsLedger(announced, id, b);
      var paid := DispenseChangeDue(announced, id, b).core;
      OutcomeKeepsLedger(paid, id, DispenseChange, OutcomeAmbiguous);
      SavedOutcomeKeepsLedger(paid, id, DispenseChange);
    } else {
      PutKeepsLedger(c, id, c.txns[id].MarkChangePending());
    }
  }

  lemma AnnounceKeeps(c: Core, id: TxnId)
    requires id in c.txns
    ensures var d := AnnounceChange(c, id);
            && id in d.txns && d.hopper == c.hopper && d.txns[id].reserve == c.txns[id].reserve
            && d.txns[id].changeDue == c.txns[id].changeDue
  {
  }

  lemma PutKeepsLedger(c: Core, id: TxnId, t: Txn)
    requires Ledgered(c)
    ensures Ledgered(c.Put(id, t))
  {
  }

  lemma OutcomeKeepsLedger(c: Core, id: TxnId, key: StepKey, result: JournalResult)
    requires Ledgered(c)
    ensures Ledgered(c.Log([Outcome(id, key, result)]))
  {
    hide SavesAgree, HopperAt;
    PaperLog(c, c, [Outcome(id, key, result)]);
    PaperKeepsLedger(c, c.Log([Outcome(id, key, result)]));
  }

  lemma SavedOutcomeKeepsLedger(c: Core, id: TxnId, key: StepKey)
    requires Ledgered(c)
    ensures Ledgered(c.Log([Outcome(id, key, Succeeded), c.Save(Some(id))]))
  {
    hide SavesAgree, HopperAt, RowsToSave;
    PaperLog(c, c, [Outcome(id, key, Succeeded), c.Save(Some(id))]);
    PaperKeepsLedger(c, c.Log([Outcome(id, key, Succeeded), c.Save(Some(id))]));
  }

  lemma AtKeepsLedger(c: Core, state: MachineState)
    requires Ledgered(c)
    ensures Ledgered(c.At(state))
  {
  }

  lemma SettleKeepsLedger(c: Core, id: TxnId, b: Dispenser.Behaviour)
    requires Ledgered(c) && id in c.txns
    requires Dispenser.Request(id, Dispenser.Change) !in c.hopper.replies
    ensures Ledgered(SettleChange(c, id, b).core)
  {
    hide FinalizeReserve, PayChange, Ledgered;
    LedgeredBooks(c);
    FinalizeKeepsBooks(c, id);
    FinalizeKeepsLedger(c, id);
    var f := FinalizeReserve(c, id);
    AtKeepsLedger(f.core, RECOVERY_PENDING);
    if f.error.None? && c.txns[id].changeDue > 0 {
      PayChangeKeepsLedger(f.core, id, b);
      AtKeepsLedger(PayChange(f.core, id, b).core, RECOVERY_PENDING);
    }
  }

  lemma VendPaper(c: Core, id: TxnId, vends: bool)
    requires id in c.txns
    ensures Paper(c, VendProduct(c, id, vends).core)
  {
    hide DispenseAuthorized;
    if c.txns[id].AuthorizeVend().Ok? {
      AuthorizedPaper(c, id, c.txns[id].AuthorizeVend().value, vends);
    } else {
      PaperLog(c, c, [c.Save(Some(id))]);
    }
  }

  lemma AuthorizedPaper(c: Core, id: TxnId, t: Txn, vends: bool)
    requires id in c.txns
    ensures Paper(c, DispenseAuthorized(c, id, t, vends).core)
  {
    hide RunMotor;
    var d := c.Put(id, t);
    if c.Reaches(DISPENSING_PRODUCT) {
      MotorPaper(d.At(DISPENSING_PRODUCT), id, t, vends);
    } else {
      PaperLog(c, d, [d.Save(Some(id))]);
    }
  }

  lemma MotorPaper(c: Core, id: TxnId, t: Txn, vends: bool)
    requires id in c.txns
    ensures Paper(c, RunMotor(c, id, t, vends).core)
  {
    hide RowsToSave;
  }

  lemma OpenPaper(c: Core, id: TxnId, opens: bool)
    requires id in c.txns
    ensures Paper(c, OpenForPickup(c, id, opens).core)
  {
    hide RowsToSave;
    var t := c.txns[id];
    if opens {
      var d := c.Put(id, t.MarkWindowOpened()).At(WAITING_FOR_CUSTOMER_PICKUP);
      PaperLog(c, d, [Intent(id, OpenWindow), Window(id, true), Outcome(id, OpenWindow, Succeeded), d.Save(Some(id))]);
    } else {
      PaperLog(c, c.Put(id, t.MarkFaulted()).At(FAULT),
               [Intent(id, OpenWindow), Window(id, true), Outcome(id, OpenWindow, OutcomeAmbiguous)]);
    }
  }

  lemma CompleteKeepsLedger(c: Core, id: TxnId, d: Devices)
    requires Inv(c) && Ledgered(c) && c.active == Some(id) && id in c.txns
    ensures Ledgered(CompletePayment(c, id, d).core)
  {
    hide ConfirmPayment, SettleChange, VendProduct, OpenForPickup, Base, SlotReady, Ledgered, Paper, Inv;
    ConfirmStep(c, id, d.disables);
    LedgeredBooks(c);
    ConfirmPaper(c, id, d.disables);
    var confirmed := ConfirmPayment(c, id, d.disables);
    PaperKeepsLedger(c, confirmed.core);
    if confirmed.error.None? {
      SettleKeepsLedger(confirmed.core, id, d.payout);
      HandOutKeepsLedger(SettleChange(confirmed.core, id, d.payout).core, id, d);
    }
  }

  lemma HandOutKeepsLedger(c: Core, id: TxnId, d: Devices)
    requires Ledgered(c) && id in c.txns
    ensures Ledgered(VendProduct(c, id, d.vends).core)
    ensures Ledgered(OpenForPickup(VendProduct(c, id, d.vends).core, id, d.opens).core)
  {
    hide VendProduct, OpenForPickup, Ledgered, Paper;
    LedgeredBooks(c);
    VendPaper(c, id, d.vends);
    var vended := VendProduct(c, id, d.vends).core;
    PaperKeepsLedger(c, vended);
    LedgeredBooks(vended);
    OpenPaper(vended, id, d.opens);
    PaperKeepsLedger(vended, OpenForPickup(vended, id, d.opens).core);
  }

  /* ---------- validator events ---------- */

  lemma ValidatorKeepsLedger(c: Core, e: ValidatorEvent, d: Devices)
    requires Inv(c) && Ledgered(c)
    ensures Ledgered(ProcessValidatorEvent(c, e, d).core)
  {
    hide StackBill, Inv, Ledgered;
    var heard := c.Log([c.Save(None)]);
    HeardKeeps(c);
    if c.active.Some? && c.active.value in c.txns {
      FaultKeepsLedger(heard, c.active.value);
      if e.BillStacked? && e.bill.Some? {
        BillKeepsLedger(heard, c.active.value, e.bill.value, d);
      }
    }
  }

  lemma HeardKeeps(c: Core)
    requires Inv(c) && Ledgered(c)
    ensures var heard := c.Log([c.Save(None)]); Inv(heard) && Ledgered(heard)
  {
    hide Sound, Vended, Saved, Paid, PayoutWentWrong, Stock, SavesAgree, HopperAt;
    QuietKeepsInv(c, c, [c.Save(None)]);
    PaperLog(c, c, [c.Save(None)]);
    PaperKeepsLedger(c, c.Log([c.Save(None)]));
  }

  lemma FaultKeepsLedger(c: Core, id: TxnId)
    requires Ledgered(c) && id in c.txns
    ensures Ledgered(FaultValidator(c, id).core)
  {
    hide SavesAgree, HopperAt;
  }

  lemma BillKeepsLedger(c: Core, id: TxnId, bill: nat, d: Devices)
    requires Inv(c) && Ledgered(c) && c.active == Some(id) && id in c.txns
    ensures Ledgered(StackBill(c, id, bill, d).core)
  {
    hide CompletePayment, Inv, Ledgered;
    if c.txns[id].RecordCash(bill).Ok? {
      var put := c.Put(id, c.txns[id].RecordCash(bill).value);
      CountedKeeps(c, id, put);
      CompleteKeepsLedger(put.Log([put.Save(Some(id))]), id, d);
    }
  }

  lemma CountedKeeps(c: Core, id: TxnId, put: Core)
    requires Inv(c) && Ledgered(c) && id in c.txns
    requires exists t: Txn :: put == c.Put(id, t) && t.slot == c.txns[id].slot && t.product == c.txns[id].product
    ensures var counted := put.Log([put.Save(Some(id))]); Inv(counted) && Ledgered(counted)
  {
    hide Sound, Vended, Saved, Paid, PayoutWentWrong, Stock, SavesAgree, HopperAt;
    QuietKeepsInv(c, put, [put.Save(Some(id))]);
    PaperLog(c, put, [put.Save(Some(id))]);
    PaperKeepsLedger(c, put.Log([put.Save(Some(id))]));
  }

  /* ---------- cancellation ---------- */

  lemma AnnounceRefundKeepsLedger(c: Core, id: TxnId)
    requires Ledgered(c) && id in c.txns
    ensures Ledgered(AnnounceRefund(c, id))
  {
    hide SavesAgree, HopperAt, RowsToSave;
    var d := c.(money := ReleaseHeld(c.money, c.txns[id])).Put(id, c.txns[id].DropReserve());
    ReleaseKeepsBooks(c, c.txns[id]);
    PaperLog(c, d, [d.Save(Some(id)), Intent(id, DispenseRefund)]);
    PaperKeepsLedger(c, AnnounceRefund(c, id));
  }

  lemma PayRefundKeepsLedger(c: Core, id: TxnId, amount: nat, b: Dispenser.Behaviour)
    requires Ledgered(c) && amount > 0
    requires c.money.drift || !Payable(Available(c.money), amount)
             || !(Dispenser.Request(id, Dispenser.Refund) in c.hopper.replies
                  && c.hopper.replies[Dispenser.Request(id, Dispenser.Refund)].Dispensed?)
    ensures Ledgered(PayRefund(c, id, amount, b).core)
  {
    hide SavesAgree, HopperAt, Dispenser.Pay, BestPlan, Payable, Ledgered;
    LedgeredBooks(c);
    PayRefundKeepsBooks(c, id, amount, b);
    var best := BestPlan(Available(c.money), amount);
    if best.Some? {
      RefundWrites(c, id, amount, b, best.value);
      PayoutKeepsLedger(c, PayRefund(c, id, amount, b).core, Dispenser.Request(id, Dispenser.Refund), best.value, b);
    }
  }

  lemma RefundWrites(c: Core, id: TxnId, amount: int, b: Dispenser.Behaviour, plan: Counts)
    requires BestPlan(Available(c.money), amount) == Some(plan)
    ensures var req, r := Dispenser.Request(id, Dispenser.Refund), PayRefund(c, id, amount, b).core;
            var p := Dispenser.Pay(c.hopper, req, plan, b);
            r.hopper == p.hopper && r.trace == c.trace + [Payout(req, p.reply, p.paid)]
  {
    hide Dispenser.Pay, BestPlan;
  }

  lemma RefundKeepsLedger(c: Core, id: TxnId, b: Dispenser.Behaviour)
    requires Ledgered(c) && id in c.txns && c.txns[id].accepted > 0
    requires c.money.drift || !Payable(Available(ReleaseHeld(c.money, c.txns[id])), c.txns[id].accepted)
             || !(Dispenser.Request(id, Dispenser.Refund) in c.hopper.replies
                  && c.hopper.replies[Dispenser.Request(id, Dispenser.Refund)].Dispensed?)
    ensures Ledgered(RefundCash(c, id, b).core)
  {
    hide PayRefund, AnnounceRefund, Ledgered, Payable, RefundFailure;
    AnnounceRefundKeepsLedger(c, id);
    AnnounceRefundKeeps(c, id);
    var announced := AnnounceRefund(c, id);
    PayRefundKeepsLedger(announced, id, c.txns[id].accepted, b);
    var refunded := PayRefund(announced, id, c.txns[id].accepted, b).core;
    FailureKeepsLedger(refunded, id);
    SavedOutcomeKeepsLedger(refunded, id, DispenseRefund);
  }

  lemma AnnounceRefundKeeps(c: Core, id: TxnId)
    requires id in c.txns
    ensures var d := AnnounceRefund(c, id);
            d.money == ReleaseHeld(c.money, c.txns[id]) && d.hopper == c.hopper && id in d.txns && d.money.drift == c.money.drift
  {
  }

  lemma FailureKeepsLedger(c: Core, id: TxnId)
    requires Ledgered(c) && id in c.txns
    ensures Ledgered(RefundFailure(c, id))
  {
    hide SavesAgree, HopperAt, RowsToSave;
    var d := c.Put(id, c.txns[id].MarkAmbiguous()).At(RECOVERY_PENDING);
    PaperLog(c, d, [Outcome(id, DispenseRefund, OutcomeAmbiguous), d.Save(Some(id))]);
    PaperKeepsLedger(c, RefundFailure(c, id));
  }

  lemma CloseKeepsLedger(c: Core, id: TxnId)
    requires Ledgered(c) && id in c.txns
    ensures Ledgered(CloseCancelled(c, id).core)
  {
    hide SavesAgree, HopperAt, RowsToSave;
    var d := c.(money := ReleaseHeld(c.money, c.txns[id])).Put(id, c.txns[id].DropReserve().Cancel());
    ReleaseKeepsBooks(c, c.txns[id]);
    if c.Reaches(CANCELLED) {
      var e := d.ClearActive(id).At(IDLE);
      PaperLog(c, e, [d.Save(Some(id))]);
      PaperKeepsLedger(c, e.Log([d.Save(Some(id))]));
    } else {
      PaperLog(c, d, []);
      assert d.Log([]) == d;
      PaperKeepsLedger(c, d);
    }
  }

  lemma CancelKeepsLedger(c: Core, id: TxnId, disables: bool, b: Dispenser.Behaviour)
    requires Ledgered(c) && !RefundsTwice(c, CancelCmd(id, disables, b))
    ensures Ledgered(CancelPurchase(c, id, disables, b).core)
  {
    hide RefundCash, CloseCancelled, Payable, Ledgered;
    if id in c.txns {
      StopKeepsLedger(c, id, disables);
      if disables {
        var d := c.Log([Intent(id, DisableOnCancel), Disable(id), Outcome(id, DisableOnCancel, Succeeded)]);
        if c.txns[id].payment != Confirmed && c.txns[id].accepted > 0 {
          RefundKeepsLedger(d, id, b);
          CloseKeepsLedger(RefundCash(d, id, b).core, id);
        } else {
          CloseKeepsLedger(d, id);
        }
      }
    }
  }

  lemma StopKeepsLedger(c: Core, id: TxnId, disables: bool)
    requires Ledgered(c) && id in c.txns
    ensures var result := if disables then Succeeded else OutcomeAmbiguous;
            var stopped := c.Log([Intent(id, DisableOnCancel), Disable(id), Outcome(id, DisableOnCancel, result)]);
            Ledgered(stopped) && Ledgered(stopped.Put(id, c.txns[id].MarkAmbiguous()).At(RECOVERY_PENDING))
  {
    hide SavesAgree, HopperAt;
    var result := if disables then Succeeded else OutcomeAmbiguous;
    PaperLog(c, c, [Intent(id, DisableOnCancel), Disable(id), Outcome(id, DisableOnCancel, result)]);
    PaperKeepsLedger(c, c.Log([Intent(id, DisableOnCancel), Disable(id), Outcome(id, DisableOnCancel, result)]));
  }

  /* ---------- the other commands ---------- */

  lemma AcceptPaper(c: Core, id: TxnId, enabled: bool)
    ensures Paper(c, AcceptCash(c, id, enabled).core)
  {
    hide Assess, ReserveForSale, BeginSession;
    if c.SalesAllowed() && id in c.txns {
      var plan := Assess(c.money, c.denoms, c.txns[id].price).plan;
      AssessedPlanIsReservable(c.money, c.denoms, c.txns[id].price);
      HoldPaper(c, id, plan);
      var r := ReserveForSale(c, id, plan);
      BeginPaper(r, id, enabled);
      PaperAgain(c, r, BeginSession(r, id, enabled).core);
    }
  }

  lemma HoldPaper(c: Core, id: TxnId, plan: Counts)
    requires id in c.txns && Coins(plan)
    ensures var r := ReserveForSale(c, id, plan); Paper(c, r) && id in r.txns
  {
    hide RowsToSave;
    if NonNegative(c.money.reserved) {
      ReserveKeeps(c.money, plan);
    }
    var d := c.(money := Reserve(c.money, plan)).Put(id, c.txns[id].AttachReserve(plan));
    PaperLog(c, d, [d.Save(Some(id))]);
  }

  lemma BeginPaper(c: Core, id: TxnId, enabled: bool)
    requires id in c.txns
    ensures Paper(c, BeginSession(c, id, enabled).core)
  {
    hide RowsToSave;
    var t := c.txns[id].StartSession();
    if enabled {
      var d := c.Put(id, t).At(ACCEPTING_CASH);
      PaperLog(c, d, [Intent(id, EnableAcceptance), Enable(id), Outcome(id, EnableAcceptance, Succeeded), d.Save(Some(id))]);
    } else {
      PaperLog(c, c.Put(id, t.MarkFaulted()).At(FAULT).Block(ValidatorFault),
               [Intent(id, EnableAcceptance), Enable(id), Outcome(id, EnableAcceptance, OutcomeAmbiguous)]);
    }
  }

  lemma PaperAgain(c: Core, d: Core, e: Core)
    requires Paper(c, d) && Paper(d, e)
    ensures Paper(c, e)
  {
    assert e.trace[..|c.trace|] == e.trace[..|d.trace|][..|c.trace|];
    forall i | |c.trace| <= i < |e.trace| ensures PaperAction(e.trace[i], c.money) {
      assert i < |d.trace| ==> e.trace[i] == e.trace[..|d.trace|][i];
    }
  }

  lemma StartPaper(c: Core, id: TxnId, product: ProductId, slot: SlotId, price: nat, agrees: bool)
    ensures Paper(c, StartPurchase(c, id, product, slot, price, agrees).core)
  {
    hide RowsToSave;
  }

  lemma ConfirmPickupPaper(c: Core, id: TxnId, closes: bool)
    ensures Paper(c, ConfirmPickup(c, id, closes).core)
  {
    hide RowsToSave, ClosePickup;
    if id in c.txns {
      ClosePickupPaper(c, id, c.txns[id].ConfirmPickup(), closes);
    }
  }

  lemma ClosePickupPaper(c: Core, id: TxnId, t: Txn, closes: bool)
    requires id in c.txns
    ensures Paper(c, ClosePickup(c, id, t, closes).core)
  {
    hide RowsToSave;
  }

  lemma TimeoutPaper(c: Core, id: TxnId, closes: bool)
    ensures Paper(c, PickupTimeout(c, id, closes).core)
  {
    hide RowsToSave;
  }

  lemma ServicePaper(c: Core, found: set<Blocker>)
    ensures Paper(c, EnterServiceMode(c)) && Paper(c, ExitServiceMode(c)) && Paper(c, HealthPoll(c, found))
  {
    hide RowsToSave;
  }

  lemma RecoverPaper(c: Core, id: TxnId)
    ensures Paper(c, RecoverTransaction(c, id).core)
  {
    hide RowsToSave, AssessRecovery;
    if id in c.txns {
      var d := c.At(RECOVERY_PENDING).Block(RecoveryBlock);
      var e := c.(blockers := c.blockers - {RecoveryBlock}).Put(id, c.txns[id].Cancel()).ClearActive(id).At(IDLE);
      PaperLog(c, d, [c.Save(Some(id))]);
      PaperLog(c, d, [c.Save(Some(id)), c.Save(Some(id))]);
      PaperLog(c, e, [c.Save(Some(id)), e.Save(Some(id))]);
    }
  }

  /** Every command keeps memory, database and hopper in agreement, unless it repeats a paid refund. */
  lemma HandleKeepsLedger(c: Core, cmd: Command)
    requires Inv(c) && Ledgered(c) && !RefundsTwice(c, cmd)
    ensures Ledgered(Handle(c, cmd).core)
  {
    hide Inv, Ledgered, Paper, RefundsTwice, AcceptCash, ProcessValidatorEvent, CancelPurchase, StartPurchase, ConfirmPickup,
      PickupTimeout, RecoverTransaction, EnterServiceMode, ExitServiceMode, HealthPoll;
    LedgeredBooks(c);
    match cmd
    case ValidatorCmd(event, devices) => ValidatorKeepsLedger(c, event, devices);
    case CancelCmd(id, disables, payout) => CancelKeepsLedger(c, id, disables, payout);
    case AcceptCashCmd(id, enabled) =>
      AcceptPaper(c, id, enabled);
      PaperKeepsLedger(c, AcceptCash(c, id, enabled).core);
    case _ =>
      OtherPaper(c, cmd);
      PaperKeepsLedger(c, Handle(c, cmd).core);
  }

  lemma OtherPaper(c: Core, cmd: Command)
    requires !cmd.AcceptCashCmd? && !cmd.ValidatorCmd? && !cmd.CancelCmd?
    ensures Paper(c, Handle(c, cmd).core)
  {
    hide Paper, StartPurchase, ConfirmPickup, PickupTimeout, RecoverTransaction, EnterServiceMode, ExitServiceMode, HealthPoll;
    match cmd
    case StartPurchaseCmd(id, product, slot, price, agrees) => StartPaper(c, id, product, slot, price, agrees);
    case ConfirmPickupCmd(id, closes) => ConfirmPickupPaper(c, id, closes);
    case PickupTimeoutCmd(id, closes) => TimeoutPaper(c, id, closes);
    case EnterServiceCmd => ServicePaper(c, {});
    case ExitServiceCmd => ServicePaper(c, {});
    case HealthCmd(found) => ServicePaper(c, found);
    case RecoverCmd(id) => RecoverPaper(c, id);
  }

  /* ---------- crashes and runs ---------- */

  /** The restart reads the ledger last saved and finds the hopper as the payouts left it. */
  ghost predicate ReadsBack(c: Core, e: Event)
    requires e.Crash?
  {
    var cut := CutTrace(c, e.cmd, e.done);
    e.money == LastLedger(cut) && Same(e.counts, HopperAt(cut))
  }

  /** The crash did not come between cash leaving the hopper and the next save, or drift was saved already. */
  ghost predicate NothingUnsaved(c: Core, e: Event)
    requires e.Crash?
  {
    var cut := CutTrace(c, e.cmd, e.done);
    LastLedger(cut).drift || Same(Unsaved(cut), map[])
  }

  /** After a crash anywhere in a command the restored ledger agrees with the hopper exactly when nothing was unsaved. */
  lemma CrashKeepsBooksExactly(c: Core, e: Event)
    requires Inv(c) && Ledgered(c) && FreshIds(c, e) && e.Crash? && !RefundsTwice(c, e.cmd) && ReadsBack(c, e)
    ensures Books(Next(c, e)) <==> NothingUnsaved(c, e)
    ensures NothingUnsaved(c, e) ==> Ledgered(Next(c, e))
  {
    hide Inv, Handle, Restart, RefundsTwice, SavesAgree, Unsaved, HopperAt, LastLedger, Sound;
    var full, cut := Handle(c, e.cmd).core, CutTrace(c, e.cmd, e.done);
    HandleKeepsInv(c, e.cmd);
    HandleKeepsLedger(c, e.cmd);
    CutIsBooted(c, e.cmd, e.done);
    SavesCut(full.trace, |cut|);
    RestoredAgreesExactly(cut, e.counts);
    RestartReads(full.(trace := cut), e.order, e.money, e.counts, e.slots);
    if NothingUnsaved(c, e) {
      RestartKeepsLedger(full.(trace := cut), e.order, e.money, e.counts, e.slots);
    }
  }

  lemma CutIsBooted(c: Core, cmd: Command, done: nat)
    requires Ledgered(c) && Ledgered(Handle(c, cmd).core)
    ensures Booted(CutTrace(c, cmd, done)) && SavesAgree(Handle(c, cmd).core.trace)
  {
    hide Handle, SavesAgree, HopperAt;
  }

  lemma RestartReads(c: Core, order: seq<TxnId>, money: Ledger, counts: Counts, slots: map<SlotId, Slot>)
    ensures var r := Restart(c, order, money, counts, slots); r.money == money && r.hopper.counts == counts
  {
  }

  lemma RestartKeepsLedger(c: Core, order: seq<TxnId>, money: Ledger, counts: Counts, slots: map<SlotId, Slot>)
    requires SavesAgree(c.trace) && Booted(c.trace) && Agrees(money, counts)
    ensures Ledgered(Restart(c, order, money, counts, slots))
  {
    hide Restart, Restored, SavesAgree, HopperAt;
    var r, booted := Restart(c, order, money, counts, slots), c.trace + [Boot(slots, money, counts)];
    RestartReads(c, order, money, counts, slots);
    RestartTrace(c, order, money, counts, slots);
    BootKeeps(c.trace, slots, money, counts);
    if r.trace != booted {
      var rows: map<TxnId, Txn> :| rows.Keys <= Restored(c.trace).Keys && r.trace == booted + [SaveAll(rows, money)];
      SaveKeeps(booted, rows, money);
    }
  }

  lemma BootKeeps(trace: seq<Action>, slots: map<SlotId, Slot>, money: Ledger, counts: Counts)
    requires SavesAgree(trace) && Booted(trace) && Agrees(money, counts)
    ensures var booted := trace + [Boot(slots, money, counts)];
            SavesAgree(booted) && Booted(booted) && HopperAt(booted) == counts
  {
    assert (trace + [Boot(slots, money, counts)])[..|trace|] == trace;
  }

  lemma SaveKeeps(trace: seq<Action>, rows: map<TxnId, Txn>, money: Ledger)
    requires SavesAgree(trace) && Booted(trace) && Agrees(money, HopperAt(trace))
    ensures var saved := trace + [SaveAll(rows, money)];
            SavesAgree(saved) && Booted(saved) && HopperAt(saved) == HopperAt(trace)
  {
    assert (trace + [SaveAll(rows, money)])[..|trace|] == trace;
  }

  /** No command repeats a paid refund, and no crash comes between cash leaving the hopper and the next save. */
  ghost predicate HonestRun(c: Core, events: seq<Event>) {
    events == []
    || var front, e := events[..|events| - 1], events[|events| - 1];
       && HonestRun(c, front)
       && !RefundsTwice(Run(c, front), e.cmd)
       && (e.Crash? ==> ReadsBack(Run(c, front), e) && NothingUnsaved(Run(c, front), e))
  }

  /** In every such run, with all device behaviours and crashes at all other points, the accounting counts equal the
      hopper's contents for every denomination, or the drift latch is set, in memory and whenever they were saved. */
  lemma {:induction false} RunKeepsBooks(c: Core, events: seq<Event>)
    requires Initial(c) && FreshRun(c, events) && Books(c) && HonestRun(c, events)
    ensures Ledgered(Run(c, events)) && Books(Run(c, events))
  {
    hide Inv, Handle, RefundsTwice, Ledgered, ReadsBack, NothingUnsaved;
    if events != [] {
      var front, e := events[..|events| - 1], events[|events| - 1];
      RunKeepsBooks(c, front);
      RunKeepsInv(c, front);
      if e.Completed? {
        HandleKeepsLedger(Run(c, front), e.cmd);
      } else {
        CrashKeepsBooksExactly(Run(c, front), e);
      }
    } else {
      StartsLedgered(c);
    }
    LedgeredBooks(Run(c, events));
  }

  lemma StartsLedgered(c: Core)
    requires Initial(c) && Books(c)
    ensures Ledgered(c)
  {
    var boot, counts := c.trace[0], c.hopper.counts;
    assert c.trace[..|c.trace| - 1] == [];
    assert HopperAt(c.trace) == counts && SavesAgree([]) && Agrees(boot.ledger, counts);
    forall d ensures Get(counts, d) == Get(HopperAt(c.trace), d) {
    }
  }
}
