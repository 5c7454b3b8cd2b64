/** A run in which the customer gets the product, the change and the whole payment back. */
module DeliveredAndRefunded {
  import opened Wrappers
  import opened Counts
  import opened ChangePlanning
  import opened WorstCase
  import opened Money
  import opened SaleAssessment
  import opened ChangeManagement
  import opened Fsm
  import opened Sale
  import opened Protocol
  import opened TraceFacts
  import opened ProtocolInvariant
  import opened ProtocolRuns
  import opened CashBooks
  import opened SavedLedger
  import opened CashWithinAccepted
  import Dispenser
  import RefundChargedTwice
  import Settlement

  const STOCK := map[100 := 10]

  const HUNDRED := map[100 := 1]

  const SLOTS := map[0 := Slot(0, 5, true)]

  /** A new machine: one product in one slot, ten pieces of 100 in the hopper and in the ledger, notes of 500 accepted. */
  const MACHINE := Core(map[], None, {}, IDLE, IDLE, false, {}, Ledger(STOCK, map[], false, false), Dispenser.Hopper(STOCK, map[]),
                        SLOTS, map[0 := true], [500], [Boot(SLOTS, Ledger(STOCK, map[], false, false), STOCK)])

  const HELD := Reserve(MACHINE.money, HUNDRED)

  /** The machine with one transaction. */
  predicate Stands(c: Core, t: Txn, state: MachineState, money: Ledger, hopper: Dispenser.Hopper) {
    && c.txns == map[0 := t] && c.active == Some(0) && c.fsm == c.shown == state && c.slots == SLOTS
    && c.money == money && c.hopper == hopper
  }

  predicate Open(c: Core) {
    c.denoms == [500] && c.blockers == {} && !c.serviceMode
  }

  /* ---------- the sale is approved with one piece held ---------- */

  lemma {:induction false} FiveHundreds(notes: seq<int>)
    requires Accepts([500], notes)
    ensures Total(notes) == 500 * |notes|
  {
    if notes != [] {
      FiveHundreds(notes[..|notes| - 1]);
      assert notes[|notes| - 1] in [500];
    }
  }

  /** One note is enough for 400. */
  lemma OnlyOverpayment(change: int)
    requires Overpayment([500], 400, change)
    ensures change == 100
  {
    var notes :| Accepts([500], notes) && FirstCrossing(notes, 400) && change == Total(notes) - 400;
    FiveHundreds(notes);
    var amount, d := LastNote([500], 400, change);
  }

  lemma HundredIsPlan(available: Counts)
    requires available.Keys == {100} && available[100] > 0
    ensures BestPlan(available, 100) == Some(HUNDRED) && Payable(available, 100)
  {
    RefundChargedTwice.HundredIsPayable(available);
    BestPlanIffPayable(available, 100);
    RefundChargedTwice.OnlyHundred(available, BestPlan(available, 100).value);
  }

  lemma SaleIsApproved()
    ensures Assess(MACHINE.money, [500], 400) == Assessment(true, HUNDRED)
  {
    hide BestPlan, Payable;
    assert Positive([500]) == [500];
    assert Available(MACHINE.money) == STOCK;
    HundredIsPlan(STOCK);
    forall change | Overpayment([500], 400, change) ensures Payable(STOCK, change) {
      OnlyOverpayment(change);
    }
    WorstExists([500], 400);
    OnlyOverpayment(WorstCaseOf(MACHINE.money, [500], 400).value);
  }

  /* ---------- the steps ---------- */

  lemma SelectionStarts()
    ensures var r := Handle(MACHINE, StartPurchaseCmd(0, 0, 0, 400, true)).core;
            Stands(r, NewTxn(400, 0, 0), WAITING_FOR_PAYMENT, MACHINE.money, MACHINE.hopper) && Open(r)
  {
  }

  function Asked(): Txn {
    NewTxn(400, 0, 0).AttachReserve(HUNDRED).StartSession()
  }

  lemma CashIsAsked(c: Core)
    requires Stands(c, NewTxn(400, 0, 0), WAITING_FOR_PAYMENT, MACHINE.money, MACHINE.hopper) && Open(c)
    ensures Stands(Handle(c, AcceptCashCmd(0, true)).core, Asked(), ACCEPTING_CASH, HELD, MACHINE.hopper)
  {
    hide Assess, ReserveForSale, BeginSession;
    SaleIsApproved();
    PieceIsHeld(c);
    SessionBegins(ReserveForSale(c, 0, HUNDRED));
  }

  lemma PieceIsHeld(c: Core)
    requires Stands(c, NewTxn(400, 0, 0), WAITING_FOR_PAYMENT, MACHINE.money, MACHINE.hopper)
    ensures Stands(ReserveForSale(c, 0, HUNDRED), NewTxn(400, 0, 0).AttachReserve(HUNDRED), WAITING_FOR_PAYMENT, HELD, MACHINE.hopper)
  {
    hide Reserve, RowsToSave;
    assert 100 in HUNDRED;
  }

  lemma SessionBegins(c: Core)
    requires Stands(c, NewTxn(400, 0, 0).AttachReserve(HUNDRED), WAITING_FOR_PAYMENT, HELD, MACHINE.hopper)
    ensures Stands(BeginSession(c, 0, true).core, Asked(), ACCEPTING_CASH, HELD, MACHINE.hopper)
  {
    hide Reserve, RowsToSave;
  }

  /** The transaction once its payment is confirmed. */
  function Confirmed500(): Txn {
    Asked().RecordCash(500).value.ConfirmPayment().value
  }

  lemma NoteIsConfirmed(c: Core)
    requires Stands(c, Asked(), ACCEPTING_CASH, HELD, MACHINE.hopper)
    ensures c.txns[0].RecordCash(500).Ok? && c.txns[0].RecordCash(500).value.accepted >= 400
    ensures var r := ConfirmPayment(Settlement.AfterNote(c, 0, 500), 0, true);
            r.error.None? && Stands(r.core, Confirmed500(), PAYMENT_ACCEPTED, HELD, MACHINE.hopper)
  {
    hide Reserve, RowsToSave;
  }

  lemma ReserveIsFinalized(c: Core)
    requires Stands(c, Confirmed500(), PAYMENT_ACCEPTED, HELD, MACHINE.hopper)
    ensures var r := FinalizeReserve(c, 0);
            && r.error.None?
            && Stands(r.core, Confirmed500().AttachReserve(HUNDRED), PAYMENT_ACCEPTED, Reserve(Release(HELD, HUNDRED), HUNDRED), MACHINE.hopper)
  {
    hide BestPlan, Reserve, Release, Available;
    HeldIsAvailable();
    HundredIsPlan(STOCK);
  }

  lemma HeldIsAvailable()
    ensures Available(Release(HELD, HUNDRED)) == STOCK
  {
  }

  function Paid500(): Txn {
    Confirmed500().AttachReserve(HUNDRED).MarkChangePending().MarkReserve(Consumed).MarkChangeDispensed()
  }

  const SPENT := Consume(Reserve(Release(HELD, HUNDRED), HUNDRED), HUNDRED)

  const EMPTIED := Dispenser.Hopper(Sub(STOCK, HUNDRED), map[Dispenser.Request(0, Dispenser.Change) := Dispenser.Dispensed])

  lemma ChangeIsPaid(c: Core)
    requires Stands(c, Confirmed500().AttachReserve(HUNDRED), PAYMENT_ACCEPTED, Reserve(Release(HELD, HUNDRED), HUNDRED), MACHINE.hopper)
    ensures var r := PayChange(c, 0, Settlement.WORKING.payout);
            r.error.None? && Stands(r.core, Paid500(), DISPENSING_CHANGE, SPENT, EMPTIED)
  {
    hide DispenseChangeDue, Reserve, Release, Consume, Sub, RowsToSave;
    DeviceDispenses(AnnounceChange(c, 0), Confirmed500().AttachReserve(HUNDRED).MarkChangePending());
  }

  lemma DeviceDispenses(c: Core, t: Txn)
    requires Stands(c, t, DISPENSING_CHANGE, Reserve(Release(HELD, HUNDRED), HUNDRED), MACHINE.hopper)
    requires t.reserve == Some(Reservation(HUNDRED, Active)) && t.changeDue == 100
    ensures var r := DispenseChangeDue(c, 0, Settlement.WORKING.payout);
            r.error.None? && Stands(r.core, t.MarkReserve(Consumed).MarkChangeDispensed(), DISPENSING_CHANGE, SPENT, EMPTIED)
  {
    hide Dispenser.Pay, Reserve, Release, Consume, Sub;
    HopperPays();
  }

  lemma HopperPays()
    ensures Dispenser.Pay(MACHINE.hopper, Dispenser.Request(0, Dispenser.Change), HUNDRED, Settlement.WORKING.payout)
            == Dispenser.Payout(EMPTIED, Some(Dispenser.Dispensed), HUNDRED)
  {
    hide Sub;
  }

  function Delivered500(): Txn {
    Paid500().AuthorizeVend().value.MarkProductDispensed().MarkWindowOpened()
  }

  lemma ProductIsVended(c: Core)
    requires Stands(c, Paid500(), DISPENSING_CHANGE, SPENT, EMPTIED)
    ensures var r := VendProduct(c, 0, true);
            && r.error.None? && r.core.txns == map[0 := Paid500().AuthorizeVend().value.MarkProductDispensed()]
            && r.core.fsm.DISPENSING_PRODUCT? && r.core.money == SPENT && r.core.hopper == EMPTIED
  {
    hide Reserve, Release, Consume, Sub, RowsToSave, RunMotor;
    MotorRuns(c.Put(0, Paid500().AuthorizeVend().value).At(DISPENSING_PRODUCT), Paid500().AuthorizeVend().value);
  }

  lemma MotorRuns(c: Core, t: Txn)
    requires c.txns == map[0 := t] && c.slots == SLOTS && t.slot == 0 && c.fsm.DISPENSING_PRODUCT?
    ensures var r := RunMotor(c, 0, t, true);
            && r.error.None? && r.core.txns == map[0 := t.MarkProductDispensed()]
            && r.core.fsm.DISPENSING_PRODUCT? && r.core.money == c.money && r.core.hopper == c.hopper
  {
    hide RowsToSave;
  }

  /** The customer is at the window. */
  predicate AtWindow(c: Core) {
    && c.txns == map[0 := Delivered500()] && c.fsm.WAITING_FOR_CUSTOMER_PICKUP?
    && c.money == SPENT && c.hopper == EMPTIED
  }

  lemma WindowIsOpened(c: Core)
    requires c.txns == map[0 := Paid500().AuthorizeVend().value.MarkProductDispensed()]
    requires c.fsm.DISPENSING_PRODUCT? && c.money == SPENT && c.hopper == EMPTIED
    ensures var r := OpenForPickup(c, 0, true); r.error.None? && AtWindow(r.core)
  {
    hide Reserve, Release, Consume, Sub, RowsToSave;
  }

  lemma ChangeIsSettled(c: Core)
    requires Stands(c, Confirmed500(), PAYMENT_ACCEPTED, HELD, MACHINE.hopper)
    ensures var r := SettleChange(c, 0, Settlement.WORKING.payout);
            r.error.None? && Stands(r.core, Paid500(), DISPENSING_CHANGE, SPENT, EMPTIED)
  {
    hide FinalizeReserve, PayChange;
    ReserveIsFinalized(c);
    ChangeIsPaid(FinalizeReserve(c, 0).core);
  }

  const NOTE := ValidatorCmd(BillStacked(Some(500)), Settlement.WORKING)

  lemma NoteDelivers(c: Core)
    requires Stands(c, Asked(), ACCEPTING_CASH, HELD, MACHINE.hopper)
    ensures AtWindow(Handle(c, NOTE).core)
  {
    hide ConfirmPayment, SettleChange, VendProduct, OpenForPickup, ProcessValidatorEvent, AtWindow, Reserve, Release, Consume, Sub,
      RowsToSave;
    NoteIsConfirmed(c);
    Settlement.NoteIsCounted(c, 0, 500, Settlement.WORKING);
    var confirmed := ConfirmPayment(Settlement.AfterNote(c, 0, 500), 0, true).core;
    ChangeIsSettled(confirmed);
    var settled := SettleChange(confirmed, 0, Settlement.WORKING.payout).core;
    ProductIsVended(settled);
    WindowIsOpened(VendProduct(settled, 0, true).core);
  }

  /* ---------- what was paid ---------- */

  lemma CountedKeepsInv(c: Core, id: TxnId, bill: nat)
    requires Inv(c) && c.active == Some(id) && id in c.txns && c.txns[id].RecordCash(bill).Ok?
    ensures var d := Settlement.AfterNote(c, id, bill); Inv(d) && d.active == Some(id) && id in d.txns
  {
    hide Sound, Vended, Saved, Paid, PayoutWentWrong, Stock;
    var heard := c.Log([c.Save(None)]);
    QuietKeepsInv(c, c, [c.Save(None)]);
    var put := heard.Put(id, c.txns[id].RecordCash(bill).value);
    QuietKeepsInv(heard, put, [put.Save(Some(id))]);
  }

  /** The change of 100 has left the hopper. */
  lemma NotePaysChange(c: Core)
    requires Inv(c) && Stands(c, Asked(), ACCEPTING_CASH, HELD, MACHINE.hopper)
    ensures Paid(Handle(c, NOTE).core.trace, 0) == 100
  {
    hide ConfirmPayment, SettleChange, VendProduct, OpenForPickup, ProcessValidatorEvent, Inv, Paying, Paid, Reserve, Release,
      Consume, Sub, RowsToSave;
    NoteIsConfirmed(c);
    Settlement.NoteIsCounted(c, 0, 500, Settlement.WORKING);
    var counted := Settlement.AfterNote(c, 0, 500);
    CountedKeepsInv(c, 0, 500);
    ConfirmStep(counted, 0, true);
    var confirmed := ConfirmPayment(counted, 0, true).core;
    SettlingPaysChange(confirmed);
    var settled := SettleChange(confirmed, 0, Settlement.WORKING.payout).core;
    ProductIsVended(settled);
    HandingOverPaysNothing(settled);
  }

  lemma SettlingPaysChange(c: Core)
    requires Paying(c, 0) && Stands(c, Confirmed500(), PAYMENT_ACCEPTED, HELD, MACHINE.hopper)
    ensures var r := SettleChange(c, 0, Settlement.WORKING.payout);
            && r.error.None? && Stands(r.core, Paid500(), DISPENSING_CHANGE, SPENT, EMPTIED) && Paid(r.core.trace, 0) == 100
  {
    hide SettleChange, Base, Paid, Reserve, Release, Consume, Sub;
    ChangeIsSettled(c);
    SettleStep(c, 0, Settlement.WORKING.payout);
  }

  lemma HandingOverPaysNothing(c: Core)
    requires 0 in c.txns
    ensures var vended := VendProduct(c, 0, true).core; Paid(OpenForPickup(vended, 0, true).core.trace, 0) == Paid(c.trace, 0)
  {
    hide VendProduct, OpenForPickup, Paid, Paper;
    VendPaper(c, 0, true);
    var vended := VendProduct(c, 0, true).core;
    OpenPaper(vended, 0, true);
    PaperIsNoCash(c, vended);
    PaperIsNoCash(vended, OpenForPickup(vended, 0, true).core);
    NoCashKeeps(c.trace, vended.trace, 0);
    NoCashKeeps(vended.trace, OpenForPickup(vended, 0, true).core.trace, 0);
  }

  /** The hopper still holds 500, and the books agree. */
  lemma FiveHundredIsLeft(c: Core)
    requires AtWindow(c)
    ensures Books(c) && !c.money.drift && Payable(Available(ReleaseHeld(c.money, c.txns[0])), 500)
  {
    hide Reserve, Release, Consume, Sub, Available, Payable;
    SpentAgrees();
    NineAreLeft();
    FiveOfNine();
  }

  lemma SpentAgrees()
    ensures NonNegative(SPENT.reserved) && SPENT.accounting == EMPTIED.counts && !SPENT.drift
  {
  }

  lemma NineAreLeft()
    ensures Available(Release(SPENT, HUNDRED)) == map[100 := 9]
  {
  }

  lemma FiveOfNine()
    ensures Payable(map[100 := 9], 500)
  {
    WorthInsert(map[], 100, 5);
    assert Pays(map[100 := 5], map[100 := 9], 500);
  }

  /* ---------- the run ---------- */

  const CANCEL_IT := RefundChargedTwice.CANCEL_IT

  /** A customer selects for 400, pays with a note of 500, gets 100 back and the product. */
  const SOLD := [Event.Completed(StartPurchaseCmd(0, 0, 0, 400, true)), Event.Completed(AcceptCashCmd(0, true)), Event.Completed(NOTE)]

  const CANCELLED_ONCE := SOLD + [Event.Completed(CANCEL_IT)]

  lemma ReachesWindow()
    ensures Initial(MACHINE) && FreshRun(MACHINE, SOLD)
    ensures var c := Run(MACHINE, SOLD); AtWindow(c) && Paid(c.trace, 0) == 100
  {
    hide Handle, Stands, Run, FreshRun, Paid, AtWindow, Inv;
    RefundChargedTwice.RunEmpty(MACHINE);
    RefundChargedTwice.RunSnoc(MACHINE, [], SOLD[0]);
    RefundChargedTwice.RunSnoc(MACHINE, SOLD[..1], SOLD[1]);
    RefundChargedTwice.RunSnoc(MACHINE, SOLD[..2], SOLD[2]);
    assert [] + [SOLD[0]] == SOLD[..1] && SOLD[..1] + [SOLD[1]] == SOLD[..2] && SOLD[..2] + [SOLD[2]] == SOLD;
    SelectionStarts();
    CashIsAsked(Run(MACHINE, SOLD[..1]));
    RunKeepsInv(MACHINE, SOLD[..2]);
    NoteDelivers(Run(MACHINE, SOLD[..2]));
    NotePaysChange(Run(MACHINE, SOLD[..2]));
  }

  lemma WindowShows(c: Core)
    requires AtWindow(c)
    ensures c.txns.Keys == {0} && c.txns[0].accepted == 500 && c.txns[0].dispense.ProductDispensed?
  {
  }

  lemma WindowIsCancelled(c: Core)
    requires AtWindow(c) && Paid(c.trace, 0) == 100
    ensures var first := Handle(c, CANCEL_IT).core;
            Overpays(first, CANCEL_IT) && Paid(Handle(first, CANCEL_IT).core.trace, 0) == 600
  {
    hide Handle, Overpays, Paid, Books, Payable, ReleaseHeld, Reserve, Release, Consume, Sub;
    FiveHundredIsLeft(c);
    DeliveredSaleIsRefunded(c, 0);
  }

  /** Then the sale is cancelled twice: with the product dispensed, 600 has left the hopper for the 500 that were accepted. */
  lemma DeliveredSaleIsPaidBack()
    ensures Initial(MACHINE) && FreshRun(MACHINE, CANCELLED_ONCE + [Event.Completed(CANCEL_IT)])
    ensures var sold, end := Run(MACHINE, SOLD), Run(MACHINE, CANCELLED_ONCE + [Event.Completed(CANCEL_IT)]);
            && sold.txns.Keys == {0} && sold.txns[0].accepted == 500 && sold.txns[0].dispense.ProductDispensed?
            && Paid(sold.trace, 0) == 100 && Paid(end.trace, 0) == 600 && !Within(end.trace)
  {
    hide Handle, Run, FreshRun, Paid, Overpays, Within, AtWindow, Initial, NeverOverpays, Delivered500;
    var all := CANCELLED_ONCE + [Event.Completed(CANCEL_IT)];
    ReachesWindow();
    WindowShows(Run(MACHINE, SOLD));
    WindowIsCancelled(Run(MACHINE, SOLD));
    RefundChargedTwice.RunSnoc(MACHINE, SOLD, Event.Completed(CANCEL_IT));
    RefundChargedTwice.RunSnoc(MACHINE, CANCELLED_ONCE, Event.Completed(CANCEL_IT));
    RunWithinExactly(MACHINE, all);
    LastOverpays(MACHINE, CANCELLED_ONCE, Event.Completed(CANCEL_IT));
  }

  lemma LastOverpays(c: Core, events: seq<Event>, e: Event)
    requires Overpaid(Run(c, events), e)
    ensures !NeverOverpays(c, events + [e])
  {
    hide Run, Overpaid;
    assert (events + [e])[..|events|] == events;
  }
}
