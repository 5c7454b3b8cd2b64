/** The refund that is charged twice: how a refused cancellation leaves the books open to it, and a run in which it happens. */
module RefundChargedTwice {
  import opened Wrappers
  import opened Counts
  import opened ChangePlanning
  import opened WorstCase
  import opened Money
  import opened SaleAssessment
  import opened ChangeManagement
  import opened Fsm
  import opened Sale
  import opened Protocol
  import opened CashBooks
  import Dispenser

  /** Cancelling an unpaid sale where the machine cannot go to CANCELLED pays the refund, is refused, and leaves a
      transaction that can be cancelled again. */
  lemma RefusedCancelPays(c: Core, id: TxnId)
    requires Books(c) && !c.money.drift && id in c.txns && !c.Reaches(CANCELLED)
    requires c.txns[id].payment != Confirmed && c.txns[id].accepted > 0 && c.txns[id].reserve.None?
    requires Dispenser.Request(id, Dispenser.Refund) !in c.hopper.replies
    requires Payable(Available(c.money), c.txns[id].accepted)
    ensures var first := CancelPurchase(c, id, true, Dispenser.Attempt(Dispenser.Dispensed));
            && first.error == Some(TransitionRefused) && Books(first.core)
            && first.core.txns == c.txns[id := c.txns[id].Cancel()]
            && first.core.money == Consume(Reserve(c.money, BestRefund(c, id)), BestRefund(c, id))
            && first.core.hopper.replies == c.hopper.replies[Dispenser.Request(id, Dispenser.Refund) := Dispenser.Dispensed]
  {
    hide BestPlan, Payable, AnnounceRefund;
    CancelKeepsBooks(c, id, true, Dispenser.Attempt(Dispenser.Dispensed));
    BestPlanIffPayable(Available(c.money), c.txns[id].accepted);
    BestPlanIsReservable(c.money, c.txns[id].accepted);
    var plan := BestRefund(c, id);
    ReservedPlanIsCovered(c.money, plan, c.hopper.counts);
    var d := c.Log([Intent(id, DisableOnCancel), Disable(id), Outcome(id, DisableOnCancel, Succeeded)]);
    RefundPays(d, id, plan);
  }

  ghost function BestRefund(c: Core, id: TxnId): Counts
    requires id in c.txns
  {
    var best := BestPlan(Available(c.money), c.txns[id].accepted);
    if best.Some? then best.value else map[]
  }

  lemma RefundPays(d: Core, id: TxnId, plan: Counts)
    requires id in d.txns && d.txns[id].reserve.None?
    requires BestPlan(Available(d.money), d.txns[id].accepted) == Some(plan)
    requires Dispenser.Request(id, Dispenser.Refund) !in d.hopper.replies && Dispenser.Covers(d.hopper.counts, plan)
    ensures var r := RefundCash(d, id, Dispenser.Attempt(Dispenser.Dispensed));
            && r.error.None? && r.core.fsm == d.fsm && r.core.txns == d.txns
            && r.core.money == Consume(Reserve(d.money, plan), plan)
            && r.core.hopper.replies == d.hopper.replies[Dispenser.Request(id, Dispenser.Refund) := Dispenser.Dispensed]
  {
    hide BestPlan;
  }

  /* ---------- a run ---------- */

  const CANCEL_IT := CancelCmd(0, true, Dispenser.Attempt(Dispenser.Dispensed))

  const STOCK := map[100 := 3]

  /** A new machine: one product in one slot, three pieces of 100 in the hopper and in the ledger. */
  const MACHINE := Core(map[], None, {}, IDLE, IDLE, false, {}, Ledger(STOCK, map[], false, false), Dispenser.Hopper(STOCK, map[]),
                        map[0 := Slot(0, 5, true)], map[0 := true], [100],
                        [Boot(map[0 := Slot(0, 5, true)], Ledger(STOCK, map[], false, false), STOCK)])

  /** The machine with one transaction, its cash as it was at first. */
  predicate Holds(c: Core, t: Txn, state: MachineState) {
    && c.txns == map[0 := t] && c.active == Some(0) && c.fsm == c.shown == state
    && c.money == MACHINE.money && c.hopper == MACHINE.hopper && c.denoms == MACHINE.denoms
    && c.blockers == {}
  }

  lemma SelectionStarts()
    ensures var r := Handle(MACHINE, StartPurchaseCmd(0, 0, 0, 200, true)).core;
            Holds(r, NewTxn(200, 0, 0), WAITING_FOR_PAYMENT) && !r.serviceMode
  {
  }

  /** Payments in pieces of 100 are multiples of 100. */
  lemma {:induction false} HundredsOnly(notes: seq<int>)
    requires Accepts([100], notes)
    ensures Total(notes) % 100 == 0
  {
    if notes != [] {
      HundredsOnly(notes[..|notes| - 1]);
      assert notes[|notes| - 1] in [100];
    }
  }

  lemma OnlyExactPayment(change: int)
    requires Overpayment([100], 200, change)
    ensures change == 0
  {
    var notes :| Accepts([100], notes) && FirstCrossing(notes, 200) && change == Total(notes) - 200;
    HundredsOnly(notes);
    var amount, d := LastNote([100], 200, change);
  }

  /** No overpayment is possible, so the sale is approved without a reserve. */
  lemma SaleIsApproved()
    ensures Assess(MACHINE.money, [100], 200) == Assessment(true, map[])
  {
    assert Positive([100]) == [100];
    forall change | Overpayment([100], 200, change) ensures Payable(Available(MACHINE.money), change) {
      OnlyExactPayment(change);
      NothingPaysZero(Available(MACHINE.money));
    }
    WorstExists([100], 200);
    var worst := WorstCaseOf(MACHINE.money, [100], 200);
    OnlyExactPayment(worst.value);
  }

  lemma CashIsAsked(c: Core)
    requires Holds(c, NewTxn(200, 0, 0), WAITING_FOR_PAYMENT) && !c.serviceMode
    ensures var r := Handle(c, AcceptCashCmd(0, true)).core;
            Holds(r, NewTxn(200, 0, 0).StartSession(), ACCEPTING_CASH) && !r.serviceMode
  {
    hide Assess;
    SaleIsApproved();
  }

  const PAID := Session(SessionAccepting, 100, [100])

  function HalfPaid(): Txn {
    NewTxn(200, 0, 0).StartSession().(session := Some(PAID), accepted := 100)
  }

  lemma NoteIsTaken(c: Core, d: Devices)
    requires Holds(c, NewTxn(200, 0, 0).StartSession(), ACCEPTING_CASH)
    ensures Holds(Handle(c, ValidatorCmd(BillStacked(Some(100)), d)).core, HalfPaid(), ACCEPTING_CASH)
  {
    hide CompletePayment;
    assert [] + [100] == [100];
  }

  lemma ServiceIsEntered(c: Core)
    requires Holds(c, HalfPaid(), ACCEPTING_CASH)
    ensures Holds(Handle(c, EnterServiceCmd).core, HalfPaid(), SERVICE_MODE)
  {
  }

  lemma OnlyHundred(available: Counts, plan: Counts)
    requires available.Keys == {100} && Pays(plan, available, 100)
    ensures plan == map[100 := 1]
  {
    assert forall d :: d in plan ==> d in available.Keys;
    WorthWithout(plan, 100);
    assert plan - {100} == map[];
  }

  lemma FirstCancelPays(c: Core)
    requires Holds(c, HalfPaid(), SERVICE_MODE)
    ensures var first := Handle(c, CANCEL_IT).core;
            && Books(c) && Books(first) && !first.money.drift
            && first.txns == map[0 := HalfPaid().Cancel()]
            && Available(first.money) == map[100 := 2]
            && first.hopper.replies == map[Dispenser.Request(0, Dispenser.Refund) := Dispenser.Dispensed]
  {
    hide Handle, CancelPurchase, BestPlan, Payable, BestRefund, Reserve, Consume, Available, Books;
    HundredIsPayable(STOCK);
    MachineAgrees(c);
    HandlesCancel(c, 0, true, Dispenser.Attempt(Dispenser.Dispensed));
    RefusedCancelPays(c, 0);
    BestPlanIffPayable(STOCK, 100);
    BestRefundIsBest(c, 0);
    OnlyHundred(STOCK, BestRefund(c, 0));
    OneHundredLess(c.money);
  }

  lemma MachineAgrees(c: Core)
    requires c.money == MACHINE.money && c.hopper == MACHINE.hopper
    ensures Books(c) && Available(c.money) == STOCK
  {
  }

  lemma OneHundredLess(l: Ledger)
    requires l.accounting == map[100 := 3] && l.reserved == map[]
    ensures var d := Consume(Reserve(l, map[100 := 1]), map[100 := 1]);
            Available(d) == map[100 := 2] && d.drift == l.drift
  {
  }

  lemma BestRefundIsBest(c: Core, id: TxnId)
    requires id in c.txns && BestPlan(Available(c.money), c.txns[id].accepted).Some?
    ensures Pays(BestRefund(c, id), Available(c.money), c.txns[id].accepted)
  {
  }

  /** The second cancellation charges the ledger for a refund the device does not pay again. */
  lemma SecondCancelIsCharged(first: Core)
    requires Books(first) && !first.money.drift && first.txns == map[0 := HalfPaid().Cancel()]
    requires Available(first.money) == map[100 := 2]
    requires first.hopper.replies == map[Dispenser.Request(0, Dispenser.Refund) := Dispenser.Dispensed]
    ensures RefundsTwice(first, CANCEL_IT) && !Books(Handle(first, CANCEL_IT).core)
  {
    hide CancelPurchase, Payable, Books;
    HundredIsPayable(map[100 := 2]);
    CancelKeepsBooks(first, 0, true, Dispenser.Attempt(Dispenser.Dispensed));
  }

  const IDLE_DEVICES := Devices(true, Dispenser.Raise, true, true)

  /** A customer selects for 200, pays 100, a technician enters service mode, and the sale is cancelled twice. */
  const CANCELLED_ONCE := [
    Event.Completed(StartPurchaseCmd(0, 0, 0, 200, true)), Event.Completed(AcceptCashCmd(0, true)),
    Event.Completed(ValidatorCmd(BillStacked(Some(100)), IDLE_DEVICES)), Event.Completed(EnterServiceCmd), Event.Completed(CANCEL_IT)]

  lemma RunSnoc(c: Core, events: seq<Event>, e: Event)
    ensures Run(c, events + [e]) == Next(Run(c, events), e)
    ensures FreshRun(c, events + [e]) <==> FreshRun(c, events) && FreshIds(Run(c, events), e)
  {
    assert (events + [e])[..|events|] == events;
  }

  lemma RunEmpty(c: Core)
    ensures Run(c, []) == c && FreshRun(c, [])
  {
  }

  /** The state before the first cancellation is reached. */
  lemma ReachesService()
    ensures FreshRun(MACHINE, CANCELLED_ONCE[..4]) && Holds(Run(MACHINE, CANCELLED_ONCE[..4]), HalfPaid(), SERVICE_MODE)
  {
    hide Handle, Holds, Run, FreshRun;
    var events := CANCELLED_ONCE;
    RunEmpty(MACHINE);
    RunSnoc(MACHINE, [], events[0]);
    RunSnoc(MACHINE, events[..1], events[1]);
    RunSnoc(MACHINE, events[..2], events[2]);
    RunSnoc(MACHINE, events[..3], events[3]);
    assert [] + [events[0]] == events[..1] && events[..1] + [events[1]] == events[..2];
    assert events[..2] + [events[2]] == events[..3] && events[..3] + [events[3]] == events[..4];
    SelectionStarts();
    CashIsAsked(Run(MACHINE, events[..1]));
    NoteIsTaken(Run(MACHINE, events[..2]), IDLE_DEVICES);
    ServiceIsEntered(Run(MACHINE, events[..3]));
  }

  /** In that run the books agree after the first cancellation and not after the second, without drift in between. */
  lemma CancelledTwiceIsChargedTwice()
    ensures Initial(MACHINE) && Books(MACHINE) && FreshRun(MACHINE, CANCELLED_ONCE + [Event.Completed(CANCEL_IT)])
    ensures Books(Run(MACHINE, CANCELLED_ONCE)) && RefundsTwice(Run(MACHINE, CANCELLED_ONCE), CANCEL_IT)
    ensures !Books(Run(MACHINE, CANCELLED_ONCE + [Event.Completed(CANCEL_IT)]))
  {
    hide Handle, Holds, Run, FreshRun, RefundsTwice;
    var events := CANCELLED_ONCE;
    ReachesService();
    RunSnoc(MACHINE, events[..4], events[4]);
    assert events[..4] + [events[4]] == events;
    RunSnoc(MACHINE, events, Event.Completed(CANCEL_IT));
    FirstCancelPays(Run(MACHINE, events[..4]));
    SecondCancelIsCharged(Run(MACHINE, events));
  }

  lemma HundredIsPayable(available: Counts)
    requires Get(available, 100) > 0
    ensures Payable(available, 100)
  {
    var plan := map[100 := 1];
    WorthInsert(map[], 100, 1);
    assert Pays(plan, available, 100);
  }
}
