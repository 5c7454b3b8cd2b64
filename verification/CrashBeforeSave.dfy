/** The crash that the restored ledger does not survive: cash has left the hopper and is not saved. */
module CrashBeforeSave {
  import opened Wrappers
  import opened Counts
  import opened ChangePlanning
  import opened Money
  import opened SaleAssessment
  import opened ChangeManagement
  import opened Fsm
  import opened Sale
  import opened Protocol
  import opened ProtocolInvariant
  import opened ProtocolRuns
  import opened CashBooks
  import opened SavedLedger
  import opened CashWithinAccepted
  import opened Refunds
  import Dispenser
  import RefundChargedTwice
  import Settlement

  /** The sixth write of a cancellation that refunds is the payout. */
  lemma CutAtPayout(c: Core, id: TxnId, b: Dispenser.Behaviour, plan: Counts)
    requires id in c.txns && c.txns[id].payment != Confirmed && c.txns[id].accepted > 0
    requires BestPlan(Available(ReleaseHeld(c.money, c.txns[id])), c.txns[id].accepted) == Some(plan)
    ensures var req := Dispenser.Request(id, Dispenser.Refund);
            var p := Dispenser.Pay(c.hopper, req, plan, b);
            CutTrace(c, CancelCmd(id, true, b), 6)
            == AnnounceRefund(Stopped(c, id), id).trace + [Payout(req, p.reply, p.paid)]
  {
    hide CancelPurchase, RefundCash, CloseCancelled, PayRefund, AnnounceRefund, BestPlan, Dispenser.Pay;
    var d := Stopped(c, id);
    RefundIsAnnounced(d, id);
    var announced := AnnounceRefund(d, id);
    RefundWrites(announced, id, c.txns[id].accepted, b, plan);
    AfterRefund(d, id, b);
    var refunded := RefundCash(d, id, b).core;
    CloseWritesNoCash(refunded, id);
    NoCashAgain(PayRefund(announced, id, c.txns[id].accepted, b).core.trace, refunded.trace, CloseCancelled(refunded, id).core.trace);
    CancelTrace(c, id, b);
  }

  lemma CancelTrace(c: Core, id: TxnId, b: Dispenser.Behaviour)
    requires id in c.txns && c.txns[id].payment != Confirmed && c.txns[id].accepted > 0
    ensures var refunded := RefundCash(Stopped(c, id), id, b).core;
            var r := Handle(c, CancelCmd(id, true, b)).core;
            r == refunded || r == CloseCancelled(refunded, id).core
  {
    hide RefundCash, CloseCancelled;
  }

  /** The announcement saved the ledger; the payout after it is not in it. */
  lemma PayoutIsUnsaved(c: Core, id: TxnId, req: Dispenser.Request, reply: Option<Dispenser.Reply>, paid: Counts)
    requires id in c.txns
    ensures var cut := AnnounceRefund(c, id).trace + [Payout(req, reply, paid)];
            LastLedger(cut) == ReleaseHeld(c.money, c.txns[id]) && Unsaved(cut) == Add(map[], paid)
  {
    hide Add, ReleaseHeld;
    var d := c.(money := ReleaseHeld(c.money, c.txns[id])).Put(id, c.txns[id].DropReserve());
    var saved := c.trace + [d.Save(Some(id))];
    LastSaveIsLedger(saved, d.money);
    var announced := saved + [Intent(id, DispenseRefund)];
    assert announced[..|saved|] == saved && AnnounceRefund(c, id).trace == announced;
    assert (announced + [Payout(req, reply, paid)])[..|announced|] == announced;
  }

  lemma LastSaveIsLedger(saved: seq<Action>, money: Ledger)
    requires saved != [] && saved[|saved| - 1].SaveAll? && saved[|saved| - 1].ledger == money
    ensures LastLedger(saved) == money && Unsaved(saved) == map[]
  {
  }

  /** A crash between the first payout of a refund and the next save: the restarted machine counts cash as available that
      has left the hopper. */
  lemma CrashAfterPayoutLosesIt(c: Core, id: TxnId, e: Event)
    requires Inv(c) && Ledgered(c) && !c.money.drift && id in c.txns
    requires c.txns[id].payment != Confirmed && c.txns[id].accepted > 0
    requires Dispenser.Request(id, Dispenser.Refund) !in c.hopper.replies
    requires Payable(Available(ReleaseHeld(c.money, c.txns[id])), c.txns[id].accepted)
    requires e.Crash? && e.cmd == CancelCmd(id, true, Dispenser.Attempt(Dispenser.Dispensed)) && e.done == 6 && ReadsBack(c, e)
    ensures !Books(Next(c, e))
  {
    hide Inv, Ledgered, BestPlan, Payable, Books, Next, AnnounceRefund, LastLedger, Unsaved, Dispenser.Pay, HopperAt, Worth;
    var freed, amount := ReleaseHeld(c.money, c.txns[id]), c.txns[id].accepted;
    var req, b := Dispenser.Request(id, Dispenser.Refund), e.cmd.payout;
    BestPlanIffPayable(Available(freed), amount);
    var plan := BestPlan(Available(freed), amount).value;
    CutAtPayout(c, id, b, plan);
    PlanIsPaid(c, id, plan);
    StopChangesNothing(c, id);
    PayoutIsUnsaved(Stopped(c, id), id, req, Some(Dispenser.Dispensed), plan);
    WorthIsLost(plan, amount);
    CrashKeepsBooksExactly(c, e);
  }

  lemma PlanIsPaid(c: Core, id: TxnId, plan: Counts)
    requires Ledgered(c) && !c.money.drift && id in c.txns
    requires Dispenser.Request(id, Dispenser.Refund) !in c.hopper.replies
    requires BestPlan(Available(ReleaseHeld(c.money, c.txns[id])), c.txns[id].accepted) == Some(plan)
    ensures var p := Dispenser.Pay(c.hopper, Dispenser.Request(id, Dispenser.Refund), plan, Dispenser.Attempt(Dispenser.Dispensed));
            p.reply == Some(Dispenser.Dispensed) && p.paid == plan && Worth(plan) == c.txns[id].accepted
    ensures !ReleaseHeld(c.money, c.txns[id]).drift
  {
    hide BestPlan, HopperAt, SavesAgree, Worth;
    ReleaseKeepsBooks(c, c.txns[id]);
    BestPlanIsReservable(ReleaseHeld(c.money, c.txns[id]), c.txns[id].accepted);
    ReservedPlanIsCovered(ReleaseHeld(c.money, c.txns[id]), plan, c.hopper.counts);
  }

  lemma StopChangesNothing(c: Core, id: TxnId)
    requires id in c.txns
    ensures var d := Stopped(c, id); d.txns == c.txns && d.money == c.money && d.hopper == c.hopper
  {
  }

  lemma WorthIsLost(plan: Counts, amount: int)
    requires Worth(plan) == amount > 0
    ensures !Same(Add(map[], plan), map[])
  {
    if Same(Add(map[], plan), map[]) {
      WorthAdd(map[], plan);
      WorthSame(Add(map[], plan), map[]);
    }
  }

  /* ---------- a run ---------- */

  /** The customer who paid 100 of 200 is refunded, and the power goes right after the payout. */
  ghost function PowerCut(c: Core): Event {
    var cut := CutTrace(c, RefundChargedTwice.CANCEL_IT, 6);
    Crash(RefundChargedTwice.CANCEL_IT, 6, [], LastLedger(cut), HopperAt(cut), c.slots)
  }

  lemma PowerCutLosesPayout()
    ensures var c := RefundChargedTwice.MACHINE;
            var events := RefundChargedTwice.CANCELLED_ONCE[..4];
            var cut := PowerCut(Run(c, events));
            && Initial(c) && Books(c) && FreshRun(c, events + [cut])
            && Books(Run(c, events)) && ReadsBack(Run(c, events), cut)
            && !Books(Run(c, events + [cut]))
  {
    hide Handle, Run, FreshRun, Ledgered, Books, Inv, CutTrace, LastLedger, HopperAt, Payable;
    var machine, events := RefundChargedTwice.MACHINE, RefundChargedTwice.CANCELLED_ONCE[..4];
    RefundChargedTwice.ReachesService();
    MachineAgrees();
    QuietRunIsHonest(machine, events);
    RunKeepsInv(machine, events);
    RunKeepsBooks(machine, events);
    var c := Run(machine, events);
    RefundIsPayable(c);
    RefundChargedTwice.RunSnoc(machine, events, PowerCut(c));
    Settlement.SameIsReflexive(HopperAt(CutTrace(c, RefundChargedTwice.CANCEL_IT, 6)));
    CrashAfterPayoutLosesIt(c, 0, PowerCut(c));
  }

  lemma MachineAgrees()
    ensures Initial(RefundChargedTwice.MACHINE) && Books(RefundChargedTwice.MACHINE)
  {
  }

  lemma {:induction false} QuietRunIsHonest(c: Core, events: seq<Event>)
    requires forall e :: e in events ==> e.Completed? && !e.cmd.CancelCmd?
    ensures HonestRun(c, events)
  {
    hide Run, ReadsBack, NothingUnsaved;
    if events != [] {
      QuietRunIsHonest(c, events[..|events| - 1]);
      assert events[|events| - 1] in events;
    }
  }

  lemma RefundIsPayable(c: Core)
    requires RefundChargedTwice.Holds(c, RefundChargedTwice.HalfPaid(), SERVICE_MODE)
    ensures 0 in c.txns && c.txns[0].payment != Confirmed && c.txns[0].accepted == 100 && !c.money.drift
    ensures Dispenser.Request(0, Dispenser.Refund) !in c.hopper.replies
    ensures Payable(Available(ReleaseHeld(c.money, c.txns[0])), 100)
  {
    hide Payable;
    assert Get(Available(c.money), 100) == 3;
    RefundChargedTwice.HundredIsPayable(Available(c.money));
  }
}
