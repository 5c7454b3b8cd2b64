/** The ledger against the hopper: accounting counts equal physical counts, or the drift latch is set. */
module CashBooks {
  import opened Wrappers
  import opened Counts
  import opened ChangePlanning
  import opened Money
  import opened SaleAssessment
  import opened ChangeManagement
  import opened Fsm
  import opened Sale
  import opened Protocol
  import opened TraceFacts
  import opened ProtocolInvariant
  import opened ProtocolRuns
  import Dispenser

  ghost predicate Agree(l: Ledger, counts: Counts) {
    l.drift || Same(l.accounting, counts)
  }

  ghost predicate Books(c: Core) {
    NonNegative(c.money.reserved) && Agree(c.money, c.hopper.counts)
  }

  /* ---------- the ledger operations ---------- */

  lemma ReserveKeeps(l: Ledger, plan: Counts)
    requires NonNegative(l.reserved) && Coins(plan)
    ensures NonNegative(Reserve(l, plan).reserved)
  {
    forall d ensures Get(Reserve(l, plan).reserved, d) >= 0 {
      assert Get(l.reserved, d) >= 0;
    }
  }

  lemma ClampKeeps(c: Counts, plan: Counts)
    requires NonNegative(c)
    ensures NonNegative(ClampedSub(c, plan))
  {
    forall d ensures Get(ClampedSub(c, plan), d) >= 0 {
      assert Get(c, d) >= 0;
    }
  }

  lemma SubBoth(a: Counts, b: Counts, plan: Counts)
    requires Same(a, b)
    ensures Same(Sub(a, plan), Sub(b, plan))
  {
    forall d ensures Get(Sub(a, plan), d) == Get(Sub(b, plan), d) {
      assert Get(a, d) == Get(b, d);
    }
  }

  /** A plan just drawn from what is available never meets a hopper that lacks the pieces, unless the
      books had drifted. */
  lemma ReservedPlanIsCovered(l: Ledger, plan: Counts, counts: Counts)
    requires NonNegative(l.reserved) && Coins(plan) && CanReserve(l, plan)
    requires Agree(l, counts) && !l.drift
    ensures Dispenser.Covers(counts, plan)
  {
    forall d | d in plan ensures Get(counts, d) >= plan[d] {
      assert Get(Available(l), d) >= plan[d] > 0;
      assert Get(l.accounting, d) == Get(counts, d) && Get(l.reserved, d) >= 0;
    }
  }

  /* ---------- one payout ---------- */

  /** A payout keeps the books exactly unless it replays a request that was already paid, for then the
      ledger is charged again and nothing leaves the hopper. */
  lemma PayoutKeepsBooks(l: Ledger, h: Dispenser.Hopper, req: Dispenser.Request, plan: Counts, b: Dispenser.Behaviour)
    requires NonNegative(l.reserved) && Agree(l, h.counts) && Coins(plan)
    ensures var p := Dispenser.Pay(h, req, plan, b);
            var after := Settled(l, plan, p.reply);
            && NonNegative(after.reserved)
            && (Agree(after, p.hopper.counts)
                <==> l.drift || plan == map[] || !(req in h.replies && h.replies[req].Dispensed?))
  {
    hide Dispenser.Pay, Dispenser.OneShort, Same, NonNegative, ClampedSub, Sub, Coins, Worth;
    ClampKeeps(l.reserved, plan);
    if req in h.replies {
      Dispenser.RepeatedPay(h, req, plan, b);
      if !l.drift {
        ChargedTwice(l, plan, h.counts);
      }
    } else {
      FirstPayMoves(h, req, plan, b);
      if !l.drift {
        SubBoth(l.accounting, h.counts, plan);
      }
    }
  }

  /** What a first call leaves in the hopper, for the replies the ledger does not take for drift. */
  lemma FirstPayMoves(h: Dispenser.Hopper, req: Dispenser.Request, plan: Counts, b: Dispenser.Behaviour)
    requires req !in h.replies
    ensures var p := Dispenser.Pay(h, req, plan, b);
            && (p.reply == Some(Dispenser.Dispensed) ==> p.hopper.counts == Sub(h.counts, plan))
            && (p.reply.None? ==> p.hopper == h)
  {
    hide Dispenser.OneShort, Dispenser.Covers, Sub;
  }

  lemma ChargedTwice(l: Ledger, plan: Counts, counts: Counts)
    requires Same(l.accounting, counts) && Coins(plan)
    ensures Same(Sub(l.accounting, plan), counts) <==> plan == map[]
  {
    Inhabited(plan.Keys);
    if d :| d in plan {
      assert Get(Sub(l.accounting, plan), d) == Get(l.accounting, d) - plan[d];
      assert Get(l.accounting, d) == Get(counts, d);
    } else {
      assert plan == map[];
      forall d ensures Get(Sub(l.accounting, plan), d) == Get(counts, d) {
        assert Get(l.accounting, d) == Get(counts, d);
      }
    }
  }

  /* ---------- refunds ---------- */

  /** A cancellation that would pay a refund the device has already paid. */
  ghost predicate RefundsTwice(c: Core, cmd: Command) {
    && cmd.CancelCmd? && cmd.disables && cmd.id in c.txns
    && c.txns[cmd.id].payment != Confirmed && c.txns[cmd.id].accepted > 0
    && Dispenser.Request(cmd.id, Dispenser.Refund) in c.hopper.replies
    && c.hopper.replies[Dispenser.Request(cmd.id, Dispenser.Refund)].Dispensed?
    && Payable(Available(ReleaseHeld(c.money, c.txns[cmd.id])), c.txns[cmd.id].accepted)
  }

  lemma ReleaseKeepsBooks(c: Core, t: Txn)
    requires Books(c)
    ensures NonNegative(ReleaseHeld(c.money, t).reserved) && Agree(ReleaseHeld(c.money, t), c.hopper.counts)
    ensures ReleaseHeld(c.money, t).drift == c.money.drift
  {
    if t.reserve.Some? {
      ClampKeeps(c.money.reserved, t.reserve.value.counts);
    }
  }

  lemma PayRefundKeepsBooks(c: Core, id: TxnId, amount: nat, b: Dispenser.Behaviour)
    requires Books(c) && amount > 0
    ensures var r, req := PayRefund(c, id, amount, b).core, Dispenser.Request(id, Dispenser.Refund);
            && NonNegative(r.money.reserved)
            && (Agree(r.money, r.hopper.counts)
                <==> c.money.drift || !Payable(Available(c.money), amount)
                     || !(req in c.hopper.replies && c.hopper.replies[req].Dispensed?))
  {
    hide Dispenser.Pay, BestPlan;
    BestPlanIffPayable(Available(c.money), amount);
    var best := BestPlan(Available(c.money), amount);
    if best.Some? {
      BestPlanIsReservable(c.money, amount);
      ReserveKeeps(c.money, best.value);
      var reserved, req := Reserve(c.money, best.value), Dispenser.Request(id, Dispenser.Refund);
      PayoutKeepsBooks(reserved, c.hopper, req, best.value, b);
      RefundIsSettled(c, id, amount, b, best.value);
      assert best.value != map[] by {
        WorthOfZeros(map[]);
      }
    }
  }

  lemma RefundIsSettled(c: Core, id: TxnId, amount: int, b: Dispenser.Behaviour, plan: Counts)
    requires BestPlan(Available(c.money), amount) == Some(plan)
    ensures var r, p := PayRefund(c, id, amount, b).core, Dispenser.Pay(c.hopper, Dispenser.Request(id, Dispenser.Refund), plan, b);
            && r.money == Settled(Reserve(c.money, plan), plan, p.reply)
            && r.hopper == p.hopper
  {
    hide Dispenser.Pay, BestPlan;
  }

  lemma RefundKeepsBooks(c: Core, id: TxnId, b: Dispenser.Behaviour)
    requires Books(c) && id in c.txns && c.txns[id].accepted > 0
    ensures var r, req := RefundCash(c, id, b).core, Dispenser.Request(id, Dispenser.Refund);
            && NonNegative(r.money.reserved)
            && (Agree(r.money, r.hopper.counts)
                <==> c.money.drift || !Payable(Available(ReleaseHeld(c.money, c.txns[id])), c.txns[id].accepted)
                     || !(req in c.hopper.replies && c.hopper.replies[req].Dispensed?))
  {
    hide PayRefund, Payable;
    ReleaseKeepsBooks(c, c.txns[id]);
    PayRefundKeepsBooks(AnnounceRefund(c, id), id, c.txns[id].accepted, b);
  }

  /** Cancelling keeps the books exactly when it does not repeat a refund that was paid. */
  lemma CancelKeepsBooks(c: Core, id: TxnId, disables: bool, b: Dispenser.Behaviour)
    requires Books(c)
    ensures Books(CancelPurchase(c, id, disables, b).core)
            <==> c.money.drift || !RefundsTwice(c, CancelCmd(id, disables, b))
  {
    hide RefundCash, CloseCancelled, Payable;
    if id in c.txns && disables {
      var d := c.Log([Intent(id, DisableOnCancel), Disable(id), Outcome(id, DisableOnCancel, Succeeded)]);
      assert Books(d);
      if c.txns[id].payment != Confirmed && c.txns[id].accepted > 0 {
        RefundKeepsBooks(d, id, b);
        CloseBooks(RefundCash(d, id, b).core, id);
      } else {
        CloseBooks(d, id);
      }
    }
  }

  lemma HandlesCancel(c: Core, id: TxnId, disables: bool, b: Dispenser.Behaviour)
    ensures Handle(c, CancelCmd(id, disables, b)) == CancelPurchase(c, id, disables, b)
  {
    hide CancelPurchase;
  }

  lemma CloseBooks(c: Core, id: TxnId)
    requires id in c.txns && NonNegative(c.money.reserved)
    ensures var r := CloseCancelled(c, id).core;
            NonNegative(r.money.reserved) && (Agree(r.money, r.hopper.counts) <==> Agree(c.money, c.hopper.counts))
  {
    if c.txns[id].reserve.Some? {
      ClampKeeps(c.money.reserved, c.txns[id].reserve.value.counts);
    }
  }

  /* ---------- change ---------- */

  /** The final reserve is drawn from agreeing books, so the hopper covers it. */
  lemma FinalizeKeepsBooks(c: Core, id: TxnId)
    requires Books(c) && id in c.txns
    ensures var r := FinalizeReserve(c, id);
            && Books(r.core) && r.core.hopper == c.hopper
            && r.core.txns[id].changeDue == c.txns[id].changeDue
            && (r.error.None? && c.txns[id].changeDue > 0 ==>
                  && r.core.txns[id].reserve.Some? && Coins(r.core.txns[id].reserve.value.counts)
                  && (!c.money.drift ==> Dispenser.Covers(c.hopper.counts, r.core.txns[id].reserve.value.counts)))
  {
    hide BestPlan;
    var t := c.txns[id];
    var freed := ReleaseHeld(c.money, t);
    ReleaseKeepsBooks(c, t);
    var best := BestPlan(Available(freed), t.changeDue);
    if t.changeDue > 0 && best.Some? {
      BestPlanIsReservable(freed, t.changeDue);
      ReserveKeeps(freed, best.value);
      if !c.money.drift {
        ReservedPlanIsCovered(freed, best.value, c.hopper.counts);
      }
    }
  }

  lemma PayChangeKeepsBooks(c: Core, id: TxnId, b: Dispenser.Behaviour)
    requires Books(c) && id in c.txns && c.txns[id].reserve.Some? && Coins(c.txns[id].reserve.value.counts)
    requires Dispenser.Request(id, Dispenser.Change) !in c.hopper.replies
    ensures Books(PayChange(c, id, b).core)
  {
    hide Dispenser.Pay, DispenseChangeDue, NonNegative, Same, Coins, RowsToSave;
    var plan := c.txns[id].reserve.value.counts;
    PayoutKeepsBooks(c.money, c.hopper, Dispenser.Request(id, Dispenser.Change), plan, b);
    if c.Reaches(DISPENSING_CHANGE) {
      hide AnnounceChange;
      AnnouncementKeepsCash(c, id);
      if c.txns[id].changeDue > 0 {
        ChangeIsSettledOnce(AnnounceChange(c, id), id, b);
      } else {
        NothingDispensed(AnnounceChange(c, id), id, b);
      }
    }
  }

  lemma AnnouncementKeepsCash(c: Core, id: TxnId)
    requires id in c.txns
    ensures var d := AnnounceChange(c, id);
            && SameCash(c, d) && id in d.txns
            && d.txns[id].reserve == c.txns[id].reserve && d.txns[id].changeDue == c.txns[id].changeDue
  {
    hide RowsToSave;
  }

  lemma NothingDispensed(c: Core, id: TxnId, b: Dispenser.Behaviour)
    requires id in c.txns && c.txns[id].changeDue == 0
    ensures DispenseChangeDue(c, id, b) == Step(c, None)
  {
  }

  lemma ChangeIsSettledOnce(c: Core, id: TxnId, b: Dispenser.Behaviour)
    requires id in c.txns && c.txns[id].reserve.Some? && c.txns[id].changeDue > 0
    ensures var plan := c.txns[id].reserve.value.counts;
            var p, r := Dispenser.Pay(c.hopper, Dispenser.Request(id, Dispenser.Change), plan, b), DispenseChangeDue(c, id, b).core;
            r.money == Settled(c.money, plan, p.reply) && r.hopper == p.hopper
  {
    hide Dispenser.Pay;
  }

  lemma SettleKeepsBooks(c: Core, id: TxnId, b: Dispenser.Behaviour)
    requires Books(c) && id in c.txns
    requires Dispenser.Request(id, Dispenser.Change) !in c.hopper.replies
    ensures Books(SettleChange(c, id, b).core)
  {
    hide FinalizeReserve, PayChange;
    FinalizeKeepsBooks(c, id);
    var f := FinalizeReserve(c, id);
    if f.error.None? && c.txns[id].changeDue > 0 {
      PayChangeKeepsBooks(f.core, id, b);
    }
  }

  /** Nothing moves cash. */
  predicate SameCash(c: Core, d: Core) {
    d.money == c.money && d.hopper == c.hopper
  }

  lemma PaymentPartsKeepCash(c: Core, id: TxnId, d: Devices)
    requires id in c.txns
    ensures SameCash(c, ConfirmPayment(c, id, d.disables).core)
    ensures SameCash(c, VendProduct(c, id, d.vends).core)
    ensures SameCash(c, OpenForPickup(c, id, d.opens).core)
  {
    if c.txns[id].ConfirmPayment().Ok? {
    }
    VendKeepsCash(c, id, d.vends);
  }

  lemma VendKeepsCash(c: Core, id: TxnId, vends: bool)
    requires id in c.txns
    ensures SameCash(c, VendProduct(c, id, vends).core)
  {
  }

  /** In every reachable state a change payout is the first for its request. */
  lemma CompleteKeepsBooks(c: Core, id: TxnId, d: Devices)
    requires Inv(c) && Books(c) && c.active == Some(id) && id in c.txns
    ensures Books(CompletePayment(c, id, d).core)
  {
    hide ConfirmPayment, SettleChange, VendProduct, OpenForPickup, Base, SlotReady;
    ConfirmStep(c, id, d.disables);
    PaymentPartsKeepCash(c, id, d);
    var confirmed := ConfirmPayment(c, id, d.disables);
    if confirmed.error.None? {
      SettleKeepsBooks(confirmed.core, id, d.payout);
      var settled := SettleChange(confirmed.core, id, d.payout);
      PaymentPartsKeepCash(settled.core, id, d);
      PaymentPartsKeepCash(VendProduct(settled.core, id, d.vends).core, id, d);
    }
  }

  lemma ValidatorKeepsBooks(c: Core, e: ValidatorEvent, d: Devices)
    requires Inv(c) && Books(c)
    ensures Books(ProcessValidatorEvent(c, e, d).core)
  {
    hide CompletePayment, Inv, Books;
    var heard := c.Log([c.Save(None)]);
    QuietLog(c, heard);
    if c.active.Some? && c.active.value in c.txns && e.BillStacked? && e.bill.Some? {
      BillKeepsBooks(heard, c.active.value, e.bill.value, d);
    } else {
      OtherEventKeepsCash(c, e, d);
      SameCashSameBooks(c, ProcessValidatorEvent(c, e, d).core);
    }
  }

  lemma QuietLog(c: Core, heard: Core)
    requires Inv(c) && Books(c) && heard == c.Log([c.Save(None)])
    ensures Inv(heard) && Books(heard)
  {
    hide Sound, Vended, Saved, Paid, PayoutWentWrong, Stock;
    QuietKeepsInv(c, c, [c.Save(None)]);
  }

  lemma SameCashSameBooks(c: Core, d: Core)
    requires Books(c) && SameCash(c, d)
    ensures Books(d)
  {
  }

  lemma OtherEventKeepsCash(c: Core, e: ValidatorEvent, d: Devices)
    requires !(c.active.Some? && c.active.value in c.txns && e.BillStacked? && e.bill.Some?)
    ensures SameCash(c, ProcessValidatorEvent(c, e, d).core)
  {
  }

  lemma BillKeepsBooks(c: Core, id: TxnId, bill: nat, d: Devices)
    requires Inv(c) && Books(c) && c.active == Some(id) && id in c.txns
    ensures Books(StackBill(c, id, bill, d).core)
  {
    hide Sound, Vended, Saved, Paid, PayoutWentWrong, Stock, CompletePayment;
    if c.txns[id].RecordCash(bill).Ok? {
      var put := c.Put(id, c.txns[id].RecordCash(bill).value);
      QuietKeepsInv(c, put, [put.Save(Some(id))]);
      CompleteKeepsBooks(put.Log([put.Save(Some(id))]), id, d);
    }
  }

  lemma AcceptKeepsBooks(c: Core, id: TxnId, enabled: bool)
    requires Books(c)
    ensures Books(AcceptCash(c, id, enabled).core)
  {
    hide Assess, ReserveForSale, BeginSession, Books;
    if c.SalesAllowed() && id in c.txns {
      var plan := Assess(c.money, c.denoms, c.txns[id].price).plan;
      AssessedPlanIsReservable(c.money, c.denoms, c.txns[id].price);
      ReservingKeepsBooks(c, id, plan);
      SessionKeepsCash(ReserveForSale(c, id, plan), id, enabled);
      SameCashSameBooks(ReserveForSale(c, id, plan), BeginSession(ReserveForSale(c, id, plan), id, enabled).core);
    }
  }

  lemma ReservingKeepsBooks(c: Core, id: TxnId, plan: Counts)
    requires Books(c) && id in c.txns && Coins(plan)
    ensures Books(ReserveForSale(c, id, plan)) && id in ReserveForSale(c, id, plan).txns
  {
    hide NonNegative, Same, RowsToSave;
    ReserveKeeps(c.money, plan);
  }

  lemma SessionKeepsCash(c: Core, id: TxnId, enabled: bool)
    requires id in c.txns
    ensures SameCash(c, BeginSession(c, id, enabled).core)
  {
    hide RowsToSave;
  }

  /** The handlers without payments. */
  lemma OthersKeepCash(c: Core, cmd: Command)
    requires !cmd.AcceptCashCmd? && !cmd.ValidatorCmd? && !cmd.CancelCmd?
    ensures SameCash(c, Handle(c, cmd).core)
  {
    hide RowsToSave, ConfirmPickup, PickupTimeout, RecoverTransaction;
    match cmd
    case StartPurchaseCmd(_, _, _, _, _) =>
    case ConfirmPickupCmd(id, closes) => PickupKeepsCash(c, id, closes);
    case PickupTimeoutCmd(id, closes) => TimeoutKeepsCash(c, id, closes);
    case EnterServiceCmd =>
    case ExitServiceCmd =>
    case HealthCmd(_) =>
    case RecoverCmd(id) => RecoveryKeepsCash(c, id);
  }

  lemma PickupKeepsCash(c: Core, id: TxnId, closes: bool)
    ensures SameCash(c, ConfirmPickup(c, id, closes).core)
  {
    hide RowsToSave;
  }

  lemma TimeoutKeepsCash(c: Core, id: TxnId, closes: bool)
    ensures SameCash(c, PickupTimeout(c, id, closes).core)
  {
    hide RowsToSave;
  }

  lemma RecoveryKeepsCash(c: Core, id: TxnId)
    ensures SameCash(c, RecoverTransaction(c, id).core)
  {
    hide RowsToSave, AssessRecovery;
  }

  lemma HandleKeepsBooks(c: Core, cmd: Command)
    requires Inv(c) && Books(c) && !RefundsTwice(c, cmd)
    ensures Books(Handle(c, cmd).core)
  {
    hide Inv, Books, RefundsTwice, AcceptCash, ProcessValidatorEvent, CancelPurchase, StartPurchase, ConfirmPickup,
      PickupTimeout, RecoverTransaction;
    match cmd
    case AcceptCashCmd(id, enabled) => AcceptKeepsBooks(c, id, enabled);
    case ValidatorCmd(event, devices) => ValidatorKeepsBooks(c, event, devices);
    case CancelCmd(id, disables, payout) => CancelKeepsBooks(c, id, disables, payout);
    case _ =>
      OthersKeepCash(c, cmd);
      SameCashSameBooks(c, Handle(c, cmd).core);
  }

  /** Cancelling the sale that awaits its cash never repeats a refund. */
  lemma AwaitedSaleRefundsOnce(c: Core, cmd: Command)
    requires Inv(c) && cmd.CancelCmd? && c.active == Some(cmd.id) && AwaitingCash(c.fsm)
    ensures !RefundsTwice(c, cmd)
  {
  }

  /** With agreeing books a change payout never meets a hopper without the pieces: what comes back is what the device
      itself did. */
  lemma ChangeIsNeverShort(c: Core, id: TxnId)
    requires Books(c) && !c.money.drift && id in c.txns && c.txns[id].changeDue > 0
    requires FinalizeReserve(c, id).error.None?
    ensures var r := FinalizeReserve(c, id).core;
            && r.txns[id].reserve.Some? && Dispenser.Covers(r.hopper.counts, r.txns[id].reserve.value.counts)
  {
    FinalizeKeepsBooks(c, id);
  }
}
