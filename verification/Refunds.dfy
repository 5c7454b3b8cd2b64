/** How a cancellation can end. */
module Refunds {
  import opened Wrappers
  import opened Counts
  import opened ChangePlanning
  import opened Money
  import opened SaleAssessment
  import opened ChangeManagement
  import opened Fsm
  import opened Sale
  import opened Protocol
  import opened TraceFacts
  import opened ProtocolInvariant
  import Dispenser

  /** The cancelled sale is over: the cash is back, nothing is held for it, the machine is free. */
  ghost predicate Refunded(c: Core, d: Core, id: TxnId)
    requires id in c.txns
  {
    && id in d.txns && d.txns[id].status.Cancelled? && d.txns[id].reserve.None?
    && d.fsm.IDLE? && d.active.None?
    && Paid(d.trace, id) == c.txns[id].accepted
    && (NonNegative(c.money.reserved) ==>
          && Same(d.money.reserved, ReleaseHeld(c.money, c.txns[id]).reserved)
          && Worth(d.money.accounting) == Worth(c.money.accounting) - c.txns[id].accepted)
  }

  /** The cancellation is up for review, and is not recorded as cancelled. */
  predicate PutUpForReview(d: Core, id: TxnId) {
    && id in d.txns && d.txns[id].status.Ambiguous? && d.txns[id].recovery.ManualReview?
    && d.fsm.RECOVERY_PENDING?
  }

  /** Consuming what was just reserved takes it from the accounting counts only. */
  lemma ReserveThenConsume(l: Ledger, plan: Counts)
    requires NonNegative(l.reserved) && Coins(plan)
    ensures var d := Consume(Reserve(l, plan), plan);
            && Same(d.reserved, l.reserved)
            && Worth(d.accounting) == Worth(l.accounting) - Worth(plan)
  {
    WorthSub(l.accounting, plan);
    forall d ensures Get(Consume(Reserve(l, plan), plan).reserved, d) == Get(l.reserved, d) {
      assert Get(l.reserved, d) >= 0;
    }
  }

  lemma ReleaseKeepsNonNegative(l: Ledger, t: Txn)
    requires NonNegative(l.reserved)
    ensures NonNegative(ReleaseHeld(l, t).reserved) && ReleaseHeld(l, t).accounting == l.accounting
  {
    forall d ensures Get(ReleaseHeld(l, t).reserved, d) >= 0 {
      assert Get(l.reserved, d) >= 0;
    }
  }

  /** What a refund payout that came back does to the ledger. */
  lemma RefundBooks(c: Core, id: TxnId, amount: int, b: Dispenser.Behaviour)
    requires NonNegative(c.money.reserved) && PayRefund(c, id, amount, b).error.None?
    ensures var r := PayRefund(c, id, amount, b).core.money;
            Same(r.reserved, c.money.reserved) && Worth(r.accounting) == Worth(c.money.accounting) - amount
  {
    hide Dispenser.Pay, BestPlan, NonNegative, Same, Coins, Reserve, Consume;
    BestPlanIsReservable(c.money, amount);
    ReserveThenConsume(c.money, BestPlan(Available(c.money), amount).value);
  }

  /** The refund is announced and paid on the state `d` left by the disabled validator. */
  lemma RefundOutcome(d: Core, id: TxnId, b: Dispenser.Behaviour)
    requires Base(d) && d.active == Some(id) && id in d.txns && AwaitingCash(d.fsm)
    requires Untouched(d, id)
    ensures var r := RefundCash(d, id, b);
            if r.error.Some? then PutUpForReview(r.core, id)
            else
              && Base(r.core) && r.core.fsm == d.fsm && r.core.active == d.active
              && r.core.txns == d.txns[id := d.txns[id].DropReserve()]
              && Paid(r.core.trace, id) == d.txns[id].accepted
              && (NonNegative(d.money.reserved) ==>
                    && Same(r.core.money.reserved, ReleaseHeld(d.money, d.txns[id]).reserved)
                    && Worth(r.core.money.accounting) == Worth(d.money.accounting) - d.txns[id].accepted)
  {
    hide Sound, Vended, Saved, Paid, PayoutWentWrong, Stock, PayRefund, AnnounceRefund;
    AnnounceRefundStep(d, id);
    var announced, t := AnnounceRefund(d, id), d.txns[id].DropReserve();
    PayRefundStep(announced, id, t.accepted, b);
    RefundStep(d, id, b);
    var refunded := PayRefund(announced, id, t.accepted, b);
    PaidAround(refunded.core, id, refunded.core.Save(Some(id)));
    if NonNegative(d.money.reserved) && refunded.error.None? {
      ReleaseKeepsNonNegative(d.money, d.txns[id]);
      RefundBooks(announced, id, t.accepted, b);
    }
  }

  lemma PaidAround(c: Core, id: TxnId, saved: Action)
    requires saved.SaveAll?
    ensures Paid(c.Log([Outcome(id, DispenseRefund, Succeeded), saved]).trace, id) == Paid(c.trace, id)
  {
    var first := c.trace + [Outcome(id, DispenseRefund, Succeeded)];
    Snoc(c.trace, Outcome(id, DispenseRefund, Succeeded));
    Snoc(first, saved);
    assert c.Log([Outcome(id, DispenseRefund, Succeeded), saved]).trace == first + [saved];
  }

  /** Closing the sale from where cash was awaited cannot be refused; what is still held is given back. */
  lemma CloseOutcome(d: Core, id: TxnId)
    requires id in d.txns && AwaitingCash(d.fsm) && d.active == Some(id)
    ensures var r := CloseCancelled(d, id);
            && r.error.None? && id in r.core.txns && r.core.txns[id].status.Cancelled? && r.core.txns[id].reserve.None?
            && r.core.fsm.IDLE? && r.core.active.None? && r.core.money == ReleaseHeld(d.money, d.txns[id])
            && Paid(r.core.trace, id) == Paid(d.trace, id)
  {
    hide Paid;
    var closed := d.(money := ReleaseHeld(d.money, d.txns[id])).Put(id, d.txns[id].DropReserve().Cancel());
    Snoc(d.trace, closed.Save(Some(id)));
  }

  /** Cancelling the active unpaid sale while cash is awaited ends in one of two ways: everything taken is
      paid back exactly, the held reserve is free again and the machine is idle; or the call raises with
      the machine in recovery and the transaction ambiguous, for manual review. */
  lemma RefundDichotomy(c: Core, id: TxnId, disables: bool, b: Dispenser.Behaviour)
    requires Inv(c) && c.active == Some(id) && id in c.txns && AwaitingCash(c.fsm)
    requires c.txns[id].payment != Confirmed
    ensures var r := CancelPurchase(c, id, disables, b);
            if r.error.None? then Refunded(c, r.core, id) else PutUpForReview(r.core, id)
  {
    hide Sound, Vended, Saved, Paid, PayoutWentWrong, Stock, RefundCash, CloseCancelled, Inv;
    if disables {
      var d := Stopped(c, id);
      DisabledKeeps(c, id);
      if c.txns[id].accepted > 0 {
        RefundOutcome(d, id, b);
        var refunded := RefundCash(d, id, b);
        if refunded.error.None? {
          CloseOutcome(refunded.core, id);
        }
      } else {
        CloseOutcome(d, id);
        UntouchedIsUnpaid(d, id);
        ReleaseKeepsAccounting(c.money, c.txns[id]);
      }
    }
  }

  lemma UntouchedIsUnpaid(d: Core, id: TxnId)
    requires Untouched(d, id)
    ensures Paid(d.trace, id) == 0
  {
  }

  lemma ReleaseKeepsAccounting(l: Ledger, t: Txn)
    ensures ReleaseHeld(l, t).accounting == l.accounting
  {
  }

  /** The validator is stopped before the refund: three actions. */
  function Stopped(c: Core, id: TxnId): Core {
    c.Log([Intent(id, DisableOnCancel), Disable(id), Outcome(id, DisableOnCancel, Succeeded)])
  }

  lemma DisabledKeeps(c: Core, id: TxnId)
    requires Inv(c) && AwaitingCash(c.fsm) && c.active == Some(id)
    ensures Base(Stopped(c, id)) && Untouched(Stopped(c, id), id)
  {
    hide Sound, Vended, Saved, Paid, PayoutWentWrong, Stock;
    QuietKeepsInv(c, c, [Intent(id, DisableOnCancel), Disable(id), Outcome(id, DisableOnCancel, Succeeded)]);
  }
}
