/** Cash paid out for a transaction against the cash accepted for it: exactly when the one exceeds the other. */
module CashWithinAccepted {
  import opened Wrappers
  import opened Counts
  import opened ChangePlanning
  import opened Money
  import opened SaleAssessment
  import opened ChangeManagement
  import opened Fsm
  import opened Sale
  import opened Protocol
  import opened TraceFacts
  import opened ProtocolInvariant
  import opened ProtocolRuns
  import opened CashBooks
  import opened SavedLedger
  import opened Refunds
  import Dispenser

  /** With this payout, no more has left the hopper for the transaction than its saved row says was accepted. */
  ghost predicate Covered(front: seq<Action>, a: Action)
    requires a.Payout?
  {
    var id := a.request.id;
    id in Saved(front) && Paid(front, id) + Worth(a.paid) <= Saved(front)[id].accepted
  }

  /** At every payout of cash, change and refunds together stayed within what was accepted. */
  ghost predicate Within(trace: seq<Action>) {
    trace == []
    || var front, last := trace[..|trace| - 1], trace[|trace| - 1];
       Within(front) && (last.Payout? && Worth(last.paid) > 0 ==> Covered(front, last))
  }

  lemma {:induction false} WithinCut(trace: seq<Action>, n: nat)
    requires Within(trace) && n <= |trace|
    ensures Within(trace[..n])
  {
    if n < |trace| {
      WithinCut(trace[..|trace| - 1], n);
      assert trace[..|trace| - 1][..n] == trace[..n];
    } else {
      assert trace[..n] == trace;
    }
  }

  /** The definition read off position by position. */
  lemma {:induction false} WithinEverywhere(trace: seq<Action>)
    ensures Within(trace)
            <==> forall i :: 0 <= i < |trace| && trace[i].Payout? && Worth(trace[i].paid) > 0 ==> Covered(trace[..i], trace[i])
  {
    hide Covered, Worth;
    if trace != [] {
      var front := trace[..|trace| - 1];
      WithinEverywhere(front);
      assert forall i :: 0 <= i < |front| ==> front[i] == trace[i] && front[..i] == trace[..i];
    }
  }

  lemma WithinSnoc(trace: seq<Action>, a: Action)
    ensures Within(trace + [a]) <==> Within(trace) && (a.Payout? && Worth(a.paid) > 0 ==> Covered(trace, a))
  {
    hide Covered, Worth;
    assert (trace + [a])[..|trace|] == trace;
  }

  /** `after` continues `before` without a payout. */
  ghost predicate NoCash(before: seq<Action>, after: seq<Action>) {
    && |before| <= |after| && after[..|before|] == before
    && forall i :: |before| <= i < |after| ==> !after[i].Payout?
  }

  lemma {:induction false} NoCashKeeps(before: seq<Action>, after: seq<Action>, id: TxnId)
    requires NoCash(before, after)
    ensures Within(after) <==> Within(before)
    ensures Paid(after, id) == Paid(before, id)
    decreases |after|
  {
    hide Covered, Worth;
    if |after| == |before| {
      assert after == before;
    } else {
      var shorter := after[..|after| - 1];
      assert shorter[..|before|] == before;
      NoCashKeeps(before, shorter, id);
    }
  }

  lemma PaperIsNoCash(c: Core, d: Core)
    requires Paper(c, d)
    ensures NoCash(c.trace, d.trace)
  {
  }

  lemma NoCashAgain(a: seq<Action>, b: seq<Action>, c: seq<Action>)
    requires NoCash(a, b) && NoCash(b, c)
    ensures NoCash(a, c)
  {
    assert c[..|a|] == c[..|b|][..|a|];
    forall i | |a| <= i < |c| ensures !c[i].Payout? {
      assert i < |b| ==> c[i] == c[..|b|][i];
    }
  }

  /* ---------- change ---------- */

  /** The row written with the announcement records what was accepted. */
  lemma ChangeIsAnnounced(c: Core, id: TxnId)
    requires id in c.txns
    ensures var d := AnnounceChange(c, id);
            && NoCash(c.trace, d.trace) && d.hopper == c.hopper
            && id in d.txns && d.txns[id].accepted == c.txns[id].accepted && d.txns[id].changeDue == c.txns[id].changeDue
            && d.txns[id].reserve == c.txns[id].reserve
            && id in Saved(d.trace) && Saved(d.trace)[id].accepted == c.txns[id].accepted
  {
    hide Saved;
    var d := c.Put(id, c.txns[id].MarkChangePending()).At(DISPENSING_CHANGE);
    var rows := d.Rows(Some(id));
    assert id in rows && rows[id].accepted == c.txns[id].accepted;
    SavedLast(c.trace, [Intent(id, DispenseChange)], rows, d.money);
    assert AnnounceChange(c, id).trace == c.trace + ([Intent(id, DispenseChange)] + [SaveAll(rows, d.money)]);
  }

  /** The first payout for a transaction is the change, and less than was accepted. */
  lemma ChangePaidWithin(c: Core, id: TxnId, b: Dispenser.Behaviour)
    requires Within(c.trace) && id in c.txns && Paid(c.trace, id) == 0
    requires c.txns[id].reserve.Some? && Coins(c.txns[id].reserve.value.counts)
    requires Worth(c.txns[id].reserve.value.counts) == c.txns[id].changeDue <= c.txns[id].accepted && c.txns[id].changeDue > 0
    requires id in Saved(c.trace) && Saved(c.trace)[id].accepted == c.txns[id].accepted
    requires Dispenser.Request(id, Dispenser.Change) !in c.hopper.replies
    ensures Within(DispenseChangeDue(c, id, b).core.trace)
  {
    hide Within, Dispenser.Pay, Saved, Worth;
    var req, plan := Dispenser.Request(id, Dispenser.Change), c.txns[id].reserve.value.counts;
    var p := Dispenser.Pay(c.hopper, req, plan, b);
    Dispenser.FirstPay(c.hopper, req, plan, b);
    DispenseWrites(c, id, b);
    WithinSnoc(c.trace, Payout(req, p.reply, p.paid));
  }

  lemma PayChangeWithin(c: Core, id: TxnId, b: Dispenser.Behaviour)
    requires Within(c.trace) && id in c.txns && Paid(c.trace, id) == 0
    requires c.txns[id].reserve.Some? && Coins(c.txns[id].reserve.value.counts)
    requires Worth(c.txns[id].reserve.value.counts) == c.txns[id].changeDue <= c.txns[id].accepted && c.txns[id].changeDue > 0
    requires Dispenser.Request(id, Dispenser.Change) !in c.hopper.replies
    ensures Within(PayChange(c, id, b).core.trace)
  {
    hide Within, DispenseChangeDue, Saved, Worth, Paid, AnnounceChange;
    if c.Reaches(DISPENSING_CHANGE) {
      var d := AnnounceChange(c, id);
      ChangeIsAnnounced(c, id);
      NoCashKeeps(c.trace, d.trace, id);
      ChangePaidWithin(d, id, b);
      var paid := DispenseChangeDue(d, id, b).core;
      NoCashKeeps(paid.trace, paid.Log([Outcome(id, DispenseChange, OutcomeAmbiguous)]).trace, id);
      NoCashKeeps(paid.trace, paid.Log([Outcome(id, DispenseChange, Succeeded), paid.Save(Some(id))]).trace, id);
    }
  }

  lemma SettleWithin(c: Core, id: TxnId, b: Dispenser.Behaviour)
    requires Paying(c, id) && Within(c.trace)
    ensures Within(SettleChange(c, id, b).core.trace)
  {
    hide Within, PayChange, FinalizeReserve, Base, Paid, Saved, Worth;
    FinalizeStep(c, id);
    FinalizeWritesNothing(c, id);
    var f := FinalizeReserve(c, id);
    if f.error.None? && c.txns[id].changeDue > 0 {
      PayChangeWithin(f.core, id, b);
    }
  }

  lemma CompleteWithin(c: Core, id: TxnId, d: Devices)
    requires Inv(c) && c.active == Some(id) && id in c.txns && Within(c.trace)
    ensures Within(CompletePayment(c, id, d).core.trace)
  {
    hide Within, ConfirmPayment, SettleChange, VendProduct, OpenForPickup, Inv, Paying, Paper;
    ConfirmStep(c, id, d.disables);
    ConfirmPaper(c, id, d.disables);
    var confirmed := ConfirmPayment(c, id, d.disables).core;
    PaperKeepsWithin(c, confirmed);
    if ConfirmPayment(c, id, d.disables).error.None? {
      SettleWithin(confirmed, id, d.payout);
      var settled := SettleChange(confirmed, id, d.payout).core;
      VendPaper(settled, id, d.vends);
      var vended := VendProduct(settled, id, d.vends).core;
      PaperKeepsWithin(settled, vended);
      OpenPaper(vended, id, d.opens);
      PaperKeepsWithin(vended, OpenForPickup(vended, id, d.opens).core);
    }
  }

  lemma PaperKeepsWithin(c: Core, d: Core)
    requires Paper(c, d) && Within(c.trace)
    ensures Within(d.trace)
  {
    hide Within;
    PaperIsNoCash(c, d);
    NoCashKeeps(c.trace, d.trace, 0);
  }

  lemma BillWithin(c: Core, id: TxnId, bill: nat, d: Devices)
    requires Inv(c) && c.active == Some(id) && id in c.txns && Within(c.trace)
    ensures Within(StackBill(c, id, bill, d).core.trace)
  {
    hide Within, CompletePayment, Sound, Vended, Saved, Paid, PayoutWentWrong, Stock;
    if c.txns[id].RecordCash(bill).Ok? {
      var put := c.Put(id, c.txns[id].RecordCash(bill).value);
      var counted := put.Log([put.Save(Some(id))]);
      QuietKeepsInv(c, put, [put.Save(Some(id))]);
      NoCashKeeps(c.trace, counted.trace, id);
      CompleteWithin(counted, id, d);
    }
  }

  lemma ValidatorWithin(c: Core, e: ValidatorEvent, d: Devices)
    requires Inv(c) && Within(c.trace)
    ensures Within(ProcessValidatorEvent(c, e, d).core.trace)
  {
    hide Within, StackBill, Sound, Vended, Saved, Paid, PayoutWentWrong, Stock;
    var heard := c.Log([c.Save(None)]);
    QuietKeepsInv(c, c, [c.Save(None)]);
    NoCashKeeps(c.trace, heard.trace, 0);
    if c.active.Some? && c.active.value in c.txns && e.BillStacked? && e.bill.Some? {
      BillWithin(heard, c.active.value, e.bill.value, d);
    }
  }

  /* ---------- refunds ---------- */

  /** What a refund for the transaction would physically pay. */
  ghost function RefundPays(c: Core, id: TxnId, b: Dispenser.Behaviour): int
    requires id in c.txns
  {
    match BestPlan(Available(ReleaseHeld(c.money, c.txns[id])), c.txns[id].accepted)
    case None => 0
    case Some(plan) => Worth(Dispenser.Pay(c.hopper, Dispenser.Request(id, Dispenser.Refund), plan, b).paid)
  }

  /** A cancellation that pays a refund although more was paid already than the refund leaves unpaid. */
  ghost predicate Overpays(c: Core, cmd: Command) {
    && cmd.CancelCmd? && cmd.disables && cmd.id in c.txns
    && c.txns[cmd.id].payment != Confirmed && c.txns[cmd.id].accepted > 0
    && RefundPays(c, cmd.id, cmd.payout) > 0
    && Paid(c.trace, cmd.id) > c.txns[cmd.id].accepted - RefundPays(c, cmd.id, cmd.payout)
  }

  /** What can be seen before the call: a payable refund the device does not know, for a transaction already paid something. */
  ghost predicate PaysAgain(c: Core, id: TxnId) {
    && id in c.txns && c.txns[id].payment != Confirmed && c.txns[id].accepted > 0
    && Dispenser.Request(id, Dispenser.Refund) !in c.hopper.replies
    && Payable(Available(ReleaseHeld(c.money, c.txns[id])), c.txns[id].accepted)
    && Paid(c.trace, id) > 0
  }

  /** Only such a cancellation can pay too much. */
  lemma OverpayingPaysAgain(c: Core, cmd: Command)
    requires Overpays(c, cmd)
    ensures PaysAgain(c, cmd.id)
  {
    hide BestPlan, Payable, Dispenser.Pay, Worth, Paid;
    var id, available := cmd.id, Available(ReleaseHeld(c.money, c.txns[cmd.id]));
    var req := Dispenser.Request(id, Dispenser.Refund);
    BestPlanIffPayable(available, c.txns[id].accepted);
    var plan := BestPlan(available, c.txns[id].accepted).value;
    BestPlanIsReservable(ReleaseHeld(c.money, c.txns[id]), c.txns[id].accepted);
    if req in c.hopper.replies {
      Dispenser.RepeatedPay(c.hopper, req, plan, cmd.payout);
      WorthOfZeros(map[]);
    } else {
      Dispenser.FirstPay(c.hopper, req, plan, cmd.payout);
    }
  }

  /** With agreeing books and a device that dispenses, every such cancellation pays too much. */
  lemma DispensingOverpaysExactly(c: Core, id: TxnId)
    requires Books(c) && !c.money.drift
    ensures Overpays(c, CancelCmd(id, true, Dispenser.Attempt(Dispenser.Dispensed))) <==> PaysAgain(c, id)
  {
    hide BestPlan, Payable, Worth, Paid;
    var b := Dispenser.Attempt(Dispenser.Dispensed);
    if PaysAgain(c, id) {
      var freed, amount := ReleaseHeld(c.money, c.txns[id]), c.txns[id].accepted;
      ReleaseKeepsBooks(c, c.txns[id]);
      BestPlanIffPayable(Available(freed), amount);
      BestPlanIsReservable(freed, amount);
      ReservedPlanIsCovered(freed, BestPlan(Available(freed), amount).value, c.hopper.counts);
    }
    if Overpays(c, CancelCmd(id, true, b)) {
      OverpayingPaysAgain(c, CancelCmd(id, true, b));
    }
  }

  lemma RefundIsAnnounced(c: Core, id: TxnId)
    requires id in c.txns
    ensures var d := AnnounceRefund(c, id);
            && NoCash(c.trace, d.trace) && |d.trace| == |c.trace| + 2
            && d.hopper == c.hopper && d.money == ReleaseHeld(c.money, c.txns[id])
            && id in Saved(d.trace) && Saved(d.trace)[id].accepted == c.txns[id].accepted
  {
    hide Saved;
    var d := c.(money := ReleaseHeld(c.money, c.txns[id])).Put(id, c.txns[id].DropReserve());
    var rows := d.Rows(Some(id));
    assert id in rows && rows[id].accepted == c.txns[id].accepted;
    var saved := c.trace + [SaveAll(rows, d.money)];
    SavedSnoc(c.trace, rows, d.money);
    Snoc(saved, Intent(id, DispenseRefund));
    assert AnnounceRefund(c, id).trace == saved + [Intent(id, DispenseRefund)];
  }

  /** The refund payout keeps within what was accepted exactly unless the cancellation overpays. */
  lemma RefundPaidWithin(c: Core, id: TxnId, b: Dispenser.Behaviour)
    requires id in c.txns && c.txns[id].payment != Confirmed && c.txns[id].accepted > 0 && Within(c.trace)
    ensures var r := PayRefund(AnnounceRefund(c, id), id, c.txns[id].accepted, b).core;
            && |c.trace| + 2 <= |r.trace| <= |c.trace| + 3 && NoCash(c.trace, r.trace[..|c.trace| + 2])
            && (|r.trace| < |c.trace| + 3 ==> !Overpays(c, CancelCmd(id, true, b)))
            && (Within(r.trace) <==> !Overpays(c, CancelCmd(id, true, b)))
  {
    hide Within, BestPlan, Dispenser.Pay, Worth, Paid, Saved, AnnounceRefund;
    var d := AnnounceRefund(c, id);
    RefundIsAnnounced(c, id);
    NoCashKeeps(c.trace, d.trace, id);
    var r := PayRefund(d, id, c.txns[id].accepted, b).core;
    var best := BestPlan(Available(d.money), c.txns[id].accepted);
    if best.Some? {
      RefundWrites(d, id, c.txns[id].accepted, b, best.value);
      var p := Dispenser.Pay(d.hopper, Dispenser.Request(id, Dispenser.Refund), best.value, b);
      WithinSnoc(d.trace, Payout(Dispenser.Request(id, Dispenser.Refund), p.reply, p.paid));
    }
    assert r.trace[..|d.trace|] == d.trace;
  }

  lemma AfterRefund(c: Core, id: TxnId, b: Dispenser.Behaviour)
    requires id in c.txns
    ensures NoCash(PayRefund(AnnounceRefund(c, id), id, c.txns[id].accepted, b).core.trace, RefundCash(c, id, b).core.trace)
  {
    hide PayRefund, AnnounceRefund;
  }

  lemma CloseWritesNoCash(c: Core, id: TxnId)
    requires id in c.txns
    ensures NoCash(c.trace, CloseCancelled(c, id).core.trace)
  {
  }

  lemma StoppedKeeps(c: Core, id: TxnId, b: Dispenser.Behaviour)
    requires Within(c.trace)
    ensures var d := Stopped(c, id);
            && Within(d.trace) && NoCash(c.trace, d.trace)
            && (Overpays(d, CancelCmd(id, true, b)) <==> Overpays(c, CancelCmd(id, true, b)))
  {
    hide Within, Paid, BestPlan, Dispenser.Pay, Worth;
    NoCashKeeps(c.trace, Stopped(c, id).trace, id);
  }

  /** The trace of a cancellation that refunds: three actions stop the validator, two announce, the sixth is the payout. */
  lemma RefundShapes(c: Core, id: TxnId, b: Dispenser.Behaviour)
    requires id in c.txns && c.txns[id].payment != Confirmed && c.txns[id].accepted > 0 && Within(c.trace)
    ensures var paid := PayRefund(AnnounceRefund(Stopped(c, id), id), id, c.txns[id].accepted, b).core.trace;
            && NoCash(paid, CancelPurchase(c, id, true, b).core.trace)
            && |c.trace| + 5 <= |paid| <= |c.trace| + 6 && NoCash(c.trace, paid[..|c.trace| + 5])
            && (|paid| < |c.trace| + 6 ==> !Overpays(c, CancelCmd(id, true, b)))
            && (Within(paid) <==> !Overpays(c, CancelCmd(id, true, b)))
  {
    hide Within, RefundCash, CloseCancelled, PayRefund, AnnounceRefund, Overpays, NoCash;
    var d := Stopped(c, id);
    StoppedKeeps(c, id, b);
    RefundPaidWithin(d, id, b);
    AfterRefund(d, id, b);
    var paid := PayRefund(AnnounceRefund(d, id), id, c.txns[id].accepted, b).core.trace;
    var refunded := RefundCash(d, id, b).core;
    CloseWritesNoCash(refunded, id);
    NoCashAgain(paid, refunded.trace, CloseCancelled(refunded, id).core.trace);
    NoCashAgain(c.trace, d.trace, paid[..|c.trace| + 5]);
  }

  lemma CancelWithinExactly(c: Core, id: TxnId, disables: bool, b: Dispenser.Behaviour)
    requires Within(c.trace)
    ensures var r, cmd := CancelPurchase(c, id, disables, b).core, CancelCmd(id, disables, b);
            && (Within(r.trace) <==> !Overpays(c, cmd))
            && (Overpays(c, cmd) ==>
                  && |r.trace| >= |c.trace| + 6 && NoCash(c.trace, r.trace[..|c.trace| + 5])
                  && !Within(r.trace[..|c.trace| + 6]))
  {
    hide Within, RefundCash, CloseCancelled, Overpays, NoCash;
    var r, cmd := CancelPurchase(c, id, disables, b).core, CancelCmd(id, disables, b);
    if id in c.txns && disables && c.txns[id].payment != Confirmed && c.txns[id].accepted > 0 {
      RefundShapes(c, id, b);
      var paid := PayRefund(AnnounceRefund(Stopped(c, id), id), id, c.txns[id].accepted, b).core.trace;
      NoCashKeeps(paid, r.trace, id);
      PaidIsPrefix(paid, r.trace, |c.trace| + 5);
    } else {
      CancelWithoutRefund(c, id, disables, b);
      NoCashKeeps(c.trace, r.trace, id);
    }
  }

  lemma PaidIsPrefix(paid: seq<Action>, all: seq<Action>, n: nat)
    requires NoCash(paid, all) && n <= |paid| <= n + 1
    ensures all[..n] == paid[..n] && (|paid| == n + 1 ==> |all| >= n + 1 && all[..n + 1] == paid)
  {
    assert all[..n] == all[..|paid|][..n];
  }

  lemma CancelWithoutRefund(c: Core, id: TxnId, disables: bool, b: Dispenser.Behaviour)
    requires !(id in c.txns && disables && c.txns[id].payment != Confirmed && c.txns[id].accepted > 0)
    ensures NoCash(c.trace, CancelPurchase(c, id, disables, b).core.trace)
    ensures !Overpays(c, CancelCmd(id, disables, b))
  {
    hide CloseCancelled, RefundCash;
    if id in c.txns && disables {
      CloseWritesNoCash(Stopped(c, id), id);
      NoCashAgain(c.trace, Stopped(c, id).trace, CloseCancelled(Stopped(c, id), id).core.trace);
    }
  }

  /* ---------- the trace only grows ---------- */

  lemma SettleExtends(c: Core, id: TxnId, b: Dispenser.Behaviour)
    requires id in c.txns
    ensures c.trace <= SettleChange(c, id, b).core.trace
  {
    hide FinalizeReserve, PayChange;
    FinalizeWritesNothing(c, id);
    PayChangeExtends(FinalizeReserve(c, id).core, id, b);
  }

  lemma PayChangeExtends(c: Core, id: TxnId, b: Dispenser.Behaviour)
    requires id in c.txns
    ensures c.trace <= PayChange(c, id, b).core.trace
  {
    hide AnnounceChange, DispenseChangeDue, Saved;
    var d := AnnounceChange(c, id);
    ChangeIsAnnounced(c, id);
    DispenseExtends(d, id, b);
    assert c.trace <= d.trace <= DispenseChangeDue(d, id, b).core.trace;
  }

  lemma DispenseExtends(c: Core, id: TxnId, b: Dispenser.Behaviour)
    requires id in c.txns
    ensures c.trace <= DispenseChangeDue(c, id, b).core.trace
  {
    hide Dispenser.Pay;
  }

  lemma CompleteExtends(c: Core, id: TxnId, d: Devices)
    requires id in c.txns
    ensures c.trace <= CompletePayment(c, id, d).core.trace
  {
    hide ConfirmPayment, SettleChange, VendProduct, OpenForPickup, Paper;
    ConfirmPaper(c, id, d.disables);
    var confirmed := ConfirmPayment(c, id, d.disables).core;
    SettleExtends(confirmed, id, d.payout);
    var settled := SettleChange(confirmed, id, d.payout).core;
    VendPaper(settled, id, d.vends);
    var vended := VendProduct(settled, id, d.vends).core;
    OpenPaper(vended, id, d.opens);
    PaperExtends(c, confirmed);
    PaperExtends(settled, vended);
    PaperExtends(vended, OpenForPickup(vended, id, d.opens).core);
    assert c.trace <= confirmed.trace <= settled.trace <= vended.trace;
  }

  lemma PaperExtends(c: Core, d: Core)
    requires Paper(c, d)
    ensures c.trace <= d.trace
  {
  }

  lemma ValidatorExtends(c: Core, e: ValidatorEvent, d: Devices)
    ensures c.trace <= ProcessValidatorEvent(c, e, d).core.trace
  {
    hide CompletePayment;
    var heard := c.Log([c.Save(None)]);
    if c.active.Some? && c.active.value in c.txns && e.BillStacked? && e.bill.Some? {
      var id := c.active.value;
      if c.txns[id].RecordCash(e.bill.value).Ok? {
        var put := heard.Put(id, c.txns[id].RecordCash(e.bill.value).value);
        CompleteExtends(put.Log([put.Save(Some(id))]), id, d);
      }
    }
  }

  lemma CancelExtends(c: Core, id: TxnId, disables: bool, b: Dispenser.Behaviour)
    ensures c.trace <= CancelPurchase(c, id, disables, b).core.trace
  {
    hide RefundCash, CloseCancelled;
    if id in c.txns && disables {
      var d := Stopped(c, id);
      RefundExtends(d, id, b);
      CloseWritesNoCash(d, id);
      CloseWritesNoCash(RefundCash(d, id, b).core, id);
      assert c.trace <= d.trace <= RefundCash(d, id, b).core.trace;
    }
  }

  lemma RefundExtends(c: Core, id: TxnId, b: Dispenser.Behaviour)
    requires id in c.txns
    ensures c.trace <= RefundCash(c, id, b).core.trace
  {
    hide AnnounceRefund, PayRefund, Saved;
    var d := AnnounceRefund(c, id);
    RefundIsAnnounced(c, id);
    AfterRefund(c, id, b);
    PayRefundExtends(d, id, c.txns[id].accepted, b);
    assert c.trace <= d.trace <= PayRefund(d, id, c.txns[id].accepted, b).core.trace;
  }

  lemma PayRefundExtends(c: Core, id: TxnId, amount: int, b: Dispenser.Behaviour)
    ensures c.trace <= PayRefund(c, id, amount, b).core.trace
  {
    hide Dispenser.Pay, BestPlan;
  }

  lemma HandleExtends(c: Core, cmd: Command)
    ensures c.trace <= Handle(c, cmd).core.trace
  {
    hide Paper, AcceptCash, ProcessValidatorEvent, CancelPurchase, StartPurchase, ConfirmPickup, PickupTimeout,
      RecoverTransaction, EnterServiceMode, ExitServiceMode, HealthPoll;
    match cmd
    case ValidatorCmd(event, devices) => ValidatorExtends(c, event, devices);
    case CancelCmd(id, disables, payout) => CancelExtends(c, id, disables, payout);
    case AcceptCashCmd(id, enabled) =>
      AcceptPaper(c, id, enabled);
      PaperExtends(c, AcceptCash(c, id, enabled).core);
    case _ =>
      OtherPaper(c, cmd);
      PaperExtends(c, Handle(c, cmd).core);
  }

  lemma NextExtends(c: Core, e: Event)
    ensures c.trace <= Next(c, e).trace
  {
    hide Handle, Restart;
    HandleExtends(c, e.cmd);
    if e.Crash? {
      var cut := Handle(c, e.cmd).core.(trace := CutTrace(c, e.cmd, e.done));
      RestartWritesNoCash(cut, e.order, e.money, e.counts, e.slots);
      assert c.trace <= cut.trace <= Next(c, e).trace;
    }
  }

  /* ---------- every command, every run ---------- */

  /** A command keeps the payouts within what was accepted exactly unless it overpays. */
  lemma HandleWithinExactly(c: Core, cmd: Command)
    requires Inv(c) && Within(c.trace)
    ensures Within(Handle(c, cmd).core.trace) <==> !Overpays(c, cmd)
  {
    hide Inv, Within, Paper, Paid, RefundPays, AcceptCash, ProcessValidatorEvent, CancelPurchase, StartPurchase, ConfirmPickup,
      PickupTimeout, RecoverTransaction, EnterServiceMode, ExitServiceMode, HealthPoll;
    match cmd
    case ValidatorCmd(event, devices) => ValidatorWithin(c, event, devices);
    case CancelCmd(id, disables, payout) => CancelWithinExactly(c, id, disables, payout);
    case AcceptCashCmd(id, enabled) =>
      AcceptPaper(c, id, enabled);
      PaperKeepsWithin(c, AcceptCash(c, id, enabled).core);
    case _ =>
      OtherPaper(c, cmd);
      PaperKeepsWithin(c, Handle(c, cmd).core);
  }

  /** The event overpays: a crash only when the payout, the sixth write of the cancellation, was made before it. */
  ghost predicate Overpaid(c: Core, e: Event) {
    Overpays(c, e.cmd) && (e.Crash? ==> e.done >= 6)
  }

  lemma CutWithinExactly(c: Core, cmd: Command, done: nat)
    requires Inv(c) && Within(c.trace)
    ensures Within(CutTrace(c, cmd, done)) <==> !(Overpays(c, cmd) && done >= 6)
  {
    hide Inv, Within, Handle, CancelPurchase, Overpays, NoCash;
    var full, cut := Handle(c, cmd).core.trace, CutTrace(c, cmd, done);
    HandleWithinExactly(c, cmd);
    if !Overpays(c, cmd) {
      WithinCut(full, |cut|);
    } else {
      OverpaysCancels(c, cmd);
      CancelWithinExactly(c, cmd.id, cmd.disables, cmd.payout);
      if done >= 6 {
        assert cut[..|c.trace| + 6] == full[..|c.trace| + 6];
        if Within(cut) {
          WithinCut(cut, |c.trace| + 6);
        }
      } else {
        NoCashKeeps(c.trace, full[..|c.trace| + 5], cmd.id);
        WithinCut(full[..|c.trace| + 5], |cut|);
        assert full[..|c.trace| + 5][..|cut|] == cut;
      }
    }
  }

  lemma OverpaysCancels(c: Core, cmd: Command)
    requires Overpays(c, cmd)
    ensures cmd.CancelCmd? && Handle(c, cmd) == CancelPurchase(c, cmd.id, cmd.disables, cmd.payout)
  {
    hide CancelPurchase, RefundPays, Paid;
  }

  lemma RestartWritesNoCash(c: Core, order: seq<TxnId>, money: Ledger, counts: Counts, slots: map<SlotId, Slot>)
    ensures NoCash(c.trace, Restart(c, order, money, counts, slots).trace)
  {
    hide Restart;
    RestartTrace(c, order, money, counts, slots);
  }

  lemma NextWithinExactly(c: Core, e: Event)
    requires Inv(c) && Within(c.trace)
    ensures Within(Next(c, e).trace) <==> !Overpaid(c, e)
  {
    hide Inv, Within, Handle, Restart, Overpays, NoCash;
    if e.Completed? {
      HandleWithinExactly(c, e.cmd);
    } else {
      CutWithinExactly(c, e.cmd, e.done);
      var cut := Handle(c, e.cmd).core.(trace := CutTrace(c, e.cmd, e.done));
      RestartWritesNoCash(cut, e.order, e.money, e.counts, e.slots);
      NoCashKeeps(cut.trace, Next(c, e).trace, 0);
    }
  }

  ghost predicate NeverOverpays(c: Core, events: seq<Event>) {
    events == []
    || var front, e := events[..|events| - 1], events[|events| - 1];
       NeverOverpays(c, front) && !Overpaid(Run(c, front), e)
  }

  /** Over every run, crashes and all device behaviours included, the cash paid out for a transaction stays within what
      was accepted for it exactly when no cancellation pays a refund on top of an earlier payout. */
  lemma {:induction false} RunWithinExactly(c: Core, events: seq<Event>)
    requires Initial(c) && FreshRun(c, events)
    ensures Within(Run(c, events).trace) <==> NeverOverpays(c, events)
  {
    hide Inv, Within, Next, Overpaid;
    if events == [] {
      StartsWithin(c);
    } else {
      var front, e := events[..|events| - 1], events[|events| - 1];
      RunWithinExactly(c, front);
      RunKeepsInv(c, front);
      if Within(Run(c, front).trace) {
        NextWithinExactly(Run(c, front), e);
      } else {
        NextExtends(Run(c, front), e);
        assert Next(Run(c, front), e).trace[..|Run(c, front).trace|] == Run(c, front).trace;
        if Within(Next(Run(c, front), e).trace) {
          WithinCut(Next(Run(c, front), e).trace, |Run(c, front).trace|);
        }
      }
    }
  }

  lemma StartsWithin(c: Core)
    requires Initial(c)
    ensures Within(c.trace)
  {
    assert c.trace[..|c.trace| - 1] == [];
  }

  /* ---------- the two cancellations of a delivered sale ---------- */

  /** A cancellation that pays a refund adds what the device dispenses for it. */
  lemma CancelAdds(c: Core, id: TxnId, b: Dispenser.Behaviour)
    requires id in c.txns && c.txns[id].payment != Confirmed && c.txns[id].accepted > 0
    ensures Paid(CancelPurchase(c, id, true, b).core.trace, id) == Paid(c.trace, id) + RefundPays(c, id, b)
  {
    hide RefundCash, CloseCancelled, PayRefund, AnnounceRefund, NoCash, Paid, RefundPays;
    var d := Stopped(c, id);
    StopChangesNoRefund(c, id, b);
    var paid := PayRefund(AnnounceRefund(d, id), id, c.txns[id].accepted, b).core.trace;
    RefundAdds(d, id, b);
    AfterRefund(d, id, b);
    var refunded := RefundCash(d, id, b).core;
    NoCashKeeps(paid, refunded.trace, id);
    CloseWritesNoCash(refunded, id);
    NoCashKeeps(refunded.trace, CloseCancelled(refunded, id).core.trace, id);
  }

  lemma StopChangesNoRefund(c: Core, id: TxnId, b: Dispenser.Behaviour)
    requires id in c.txns
    ensures Paid(Stopped(c, id).trace, id) == Paid(c.trace, id) && RefundPays(Stopped(c, id), id, b) == RefundPays(c, id, b)
  {
    hide Paid, BestPlan, Dispenser.Pay, Worth;
    NoCashKeeps(c.trace, Stopped(c, id).trace, id);
  }

  lemma RefundAdds(c: Core, id: TxnId, b: Dispenser.Behaviour)
    requires id in c.txns
    ensures Paid(PayRefund(AnnounceRefund(c, id), id, c.txns[id].accepted, b).core.trace, id)
            == Paid(c.trace, id) + RefundPays(c, id, b)
  {
    hide BestPlan, Dispenser.Pay, Worth, Paid, Saved, AnnounceRefund;
    var d := AnnounceRefund(c, id);
    RefundIsAnnounced(c, id);
    NoCashKeeps(c.trace, d.trace, id);
    var best := BestPlan(Available(d.money), c.txns[id].accepted);
    if best.Some? {
      RefundWrites(d, id, c.txns[id].accepted, b, best.value);
      var p := Dispenser.Pay(d.hopper, Dispenser.Request(id, Dispenser.Refund), best.value, b);
      Snoc(d.trace, Payout(Dispenser.Request(id, Dispenser.Refund), p.reply, p.paid));
    }
  }

  /** A payable first refund is paid whole by a device that dispenses, when the books agree. */
  lemma DispensingPaysAll(c: Core, id: TxnId)
    requires Books(c) && !c.money.drift && id in c.txns
    requires Dispenser.Request(id, Dispenser.Refund) !in c.hopper.replies
    requires Payable(Available(ReleaseHeld(c.money, c.txns[id])), c.txns[id].accepted)
    ensures RefundPays(c, id, Dispenser.Attempt(Dispenser.Dispensed)) == c.txns[id].accepted
  {
    hide BestPlan, Payable, Worth;
    var freed, amount := ReleaseHeld(c.money, c.txns[id]), c.txns[id].accepted;
    ReleaseKeepsBooks(c, c.txns[id]);
    BestPlanIffPayable(Available(freed), amount);
    BestPlanIsReservable(freed, amount);
    ReservedPlanIsCovered(freed, BestPlan(Available(freed), amount).value, c.hopper.counts);
  }

  /** Cancelling a paid-up sale where the machine cannot go to CANCELLED pays nothing, is refused, and leaves its payment
      cancelled. */
  lemma RefusedCancelForgets(c: Core, id: TxnId, b: Dispenser.Behaviour)
    requires Books(c) && id in c.txns && c.txns[id].payment.Confirmed? && !c.Reaches(CANCELLED)
    ensures var r := CancelPurchase(c, id, true, b);
            && r.error == Some(TransitionRefused)
            && Paid(r.core.trace, id) == Paid(c.trace, id) && r.core.hopper == c.hopper && r.core.fsm == c.fsm
            && r.core.money == ReleaseHeld(c.money, c.txns[id]) && r.core.money.drift == c.money.drift
            && r.core.txns == c.txns[id := c.txns[id].DropReserve().Cancel()] && Books(r.core)
  {
    hide RefundCash, Paid;
    NoCashKeeps(c.trace, Stopped(c, id).trace, id);
    ReleaseKeepsBooks(c, c.txns[id]);
  }

  /** Two cancellations while the customer is at the window, the product delivered and any change paid: the first pays
      nothing and is refused, the second pays back everything that was accepted. That is more than was accepted in all
      exactly if there was change. */
  lemma DeliveredSaleIsRefunded(c: Core, id: TxnId)
    requires Books(c) && !c.money.drift && id in c.txns && c.fsm.WAITING_FOR_CUSTOMER_PICKUP?
    requires c.txns[id].payment.Confirmed? && c.txns[id].accepted > 0
    requires Dispenser.Request(id, Dispenser.Refund) !in c.hopper.replies
    requires Payable(Available(ReleaseHeld(c.money, c.txns[id])), c.txns[id].accepted)
    ensures var cancel := CancelCmd(id, true, Dispenser.Attempt(Dispenser.Dispensed));
            var first := Handle(c, cancel);
            var second := Handle(first.core, cancel);
            && first.error == Some(TransitionRefused) && Paid(first.core.trace, id) == Paid(c.trace, id)
            && Paid(second.core.trace, id) == Paid(c.trace, id) + c.txns[id].accepted
            && (Overpays(first.core, cancel) <==> Paid(c.trace, id) > 0)
  {
    hide Handle, CancelPurchase, Payable, Books, Paid, RefundPays, Overpays;
    var b := Dispenser.Attempt(Dispenser.Dispensed);
    HandlesCancel(c, id, true, b);
    RefusedCancelForgets(c, id, b);
    var first := CancelPurchase(c, id, true, b).core;
    HandlesCancel(first, id, true, b);
    DispensingPaysAll(first, id);
    CancelAdds(first, id, b);
    DispensingOverpaysExactly(first, id);
  }
}
