/** The reserved counts against the reserves that transactions still hold: when they are the same, and what makes them
    differ. */
module HeldReserves {
  import opened Wrappers
  import opened Counts
  import opened ChangePlanning
  import opened Money
  import opened SaleAssessment
  import opened ChangeManagement
  import opened Fsm
  import opened Sale
  import opened Protocol
  import opened TraceFacts
  import opened ProtocolInvariant
  import opened ProtocolRuns
  import opened Refunds
  import Dispenser

  /** The reserve was paid out. */
  predicate Spent(t: Txn) {
    t.reserve.Some? && t.reserve.value.status.Consumed?
  }

  /** What a transaction holds of one denomination. */
  function Held(t: Txn, d: int): int {
    if t.reserve.Some? && !Spent(t) then Get(t.reserve.value.counts, d) else 0
  }

  /** What all transactions hold. The transaction is chosen arbitrarily; HeldSplit shows that the choice does not matter. */
  ghost function HeldFor(txns: map<TxnId, Txn>, d: int): int
    decreases txns.Keys
  {
    if id :| id in txns then Held(txns[id], d) + HeldFor(txns - {id}, d) else 0
  }

  lemma {:induction false} HeldSplit(txns: map<TxnId, Txn>, id: TxnId, d: int)
    requires id in txns
    ensures HeldFor(txns, d) == Held(txns[id], d) + HeldFor(txns - {id}, d)
    decreases txns.Keys
  {
    hide Held;
    var other :| other in txns && HeldFor(txns, d) == Held(txns[other], d) + HeldFor(txns - {other}, d);
    if other != id {
      HeldSplit(txns - {other}, id, d);
      HeldSplit(txns - {id}, other, d);
      assert txns - {other} - {id} == txns - {id} - {other};
    }
  }

  lemma HeldPut(txns: map<TxnId, Txn>, id: TxnId, t: Txn, d: int)
    ensures HeldFor(txns[id := t], d) == HeldFor(txns, d) - (if id in txns then Held(txns[id], d) else 0) + Held(t, d)
  {
    hide Held;
    HeldSplit(txns[id := t], id, d);
    assert txns[id := t] - {id} == txns - {id};
    if id in txns {
      HeldSplit(txns, id, d);
    } else {
      assert txns - {id} == txns;
    }
  }

  lemma {:induction false} HeldNonNegative(txns: map<TxnId, Txn>, d: int)
    requires forall id :: id in txns ==> HoldsCoins(txns[id])
    ensures HeldFor(txns, d) >= 0
    decreases txns.Keys
  {
    if id :| id in txns {
      HeldSplit(txns, id, d);
      HeldNonNegative(txns - {id}, d);
      assert HoldsCoins(txns[id]);
    }
  }

  /** The reserved counts are what the transactions hold. */
  ghost predicate Tallied(c: Core) {
    forall d :: Get(c.money.reserved, d) == HeldFor(c.txns, d)
  }

  /** Reserves are plans, and one counts as paid out only once its payout was answered. */
  ghost predicate Orderly(c: Core) {
    && (forall id :: id in c.txns ==> HoldsCoins(c.txns[id]))
    && (forall id :: id in c.txns && Spent(c.txns[id]) ==> Dispenser.Request(id, Dispenser.Change) in c.hopper.replies)
  }

  ghost predicate Tally(c: Core) {
    Tallied(c) && Orderly(c)
  }

  lemma TallyIsNonNegative(c: Core)
    requires Tally(c)
    ensures NonNegative(c.money.reserved)
  {
    forall d ensures Get(c.money.reserved, d) >= 0 {
      HeldNonNegative(c.txns, d);
    }
  }

  /* ---------- what leaves the reserves alone ---------- */

  predicate SameHold(t: Txn, u: Txn) {
    && (t.reserve.Some? <==> u.reserve.Some?) && Spent(t) == Spent(u)
    && (t.reserve.Some? ==> t.reserve.value.counts == u.reserve.value.counts)
  }

  /** One transaction marked, its reserve and the reserved counts as they were. */
  ghost predicate KeepsHold(c: Core, d: Core, id: TxnId, t: Txn) {
    && id in c.txns && d.txns == c.txns[id := t] && SameHold(c.txns[id], t)
    && Same(d.money.reserved, c.money.reserved) && c.hopper.replies.Keys <= d.hopper.replies.Keys
  }

  lemma HoldIsKept(c: Core, d: Core, id: TxnId, t: Txn)
    requires KeepsHold(c, d, id, t)
    ensures Tallied(d) <==> Tallied(c)
    ensures Orderly(c) ==> Orderly(d)
  {
    hide Same;
    SameIsSymmetric(d.money.reserved, c.money.reserved);
    HoldKeepsTallied(c, d, id, t);
    HoldKeepsTallied(d, c, id, c.txns[id]);
    assert HoldsCoins(c.txns[id]) ==> HoldsCoins(t);
  }

  lemma SameIsSymmetric(a: Counts, b: Counts)
    requires Same(a, b)
    ensures Same(b, a)
  {
    forall d ensures Get(b, d) == Get(a, d) {
      assert Get(a, d) == Get(b, d);
    }
  }

  lemma HoldKeepsTallied(c: Core, d: Core, id: TxnId, t: Txn)
    requires id in c.txns && d.txns == c.txns[id := t] && SameHold(c.txns[id], t)
    requires Same(d.money.reserved, c.money.reserved)
    ensures Tallied(c) ==> Tallied(d)
  {
    if Tallied(c) {
      forall e ensures Get(d.money.reserved, e) == HeldFor(d.txns, e) {
        HeldPut(c.txns, id, t, e);
        assert Get(d.money.reserved, e) == Get(c.money.reserved, e);
      }
    }
  }

  lemma HoldKeepsTally(c: Core, d: Core, id: TxnId, t: Txn)
    requires Tally(c) && id in c.txns && d.txns == c.txns[id := t] && t.reserve == c.txns[id].reserve
    requires d.money.reserved == c.money.reserved && d.hopper == c.hopper
    ensures Tally(d)
  {
    HoldIsKept(c, d, id, t);
  }

  lemma SameKeepsTally(c: Core, d: Core)
    requires Tally(c) && d.txns == c.txns && d.money.reserved == c.money.reserved && d.hopper == c.hopper
    ensures Tally(d)
  {
  }

  /** A marked transaction is all that most handlers leave. */
  lemma HandlersKeepTally(c: Core, cmd: Command)
    requires Tally(c)
    requires cmd.ConfirmPickupCmd? || cmd.PickupTimeoutCmd? || cmd.EnterServiceCmd? || cmd.ExitServiceCmd? || cmd.HealthCmd?
             || cmd.RecoverCmd?
    ensures Tally(Handle(c, cmd).core)
  {
    hide Tally, RowsToSave, ConfirmPickup, PickupTimeout, RecoverTransaction;
    match cmd
    case ConfirmPickupCmd(id, closes) => PickupKeepsTally(c, id, closes);
    case PickupTimeoutCmd(id, closes) => TimeoutKeepsTally(c, id, closes);
    case RecoverCmd(id) => RecoveryKeepsTally(c, id);
    case _ => SameKeepsTally(c, Handle(c, cmd).core);
  }

  lemma PickupKeepsTally(c: Core, id: TxnId, closes: bool)
    requires Tally(c)
    ensures Tally(ConfirmPickup(c, id, closes).core)
  {
    hide Tally, RowsToSave, ClosePickup;
    if id in c.txns {
      var t := c.txns[id].ConfirmPickup();
      HoldKeepsTally(c, c.Put(id, t), id, t);
      ClosingKeepsTally(c, id, t, closes);
    }
  }

  lemma ClosingKeepsTally(c: Core, id: TxnId, t: Txn, closes: bool)
    requires Tally(c) && id in c.txns && t.reserve == c.txns[id].reserve
    ensures Tally(ClosePickup(c, id, t, closes).core)
  {
    hide Tally, RowsToSave;
    HoldKeepsTally(c, ClosePickup(c, id, t, closes).core, id, if closes then t.MarkWindowClosed() else t.MarkFaulted());
  }

  lemma TimeoutKeepsTally(c: Core, id: TxnId, closes: bool)
    requires Tally(c)
    ensures Tally(PickupTimeout(c, id, closes).core)
  {
    hide Tally, RowsToSave;
    if id in c.txns && c.txns[id].status.WaitingForCustomerPickup? {
      var t := if closes then c.txns[id].MarkPickupTimedOut() else c.txns[id].MarkFaulted();
      HoldKeepsTally(c, PickupTimeout(c, id, closes).core, id, t);
    }
  }

  lemma RecoveryKeepsTally(c: Core, id: TxnId)
    requires Tally(c)
    ensures Tally(RecoverTransaction(c, id).core)
  {
    hide Tally, RowsToSave, AssessRecovery;
    if id in c.txns {
      if AssessRecovery(c.txns[id]).CancelSafe? {
        HoldKeepsTally(c, RecoverTransaction(c, id).core, id, c.txns[id].Cancel());
      } else {
        SameKeepsTally(c, RecoverTransaction(c, id).core);
      }
    }
  }

  lemma StartKeepsTally(c: Core, id: TxnId, product: ProductId, slot: SlotId, price: nat, agrees: bool)
    requires Tally(c) && id !in c.txns
    ensures Tally(StartPurchase(c, id, product, slot, price, agrees).core)
  {
    hide Tally, RowsToSave, Selectable, Core.SalesAllowed, Core.Reaches;
    var d := StartPurchase(c, id, product, slot, price, agrees).core;
    if c.SalesAllowed() && Selectable(c, product, slot) && agrees && c.active.None? {
      NewHoldsNothing(c, d, id, NewTxn(price, slot, product));
    }
  }

  lemma NewHoldsNothing(c: Core, d: Core, id: TxnId, t: Txn)
    requires Tally(c) && id !in c.txns && t.reserve.None?
    requires d.txns == c.txns[id := t] && d.money == c.money && d.hopper == c.hopper
    ensures Tally(d)
  {
    forall e ensures Get(d.money.reserved, e) == HeldFor(d.txns, e) {
      HeldPut(c.txns, id, t, e);
    }
  }

  /* ---------- reserving and giving back ---------- */

  predicate HoldsNothing(t: Txn) {
    t.reserve.None? || Spent(t) || t.reserve.value.counts == map[]
  }

  /** Attaching a plan keeps the tally exactly when the transaction held nothing before. */
  lemma AttachTalliesExactly(c: Core, d: Core, id: TxnId, plan: Counts)
    requires Tally(c) && id in c.txns && Coins(plan)
    requires d.txns == c.txns[id := c.txns[id].AttachReserve(plan)] && d.money == Reserve(c.money, plan) && d.hopper == c.hopper
    ensures Tallied(d) <==> HoldsNothing(c.txns[id])
    ensures Orderly(d)
  {
    forall e ensures Get(d.money.reserved, e) == HeldFor(d.txns, e) + Held(c.txns[id], e) {
      HeldPut(c.txns, id, c.txns[id].AttachReserve(plan), e);
      assert Get(c.money.reserved, e) == HeldFor(c.txns, e);
    }
    assert HoldsCoins(c.txns[id]);
    assert HoldsCoins(c.txns[id].AttachReserve(plan));
    if !HoldsNothing(c.txns[id]) {
      var counts := c.txns[id].reserve.value.counts;
      Inhabited(counts.Keys);
      assert counts.Keys == {} ==> counts == map[];
      var e :| e in counts.Keys;
      assert Held(c.txns[id], e) > 0;
    }
  }

  /** Giving back what is held never meets the clamp at zero. */
  lemma GivingBackIsExact(c: Core, id: TxnId, d: int)
    requires Tally(c) && id in c.txns && c.txns[id].reserve.Some? && !Spent(c.txns[id])
    ensures Get(ClampedSub(c.money.reserved, c.txns[id].reserve.value.counts), d)
            == Get(c.money.reserved, d) - Held(c.txns[id], d)
  {
    HeldSplit(c.txns, id, d);
    HeldNonNegative(c.txns - {id}, d);
    assert HoldsCoins(c.txns[id]) && Get(c.money.reserved, d) == HeldFor(c.txns, d);
  }

  /** A reserve that was paid out is given back from pieces that other transactions hold. */
  ghost predicate TakesFromOthers(c: Core, t: Txn) {
    Spent(t) && exists d :: d in t.reserve.value.counts && Get(c.money.reserved, d) > 0
  }

  /** Giving a reserve back keeps the tally exactly unless it was paid out and others hold some of its pieces. */
  lemma ReleaseTalliesExactly(c: Core, d: Core, id: TxnId, t: Txn)
    requires Tally(c) && id in c.txns && t.reserve.None?
    requires d.txns == c.txns[id := t] && d.money == ReleaseHeld(c.money, c.txns[id]) && d.hopper == c.hopper
    ensures Tallied(d) <==> !TakesFromOthers(c, c.txns[id])
    ensures Orderly(d)
  {
    var before := c.txns[id];
    if Spent(before) {
      SpentReleases(c, d, id, t);
    } else {
      hide ClampedSub;
      forall e ensures Get(d.money.reserved, e) == HeldFor(d.txns, e) {
        HeldPut(c.txns, id, t, e);
        assert Get(c.money.reserved, e) == HeldFor(c.txns, e);
        if before.reserve.Some? {
          GivingBackIsExact(c, id, e);
        }
      }
    }
  }

  lemma SpentReleases(c: Core, d: Core, id: TxnId, t: Txn)
    requires Tally(c) && id in c.txns && t.reserve.None? && Spent(c.txns[id])
    requires d.txns == c.txns[id := t] && d.money == Release(c.money, c.txns[id].reserve.value.counts)
    ensures Tallied(d) <==> !TakesFromOthers(c, c.txns[id])
  {
    var counts := c.txns[id].reserve.value.counts;
    assert HoldsCoins(c.txns[id]);
    forall e
      ensures HeldFor(d.txns, e) == Get(c.money.reserved, e) >= 0
      ensures e !in counts ==> Get(d.money.reserved, e) == Get(c.money.reserved, e)
    {
      HeldPut(c.txns, id, t, e);
      HeldNonNegative(c.txns, e);
      assert Get(c.money.reserved, e) == HeldFor(c.txns, e);
    }
    if TakesFromOthers(c, c.txns[id]) {
      var e :| e in counts && Get(c.money.reserved, e) > 0;
      assert Get(d.money.reserved, e) < Get(c.money.reserved, e);
    } else {
      forall e ensures Get(d.money.reserved, e) == HeldFor(d.txns, e) {
        assert e in counts ==> Get(c.money.reserved, e) == 0;
      }
    }
  }

  /** A paid out reserve is held no longer. */
  lemma SpendingKeepsTally(c: Core, d: Core, id: TxnId, t: Txn)
    requires Tally(c) && id in c.txns && c.txns[id].reserve.Some? && !Spent(c.txns[id])
    requires Spent(t) && t.reserve.value.counts == c.txns[id].reserve.value.counts
    requires d.txns == c.txns[id := t] && d.money == Consume(c.money, c.txns[id].reserve.value.counts)
    requires c.hopper.replies.Keys <= d.hopper.replies.Keys && Dispenser.Request(id, Dispenser.Change) in d.hopper.replies
    ensures Tally(d)
  {
    hide ClampedSub;
    forall e ensures Get(d.money.reserved, e) == HeldFor(d.txns, e) {
      HeldPut(c.txns, id, t, e);
      assert Get(c.money.reserved, e) == HeldFor(c.txns, e);
      GivingBackIsExact(c, id, e);
    }
    assert HoldsCoins(c.txns[id]);
  }

  /* ---------- asking for cash ---------- */

  /** Cash is asked for again, with a plan, while an earlier plan is still held. */
  ghost predicate HoldsTwice(c: Core, id: TxnId) {
    && c.SalesAllowed() && id in c.txns && !HoldsNothing(c.txns[id])
    && Assess(c.money, c.denoms, c.txns[id].price).supported && Assess(c.money, c.denoms, c.txns[id].price).plan != map[]
  }

  lemma AcceptTalliesExactly(c: Core, id: TxnId, enabled: bool)
    requires Tally(c)
    ensures Tallied(AcceptCash(c, id, enabled).core) <==> !HoldsTwice(c, id)
    ensures Orderly(AcceptCash(c, id, enabled).core)
  {
    hide Tallied, Orderly, Assess, ReserveForSale, BeginSession, HoldsNothing, Core.SalesAllowed;
    if c.SalesAllowed() && id in c.txns {
      var plan := Assess(c.money, c.denoms, c.txns[id].price).plan;
      AssessedPlanIsReservable(c.money, c.denoms, c.txns[id].price);
      ReserveTalliesExactly(c, id, plan);
      BeginKeepsHold(ReserveForSale(c, id, plan), id, enabled);
    }
  }

  lemma ReserveTalliesExactly(c: Core, id: TxnId, plan: Counts)
    requires Tally(c) && id in c.txns && Coins(plan)
    ensures var r := ReserveForSale(c, id, plan);
            id in r.txns && (Tallied(r) <==> plan == map[] || HoldsNothing(c.txns[id])) && Orderly(r)
  {
    hide Tallied, Orderly, HoldsNothing, RowsToSave;
    if plan != map[] {
      AttachTalliesExactly(c, ReserveForSale(c, id, plan), id, plan);
    }
  }

  lemma BeginKeepsHold(c: Core, id: TxnId, enabled: bool)
    requires id in c.txns
    ensures var r := BeginSession(c, id, enabled).core; (Tallied(r) <==> Tallied(c)) && (Orderly(c) ==> Orderly(r))
  {
    hide Tallied, Orderly, RowsToSave;
    var t := c.txns[id].StartSession();
    var marked := if c.Reaches(ACCEPTING_CASH) && !enabled then t.MarkFaulted() else t;
    HoldIsKept(c, BeginSession(c, id, enabled).core, id, marked);
  }

  /* ---------- payment and change ---------- */

  lemma ConfirmKeepsTally(c: Core, id: TxnId, disables: bool)
    requires Tally(c) && id in c.txns
    ensures var r := ConfirmPayment(c, id, disables).core; Tally(r) && SameHold(c.txns[id], r.txns[id])
  {
    hide Tally, RowsToSave;
    if c.txns[id].ConfirmPayment().Ok? {
      var t := c.txns[id].ConfirmPayment().value;
      HoldKeepsTally(c, ConfirmPayment(c, id, disables).core, id, if disables then t else t.MarkAmbiguous());
    }
  }

  lemma FinalizeKeepsTally(c: Core, id: TxnId)
    requires Tally(c) && id in c.txns && !Spent(c.txns[id])
    ensures var r := FinalizeReserve(c, id).core; Tally(r) && !Spent(r.txns[id])
  {
    hide Tallied, Orderly, BestPlan;
    var t := c.txns[id];
    var freed := c.(money := ReleaseHeld(c.money, t)).Put(id, t.DropReserve());
    ReleaseTalliesExactly(c, freed, id, t.DropReserve());
    BestPlanIsReservable(freed.money, t.changeDue);
    var best := BestPlan(Available(freed.money), t.changeDue);
    if t.changeDue > 0 && best.Some? {
      var d := FinalizeReserve(c, id).core;
      assert d.txns == freed.txns[id := t.DropReserve().AttachReserve(best.value)];
      AttachTalliesExactly(freed, d, id, best.value);
    }
  }

  lemma DispenseKeepsTally(c: Core, id: TxnId, b: Dispenser.Behaviour)
    requires Tally(c) && id in c.txns && !Spent(c.txns[id])
    requires Dispenser.Request(id, Dispenser.Change) !in c.hopper.replies
    ensures Tally(DispenseChangeDue(c, id, b).core)
  {
    hide Tallied, Orderly, Dispenser.Pay, Worth, Coins;
    var t := c.txns[id];
    if t.changeDue > 0 && t.reserve.Some? {
      var req, plan := Dispenser.Request(id, Dispenser.Change), t.reserve.value.counts;
      var p := Dispenser.Pay(c.hopper, req, plan, b);
      RepliesGrow(c.hopper, req, plan, b);
      var d := DispenseChangeDue(c, id, b).core;
      if p.reply == Some(Dispenser.Dispensed) {
        SpendingKeepsTally(c, d, id, t.MarkReserve(Consumed).MarkChangeDispensed());
      } else {
        UnpaidKeepsHold(c.money, t, p.reply);
        HoldIsKept(c, d, id, d.txns[id]);
      }
    }
  }

  lemma RepliesGrow(h: Dispenser.Hopper, req: Dispenser.Request, plan: Counts, b: Dispenser.Behaviour)
    ensures var p := Dispenser.Pay(h, req, plan, b);
            h.replies.Keys <= p.hopper.replies.Keys && (p.reply.Some? ==> req in p.hopper.replies)
  {
    hide Dispenser.Covers, Dispenser.OneShort;
  }

  lemma UnpaidKeepsHold(l: Ledger, t: Txn, reply: Option<Dispenser.Reply>)
    requires t.reserve.Some? && !Spent(t) && reply != Some(Dispenser.Dispensed)
    ensures var s := AfterChange(l, t, reply); SameHold(t, s.txn) && s.ledger.reserved == l.reserved
  {
  }

  lemma PayChangeKeepsTally(c: Core, id: TxnId, b: Dispenser.Behaviour)
    requires Tally(c) && id in c.txns && !Spent(c.txns[id])
    requires Dispenser.Request(id, Dispenser.Change) !in c.hopper.replies
    ensures Tally(PayChange(c, id, b).core)
  {
    hide Tally, RowsToSave, DispenseChangeDue;
    var t := c.txns[id].MarkChangePending();
    if c.Reaches(DISPENSING_CHANGE) {
      HoldKeepsTally(c, AnnounceChange(c, id), id, t);
      DispenseKeepsTally(AnnounceChange(c, id), id, b);
      SameKeepsTally(DispenseChangeDue(AnnounceChange(c, id), id, b).core, PayChange(c, id, b).core);
    } else {
      HoldKeepsTally(c, c.Put(id, t), id, t);
    }
  }

  lemma SettleKeepsTally(c: Core, id: TxnId, b: Dispenser.Behaviour)
    requires Tally(c) && id in c.txns && !Spent(c.txns[id])
    requires Dispenser.Request(id, Dispenser.Change) !in c.hopper.replies
    ensures Tally(SettleChange(c, id, b).core)
  {
    hide Tally, FinalizeReserve, PayChange;
    FinalizeKeepsTally(c, id);
    FinalizeKeepsHopper(c, id);
    var f := FinalizeReserve(c, id);
    SameKeepsTally(f.core, f.core.At(RECOVERY_PENDING));
    if f.error.None? && c.txns[id].changeDue > 0 {
      PayChangeKeepsTally(f.core, id, b);
      SameKeepsTally(PayChange(f.core, id, b).core, PayChange(f.core, id, b).core.At(RECOVERY_PENDING));
    }
  }

  lemma FinalizeKeepsHopper(c: Core, id: TxnId)
    requires id in c.txns
    ensures FinalizeReserve(c, id).core.hopper == c.hopper
  {
  }

  lemma VendKeepsTally(c: Core, id: TxnId, vends: bool)
    requires Tally(c) && id in c.txns
    ensures Tally(VendProduct(c, id, vends).core)
  {
    hide Tally, DispenseAuthorized, RowsToSave;
    if c.txns[id].AuthorizeVend().Ok? {
      AuthorizedKeepsTally(c, id, c.txns[id].AuthorizeVend().value, vends);
    } else {
      SameKeepsTally(c, VendProduct(c, id, vends).core);
    }
  }

  lemma AuthorizedKeepsTally(c: Core, id: TxnId, t: Txn, vends: bool)
    requires Tally(c) && id in c.txns && t.reserve == c.txns[id].reserve
    ensures Tally(DispenseAuthorized(c, id, t, vends).core)
  {
    hide Tally, RunMotor, RowsToSave;
    var d := c.Put(id, t);
    HoldKeepsTally(c, d.At(DISPENSING_PRODUCT), id, t);
    MotorKeepsTally(d.At(DISPENSING_PRODUCT), id, t, vends);
    HoldKeepsTally(c, d.Log([d.Save(Some(id))]), id, t);
  }

  lemma MotorKeepsTally(c: Core, id: TxnId, t: Txn, vends: bool)
    requires Tally(c) && id in c.txns && t.reserve == c.txns[id].reserve
    ensures Tally(RunMotor(c, id, t, vends).core)
  {
    hide Tally, RowsToSave;
    var d := RunMotor(c, id, t, vends).core;
    if !vends {
      HoldKeepsTally(c, d, id, t.MarkFaulted());
    } else if t.slot in c.slots && c.slots[t.slot].Sellable() {
      HoldKeepsTally(c, d, id, t.MarkProductDispensed());
    } else {
      SameKeepsTally(c, d);
    }
  }

  lemma OpenKeepsTally(c: Core, id: TxnId, opens: bool)
    requires Tally(c) && id in c.txns
    ensures Tally(OpenForPickup(c, id, opens).core)
  {
    hide Tally, RowsToSave;
    if c.Reaches(OPENING_DELIVERY_WINDOW) {
      HoldKeepsTally(c, OpenForPickup(c, id, opens).core, id,
                     if opens then c.txns[id].MarkWindowOpened() else c.txns[id].MarkFaulted());
    }
  }

  /** A payment is only completed for a transaction whose change request is new, so its reserve is not paid out yet. */
  lemma CompleteKeepsTally(c: Core, id: TxnId, d: Devices)
    requires Inv(c) && Tally(c) && c.active == Some(id) && id in c.txns
    ensures Tally(CompletePayment(c, id, d).core)
  {
    hide ConfirmPayment, SettleChange, VendProduct, OpenForPickup, Base, SlotReady, Tallied, Inv, SameHold;
    ConfirmStep(c, id, d.disables);
    ConfirmKeepsTally(c, id, d.disables);
    var confirmed := ConfirmPayment(c, id, d.disables);
    if confirmed.error.None? {
      SettleKeepsTally(confirmed.core, id, d.payout);
      var settled := SettleChange(confirmed.core, id, d.payout).core;
      VendKeepsTally(settled, id, d.vends);
      OpenKeepsTally(VendProduct(settled, id, d.vends).core, id, d.opens);
    }
  }

  lemma ValidatorKeepsTally(c: Core, e: ValidatorEvent, d: Devices)
    requires Inv(c) && Tally(c)
    ensures Tally(ProcessValidatorEvent(c, e, d).core)
  {
    hide Inv, Tally, StackBill, FaultValidator, RowsToSave;
    var heard := c.Log([c.Save(None)]);
    QuietKeepsInv(c, c, [c.Save(None)]);
    SameKeepsTally(c, heard);
    if c.active.Some? && c.active.value in c.txns {
      FaultKeepsTally(heard, c.active.value);
      if e.BillStacked? && e.bill.Some? {
        BillKeepsTally(heard, c.active.value, e.bill.value, d);
      }
    }
  }

  lemma FaultKeepsTally(c: Core, id: TxnId)
    requires Tally(c) && id in c.txns
    ensures Tally(FaultValidator(c, id).core)
  {
    hide Tally;
    HoldKeepsTally(c, FaultValidator(c, id).core, id, c.txns[id].MarkFaulted());
  }

  lemma BillKeepsTally(c: Core, id: TxnId, bill: nat, d: Devices)
    requires Inv(c) && Tally(c) && c.active == Some(id) && id in c.txns
    ensures Tally(StackBill(c, id, bill, d).core)
  {
    hide Inv, Tally, CompletePayment, RowsToSave;
    if c.txns[id].RecordCash(bill).Ok? {
      var t := c.txns[id].RecordCash(bill).value;
      var put := c.Put(id, t);
      MarkKeepsInv(c, put, id, t, [put.Save(Some(id))]);
      HoldKeepsTally(c, put.Log([put.Save(Some(id))]), id, t);
      CompleteKeepsTally(put.Log([put.Save(Some(id))]), id, d);
    }
  }

  /* ---------- cancellation ---------- */

  /** A refund for which a plan was reserved came back as anything but dispensed: the plan stays reserved for nobody. */
  ghost predicate RefundStays(l: Ledger, h: Dispenser.Hopper, id: TxnId, amount: int, b: Dispenser.Behaviour) {
    var best := BestPlan(Available(l), amount);
    best.Some? && Dispenser.Pay(h, Dispenser.Request(id, Dispenser.Refund), best.value, b).reply != Some(Dispenser.Dispensed)
  }

  lemma PayRefundTalliesExactly(c: Core, id: TxnId, amount: nat, b: Dispenser.Behaviour)
    requires NonNegative(c.money.reserved) && amount > 0
    ensures var r := PayRefund(c, id, amount, b).core;
            && (Orderly(c) ==> Orderly(r))
            && (if RefundStays(c.money, c.hopper, id, amount, b) then Tallied(c) ==> !Tallied(r) else Tallied(c) <==> Tallied(r))
  {
    hide BestPlan, Dispenser.Pay, Worth, Coins, Orderly, Tallied;
    var best := BestPlan(Available(c.money), amount);
    if best.Some? {
      var plan, req := best.value, Dispenser.Request(id, Dispenser.Refund);
      var p := Dispenser.Pay(c.hopper, req, plan, b);
      BestPlanIsReservable(c.money, amount);
      RepliesGrow(c.hopper, req, plan, b);
      var r := PayRefund(c, id, amount, b).core;
      OrderlyWithReplies(c, r);
      if p.reply == Some(Dispenser.Dispensed) {
        ReserveThenConsume(c.money, plan);
        SameTallies(c, r);
      } else {
        ReservedForNobody(c, r, plan, amount);
      }
    }
  }

  lemma OrderlyWithReplies(c: Core, d: Core)
    requires d.txns == c.txns && c.hopper.replies.Keys <= d.hopper.replies.Keys
    ensures Orderly(c) ==> Orderly(d)
  {
  }

  lemma SameTallies(c: Core, d: Core)
    requires d.txns == c.txns && Same(d.money.reserved, c.money.reserved)
    ensures Tallied(c) <==> Tallied(d)
  {
    assert forall e :: Get(d.money.reserved, e) == Get(c.money.reserved, e);
  }

  lemma ReservedForNobody(c: Core, d: Core, plan: Counts, amount: int)
    requires d.txns == c.txns && d.money.reserved == Add(c.money.reserved, plan)
    requires Coins(plan) && Worth(plan) == amount > 0
    ensures Tallied(c) ==> !Tallied(d)
  {
    Inhabited(plan.Keys);
    if plan.Keys == {} {
      WorthOfZeros(plan);
    }
    var e :| e in plan.Keys;
    assert Get(d.money.reserved, e) == Get(c.money.reserved, e) + plan[e];
  }

  /** A refund tallies exactly unless it stays reserved, or gives back what others hold. Both at once might cancel out. */
  lemma RefundTalliesExactly(c: Core, id: TxnId, b: Dispenser.Behaviour)
    requires Tally(c) && id in c.txns && c.txns[id].accepted > 0
    ensures var r := RefundCash(c, id, b);
            var takes := TakesFromOthers(c, c.txns[id]);
            var stays := RefundStays(ReleaseHeld(c.money, c.txns[id]), c.hopper, id, c.txns[id].accepted, b);
            && Orderly(r.core) && id in r.core.txns && (stays ==> r.error.Some?)
            && (r.error.None? ==> r.core.txns[id].reserve.None?)
            && (!(takes && stays) ==> (Tallied(r.core) <==> !takes && !stays))
  {
    hide Tallied, Orderly, PayRefund, RowsToSave, TakesFromOthers, RefundStays, ReleaseHeld;
    var d, amount := AnnounceRefund(c, id), c.txns[id].accepted;
    ReleaseTalliesExactly(c, d, id, c.txns[id].DropReserve());
    TallyIsNonNegative(c);
    ReleaseKeepsNonNegative(c.money, c.txns[id]);
    PayRefundTalliesExactly(d, id, amount, b);
    StaysRaises(d, id, amount, b);
    var refunded := PayRefund(d, id, amount, b).core;
    HoldIsKept(refunded, RefundFailure(refunded, id), id, refunded.txns[id].MarkAmbiguous());
    HoldIsKept(refunded, refunded.Log([Outcome(id, DispenseRefund, Succeeded), refunded.Save(Some(id))]), id, refunded.txns[id]);
  }

  lemma StaysRaises(c: Core, id: TxnId, amount: int, b: Dispenser.Behaviour)
    ensures RefundStays(c.money, c.hopper, id, amount, b) ==> PayRefund(c, id, amount, b).error.Some?
  {
    hide BestPlan, Dispenser.Pay;
  }

  /** A cancellation that refunds cash. */
  predicate Refunding(c: Core, cmd: Command) {
    && cmd.CancelCmd? && cmd.disables && cmd.id in c.txns
    && c.txns[cmd.id].payment != Confirmed && c.txns[cmd.id].accepted > 0
  }

  ghost predicate CancelTakes(c: Core, cmd: Command) {
    cmd.CancelCmd? && cmd.disables && cmd.id in c.txns && TakesFromOthers(c, c.txns[cmd.id])
  }

  ghost predicate CancelStays(c: Core, cmd: Command) {
    && Refunding(c, cmd)
    && RefundStays(ReleaseHeld(c.money, c.txns[cmd.id]), c.hopper, cmd.id, c.txns[cmd.id].accepted, cmd.payout)
  }

  lemma CloseTalliesExactly(c: Core, id: TxnId)
    requires Tally(c) && id in c.txns
    ensures var r := CloseCancelled(c, id).core;
            Orderly(r) && (Tallied(r) <==> !TakesFromOthers(c, c.txns[id]))
  {
    hide Tallied, Orderly, RowsToSave, TakesFromOthers, ReleaseHeld;
    ReleaseTalliesExactly(c, CloseCancelled(c, id).core, id, c.txns[id].DropReserve().Cancel());
  }

  lemma CloseKeepsTallied(c: Core, id: TxnId)
    requires Orderly(c) && id in c.txns && c.txns[id].reserve.None?
    ensures var r := CloseCancelled(c, id).core; Orderly(r) && (Tallied(r) <==> Tallied(c))
  {
    hide Tallied, Orderly, RowsToSave;
    HoldIsKept(c, CloseCancelled(c, id).core, id, c.txns[id].DropReserve().Cancel());
  }

  lemma CancelTalliesExactly(c: Core, id: TxnId, disables: bool, b: Dispenser.Behaviour)
    requires Tally(c)
    ensures var r, cmd := CancelPurchase(c, id, disables, b).core, CancelCmd(id, disables, b);
            && Orderly(r)
            && (!(CancelTakes(c, cmd) && CancelStays(c, cmd)) ==> (Tallied(r) <==> !CancelTakes(c, cmd) && !CancelStays(c, cmd)))
  {
    hide Tallied, Orderly, RefundCash, CloseCancelled, TakesFromOthers, RefundStays, ReleaseHeld;
    if id in c.txns {
      if disables {
        var d := c.Log([Intent(id, DisableOnCancel), Disable(id), Outcome(id, DisableOnCancel, Succeeded)]);
        LogTallies(c, d);
        CloseTalliesExactly(d, id);
        if c.txns[id].payment != Confirmed && c.txns[id].accepted > 0 {
          RefundTalliesExactly(d, id, b);
          if RefundCash(d, id, b).error.None? {
            CloseKeepsTallied(RefundCash(d, id, b).core, id);
          }
        }
      } else {
        HoldIsKept(c, CancelPurchase(c, id, disables, b).core, id, c.txns[id].MarkAmbiguous());
      }
    }
  }

  lemma LogTallies(c: Core, d: Core)
    requires Tally(c) && d.txns == c.txns && d.money == c.money && d.hopper == c.hopper
    ensures Tally(d) && forall t: Txn :: TakesFromOthers(d, t) <==> TakesFromOthers(c, t)
  {
  }

  /* ---------- every command, every run ---------- */

  /** The commands after which the reserved counts and the held reserves differ. */
  ghost predicate Mistallies(c: Core, cmd: Command) {
    || (cmd.AcceptCashCmd? && HoldsTwice(c, cmd.id))
    || CancelTakes(c, cmd) || CancelStays(c, cmd)
  }

  /** After a command the reserved counts are what the transactions hold exactly unless cash was asked for while a plan was
      held, a cancellation gave back pieces held by others, or a refund that was not dispensed stays reserved. */
  lemma HandleTalliesExactly(c: Core, cmd: Command)
    requires Inv(c) && Tally(c) && (cmd.StartPurchaseCmd? ==> cmd.id !in c.issued)
    ensures var r := Handle(c, cmd).core;
            && Orderly(r)
            && (!(CancelTakes(c, cmd) && CancelStays(c, cmd)) ==> (Tallied(r) <==> !Mistallies(c, cmd)))
  {
    hide Tallied, Orderly, HoldsTwice, CancelTakes, CancelStays, AcceptCash, ProcessValidatorEvent, CancelPurchase, StartPurchase,
      ConfirmPickup, PickupTimeout, RecoverTransaction, EnterServiceMode, ExitServiceMode, HealthPoll, Base, SaleReady;
    OnlyCancels(c, cmd);
    match cmd
    case StartPurchaseCmd(id, product, slot, price, agrees) =>
      KnownIsIssued(c);
      StartKeepsTally(c, id, product, slot, price, agrees);
    case AcceptCashCmd(id, enabled) => AcceptTalliesExactly(c, id, enabled);
    case ValidatorCmd(event, devices) => ValidatorKeepsTally(c, event, devices);
    case CancelCmd(id, disables, payout) => CancelTalliesExactly(c, id, disables, payout);
    case _ => HandlersKeepTally(c, cmd);
  }

  lemma OnlyCancels(c: Core, cmd: Command)
    ensures CancelTakes(c, cmd) || CancelStays(c, cmd) ==> cmd.CancelCmd?
  {
    hide TakesFromOthers, RefundStays;
  }

  lemma KnownIsIssued(c: Core)
    requires Inv(c)
    ensures c.txns.Keys <= c.issued
  {
  }

  /** Between two starts of the machine: completed commands only, none of which mistallies. */
  ghost predicate NoneMistallies(c: Core, events: seq<Event>) {
    events == []
    || var front, last := events[..|events| - 1], events[|events| - 1];
       NoneMistallies(c, front) && last.Completed? && !Mistallies(Run(c, front), last.cmd)
  }

  /** Then at every moment the reserved counts are exactly what the transactions hold, for every denomination. */
  lemma {:induction false} RunKeepsTally(c: Core, events: seq<Event>)
    requires Initial(c) && FreshRun(c, events) && NoneMistallies(c, events) && forall d :: Get(c.money.reserved, d) == 0
    ensures Tally(Run(c, events))
  {
    hide Inv, Tallied, Orderly, Handle, Mistallies, CancelTakes, CancelStays;
    if events == [] {
      StartsTallied(c);
    } else {
      var front, last := events[..|events| - 1], events[|events| - 1];
      RunKeepsTally(c, front);
      RunKeepsInv(c, front);
      HandleTalliesExactly(Run(c, front), last.cmd);
      MistalliesByCancel(Run(c, front), last.cmd);
    }
  }

  lemma MistalliesByCancel(c: Core, cmd: Command)
    ensures CancelTakes(c, cmd) || CancelStays(c, cmd) ==> Mistallies(c, cmd)
  {
    hide CancelTakes, CancelStays, HoldsTwice;
  }

  lemma StartsTallied(c: Core)
    requires Initial(c) && forall d :: Get(c.money.reserved, d) == 0
    ensures Tally(c)
  {
  }

  /** Asking for cash once per sale, and cancelling only the sale that awaits it, mistallies only by a refund that is not
      dispensed. */
  lemma AwaitedCommandsTally(c: Core, cmd: Command)
    requires Inv(c) && Tally(c) && (cmd.StartPurchaseCmd? ==> cmd.id !in c.issued)
    requires cmd.AcceptCashCmd? ==> cmd.id in c.txns ==> c.txns[cmd.id].reserve.None?
    requires cmd.CancelCmd? ==> c.active == Some(cmd.id) && AwaitingCash(c.fsm)
    ensures Tally(Handle(c, cmd).core) <==> !CancelStays(c, cmd)
  {
    hide Handle, CancelStays, Base, SlotReady, Tallied;
    HandleTalliesExactly(c, cmd);
    OnlyCancels(c, cmd);
    assert !CancelTakes(c, cmd);
  }
}
