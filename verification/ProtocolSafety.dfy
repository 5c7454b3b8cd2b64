/** Safety of every run of the protocol, crashes included. */
module TraceFacts {
  import opened Wrappers
  import opened Counts
  import opened Money
  import opened Sale
  import opened Protocol
  import Dispenser

  /** Money an action physically pays out for a transaction. */
  ghost function CashOut(a: Action, id: TxnId): int {
    if a.Payout? && a.request.id == id then Worth(a.paid) else 0
  }

  /** Money physically paid out for a transaction, change and refund together. */
  ghost function Paid(trace: seq<Action>, id: TxnId): int {
    if trace == [] then 0
    else
      var last := trace[|trace| - 1];
      Paid(trace[..|trace| - 1], id) + CashOut(last, id)
  }

  ghost predicate Vended(trace: seq<Action>, id: TxnId) {
    if trace == [] then false
    else
      var last := trace[|trace| - 1];
      (last.Motor? && last.id == id) || Vended(trace[..|trace| - 1], id)
  }

  ghost predicate BadReply(a: Action) {
    a.Payout? && a.reply.Some? && a.reply != Some(Dispenser.Dispensed)
  }

  /** A payout came back as anything but dispensed since the machine last started. */
  ghost predicate PayoutWentWrong(trace: seq<Action>) {
    if trace == [] then false
    else
      var last := trace[|trace| - 1];
      BadReply(last) || (!last.Boot? && PayoutWentWrong(trace[..|trace| - 1]))
  }

  /** Slot contents: as read at the last start, minus one piece per successful motor run since. */
  ghost function Stock(trace: seq<Action>): map<SlotId, Slot> {
    if trace == [] then map[]
    else
      var last, before := trace[|trace| - 1], Stock(trace[..|trace| - 1]);
      if last.Boot? then last.slots
      else if last.Motor? && last.ok && last.txn.slot in before then
        before[last.txn.slot := before[last.txn.slot].(quantity := before[last.txn.slot].quantity - 1)]
      else before
  }

  /** Slots as the last start read them. */
  ghost function BootSlots(trace: seq<Action>): map<SlotId, Slot> {
    if trace == [] then map[]
    else if trace[|trace| - 1].Boot? then trace[|trace| - 1].slots
    else BootSlots(trace[..|trace| - 1])
  }

  /** Successful motor runs on a slot since the last start. */
  ghost function Vends(trace: seq<Action>, slot: SlotId): nat {
    if trace == [] || trace[|trace| - 1].Boot? then 0
    else
      var last := trace[|trace| - 1];
      Vends(trace[..|trace| - 1], slot) + if last.Motor? && last.ok && last.txn.slot == slot then 1 else 0
  }

  lemma {:induction false} StockIsBootLessVends(trace: seq<Action>, slot: SlotId)
    ensures slot in Stock(trace) <==> slot in BootSlots(trace)
    ensures slot in Stock(trace) ==> Stock(trace)[slot].quantity == BootSlots(trace)[slot].quantity - Vends(trace, slot)
  {
    if trace != [] && !trace[|trace| - 1].Boot? {
      StockIsBootLessVends(trace[..|trace| - 1], slot);
    }
  }

  /** Actions that move money or the product. */
  predicate MovesGoods(key: StepKey) {
    key.DispenseChange? || key.DispenseRefund? || key.VendMotor?
  }

  /** The transaction's slot holds its product, and can give up a piece. */
  predicate Serves(slots: map<SlotId, Slot>, t: Txn) {
    t.slot in slots && slots[t.slot].product == t.product && slots[t.slot].Sellable()
  }

  /** What an action requires of everything before it. */
  ghost predicate Justified(before: seq<Action>, a: Action) {
    match a
    case Motor(id, txn, _) =>
      && !Vended(before, id)
      && txn.status.DispensingProduct?
      && txn.payment.Confirmed?
      && txn.accepted >= txn.price
      && Paid(before, id) == txn.accepted - txn.price
      && Intent(id, VendMotor) in before
      && id in Saved(before) && Saved(before)[id] == txn
      && Serves(Stock(before), txn)
    case Payout(request, _, paid) =>
      && Worth(paid) >= 0
      && Intent(request.id, if request.purpose == Dispenser.Change then DispenseChange else DispenseRefund) in before
      && request.id in Saved(before)
    case Enable(id) => !PayoutWentWrong(before)
    case Intent(id, key) => MovesGoods(key) ==> id in Saved(before)
    case _ => true
  }

  /** Every action was justified when it happened. */
  ghost predicate Sound(trace: seq<Action>) {
    trace == [] || (Sound(trace[..|trace| - 1]) && Justified(trace[..|trace| - 1], trace[|trace| - 1]))
  }

  /** Only issued transactions are paid, vended or saved. */
  ghost predicate OnlyFor(trace: seq<Action>, issued: set<TxnId>) {
    forall i :: 0 <= i < |trace| ==>
      && (trace[i].Motor? ==> trace[i].id in issued)
      && (trace[i].Payout? ==> trace[i].request.id in issued)
      && (trace[i].SaveAll? ==> trace[i].rows.Keys <= issued)
  }

  /** Neither moves or announces a move of money or goods, nor restarts or enables anything. */
  predicate Quiet(a: Action, known: set<TxnId>) {
    match a
    case SaveAll(rows, _) => rows.Keys <= known
    case Intent(_, key) => !MovesGoods(key)
    case Boot(_, _, _) => false
    case Enable(_) => false
    case Payout(_, _, _) => false
    case Motor(_, _, _) => false
    case _ => true
  }

  lemma SoundSnoc(trace: seq<Action>, a: Action)
    requires Sound(trace) && Justified(trace, a)
    ensures Sound(trace + [a])
  {
    assert (trace + [a])[..|trace|] == trace;
  }

  /** Soundness survives cutting the trace short. */
  lemma {:induction false} SoundCut(trace: seq<Action>, n: nat)
    requires Sound(trace) && n <= |trace|
    ensures Sound(trace[..n])
  {
    if n < |trace| {
      SoundCut(trace[..|trace| - 1], n);
      assert trace[..|trace| - 1][..n] == trace[..n];
    } else {
      assert trace[..n] == trace;
    }
  }

  lemma SoundAt(trace: seq<Action>, i: nat)
    requires Sound(trace) && i < |trace|
    ensures Justified(trace[..i], trace[i])
  {
    SoundCut(trace, i + 1);
    assert trace[..i + 1][..i] == trace[..i];
  }

  /** One action more, read off the recursive definitions. */
  lemma Snoc(trace: seq<Action>, a: Action)
    ensures forall id :: Paid(trace + [a], id) == Paid(trace, id) + CashOut(a, id)
    ensures forall id :: Vended(trace + [a], id) <==> Vended(trace, id) || (a.Motor? && a.id == id)
    ensures Saved(trace + [a]) == if a.SaveAll? then Saved(trace) + a.rows else Saved(trace)
    ensures PayoutWentWrong(trace + [a]) <==> BadReply(a) || (!a.Boot? && PayoutWentWrong(trace))
    ensures Stock(trace + [a]) ==
              if a.Boot? then a.slots
              else if a.Motor? && a.ok && a.txn.slot in Stock(trace) then
                Stock(trace)[a.txn.slot := Stock(trace)[a.txn.slot].(quantity := Stock(trace)[a.txn.slot].quantity - 1)]
              else Stock(trace)
  {
    assert (trace + [a])[..|trace|] == trace;
  }

  lemma {:induction false} NeverPaid(trace: seq<Action>, issued: set<TxnId>, id: TxnId)
    requires OnlyFor(trace, issued) && id !in issued
    ensures Paid(trace, id) == 0 && !Vended(trace, id)
  {
    if trace != [] {
      NeverPaid(trace[..|trace| - 1], issued, id);
    }
  }

  /** `after` continues `before` with quiet actions only. */
  ghost predicate QuietlyExtends(before: seq<Action>, after: seq<Action>, known: set<TxnId>) {
    && |before| <= |after| && after[..|before|] == before
    && forall i :: |before| <= i < |after| ==> Quiet(after[i], known)
  }

  /** Quiet actions leave the money, the goods and the latch alone; what was saved stays saved. */
  lemma {:induction false} QuietFacts(before: seq<Action>, after: seq<Action>, known: set<TxnId>)
    requires QuietlyExtends(before, after, known)
    ensures forall id :: Paid(after, id) == Paid(before, id)
    ensures forall id :: Vended(after, id) <==> Vended(before, id)
    ensures PayoutWentWrong(after) <==> PayoutWentWrong(before)
    ensures Stock(after) == Stock(before)
    ensures Saved(before).Keys <= Saved(after).Keys
    ensures Sound(before) ==> Sound(after)
    ensures forall issued :: known <= issued && OnlyFor(before, issued) ==> OnlyFor(after, issued)
    decreases |after|
  {
    if |after| == |before| {
      assert after == before;
    } else {
      var shorter, a := after[..|after| - 1], after[|after| - 1];
      assert shorter[..|before|] == before;
      QuietFacts(before, shorter, known);
      Snoc(shorter, a);
      assert shorter + [a] == after;
      if Sound(shorter) {
        SoundSnoc(shorter, a);
      }
    }
  }

  ghost predicate AllQuiet(actions: seq<Action>, known: set<TxnId>) {
    forall i :: 0 <= i < |actions| ==> Quiet(actions[i], known)
  }

  lemma QuietConcat(trace: seq<Action>, actions: seq<Action>, known: set<TxnId>)
    requires AllQuiet(actions, known)
    ensures QuietlyExtends(trace, trace + actions, known)
  {
  }

  /** `all` is `trace` with the action `a`, and otherwise only quiet ones. */
  ghost predicate Follows(trace: seq<Action>, issued: set<TxnId>, a: Action, all: seq<Action>) {
    && Sound(all) && OnlyFor(all, issued)
    && (forall id :: Paid(all, id) == Paid(trace, id) + CashOut(a, id))
    && (forall id :: Vended(all, id) <==> Vended(trace, id) || (a.Motor? && a.id == id))
    && (PayoutWentWrong(all) <==> BadReply(a) || PayoutWentWrong(trace))
    && Stock(all) == Stock(trace + [a])
    && Saved(trace).Keys <= Saved(all).Keys
  }

  predicate About(a: Action, issued: set<TxnId>) {
    && !a.Boot?
    && (a.Motor? ==> a.id in issued)
    && (a.Payout? ==> a.request.id in issued)
    && (a.SaveAll? ==> a.rows.Keys <= issued)
  }

  lemma FollowsOne(trace: seq<Action>, issued: set<TxnId>, before: seq<Action>, a: Action)
    requires Sound(trace) && OnlyFor(trace, issued) && AllQuiet(before, issued)
    requires Justified(trace + before, a) && About(a, issued)
    ensures Follows(trace, issued, a, (trace + before) + [a])
  {
    QuietConcat(trace, before, issued);
    QuietFacts(trace, trace + before, issued);
    FollowsNext(trace, issued, trace + before, a);
  }

  lemma FollowsNext(trace: seq<Action>, issued: set<TxnId>, longer: seq<Action>, a: Action)
    requires Sound(longer) && OnlyFor(longer, issued) && Justified(longer, a) && About(a, issued)
    requires forall id :: Paid(longer, id) == Paid(trace, id)
    requires forall id :: Vended(longer, id) <==> Vended(trace, id)
    requires PayoutWentWrong(longer) <==> PayoutWentWrong(trace)
    requires Stock(longer) == Stock(trace) && Saved(trace).Keys <= Saved(longer).Keys
    ensures Follows(trace, issued, a, longer + [a])
  {
    hide Sound, OnlyFor, Justified, Paid, Vended, PayoutWentWrong, Stock, Saved, BadReply, CashOut;
    SoundSnoc(longer, a);
    OnlyForSnoc(longer, issued, a);
    PaidSnoc(longer, a);
    VendedSnoc(longer, a);
    WentWrongSnoc(longer, a);
    StockSnoc(trace, longer, a);
    SavedGrowsBy(longer, a);
  }

  lemma OnlyForSnoc(trace: seq<Action>, issued: set<TxnId>, a: Action)
    requires OnlyFor(trace, issued) && About(a, issued)
    ensures OnlyFor(trace + [a], issued)
  {
  }

  lemma PaidSnoc(trace: seq<Action>, a: Action)
    ensures forall id :: Paid(trace + [a], id) == Paid(trace, id) + CashOut(a, id)
  {
    hide CashOut;
    assert (trace + [a])[..|trace|] == trace;
  }

  lemma VendedSnoc(trace: seq<Action>, a: Action)
    ensures forall id :: Vended(trace + [a], id) <==> Vended(trace, id) || (a.Motor? && a.id == id)
  {
    assert (trace + [a])[..|trace|] == trace;
  }

  lemma WentWrongSnoc(trace: seq<Action>, a: Action)
    requires !a.Boot?
    ensures PayoutWentWrong(trace + [a]) <==> BadReply(a) || PayoutWentWrong(trace)
  {
    assert (trace + [a])[..|trace|] == trace;
  }

  lemma StockSnoc(trace: seq<Action>, longer: seq<Action>, a: Action)
    requires Stock(longer) == Stock(trace)
    ensures Stock(longer + [a]) == Stock(trace + [a])
  {
    assert (trace + [a])[..|trace|] == trace && (longer + [a])[..|longer|] == longer;
  }

  lemma SavedGrowsBy(trace: seq<Action>, a: Action)
    ensures Saved(trace).Keys <= Saved(trace + [a]).Keys
  {
    assert (trace + [a])[..|trace|] == trace;
  }

  lemma FollowsQuiet(trace: seq<Action>, issued: set<TxnId>, a: Action, all: seq<Action>, more: seq<Action>)
    requires Follows(trace, issued, a, all) && QuietlyExtends(all, more, issued)
    ensures Follows(trace, issued, a, more)
  {
    QuietFacts(all, more, issued);
  }

  /** A trace extended by one action that counts, between quiet ones. */
  lemma TraceAround(trace: seq<Action>, issued: set<TxnId>, before: seq<Action>, a: Action, after: seq<Action>)
    requires Sound(trace) && OnlyFor(trace, issued)
    requires AllQuiet(before, issued) && AllQuiet(after, issued)
    requires Justified(trace + before, a) && About(a, issued)
    ensures Follows(trace, issued, a, trace + (before + [a] + after))
  {
    FollowsOne(trace, issued, before, a);
    AroundExtends(trace, issued, before, a, after);
    FollowsQuiet(trace, issued, a, (trace + before) + [a], trace + (before + [a] + after));
  }

  lemma AroundExtends(trace: seq<Action>, issued: set<TxnId>, before: seq<Action>, a: Action, after: seq<Action>)
    requires AllQuiet(after, issued)
    ensures QuietlyExtends((trace + before) + [a], trace + (before + [a] + after), issued)
  {
    QuietConcat((trace + before) + [a], after, issued);
    assert ((trace + before) + [a]) + after == trace + (before + [a] + after);
  }

  lemma TraceOne(trace: seq<Action>, issued: set<TxnId>, a: Action)
    requires Sound(trace) && OnlyFor(trace, issued) && Justified(trace, a) && About(a, issued)
    ensures Follows(trace, issued, a, trace + [a])
  {
    SoundSnoc(trace, a);
    Snoc(trace, a);
  }
}

module ProtocolInvariant {
  import opened Wrappers
  import opened Counts
  import opened ChangePlanning
  import opened Money
  import opened SaleAssessment
  import opened ChangeManagement
  import opened Fsm
  import opened Sale
  import opened Protocol
  import opened TraceFacts
  import Dispenser

  /** Machine states between choosing a product and dispensing it. */
  predicate InSale(s: MachineState) {
    || s.PRODUCT_SELECTED? || s.CHECKING_AVAILABILITY? || s.CHECKING_CHANGE? || s.WAITING_FOR_PAYMENT?
    || s.ACCEPTING_CASH? || s.PAYMENT_ACCEPTED? || s.DISPENSING_CHANGE?
  }

  predicate AwaitingCash(s: MachineState) {
    s.WAITING_FOR_PAYMENT? || s.ACCEPTING_CASH?
  }

  /** Holds in every state, even between a motor run and its stock update. */
  ghost predicate Core0(c: Core) {
    && Sound(c.trace)
    && OnlyFor(c.trace, c.issued)
    && c.txns.Keys <= c.issued
    && (c.active.Some? ==> c.active.value in c.issued)
    && (forall req :: req in c.hopper.replies ==> req.id in c.issued)
    && (PayoutWentWrong(c.trace) ==> c.money.drift)
  }

  ghost predicate Base(c: Core) {
    Core0(c) && Stock(c.trace) == c.slots
  }

  /** No money paid for the transaction, no motor run, and no payout request answered. */
  ghost predicate Untouched(c: Core, id: TxnId) {
    && Paid(c.trace, id) == 0
    && !Vended(c.trace, id)
    && forall purpose :: Dispenser.Request(id, purpose) !in c.hopper.replies
  }

  /** The slot holds the product that was bought, and can give up a piece. */
  predicate SlotReady(c: Core, id: TxnId) {
    id in c.txns && Serves(c.slots, c.txns[id])
  }

  /** Between handlers a sale under way waits for cash, for an active transaction nothing was done for yet. */
  ghost predicate SaleReady(c: Core) {
    InSale(c.fsm) ==>
      && AwaitingCash(c.fsm)
      && c.active.Some?
      && Untouched(c, c.active.value)
      && SlotReady(c, c.active.value)
  }

  ghost predicate Inv(c: Core) {
    Base(c) && SaleReady(c)
  }

  /** Bookkeeping: no money paid, no goods, no new transaction. */
  ghost predicate CalmState(c: Core, d: Core) {
    && d.issued == c.issued
    && d.txns.Keys == c.txns.Keys
    && (forall id :: id in c.txns ==> d.txns[id].slot == c.txns[id].slot && d.txns[id].product == c.txns[id].product)
    && (d.active == c.active || d.active.None?)
    && d.hopper == c.hopper
    && d.slots == c.slots
    && (c.money.drift ==> d.money.drift)
  }

  ghost predicate Calm(c: Core, d: Core) {
    CalmState(c, d) && QuietlyExtends(c.trace, d.trace, c.txns.Keys)
  }

  lemma CalmLog(c: Core, d: Core, actions: seq<Action>)
    requires CalmState(c, d) && d.trace == c.trace
    requires AllQuiet(actions, c.txns.Keys)
    ensures Calm(c, d.Log(actions))
  {
  }

  lemma CalmKeepsBase(c: Core, d: Core)
    requires Calm(c, d)
    ensures Core0(c) ==> Core0(d)
    ensures Base(c) ==> Base(d)
    ensures forall id :: Untouched(c, id) <==> Untouched(d, id)
    ensures forall id :: SlotReady(c, id) <==> SlotReady(d, id)
    ensures Saved(c.trace).Keys <= Saved(d.trace).Keys
  {
    QuietFacts(c.trace, d.trace, c.txns.Keys);
  }

  /** Bookkeeping that leaves the sale or stays where it was keeps the invariant. */
  lemma CalmKeepsInv(c: Core, d: Core)
    requires Inv(c) && Calm(c, d)
    requires InSale(d.fsm) ==> InSale(c.fsm) && (d.fsm == c.fsm || AwaitingCash(d.fsm)) && d.active == c.active
    ensures Inv(d)
  {
    CalmKeepsBase(c, d);
  }

  /** Leaving the sale needs only the base invariant. */
  lemma CalmOutOfSale(c: Core, d: Core)
    requires Base(c) && Calm(c, d) && !InSale(d.fsm)
    ensures Inv(d)
  {
    CalmKeepsBase(c, d);
  }

  /** Bookkeeping around one action that counts. */
  lemma LogAround(c: Core, d: Core, before: seq<Action>, a: Action, after: seq<Action>)
    requires Core0(c) && CalmState(c, d) && d.trace == c.trace
    requires AllQuiet(before, c.txns.Keys) && AllQuiet(after, c.txns.Keys)
    requires Justified(c.trace + before, a) && About(a, c.issued)
    requires BadReply(a) ==> d.money.drift
    ensures Core0(d.Log(before + [a] + after))
    ensures Follows(c.trace, c.issued, a, d.Log(before + [a] + after).trace)
  {
    assert AllQuiet(before, c.issued) && AllQuiet(after, c.issued);
    TraceAround(c.trace, c.issued, before, a, after);
  }

  /** The same with nothing before it. */
  lemma LogFirst(c: Core, d: Core, a: Action, after: seq<Action>)
    requires Core0(c) && CalmState(c, d) && d.trace == c.trace && AllQuiet(after, c.txns.Keys)
    requires Justified(c.trace, a) && About(a, c.issued)
    requires BadReply(a) ==> d.money.drift
    ensures Core0(d.Log([a] + after))
    ensures Follows(c.trace, c.issued, a, d.Log([a] + after).trace)
  {
    assert c.trace + [] == c.trace;
    LogAround(c, d, [], a, after);
    assert [] + [a] + after == [a] + after;
  }

  /* ---------- handlers that only do bookkeeping ---------- */

  lemma ConfirmPickupKeepsInv(c: Core, id: TxnId, closes: bool)
    requires Inv(c)
    ensures Inv(ConfirmPickup(c, id, closes).core)
  {
    hide Inv, ClosePickup;
    if id in c.txns {
      var t := c.txns[id].ConfirmPickup();
      if c.Reaches(CLOSING_DELIVERY_WINDOW) {
        ClosePickupKeepsInv(c, id, t, closes);
      } else {
        MarkKeepsInv(c, c.Put(id, t), id, t, []);
        assert c.Put(id, t).Log([]) == c.Put(id, t);
      }
    }
  }

  lemma ClosePickupKeepsInv(c: Core, id: TxnId, t: Txn, closes: bool)
    requires Inv(c) && id in c.txns && t.slot == c.txns[id].slot && t.product == c.txns[id].product
    requires c.Reaches(CLOSING_DELIVERY_WINDOW)
    ensures Inv(ClosePickup(c, id, t, closes).core)
  {
    hide Inv, RowsToSave;
    if closes {
      var d := c.Put(id, t.MarkWindowClosed());
      MarkKeepsInv(c, d.ClearActive(id).At(IDLE), id, t.MarkWindowClosed(),
                   [Intent(id, CloseOnPickup), Window(id, false), Outcome(id, CloseOnPickup, Succeeded),
                    d.Save(Some(id)), d.Save(Some(id))]);
    } else {
      MarkKeepsInv(c, c.Put(id, t.MarkFaulted()).At(CLOSING_DELIVERY_WINDOW), id, t.MarkFaulted(),
                   [Intent(id, CloseOnPickup), Window(id, false), Outcome(id, CloseOnPickup, OutcomeAmbiguous)]);
    }
  }

  lemma PickupTimeoutKeepsInv(c: Core, id: TxnId, closes: bool)
    requires Inv(c)
    ensures Inv(PickupTimeout(c, id, closes).core)
  {
    hide Inv, RowsToSave;
    if id in c.txns && c.txns[id].status.WaitingForCustomerPickup? {
      if closes {
        var d := c.Put(id, c.txns[id].MarkPickupTimedOut()).At(RECOVERY_PENDING).Block(RecoveryBlock);
        MarkKeepsInv(c, d, id, c.txns[id].MarkPickupTimedOut(),
                     [c.Save(Some(id)), Intent(id, CloseOnTimeout), Window(id, false), Outcome(id, CloseOnTimeout, Succeeded),
                      d.Save(Some(id)), d.Save(Some(id))]);
      } else {
        var e := c.Put(id, c.txns[id].MarkFaulted()).At(FAULT).Block(DeliveryWindowFault);
        MarkKeepsInv(c, e, id, c.txns[id].MarkFaulted(),
                     [c.Save(Some(id)), Intent(id, CloseOnTimeout), Window(id, false),
                      Outcome(id, CloseOnTimeout, OutcomeAmbiguous), e.Save(Some(id)), e.Save(Some(id))]);
      }
    }
  }

  lemma ServiceKeepsInv(c: Core)
    requires Inv(c)
    ensures Inv(EnterServiceMode(c)) && Inv(ExitServiceMode(c))
  {
    CalmLog(c, c.(serviceMode := true).At(SERVICE_MODE), [c.Save(None)]);
    CalmLog(c, c.(serviceMode := false).At(IDLE), [c.Save(None)]);
    CalmKeepsInv(c, EnterServiceMode(c));
    CalmKeepsInv(c, ExitServiceMode(c));
  }

  lemma HealthKeepsInv(c: Core, found: set<Blocker>)
    requires Inv(c)
    ensures Inv(HealthPoll(c, found))
  {
    HealthCalm(c, found);
    CalmKeepsInv(c, HealthPoll(c, found));
  }

  lemma HealthCalm(c: Core, found: set<Blocker>)
    ensures Calm(c, HealthPoll(c, found))
    ensures HealthPoll(c, found).fsm == c.fsm && HealthPoll(c, found).active == c.active
  {
    hide RowsToSave;
  }

  lemma RecoverKeepsInv(c: Core, id: TxnId)
    requires Inv(c)
    ensures Inv(RecoverTransaction(c, id).core)
  {
    hide Inv, RowsToSave, AssessRecovery;
    if id in c.txns {
      var d := c.At(RECOVERY_PENDING).Block(RecoveryBlock);
      QuietKeepsInv(c, d, [c.Save(Some(id))]);
      QuietKeepsInv(c, d, [c.Save(Some(id)), c.Save(Some(id))]);
      var e := c.(blockers := c.blockers - {RecoveryBlock}).Put(id, c.txns[id].Cancel()).ClearActive(id).At(IDLE);
      MarkKeepsInv(c, e, id, c.txns[id].Cancel(), [c.Save(Some(id)), e.Save(Some(id))]);
    }
  }

  /* ---------- opening a sale ---------- */

  lemma StartKeepsInv(c: Core, id: TxnId, product: ProductId, slot: SlotId, price: nat, agrees: bool)
    requires Inv(c) && id !in c.issued
    ensures Inv(StartPurchase(c, id, product, slot, price, agrees).core)
  {
    if c.SalesAllowed() && Selectable(c, product, slot) && agrees && c.active.None? {
      var d := c.(txns := c.txns[id := NewTxn(price, slot, product)], active := Some(id), issued := c.issued + {id});
      NeverPaid(c.trace, c.issued, id);
      assert Base(d) && Untouched(d, id) && SlotReady(d, id);
      if c.Reaches(PRODUCT_SELECTED) {
        var e := d.At(WAITING_FOR_PAYMENT);
        CalmLog(e, e, [e.Save(Some(id))]);
        assert Inv(e);
        CalmKeepsInv(e, e.Log([e.Save(Some(id))]));
      }
    }
  }

  lemma AcceptKeepsInv(c: Core, id: TxnId, enabled: bool)
    requires Inv(c)
    ensures Inv(AcceptCash(c, id, enabled).core)
  {
    hide Sound, Vended, Saved, Paid, Stock, PayoutWentWrong, RowsToSave;
    if c.SalesAllowed() && id in c.txns && Assess(c.money, c.denoms, c.txns[id].price).supported {
      var plan := Assess(c.money, c.denoms, c.txns[id].price).plan;
      var r := ReserveForSale(c, id, plan);
      ReserveCalm(c, id, plan);
      CalmKeepsInv(c, r);
      var t := r.txns[id].StartSession();
      if r.Reaches(ACCEPTING_CASH) {
        EnableKeepsInv(r, id, t, enabled);
      } else {
        CalmLog(r, r.Put(id, t), []);
        CalmKeepsInv(r, r.Put(id, t));
      }
    }
  }

  lemma ReserveCalm(c: Core, id: TxnId, plan: Counts)
    requires id in c.txns
    ensures Calm(c, ReserveForSale(c, id, plan))
    ensures ReserveForSale(c, id, plan).fsm == c.fsm && ReserveForSale(c, id, plan).active == c.active
    ensures ReserveForSale(c, id, plan).money.drift == c.money.drift
  {
    var d := c.(money := Reserve(c.money, plan)).Put(id, c.txns[id].AttachReserve(plan));
    CalmLog(c, d, [d.Save(Some(id))]);
  }

  /** The validator is only enabled while the drift latch is clear. */
  lemma EnableKeepsInv(c: Core, id: TxnId, t: Txn, enabled: bool)
    requires Inv(c) && id in c.txns && t.slot == c.txns[id].slot && t.product == c.txns[id].product
    requires c.Reaches(ACCEPTING_CASH) && !c.money.drift
    ensures Inv(EnableSession(c, id, t, enabled).core)
  {
    hide Inv, CalmState, RowsToSave;
    if enabled {
      var d := c.Put(id, t).At(ACCEPTING_CASH);
      MarksIsCalm(c, d, id, t);
      EnabledInOneGo(c, d, id, Succeeded, [d.Save(Some(id))]);
      assert [Intent(id, EnableAcceptance), Enable(id), Outcome(id, EnableAcceptance, Succeeded)] + [d.Save(Some(id))]
             == [Intent(id, EnableAcceptance), Enable(id), Outcome(id, EnableAcceptance, Succeeded), d.Save(Some(id))];
    } else {
      var d := c.Put(id, t.MarkFaulted()).At(FAULT).Block(ValidatorFault);
      MarksIsCalm(c, d, id, t.MarkFaulted());
      EnabledInOneGo(c, d, id, OutcomeAmbiguous, []);
      assert [Intent(id, EnableAcceptance), Enable(id), Outcome(id, EnableAcceptance, OutcomeAmbiguous)] + []
             == [Intent(id, EnableAcceptance), Enable(id), Outcome(id, EnableAcceptance, OutcomeAmbiguous)];
    }
  }

  lemma EnabledInOneGo(c: Core, d: Core, id: TxnId, result: JournalResult, saved: seq<Action>)
    requires Inv(c) && CalmState(c, d) && d.trace == c.trace && d.active == c.active
    requires InSale(d.fsm) ==> InSale(c.fsm) && AwaitingCash(d.fsm)
    requires !c.money.drift && AllQuiet(saved, c.txns.Keys)
    ensures Inv(d.Log([Intent(id, EnableAcceptance), Enable(id), Outcome(id, EnableAcceptance, result)] + saved))
  {
    hide Inv, CalmState;
    EnableAround(c, d, id, [Outcome(id, EnableAcceptance, result)] + saved);
    assert [Intent(id, EnableAcceptance)] + [Enable(id)] + ([Outcome(id, EnableAcceptance, result)] + saved)
           == [Intent(id, EnableAcceptance), Enable(id), Outcome(id, EnableAcceptance, result)] + saved;
  }

  lemma EnableAround(c: Core, d: Core, id: TxnId, after: seq<Action>)
    requires Inv(c) && CalmState(c, d) && d.trace == c.trace && d.active == c.active
    requires InSale(d.fsm) ==> InSale(c.fsm) && (d.fsm == c.fsm || AwaitingCash(d.fsm))
    requires !c.money.drift && AllQuiet(after, c.txns.Keys)
    ensures Inv(d.Log([Intent(id, EnableAcceptance)] + [Enable(id)] + after))
  {
    hide Sound, Vended, Saved, Paid, Stock, PayoutWentWrong, RowsToSave;
    QuietConcat(c.trace, [Intent(id, EnableAcceptance)], c.txns.Keys);
    QuietFacts(c.trace, c.trace + [Intent(id, EnableAcceptance)], c.txns.Keys);
    LogAround(c, d, [Intent(id, EnableAcceptance)], Enable(id), after);
    Snoc(c.trace, Enable(id));
  }

  /** One transaction marked, and nothing else that counts. */
  predicate Marks(c: Core, d: Core, id: TxnId, t: Txn) {
    && id in c.txns && d.txns == c.txns[id := t] && t.slot == c.txns[id].slot && t.product == c.txns[id].product
    && d.issued == c.issued && (d.active == c.active || d.active.None?)
    && d.hopper == c.hopper && d.slots == c.slots && (c.money.drift ==> d.money.drift) && d.trace == c.trace
  }

  lemma MarksIsCalm(c: Core, d: Core, id: TxnId, t: Txn)
    requires Marks(c, d, id, t)
    ensures CalmState(c, d) && d.txns.Keys == c.txns.Keys
  {
  }

  lemma MarkKeepsInv(c: Core, d: Core, id: TxnId, t: Txn, actions: seq<Action>)
    requires Inv(c) && Marks(c, d, id, t) && AllQuiet(actions, d.txns.Keys)
    requires InSale(d.fsm) ==> InSale(c.fsm) && (d.fsm == c.fsm || AwaitingCash(d.fsm)) && d.active == c.active
    ensures Inv(d.Log(actions))
  {
    hide Inv, CalmState, AllQuiet, Calm;
    MarksIsCalm(c, d, id, t);
    CalmLog(c, d, actions);
    CalmKeepsInv(c, d.Log(actions));
  }

  lemma MarkOutOfSale(c: Core, d: Core, id: TxnId, t: Txn, actions: seq<Action>)
    requires Base(c) && Marks(c, d, id, t) && AllQuiet(actions, d.txns.Keys) && !InSale(d.fsm)
    ensures Inv(d.Log(actions))
  {
    hide Base, Inv, CalmState, AllQuiet, Calm;
    MarksIsCalm(c, d, id, t);
    CalmLog(c, d, actions);
    CalmOutOfSale(c, d.Log(actions));
  }

  lemma MarkKeepsBase(c: Core, d: Core, id: TxnId, t: Txn, actions: seq<Action>)
    requires Base(c) && Marks(c, d, id, t) && AllQuiet(actions, d.txns.Keys)
    ensures Base(d.Log(actions)) && QuietlyExtends(c.trace, d.Log(actions).trace, c.txns.Keys)
    ensures forall other :: Untouched(d.Log(actions), other) <==> Untouched(c, other)
    ensures forall other :: SlotReady(d.Log(actions), other) <==> SlotReady(c, other)
  {
    hide Base, Core0, CalmState, AllQuiet, QuietlyExtends, Untouched, SlotReady;
    MarksIsCalm(c, d, id, t);
    CalmLog(c, d, actions);
    CalmKeepsBase(c, d.Log(actions));
  }

  /** Bookkeeping on a sale that stays or is left. */
  lemma QuietKeepsInv(c: Core, d: Core, actions: seq<Action>)
    requires Inv(c) && CalmState(c, d) && d.trace == c.trace && d.active == c.active
    requires AllQuiet(actions, c.txns.Keys)
    requires InSale(d.fsm) ==> InSale(c.fsm) && (d.fsm == c.fsm || AwaitingCash(d.fsm))
    ensures Inv(d.Log(actions))
  {
    CalmLog(c, d, actions);
    CalmKeepsInv(c, d.Log(actions));
  }

  /* ---------- payment, change, vend ---------- */

  /** After payment_confirmed: nothing paid or vended yet, the sum due is known and the row is saved. */
  ghost predicate Paying(c: Core, id: TxnId) {
    && Base(c)
    && c.active == Some(id)
    && Untouched(c, id)
    && SlotReady(c, id)
    && c.txns[id].payment.Confirmed?
    && c.txns[id].changeDue == c.txns[id].accepted - c.txns[id].price >= 0
    && id in Saved(c.trace)
  }

  /** After the change is settled: exactly the overpayment left the hopper, and the motor has not run. */
  ghost predicate PaidUp(c: Core, id: TxnId) {
    && Base(c)
    && !Vended(c.trace, id)
    && SlotReady(c, id)
    && c.txns[id].payment.Confirmed?
    && c.txns[id].changeDue == c.txns[id].accepted - c.txns[id].price >= 0
    && Paid(c.trace, id) == c.txns[id].changeDue
    && (c.txns[id].changeDue > 0 ==> c.txns[id].payout.Dispensed?)
  }

  lemma ConfirmStep(c: Core, id: TxnId, disables: bool)
    requires Inv(c) && c.active == Some(id) && id in c.txns
    ensures var r := ConfirmPayment(c, id, disables);
            if r.error.Some? then Inv(r.core) else Paying(r.core, id) && r.core.fsm.PAYMENT_ACCEPTED?
  {
    if c.txns[id].accepted >= c.txns[id].price {
      if disables && c.Reaches(PAYMENT_ACCEPTED) {
        ConfirmOk(c, id);
      } else {
        ConfirmRaises(c, id, disables);
      }
    }
  }

  lemma ConfirmRaises(c: Core, id: TxnId, disables: bool)
    requires Inv(c) && id in c.txns && c.txns[id].accepted >= c.txns[id].price
    requires !disables || !c.Reaches(PAYMENT_ACCEPTED)
    ensures Inv(ConfirmPayment(c, id, disables).core)
  {
    hide Inv;
    var t := c.txns[id].ConfirmPayment().value;
    if disables {
      MarkKeepsInv(c, c.Put(id, t), id, t, [Intent(id, DisableOnPayment), Disable(id), Outcome(id, DisableOnPayment, Succeeded)]);
    } else {
      MarkKeepsInv(c, c.Put(id, t.MarkAmbiguous()).At(RECOVERY_PENDING), id, t.MarkAmbiguous(),
                   [Intent(id, DisableOnPayment), Disable(id), Outcome(id, DisableOnPayment, OutcomeAmbiguous)]);
    }
  }

  lemma ConfirmOk(c: Core, id: TxnId)
    requires Inv(c) && c.active == Some(id) && id in c.txns && c.txns[id].accepted >= c.txns[id].price
    requires c.Reaches(PAYMENT_ACCEPTED)
    ensures var r := ConfirmPayment(c, id, true); Paying(r.core, id) && r.core.fsm.PAYMENT_ACCEPTED?
  {
    hide Base, Untouched, Saved, QuietlyExtends, RowsToSave;
    var t := c.txns[id].ConfirmPayment().value;
    var d := c.Put(id, t).At(PAYMENT_ACCEPTED);
    var disabling := [Intent(id, DisableOnPayment), Disable(id), Outcome(id, DisableOnPayment, Succeeded)];
    MarkKeepsBase(c, d, id, t, disabling + [d.Save(Some(id))]);
    SavedLast(c.trace, disabling, d.Rows(Some(id)), d.money);
    RowIsWritten(d, id);
    assert d.Log(disabling + [d.Save(Some(id))]) == ConfirmPayment(c, id, true).core;
  }

  /** The transaction an event is about is always written. */
  lemma RowIsWritten(c: Core, id: TxnId)
    requires id in c.txns
    ensures id in c.Rows(Some(id)) && c.Rows(Some(id))[id] == c.txns[id]
  {
  }

  /** The last rows written are what is saved. */
  lemma SavedLast(trace: seq<Action>, actions: seq<Action>, rows: map<TxnId, Txn>, ledger: Ledger)
    ensures Saved(trace + (actions + [SaveAll(rows, ledger)])) == Saved(trace + actions) + rows
  {
    assert trace + (actions + [SaveAll(rows, ledger)]) == (trace + actions) + [SaveAll(rows, ledger)];
    Snoc(trace + actions, SaveAll(rows, ledger));
  }

  /** The device call for the change, on an announced and untouched transaction. */
  lemma DispenseStep(c: Core, id: TxnId, b: Dispenser.Behaviour)
    requires Base(c) && Untouched(c, id) && SlotReady(c, id)
    requires c.txns[id].changeDue > 0 && c.txns[id].payment.Confirmed?
    requires c.txns[id].changeDue == c.txns[id].accepted - c.txns[id].price
    requires c.txns[id].reserve.Some? && Coins(c.txns[id].reserve.value.counts)
    requires Worth(c.txns[id].reserve.value.counts) == c.txns[id].changeDue
    requires Intent(id, DispenseChange) in c.trace && id in Saved(c.trace)
    ensures var r := DispenseChangeDue(c, id, b);
            && Base(r.core) && r.core.fsm == c.fsm
            && (r.error.None? ==> PaidUp(r.core, id))
  {
    var plan := c.txns[id].reserve.value.counts;
    var req := Dispenser.Request(id, Dispenser.Change);
    var p := Dispenser.Pay(c.hopper, req, plan, b);
    Dispenser.FirstPay(c.hopper, req, plan, b);
    var a := Payout(req, p.reply, p.paid);
    assert Justified(c.trace, a);
    TraceOne(c.trace, c.issued, a);
    DispenseShape(AfterDevice(c, req, p), id, p);
  }

  /** The state after the device call, field by field. */
  lemma DispenseShape(c: Core, id: TxnId, p: Dispenser.Payout)
    requires id in c.txns && c.txns[id].reserve.Some?
    ensures var req, r := Dispenser.Request(id, Dispenser.Change), SettlePayout(c, id, p);
            && r.core.trace == c.trace && r.core.hopper == c.hopper && r.core.slots == c.slots
            && r.core.issued == c.issued && r.core.active == c.active && r.core.fsm == c.fsm
            && (c.money.drift || (p.reply.Some? && !p.reply.value.Dispensed?) ==> r.core.money.drift)
            && (r.error.None? <==> p.reply == Some(Dispenser.Dispensed))
            && r.core.txns == c.txns[id := r.core.txns[id]]
            && var t, before := r.core.txns[id], c.txns[id];
            && t.slot == before.slot && t.product == before.product
            && t.accepted == before.accepted && t.price == before.price && t.changeDue == before.changeDue
            && t.payment == before.payment && (r.error.None? ==> t.payout.Dispensed?)
  {
    if p.reply.None? {
    } else if p.reply.value.Dispensed? {
    } else if p.reply.value.Partial? {
    }
  }

  lemma FinalizeCalm(c: Core, id: TxnId)
    requires id in c.txns
    ensures Calm(c, FinalizeReserve(c, id).core)
  {
    hide BestPlan;
    CalmLog(c, FinalizeReserve(c, id).core, []);
  }

  lemma FinalizeStep(c: Core, id: TxnId)
    requires Paying(c, id)
    ensures var r := FinalizeReserve(c, id);
            && Paying(r.core, id) && r.core.fsm == c.fsm
            && r.core.txns[id].changeDue == c.txns[id].changeDue
            && (r.error.None? && c.txns[id].changeDue > 0 ==>
                  && r.core.txns[id].reserve.Some?
                  && Coins(r.core.txns[id].reserve.value.counts)
                  && Worth(r.core.txns[id].reserve.value.counts) == c.txns[id].changeDue)
  {
    hide Sound, Vended, Saved, Paid, Stock, PayoutWentWrong, RowsToSave, BestPlan;
    var r := FinalizeReserve(c, id);
    FinalizeCalm(c, id);
    CalmKeepsBase(c, r.core);
    BestPlanIsReservable(ReleaseHeld(c.money, c.txns[id]), c.txns[id].changeDue);
  }

  /** change_dispense_requested: the intent and the row are durable before the device is called. */
  lemma AnnounceStep(c: Core, id: TxnId)
    requires Paying(c, id)
    ensures var d := AnnounceChange(c, id);
            && Paying(d, id) && d.fsm.DISPENSING_CHANGE? && Intent(id, DispenseChange) in d.trace
            && d.txns[id].reserve == c.txns[id].reserve && d.txns[id].changeDue == c.txns[id].changeDue
  {
    hide Sound, Vended, Saved, Paid, Stock, PayoutWentWrong, RowsToSave;
    var d := c.Put(id, c.txns[id].MarkChangePending()).At(DISPENSING_CHANGE);
    var all := d.Log([Intent(id, DispenseChange), d.Save(Some(id))]);
    LogFirst(c, d, Intent(id, DispenseChange), [d.Save(Some(id))]);
    Snoc(c.trace, Intent(id, DispenseChange));
    assert [Intent(id, DispenseChange)] + [d.Save(Some(id))] == [Intent(id, DispenseChange), d.Save(Some(id))];
    assert all.trace[|c.trace|] == Intent(id, DispenseChange);
  }

  lemma PayStep(c: Core, id: TxnId, b: Dispenser.Behaviour)
    requires Paying(c, id) && c.fsm.PAYMENT_ACCEPTED? && c.txns[id].changeDue > 0
    requires c.txns[id].reserve.Some? && Coins(c.txns[id].reserve.value.counts)
    requires Worth(c.txns[id].reserve.value.counts) == c.txns[id].changeDue
    ensures var r := PayChange(c, id, b);
            && Base(r.core) && r.core.fsm.DISPENSING_CHANGE?
            && (r.error.None? ==> PaidUp(r.core, id))
  {
    hide DispenseChangeDue, AnnounceChange, Base, Untouched, Saved, PaidUp, Coins, Worth;
    AnnounceStep(c, id);
    var d := AnnounceChange(c, id);
    DispenseStep(d, id, b);
    var paid := DispenseChangeDue(d, id, b).core;
    AfterPay(paid, id, [Outcome(id, DispenseChange, Succeeded), paid.Save(Some(id))]);
    AfterPay(paid, id, [Outcome(id, DispenseChange, OutcomeAmbiguous)]);
  }

  lemma AfterPay(c: Core, id: TxnId, actions: seq<Action>)
    requires Base(c) && AllQuiet(actions, c.txns.Keys)
    ensures Base(c.Log(actions))
    ensures PaidUp(c, id) ==> PaidUp(c.Log(actions), id)
  {
    QuietConcat(c.trace, actions, c.txns.Keys);
    QuietFacts(c.trace, c.trace + actions, c.txns.Keys);
  }

  lemma RecoveryKeepsBase(c: Core)
    requires Base(c)
    ensures Inv(c.At(RECOVERY_PENDING))
  {
  }

  lemma SettleStep(c: Core, id: TxnId, b: Dispenser.Behaviour)
    requires Paying(c, id) && c.fsm.PAYMENT_ACCEPTED?
    ensures var r := SettleChange(c, id, b);
            if r.error.Some? then Inv(r.core)
            else PaidUp(r.core, id) && (r.core.fsm.PAYMENT_ACCEPTED? || r.core.fsm.DISPENSING_CHANGE?)
  {
    hide FinalizeReserve, PayChange, Base, Inv, Untouched, Saved, PaidUp, Worth;
    FinalizeStep(c, id);
    var f := FinalizeReserve(c, id);
    RecoveryKeepsBase(f.core);
    if f.error.None? && c.txns[id].changeDue > 0 {
      PayStep(f.core, id, b);
      RecoveryKeepsBase(PayChange(f.core, id, b).core);
    } else if f.error.None? {
      NothingDue(f.core, id);
    }
  }

  lemma NothingDue(c: Core, id: TxnId)
    requires Paying(c, id) && c.txns[id].changeDue == 0
    ensures PaidUp(c, id)
  {
    hide Base, Paid, Vended, Saved;
  }

  /** The motor is commanded exactly once, for a paid-up transaction whose row and intent are durable. */
  lemma MotorStep(c: Core, id: TxnId, t: Txn, vends: bool)
    requires PaidUp(c, id) && c.txns[id].AuthorizeVend() == Result.Ok(t)
    ensures var d := c.Put(id, t).At(DISPENSING_PRODUCT);
            var actions := [d.Save(Some(id)), Intent(id, VendMotor), Motor(id, t, vends)];
            && Core0(d.Log(actions)) && Follows(c.trace, c.issued, Motor(id, t, vends), d.Log(actions).trace)
  {
    hide Base, Core0, Saved, Vended, Paid, Untouched, QuietlyExtends, OnlyFor, Sound, Follows, RowsToSave;
    var d := c.Put(id, t).At(DISPENSING_PRODUCT);
    var e := d.Log([d.Save(Some(id))]);
    MarkKeepsBase(c, d, id, t, [d.Save(Some(id))]);
    SavedSnoc(c.trace, d.Rows(Some(id)), d.money);
    RowIsWritten(d, id);
    BaseFacts(c);
    BaseFacts(e);
    FollowsMotor(c.trace, e.trace, c.txns.Keys, c.issued, id, t, vends);
    CoreFollows(c, e, Motor(id, t, vends), (e.trace + [Intent(id, VendMotor)]) + [Motor(id, t, vends)]);
    assert c.trace + [d.Save(Some(id)), Intent(id, VendMotor), Motor(id, t, vends)]
           == (e.trace + [Intent(id, VendMotor)]) + [Motor(id, t, vends)];
  }

  lemma BaseFacts(c: Core)
    requires Base(c)
    ensures Core0(c) && Sound(c.trace) && OnlyFor(c.trace, c.issued) && c.txns.Keys <= c.issued && Stock(c.trace) == c.slots
  {
  }

  /** The trace alone carries the rest of the core invariant. */
  lemma CoreFollows(c: Core, d: Core, a: Action, all: seq<Action>)
    requires Core0(c) && Core0(d) && d.issued == c.issued && Follows(c.trace, c.issued, a, all)
    requires BadReply(a) || (PayoutWentWrong(c.trace) && !c.money.drift) ==> d.money.drift
    requires c.money.drift ==> d.money.drift
    ensures Core0(d.(trace := all))
  {
    hide Sound, Vended, Saved, Paid, PayoutWentWrong, Stock, OnlyFor;
  }

  lemma FollowsMotor(trace: seq<Action>, saved: seq<Action>, known: set<TxnId>, issued: set<TxnId>, id: TxnId, t: Txn, vends: bool)
    requires Sound(trace) && OnlyFor(trace, issued) && QuietlyExtends(trace, saved, known) && known <= issued
    requires id in Saved(saved) && Saved(saved)[id] == t && id in issued
    requires !Vended(trace, id) && t.status.DispensingProduct? && t.payment.Confirmed?
    requires Paid(trace, id) == t.accepted - t.price >= 0 && Serves(Stock(trace), t)
    ensures Follows(trace, issued, Motor(id, t, vends), (saved + [Intent(id, VendMotor)]) + [Motor(id, t, vends)])
  {
    hide Sound, OnlyFor, Saved, Vended, Paid, PayoutWentWrong, Stock, QuietlyExtends;
    QuietFacts(trace, saved, known);
    var announced := saved + [Intent(id, VendMotor)];
    AnnouncedKeeps(saved, issued, id);
    FollowsNext(trace, issued, announced, Motor(id, t, vends));
  }

  lemma AnnouncedKeeps(saved: seq<Action>, issued: set<TxnId>, id: TxnId)
    requires Sound(saved) && OnlyFor(saved, issued) && id in Saved(saved)
    ensures var announced := saved + [Intent(id, VendMotor)];
            && Sound(announced) && OnlyFor(announced, issued) && Intent(id, VendMotor) in announced
            && (forall other :: Paid(announced, other) == Paid(saved, other))
            && (forall other :: Vended(announced, other) <==> Vended(saved, other))
            && (PayoutWentWrong(announced) <==> PayoutWentWrong(saved))
            && Stock(announced) == Stock(saved) && Saved(announced) == Saved(saved)
  {
    SoundSnoc(saved, Intent(id, VendMotor));
    hide Sound, Saved, Vended, Paid, PayoutWentWrong, Stock;
    Snoc(saved, Intent(id, VendMotor));
    assert (saved + [Intent(id, VendMotor)])[|saved|] == Intent(id, VendMotor);
  }

  lemma VendStep(c: Core, id: TxnId, vends: bool)
    requires PaidUp(c, id) && (c.fsm.PAYMENT_ACCEPTED? || c.fsm.DISPENSING_CHANGE?)
    ensures var r := VendProduct(c, id, vends);
            && Inv(r.core)
            && (r.error.None? ==> r.core.fsm.DISPENSING_PRODUCT?)
            && r.error != Some(SlotEmpty)
  {
    hide Inv, Core0, Vended, Paid, Stock, Follows, TakeFromSlot, RowsToSave;
    var t := c.txns[id].AuthorizeVend().value;
    var d := c.Put(id, t).At(DISPENSING_PRODUCT);
    var m := d.Log([d.Save(Some(id)), Intent(id, VendMotor), Motor(id, t, vends)]);
    MotorStep(c, id, t, vends);
    StockAfterMotor(c.trace, c.issued, id, t, vends, m.trace);
    if vends {
      StockStep(m, id, t);
    } else {
      MotorFault(m, id, t);
    }
  }

  lemma StockAfterMotor(trace: seq<Action>, issued: set<TxnId>, id: TxnId, t: Txn, vends: bool, all: seq<Action>)
    requires Follows(trace, issued, Motor(id, t, vends), all)
    ensures Stock(all) ==
              if vends && t.slot in Stock(trace) then
                Stock(trace)[t.slot := Stock(trace)[t.slot].(quantity := Stock(trace)[t.slot].quantity - 1)]
              else Stock(trace)
  {
    assert (trace + [Motor(id, t, vends)])[..|trace|] == trace;
  }

  lemma MotorFault(m: Core, id: TxnId, t: Txn)
    requires Base(m) && id in m.txns && m.txns[id].slot == t.slot && m.txns[id].product == t.product
    ensures Inv(m.Put(id, t.MarkFaulted()).At(FAULT).Log([Outcome(id, VendMotor, OutcomeAmbiguous)]))
  {
    hide Base, Inv;
    MarkOutOfSale(m, m.Put(id, t.MarkFaulted()).At(FAULT), id, t.MarkFaulted(), [Outcome(id, VendMotor, OutcomeAmbiguous)]);
  }

  /** The stock update after a successful motor run restores the invariant, and cannot fail. */
  lemma StockStep(m: Core, id: TxnId, t: Txn)
    requires Core0(m) && SlotReady(m, id) && m.txns[id].slot == t.slot && m.txns[id].product == t.product
    requires m.fsm.DISPENSING_PRODUCT?
    requires Stock(m.trace) == m.slots[t.slot := m.slots[t.slot].(quantity := m.slots[t.slot].quantity - 1)]
    ensures var r := TakeFromSlot(m.Log([Outcome(id, VendMotor, Succeeded)]), id, t);
            r.error.None? && Inv(r.core) && r.core.fsm.DISPENSING_PRODUCT?
  {
    hide Sound, Vended, Saved, Paid, PayoutWentWrong, Stock, RowsToSave;
    var slot := m.slots[t.slot];
    var n := m.(slots := m.slots[t.slot := slot.(quantity := slot.quantity - 1)]);
    var d := n.Put(id, t.MarkProductDispensed());
    var after := [Outcome(id, VendMotor, Succeeded), d.Save(Some(id))];
    CalmLog(n, d, after);
    CalmOutOfSale(n, d.Log(after));
    assert m.trace + [Outcome(id, VendMotor, Succeeded)] + [d.Save(Some(id))] == m.trace + after;
  }

  lemma OpenStep(c: Core, id: TxnId, opens: bool)
    requires Inv(c) && id in c.txns && c.fsm.DISPENSING_PRODUCT?
    ensures Inv(OpenForPickup(c, id, opens).core)
  {
    hide Inv, RowsToSave;
    var t := c.txns[id];
    if opens {
      var d := c.Put(id, t.MarkWindowOpened()).At(WAITING_FOR_CUSTOMER_PICKUP);
      MarkKeepsInv(c, d, id, t.MarkWindowOpened(),
                   [Intent(id, OpenWindow), Window(id, true), Outcome(id, OpenWindow, Succeeded), d.Save(Some(id))]);
    } else {
      MarkKeepsInv(c, c.Put(id, t.MarkFaulted()).At(FAULT), id, t.MarkFaulted(),
                   [Intent(id, OpenWindow), Window(id, true), Outcome(id, OpenWindow, OutcomeAmbiguous)]);
    }
  }

  lemma CompleteKeepsInv(c: Core, id: TxnId, d: Devices)
    requires Inv(c) && c.active == Some(id) && id in c.txns
    ensures Inv(CompletePayment(c, id, d).core) && CompletePayment(c, id, d).error != Some(SlotEmpty)
  {
    hide ConfirmPayment, SettleChange, VendProduct, OpenForPickup;
    ConfirmStep(c, id, d.disables);
    var confirmed := ConfirmPayment(c, id, d.disables);
    ConfirmErrors(c, id, d.disables);
    if confirmed.error.None? {
      SettleStep(confirmed.core, id, d.payout);
      var settled := SettleChange(confirmed.core, id, d.payout);
      SettleErrors(confirmed.core, id, d.payout);
      if settled.error.None? {
        VendStep(settled.core, id, d.vends);
        var vended := VendProduct(settled.core, id, d.vends);
        if vended.error.None? {
          OpenStep(vended.core, id, d.opens);
          OpenErrors(vended.core, id, d.opens);
        }
      }
    }
  }

  lemma ConfirmErrors(c: Core, id: TxnId, disables: bool)
    requires id in c.txns
    ensures ConfirmPayment(c, id, disables).error != Some(SlotEmpty)
  {
  }

  lemma SettleErrors(c: Core, id: TxnId, b: Dispenser.Behaviour)
    requires id in c.txns
    ensures SettleChange(c, id, b).error != Some(SlotEmpty)
  {
    hide FinalizeReserve, PayChange;
    FinalizeErrors(c, id);
    PayChangeErrors(FinalizeReserve(c, id).core, id, b);
  }

  lemma FinalizeErrors(c: Core, id: TxnId)
    requires id in c.txns
    ensures FinalizeReserve(c, id).error != Some(SlotEmpty)
  {
    hide BestPlan;
  }

  lemma PayChangeErrors(c: Core, id: TxnId, b: Dispenser.Behaviour)
    requires id in c.txns
    ensures PayChange(c, id, b).error != Some(SlotEmpty)
  {
    hide Dispenser.Pay, AnnounceChange;
  }

  lemma OpenErrors(c: Core, id: TxnId, opens: bool)
    requires id in c.txns
    ensures OpenForPickup(c, id, opens).error != Some(SlotEmpty)
  {
  }

  lemma ValidatorKeepsInv(c: Core, e: ValidatorEvent, d: Devices)
    requires Inv(c)
    ensures Inv(ProcessValidatorEvent(c, e, d).core) && ProcessValidatorEvent(c, e, d).error != Some(SlotEmpty)
  {
    hide Inv, FaultValidator, StackBill, RowsToSave;
    var heard := c.Log([c.Save(None)]);
    QuietKeepsInv(c, c, [c.Save(None)]);
    if c.active.Some? && c.active.value in c.txns {
      FaultKeepsInv(heard, c.active.value);
      if e.BillStacked? && e.bill.Some? {
        BillKeepsInv(heard, c.active.value, e.bill.value, d);
      }
    }
  }

  lemma FaultKeepsInv(c: Core, id: TxnId)
    requires Inv(c) && id in c.txns
    ensures Inv(FaultValidator(c, id).core) && FaultValidator(c, id).error != Some(SlotEmpty)
  {
    hide Inv;
    var d, t := c.Put(id, c.txns[id].MarkFaulted()).Block(ValidatorFault), c.txns[id].MarkFaulted();
    if c.Reaches(FAULT) {
      MarkKeepsInv(c, d.At(FAULT), id, t, []);
      assert d.At(FAULT).Log([]) == d.At(FAULT);
    } else {
      MarkKeepsInv(c, d, id, t, []);
      assert d.Log([]) == d;
    }
  }

  lemma BillKeepsInv(c: Core, id: TxnId, bill: nat, d: Devices)
    requires Inv(c) && c.active == Some(id) && id in c.txns
    ensures Inv(StackBill(c, id, bill, d).core) && StackBill(c, id, bill, d).error != Some(SlotEmpty)
  {
    hide Inv, CompletePayment, RowsToSave;
    if c.txns[id].RecordCash(bill).Ok? {
      var t := c.txns[id].RecordCash(bill).value;
      var put := c.Put(id, t);
      MarkKeepsInv(c, put, id, t, [put.Save(Some(id))]);
      CompleteKeepsInv(put.Log([put.Save(Some(id))]), id, d);
    }
  }

  /* ---------- cancellation and refund ---------- */

  /** refund_requested and the refund intent are durable before the device is called. */
  lemma AnnounceRefundStep(c: Core, id: TxnId)
    requires Base(c) && id in c.txns
    ensures var d := AnnounceRefund(c, id);
            && Base(d) && id in d.txns && d.fsm == c.fsm && d.active == c.active
            && Intent(id, DispenseRefund) in d.trace && id in Saved(d.trace)
            && Paid(d.trace, id) == Paid(c.trace, id) && d.hopper == c.hopper
            && d.txns == c.txns[id := c.txns[id].DropReserve()] && d.money == ReleaseHeld(c.money, c.txns[id])
  {
    hide Base, Saved, Paid, Untouched, SlotReady, QuietlyExtends, RowsToSave;
    var d := c.(money := ReleaseHeld(c.money, c.txns[id])).Put(id, c.txns[id].DropReserve());
    var saved := d.Log([d.Save(Some(id))]);
    MarkKeepsBase(c, d, id, c.txns[id].DropReserve(), [d.Save(Some(id))]);
    SavedSnoc(c.trace, d.Rows(Some(id)), d.money);
    RowIsWritten(d, id);
    AnnounceOne(c, saved, id);
    assert c.trace + [d.Save(Some(id)), Intent(id, DispenseRefund)] == saved.trace + [Intent(id, DispenseRefund)];
  }

  lemma SavedSnoc(trace: seq<Action>, rows: map<TxnId, Txn>, ledger: Ledger)
    ensures Saved(trace + [SaveAll(rows, ledger)]) == Saved(trace) + rows
  {
    assert (trace + [SaveAll(rows, ledger)])[..|trace|] == trace;
  }

  lemma AnnounceOne(c: Core, saved: Core, id: TxnId)
    requires Base(saved) && id in Saved(saved.trace) && QuietlyExtends(c.trace, saved.trace, c.txns.Keys)
    ensures var d := saved.Log([Intent(id, DispenseRefund)]);
            && Base(d) && Intent(id, DispenseRefund) in d.trace && id in Saved(d.trace)
            && Paid(d.trace, id) == Paid(c.trace, id)
  {
    hide Sound, Vended, PayoutWentWrong;
    var a := Intent(id, DispenseRefund);
    TraceOne(saved.trace, saved.issued, a);
    Snoc(saved.trace, a);
    QuietFacts(c.trace, saved.trace, c.txns.Keys);
    assert (saved.trace + [a])[|saved.trace|] == a;
  }

  /** The refund payout, fresh or replayed. */
  lemma RefundPaid(c: Core, id: TxnId, p: Dispenser.Payout, money: Ledger)
    requires Base(c) && id in c.txns && Intent(id, DispenseRefund) in c.trace && id in Saved(c.trace)
    requires Worth(p.paid) >= 0
    requires forall r :: r in p.hopper.replies ==> r == Dispenser.Request(id, Dispenser.Refund) || r in c.hopper.replies
    requires c.money.drift || (p.reply.Some? && !p.reply.value.Dispensed?) ==> money.drift
    ensures var d := AfterDevice(c, Dispenser.Request(id, Dispenser.Refund), p).(money := money);
            Base(d) && Paid(d.trace, id) == Paid(c.trace, id) + Worth(p.paid)
  {
    hide Sound, Vended, Paid, PayoutWentWrong;
    var a := Payout(Dispenser.Request(id, Dispenser.Refund), p.reply, p.paid);
    TraceOne(c.trace, c.issued, a);
    Snoc(c.trace, a);
  }

  lemma PayRefundStep(c: Core, id: TxnId, amount: int, b: Dispenser.Behaviour)
    requires Base(c) && id in c.txns && Intent(id, DispenseRefund) in c.trace && id in Saved(c.trace)
    ensures var r := PayRefund(c, id, amount, b);
            && Base(r.core) && r.core.fsm == c.fsm && r.core.active == c.active
            && (r.error.None? && Dispenser.Request(id, Dispenser.Refund) !in c.hopper.replies
                ==> Paid(r.core.trace, id) == Paid(c.trace, id) + amount)
  {
    hide Base, Saved, Paid, Dispenser.Pay, Worth, Coins, BestPlan, PayRefund;
    BestPlanIsReservable(c.money, amount);
    RefundWithoutPlan(c, id, amount, b);
    var best := BestPlan(Available(c.money), amount);
    if best.Some? {
      var plan := best.value;
      var req := Dispenser.Request(id, Dispenser.Refund);
      var p := Dispenser.Pay(c.hopper, req, plan, b);
      if req in c.hopper.replies {
        Dispenser.RepeatedPay(c.hopper, req, plan, b);
        WorthOfZeros(map[]);
      } else {
        Dispenser.FirstPay(c.hopper, req, plan, b);
      }
      RefundShape(c, id, amount, b, plan, p);
      RefundPaid(c, id, p, PayRefund(c, id, amount, b).core.money);
    }
  }

  lemma RefundWithoutPlan(c: Core, id: TxnId, amount: int, b: Dispenser.Behaviour)
    ensures BestPlan(Available(c.money), amount).None? ==> PayRefund(c, id, amount, b) == Raise(c, ChangeUnavailable)
  {
    hide BestPlan;
  }

  lemma RefundShape(c: Core, id: TxnId, amount: int, b: Dispenser.Behaviour, plan: Counts, p: Dispenser.Payout)
    requires BestPlan(Available(c.money), amount) == Some(plan)
    requires p == Dispenser.Pay(c.hopper, Dispenser.Request(id, Dispenser.Refund), plan, b)
    ensures var r := PayRefund(c, id, amount, b);
            && r.core == AfterDevice(c, Dispenser.Request(id, Dispenser.Refund), p).(money := r.core.money)
            && (r.error.None? <==> p.reply == Some(Dispenser.Dispensed))
            && (c.money.drift || (p.reply.Some? && !p.reply.value.Dispensed?) ==> r.core.money.drift)
  {
    hide Dispenser.Pay, BestPlan;
  }

  lemma RefundStep(c: Core, id: TxnId, b: Dispenser.Behaviour)
    requires Base(c) && id in c.txns
    ensures var r := RefundCash(c, id, b);
            if r.error.Some? then Inv(r.core) && r.core.fsm.RECOVERY_PENDING?
            else Base(r.core) && r.core.fsm == c.fsm && r.core.active == c.active
  {
    hide Sound, Vended, Saved, Paid, PayoutWentWrong, Stock, RowsToSave, PayRefund, AnnounceRefund;
    AnnounceRefundStep(c, id);
    var announced, t := AnnounceRefund(c, id), c.txns[id].DropReserve();
    PayRefundStep(announced, id, t.accepted, b);
    var r := PayRefund(announced, id, t.accepted, b).core;
    var d := r.Put(id, t.MarkAmbiguous()).At(RECOVERY_PENDING);
    var actions := [Outcome(id, DispenseRefund, OutcomeAmbiguous), d.Save(Some(id))];
    MarkOutOfSale(r, d, id, t.MarkAmbiguous(), actions);
    AfterPay(r, id, [Outcome(id, DispenseRefund, Succeeded), r.Save(Some(id))]);
  }

  lemma CloseStep(c: Core, id: TxnId)
    requires Base(c) && id in c.txns && (InSale(c.fsm) ==> AwaitingCash(c.fsm))
    ensures Inv(CloseCancelled(c, id).core)
  {
    hide Base, Inv, RowsToSave;
    var t := c.txns[id].DropReserve().Cancel();
    var d := c.(money := ReleaseHeld(c.money, c.txns[id])).Put(id, t);
    if c.Reaches(CANCELLED) {
      MarkOutOfSale(c, d.ClearActive(id).At(IDLE), id, t, [d.Save(Some(id))]);
    } else {
      MarkOutOfSale(c, d, id, t, []);
      assert d.Log([]) == d;
    }
  }

  lemma CancelKeepsInv(c: Core, id: TxnId, disables: bool, b: Dispenser.Behaviour)
    requires Inv(c)
    ensures Inv(CancelPurchase(c, id, disables, b).core)
  {
    hide Base, Inv, RefundCash, CloseCancelled;
    if id in c.txns {
      if disables {
        var actions := [Intent(id, DisableOnCancel), Disable(id), Outcome(id, DisableOnCancel, Succeeded)];
        QuietKeepsInv(c, c, actions);
        RefundedKeepsInv(c.Log(actions), id, b);
      } else {
        MarkKeepsInv(c, c.Put(id, c.txns[id].MarkAmbiguous()).At(RECOVERY_PENDING), id, c.txns[id].MarkAmbiguous(),
                     [Intent(id, DisableOnCancel), Disable(id), Outcome(id, DisableOnCancel, OutcomeAmbiguous)]);
      }
    }
  }

  lemma RefundedKeepsInv(d: Core, id: TxnId, b: Dispenser.Behaviour)
    requires Inv(d) && id in d.txns
    ensures Inv(CloseCancelled(d, id).core)
    ensures var r := RefundCash(d, id, b); if r.error.Some? then Inv(r.core) else Inv(CloseCancelled(r.core, id).core)
  {
    hide Base, Untouched, SlotReady, RefundCash, CloseCancelled;
    RefundStep(d, id, b);
    CloseStep(d, id);
    if RefundCash(d, id, b).error.None? {
      CloseStep(RefundCash(d, id, b).core, id);
    }
  }

  /* ---------- every command, every run ---------- */

  lemma HandleKeepsInv(c: Core, cmd: Command)
    requires Inv(c)
    requires cmd.StartPurchaseCmd? ==> cmd.id !in c.issued
    ensures Inv(Handle(c, cmd).core)
  {
    hide Inv, StartPurchase, AcceptCash, ProcessValidatorEvent, CancelPurchase, ConfirmPickup, PickupTimeout,
      RecoverTransaction, EnterServiceMode, ExitServiceMode, HealthPoll;
    match cmd
    case StartPurchaseCmd(id, product, slot, price, agrees) => StartKeepsInv(c, id, product, slot, price, agrees);
    case AcceptCashCmd(id, enabled) => AcceptKeepsInv(c, id, enabled);
    case ValidatorCmd(event, devices) => ValidatorKeepsInv(c, event, devices);
    case CancelCmd(id, disables, payout) => CancelKeepsInv(c, id, disables, payout);
    case ConfirmPickupCmd(id, closes) => ConfirmPickupKeepsInv(c, id, closes);
    case PickupTimeoutCmd(id, closes) => PickupTimeoutKeepsInv(c, id, closes);
    case EnterServiceCmd => ServiceKeepsInv(c);
    case ExitServiceCmd => ServiceKeepsInv(c);
    case HealthCmd(found) => HealthKeepsInv(c, found);
    case RecoverCmd(id) => RecoverKeepsInv(c, id);
  }
}
