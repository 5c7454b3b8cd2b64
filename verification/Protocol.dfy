/** The sale protocol as steps over one core state: command handlers, validator events, recovery
    and restart. A raising step keeps the effects it made before the raise. */
module Protocol {
  import opened Wrappers
  import opened Counts
  import opened ChangePlanning
  import opened WorstCase
  import opened Money
  import opened SaleAssessment
  import opened ChangeManagement
  import opened Fsm
  import opened Sale
  import Dispenser

  type TxnId = nat

  datatype Blocker = ValidatorFault | DeliveryWindowFault | RecoveryBlock | DeviceFault | ServiceDoorOpen | CriticalTemperature

  datatype Slot = Slot(product: ProductId, quantity: int, enabled: bool) {
    predicate Sellable() {
      enabled && quantity > 0
    }
  }

  /** `UNSAFE_MACHINE_STATES`. */
  predicate Unsafe(s: MachineState) {
    s.BOOT? || s.SELF_TEST? || s.OUT_OF_SERVICE? || s.FAULT? || s.SERVICE_MODE? || s.RECOVERY_PENDING?
  }

  /** A journaled hardware action, one per (action name, logical step) pair in the code. */
  datatype StepKey =
    | EnableAcceptance | DisableOnPayment | DisableOnCancel | DispenseChange | DispenseRefund
    | VendMotor | OpenWindow | CloseOnPickup | CloseOnTimeout

  /** Interrupted actions whose physical effect is unknown (`MANUAL_REVIEW_INTENTS`). */
  predicate NeedsReview(key: StepKey) {
    !(key.EnableAcceptance? || key.DisableOnPayment? || key.DisableOnCancel?)
  }

  datatype JournalResult = Succeeded | OutcomeAmbiguous

  /** Durable writes and physical actions, in the order they happen. */
  datatype Action =
    | Boot(slots: map<SlotId, Slot>, ledger: Ledger, counts: Counts)
    | SaveAll(rows: map<TxnId, Txn>, ledger: Ledger)
    | Intent(id: TxnId, key: StepKey)
    | Outcome(id: TxnId, key: StepKey, result: JournalResult)
    | Enable(id: TxnId)
    | Disable(id: TxnId)
    | Payout(request: Dispenser.Request, reply: Option<Dispenser.Reply>, paid: Counts)
    | Motor(id: TxnId, txn: Txn, ok: bool)
    | Window(id: TxnId, open: bool)

  /** Rows the projector writes on an event about `primary`: that transaction, or else the active one, and every
      unresolved one. */
  function RowsToSave(txns: map<TxnId, Txn>, active: Option<TxnId>, primary: Option<TxnId>): (rows: map<TxnId, Txn>)
    ensures rows.Keys <= txns.Keys
  {
    var about := if primary.Some? then primary else active;
    map id | id in txns && (Some(id) == about || txns[id].Unresolved()) :: txns[id]
  }

  datatype Core = Core(
    txns: map<TxnId, Txn>,
    active: Option<TxnId>,
    issued: set<TxnId>,
    fsm: MachineState,
    shown: MachineState,
    serviceMode: bool,
    blockers: set<Blocker>,
    money: Ledger,
    hopper: Dispenser.Hopper,
    slots: map<SlotId, Slot>,
    products: map<ProductId, bool>,
    denoms: seq<int>,
    trace: seq<Action>)
  {
    /** `allow_cash_sales` is refreshed at every change of the three inputs. */
    predicate SalesAllowed() {
      blockers == {} && !serviceMode && !Unsafe(shown)
    }

    /** `fsm.transition` succeeds, silently if the machine is already there. */
    predicate Reaches(target: MachineState) {
      target == fsm || Allowed(fsm, target)
    }

    function Put(id: TxnId, t: Txn): Core {
      this.(txns := txns[id := t])
    }

    function Log(actions: seq<Action>): Core {
      this.(trace := trace + actions)
    }

    /** The machine moves and the status projection follows. */
    function At(state: MachineState): Core {
      this.(fsm := state, shown := state)
    }

    function Block(b: Blocker): Core {
      this.(blockers := blockers + {b})
    }

    function Rows(primary: Option<TxnId>): (rows: map<TxnId, Txn>)
      ensures rows.Keys <= txns.Keys
    {
      RowsToSave(txns, active, primary)
    }

    /** What the projector writes on an event about `primary`. */
    function Save(primary: Option<TxnId>): Action {
      SaveAll(Rows(primary), money)
    }

    function ClearActive(id: TxnId): Core {
      this.(active := if active == Some(id) then None else active)
    }
  }

  /** The state after a handler, and the exception that ended it, if any. */
  datatype Step = Step(core: Core, error: Option<Failure>)

  function Ok(c: Core): Step {
    Step(c, None)
  }

  function Raise(c: Core, f: Failure): Step {
    Step(c, Some(f))
  }

  /* ---------- change manager ---------- */

  ghost function FinalizeReserve(c: Core, id: TxnId): (r: Step)
    requires id in c.txns
    ensures id in r.core.txns
  {
    var f := Finalize(c.money, c.txns[id]);
    Step(c.(money := f.ledger).Put(id, f.txn), f.error)
  }

  /** What the reply to a change payout does to the ledger and the transaction. */
  function SettlePayout(c: Core, id: TxnId, p: Dispenser.Payout): (r: Step)
    requires id in c.txns && c.txns[id].reserve.Some?
    ensures id in r.core.txns
  {
    var s := AfterChange(c.money, c.txns[id], p.reply);
    Step(c.(money := s.ledger).Put(id, s.txn), s.error)
  }

  /** The device answered, or raised: its counts, its memory and the payout on the trace. */
  ghost function AfterDevice(c: Core, req: Dispenser.Request, p: Dispenser.Payout): Core {
    c.(hopper := p.hopper).Log([Payout(req, p.reply, p.paid)])
  }

  /** `dispense` for a transaction whose change is due: the device call, then the settlement. */
  ghost function DispenseChangeDue(c: Core, id: TxnId, b: Dispenser.Behaviour): (r: Step)
    requires id in c.txns
    ensures id in r.core.txns
  {
    var t := c.txns[id];
    if t.changeDue == 0 then Ok(c)
    else if t.reserve.None? then Raise(c, ChangeUnavailable)
    else
      var req := Dispenser.Request(id, Dispenser.Change);
      var p := Dispenser.Pay(c.hopper, req, t.reserve.value.counts, b);
      SettlePayout(AfterDevice(c, req, p), id, p)
  }

  /** `dispense_refund` of a positive amount. */
  ghost function PayRefund(c: Core, id: TxnId, amount: int, b: Dispenser.Behaviour): (r: Step)
    ensures r.core.txns == c.txns
  {
    match BestPlan(Available(c.money), amount)
    case None => Raise(c, ChangeUnavailable)
    case Some(plan) =>
      var req := Dispenser.Request(id, Dispenser.Refund);
      var p := Dispenser.Pay(c.hopper, req, plan, b);
      Step(AfterDevice(c, req, p).(money := Settled(Reserve(c.money, plan), plan, p.reply)), PayoutFailure(p.reply))
  }

  /* ---------- purchase commands ---------- */

  predicate Selectable(c: Core, product: ProductId, slot: SlotId) {
    && product in c.products && c.products[product]
    && slot in c.slots && c.slots[slot].product == product && c.slots[slot].Sellable()
  }

  /** `id` is the fresh identifier the registry draws. */
  function StartPurchase(c: Core, id: TxnId, product: ProductId, slot: SlotId, price: nat, sensorAgrees: bool): Step {
    if !c.SalesAllowed() then Raise(c, SalesBlocked)
    else if !Selectable(c, product, slot) then Raise(c, SelectionUnavailable)
    else if !sensorAgrees then Raise(c, SensorMismatch)
    else if c.active.Some? then Raise(c, TransactionActive)
    else
      var d := c.(txns := c.txns[id := NewTxn(price, slot, product)], active := Some(id), issued := c.issued + {id});
      if !c.Reaches(PRODUCT_SELECTED) then Raise(d, TransitionRefused)
      else Ok(d.At(WAITING_FOR_PAYMENT).Log([d.Save(Some(id))]))
  }

  /** The worst-case plan, when there is one, is held before cash is taken. */
  ghost function ReserveForSale(c: Core, id: TxnId, plan: Counts): Core
    requires id in c.txns
  {
    if plan == map[] then c
    else
      var d := c.(money := Reserve(c.money, plan)).Put(id, c.txns[id].AttachReserve(plan));
      d.Log([d.Save(Some(id))])
  }

  ghost function AcceptCash(c: Core, id: TxnId, enabled: bool): Step {
    if !c.SalesAllowed() then Raise(c, SalesBlocked)
    else if id !in c.txns then Raise(c, UnknownTransaction)
    else
      var assessment := Assess(c.money, c.denoms, c.txns[id].price);
      if !assessment.supported then Raise(c, CashUnsafe)
      else BeginSession(ReserveForSale(c, id, assessment.plan), id, enabled)
  }

  function BeginSession(c: Core, id: TxnId, enabled: bool): Step
    requires id in c.txns
  {
    var t := c.txns[id].StartSession();
    if !c.Reaches(ACCEPTING_CASH) then Raise(c.Put(id, t), TransitionRefused)
    else EnableSession(c, id, t, enabled)
  }

  /** The session is open and the validator is asked for notes. */
  function EnableSession(c: Core, id: TxnId, t: Txn, enabled: bool): Step {
    if enabled then
      var d := c.Put(id, t).At(ACCEPTING_CASH);
      Ok(d.Log([Intent(id, EnableAcceptance), Enable(id), Outcome(id, EnableAcceptance, Succeeded), d.Save(Some(id))]))
    else
      Raise(c.Put(id, t.MarkFaulted()).At(FAULT).Block(ValidatorFault)
              .Log([Intent(id, EnableAcceptance), Enable(id), Outcome(id, EnableAcceptance, OutcomeAmbiguous)]),
            ValidatorFailed)
  }

  /** What the devices do during one handler. */
  datatype Devices = Devices(disables: bool, payout: Dispenser.Behaviour, vends: bool, opens: bool)

  /** complete_payment up to the payment_confirmed event. */
  function ConfirmPayment(c: Core, id: TxnId, disables: bool): (r: Step)
    requires id in c.txns
    ensures id in r.core.txns
  {
    match c.txns[id].ConfirmPayment()
    case Err(e) => Raise(c, SaleFailure(e))
    case Ok(t) => CloseAcceptance(c, id, t, disables)
  }

  /** The confirmed payment takes effect once the validator has stopped. */
  function CloseAcceptance(c: Core, id: TxnId, t: Txn, disables: bool): (r: Step)
    requires id in c.txns
    ensures id in r.core.txns
  {
    if !disables then
      Raise(c.Put(id, t.MarkAmbiguous()).At(RECOVERY_PENDING)
              .Log([Intent(id, DisableOnPayment), Disable(id), Outcome(id, DisableOnPayment, OutcomeAmbiguous)]),
            ValidatorFailed)
    else
      var d := c.Put(id, t);
      var disabling := [Intent(id, DisableOnPayment), Disable(id), Outcome(id, DisableOnPayment, Succeeded)];
      if !c.Reaches(PAYMENT_ACCEPTED) then Raise(d.Log(disabling), TransitionRefused)
      else Ok(d.At(PAYMENT_ACCEPTED).Log(disabling + [d.Save(Some(id))]))
  }

  /** The payout is announced durably before the device is called. */
  function AnnounceChange(c: Core, id: TxnId): Core
    requires id in c.txns
  {
    var d := c.Put(id, c.txns[id].MarkChangePending()).At(DISPENSING_CHANGE);
    d.Log([Intent(id, DispenseChange), d.Save(Some(id))])
  }

  ghost function PayChange(c: Core, id: TxnId, b: Dispenser.Behaviour): (r: Step)
    requires id in c.txns
    ensures id in r.core.txns
  {
    if !c.Reaches(DISPENSING_CHANGE) then Raise(c.Put(id, c.txns[id].MarkChangePending()), TransitionRefused)
    else
      var paid := DispenseChangeDue(AnnounceChange(c, id), id, b);
      if paid.error.Some? then
        Step(paid.core.Log([Outcome(id, DispenseChange, OutcomeAmbiguous)]), paid.error)
      else
        Ok(paid.core.Log([Outcome(id, DispenseChange, Succeeded), paid.core.Save(Some(id))]))
  }

  /** The guarded block of complete_payment: any raise in it leads to RECOVERY_PENDING where allowed. */
  ghost function SettleChange(c: Core, id: TxnId, b: Dispenser.Behaviour): (r: Step)
    requires id in c.txns
    ensures id in r.core.txns
  {
    var finalized := FinalizeReserve(c, id);
    var settled :=
      if finalized.error.Some? || c.txns[id].changeDue <= 0 then finalized
      else PayChange(finalized.core, id, b);
    if settled.error.Some? && Allowed(settled.core.fsm, RECOVERY_PENDING) then
      Step(settled.core.At(RECOVERY_PENDING), settled.error)
    else settled
  }

  /** handle_vend_authorized up to the motor's answer. The projector also hears vend_authorized: it runs once the
      handler first waits or raises, so its rows are those of product_dispense_requested, written once here, or those
      of the refusal. */
  function VendProduct(c: Core, id: TxnId, vends: bool): (r: Step)
    requires id in c.txns
    ensures id in r.core.txns
  {
    match c.txns[id].AuthorizeVend()
    case Err(e) => Raise(c.Log([c.Save(Some(id))]), SaleFailure(e))
    case Ok(t) => DispenseAuthorized(c, id, t, vends)
  }

  function DispenseAuthorized(c: Core, id: TxnId, t: Txn, vends: bool): (r: Step)
    requires id in c.txns
    ensures id in r.core.txns
  {
    var d := c.Put(id, t);
    if !c.Reaches(DISPENSING_PRODUCT) then Raise(d.Log([d.Save(Some(id))]), TransitionRefused)
    else RunMotor(d.At(DISPENSING_PRODUCT), id, t, vends)
  }

  /** The motor is commanded once the row and the intent are durable. */
  function RunMotor(c: Core, id: TxnId, t: Txn, vends: bool): (r: Step)
    requires id in c.txns
    ensures id in r.core.txns
  {
    var m := c.Log([c.Save(Some(id)), Intent(id, VendMotor), Motor(id, t, vends)]);
    if !vends then
      Raise(m.Put(id, t.MarkFaulted()).At(FAULT).Log([Outcome(id, VendMotor, OutcomeAmbiguous)]), MotorFailed)
    else
      TakeFromSlot(m.Log([Outcome(id, VendMotor, Succeeded)]), id, t)
  }

  /** `mark_vended` after a successful motor run. */
  function TakeFromSlot(c: Core, id: TxnId, t: Txn): (r: Step)
    requires id in c.txns
    ensures id in r.core.txns
  {
    if t.slot in c.slots && c.slots[t.slot].Sellable() then
      var slot := c.slots[t.slot];
      var d := c.(slots := c.slots[t.slot := slot.(quantity := slot.quantity - 1)]).Put(id, t.MarkProductDispensed());
      Ok(d.Log([d.Save(Some(id))]))
    else Raise(c, SlotEmpty)
  }

  function OpenForPickup(c: Core, id: TxnId, opens: bool): Step
    requires id in c.txns
  {
    var t := c.txns[id];
    if !c.Reaches(OPENING_DELIVERY_WINDOW) then Raise(c, TransitionRefused)
    else if opens then
      var d := c.Put(id, t.MarkWindowOpened()).At(WAITING_FOR_CUSTOMER_PICKUP);
      Ok(d.Log([Intent(id, OpenWindow), Window(id, true), Outcome(id, OpenWindow, Succeeded), d.Save(Some(id))]))
    else
      Raise(c.Put(id, t.MarkFaulted()).At(FAULT)
              .Log([Intent(id, OpenWindow), Window(id, true), Outcome(id, OpenWindow, OutcomeAmbiguous)]), WindowFailed)
  }

  /** Run the next part on what the previous one left, unless it raised. */
  ghost function CompletePayment(c: Core, id: TxnId, d: Devices): Step
    requires id in c.txns
  {
    var confirmed := ConfirmPayment(c, id, d.disables);
    if confirmed.error.Some? then confirmed
    else
      var settled := SettleChange(confirmed.core, id, d.payout);
      if settled.error.Some? then settled
      else
        var vended := VendProduct(settled.core, id, d.vends);
        if vended.error.Some? then vended else OpenForPickup(vended.core, id, d.opens)
  }

  datatype ValidatorEvent = BillStacked(bill: Option<nat>) | ValidatorFaulted | OtherValidatorEvent

  ghost function ProcessValidatorEvent(c: Core, e: ValidatorEvent, d: Devices): Step {
    var heard := c.Log([c.Save(None)]);
    if c.active.None? || c.active.value !in c.txns then Ok(heard)
    else
      match e
      case OtherValidatorEvent => Ok(heard)
      case ValidatorFaulted => FaultValidator(heard, c.active.value)
      case BillStacked(bill) =>
        if bill.None? then Raise(heard, MissingBillValue) else StackBill(heard, c.active.value, bill.value, d)
  }

  function FaultValidator(c: Core, id: TxnId): Step
    requires id in c.txns
  {
    var d := c.Put(id, c.txns[id].MarkFaulted()).Block(ValidatorFault);
    if c.Reaches(FAULT) then Raise(d.At(FAULT), ValidatorFailed) else Raise(d, TransitionRefused)
  }

  ghost function StackBill(c: Core, id: TxnId, bill: nat, d: Devices): Step
    requires id in c.txns
  {
    match c.txns[id].RecordCash(bill)
    case Err(e) => Raise(c, SaleFailure(e))
    case Ok(t) =>
      var put := c.Put(id, t);
      var counted := put.Log([put.Save(Some(id))]);
      if t.accepted >= t.price then CompletePayment(counted, id, d) else Ok(counted)
  }

  /** The refund is announced durably before the device is called; the held reserve is given back first. */
  function AnnounceRefund(c: Core, id: TxnId): Core
    requires id in c.txns
  {
    var d := c.(money := ReleaseHeld(c.money, c.txns[id])).Put(id, c.txns[id].DropReserve());
    d.Log([d.Save(Some(id)), Intent(id, DispenseRefund)])
  }

  ghost function RefundCash(c: Core, id: TxnId, b: Dispenser.Behaviour): (r: Step)
    requires id in c.txns
    ensures id in r.core.txns
  {
    var t := c.txns[id].DropReserve();
    var refunded := PayRefund(AnnounceRefund(c, id), id, t.accepted, b);
    if refunded.error.Some? then Step(RefundFailure(refunded.core, id), refunded.error)
    else Ok(refunded.core.Log([Outcome(id, DispenseRefund, Succeeded), refunded.core.Save(Some(id))]))
  }

  /** A refund that did not come back as dispensed is put up for review. */
  function RefundFailure(c: Core, id: TxnId): Core
    requires id in c.txns
  {
    var d := c.Put(id, c.txns[id].MarkAmbiguous()).At(RECOVERY_PENDING);
    d.Log([Outcome(id, DispenseRefund, OutcomeAmbiguous), d.Save(Some(id))])
  }

  /** PaymentCoordinator.cancel_purchase followed by the controller's return to IDLE. */
  ghost function CancelPurchase(c: Core, id: TxnId, disables: bool, b: Dispenser.Behaviour): Step {
    if id !in c.txns then Raise(c, UnknownTransaction)
    else if !disables then
      Raise(c.Put(id, c.txns[id].MarkAmbiguous()).At(RECOVERY_PENDING)
              .Log([Intent(id, DisableOnCancel), Disable(id), Outcome(id, DisableOnCancel, OutcomeAmbiguous)]), ValidatorFailed)
    else
      var t := c.txns[id];
      var d := c.Log([Intent(id, DisableOnCancel), Disable(id), Outcome(id, DisableOnCancel, Succeeded)]);
      var refunded := if t.payment != Confirmed && t.accepted > 0 then RefundCash(d, id, b) else Ok(d);
      if refunded.error.Some? then refunded else CloseCancelled(refunded.core, id)
  }

  function CloseCancelled(c: Core, id: TxnId): Step
    requires id in c.txns
  {
    var t := c.txns[id];
    var d := c.(money := ReleaseHeld(c.money, t)).Put(id, t.DropReserve().Cancel());
    if !c.Reaches(CANCELLED) then Raise(d, TransitionRefused)
    else Ok(d.ClearActive(id).At(IDLE).Log([d.Save(Some(id))]))
  }

  function ConfirmPickup(c: Core, id: TxnId, closes: bool): Step {
    if id !in c.txns then Raise(c, UnknownTransaction)
    else
      var t := c.txns[id].ConfirmPickup();
      if !c.Reaches(CLOSING_DELIVERY_WINDOW) then Raise(c.Put(id, t), TransitionRefused)
      else ClosePickup(c, id, t, closes)
  }

  function ClosePickup(c: Core, id: TxnId, t: Txn, closes: bool): Step
    requires id in c.txns
  {
    if closes then Ok(PickupClosed(c, id, t))
    else
      Raise(c.Put(id, t.MarkFaulted()).At(CLOSING_DELIVERY_WINDOW)
              .Log([Intent(id, CloseOnPickup), Window(id, false), Outcome(id, CloseOnPickup, OutcomeAmbiguous)]), WindowFailed)
  }

  function PickupClosed(c: Core, id: TxnId, t: Txn): Core
    requires id in c.txns
  {
    var d := c.Put(id, t.MarkWindowClosed());
    d.ClearActive(id).At(IDLE)
      .Log([Intent(id, CloseOnPickup), Window(id, false), Outcome(id, CloseOnPickup, Succeeded),
            d.Save(Some(id)), d.Save(Some(id))])
  }

  /* ---------- timeout, service mode, health ---------- */

  /** PickupTimeoutCoordinator._handle_timeout, run to completion. */
  function PickupTimeout(c: Core, id: TxnId, closes: bool): Step {
    if id !in c.txns || c.txns[id].status != WaitingForCustomerPickup then Ok(c)
    else Ok(if closes then TimedOutClosed(c, id) else TimedOutStuck(c, id))
  }

  function TimedOutClosed(c: Core, id: TxnId): Core
    requires id in c.txns
  {
    var d := c.Put(id, c.txns[id].MarkPickupTimedOut()).At(RECOVERY_PENDING).Block(RecoveryBlock);
    d.Log([c.Save(Some(id)), Intent(id, CloseOnTimeout), Window(id, false), Outcome(id, CloseOnTimeout, Succeeded),
           d.Save(Some(id)), d.Save(Some(id))])
  }

  function TimedOutStuck(c: Core, id: TxnId): Core
    requires id in c.txns
  {
    var d := c.Put(id, c.txns[id].MarkFaulted()).At(FAULT).Block(DeliveryWindowFault);
    d.Log([c.Save(Some(id)), Intent(id, CloseOnTimeout), Window(id, false), Outcome(id, CloseOnTimeout, OutcomeAmbiguous),
           d.Save(Some(id)), d.Save(Some(id))])
  }

  function EnterServiceMode(c: Core): Core {
    c.(serviceMode := true).At(SERVICE_MODE).Log([c.Save(None)])
  }

  function ExitServiceMode(c: Core): Core {
    c.(serviceMode := false).At(IDLE).Log([c.Save(None)])
  }

  /** The health monitor's three reasons, as read by one poll. */
  function HealthPoll(c: Core, found: set<Blocker>): Core {
    var health := {DeviceFault, ServiceDoorOpen, CriticalTemperature};
    var d := c.(blockers := (c.blockers - health) + (found * health));
    if found * health == {} then d else d.Log([c.Save(None)])
  }

  /* ---------- recovery ---------- */

  datatype Verdict = NothingToDo | OperatorReview | PendingReview | CancelSafe

  function AssessRecovery(t: Txn): Verdict {
    if t.Terminal() then NothingToDo
    else if t.status.PickupTimedOut? || t.status.Ambiguous? || t.status.Faulted? then OperatorReview
    else if t.payment.Confirmed? && (t.payout.PartiallyPaid? || t.payout.PayoutAmbiguous? || t.payout.PayoutFailed?)
    then OperatorReview
    else if t.payment == Confirmed then PendingReview
    else CancelSafe
  }

  function RecoverTransaction(c: Core, id: TxnId): Step {
    if id !in c.txns then Raise(c, UnknownTransaction)
    else
      var t := c.txns[id];
      var d := c.At(RECOVERY_PENDING).Block(RecoveryBlock);
      match AssessRecovery(t)
      case OperatorReview => Raise(d.Log([c.Save(Some(id)), c.Save(Some(id))]), InterventionRequired)
      case PendingReview => Raise(d.Log([c.Save(Some(id)), c.Save(Some(id))]), InterventionRequired)
      case NothingToDo => Ok(d.Log([c.Save(Some(id))]))
      case CancelSafe =>
        var e := c.(blockers := c.blockers - {RecoveryBlock}).Put(id, t.Cancel()).ClearActive(id).At(IDLE);
        Ok(e.Log([c.Save(Some(id)), e.Save(Some(id))]))
  }

  /** Last saved row per transaction. */
  ghost function Saved(trace: seq<Action>): map<TxnId, Txn> {
    if trace == [] then map[]
    else
      var last := trace[|trace| - 1];
      if last.SaveAll? then Saved(trace[..|trace| - 1]) + last.rows else Saved(trace[..|trace| - 1])
  }

  ghost predicate HasOutcome(trace: seq<Action>, id: TxnId, key: StepKey) {
    exists r :: Outcome(id, key, r) in trace
  }

  /** An intent row without an outcome row under the same key. */
  ghost predicate Interrupted(trace: seq<Action>, id: TxnId, key: StepKey) {
    Intent(id, key) in trace && !HasOutcome(trace, id, key)
  }

  /** Journal rows of interrupted actions, oldest first; a repeated key is ignored on insert. */
  ghost function InterruptedRows(trace: seq<Action>, upTo: nat): seq<(TxnId, StepKey)>
    requires upTo <= |trace|
  {
    if upTo == 0 then []
    else
      var earlier, a := InterruptedRows(trace, upTo - 1), trace[upTo - 1];
      if a.Intent? && Interrupted(trace, a.id, a.key) && (a.id, a.key) !in earlier then earlier + [(a.id, a.key)]
      else earlier
  }

  ghost predicate NeedsRecovery(trace: seq<Action>, id: TxnId) {
    id in Saved(trace) && (Saved(trace)[id].Unresolved() || exists key :: Interrupted(trace, id, key))
  }

  ghost function Restored(trace: seq<Action>): map<TxnId, Txn> {
    map id | id in Saved(trace) && NeedsRecovery(trace, id) :: Saved(trace)[id]
  }

  function MarkInterrupted(txns: map<TxnId, Txn>, row: (TxnId, StepKey)): map<TxnId, Txn> {
    if row.0 !in txns then txns
    else txns[row.0 := if NeedsReview(row.1) then txns[row.0].MarkAmbiguous() else txns[row.0].MarkRecoveryPending()]
  }

  function MarkAll(txns: map<TxnId, Txn>, rows: seq<(TxnId, StepKey)>): map<TxnId, Txn> {
    if rows == [] then txns
    else MarkInterrupted(MarkAll(txns, rows[..|rows| - 1]), rows[|rows| - 1])
  }

  function FirstOpen(txns: map<TxnId, Txn>, order: seq<TxnId>): Option<TxnId> {
    if order == [] then None
    else if order[0] in txns && !txns[order[0]].Terminal() then Some(order[0])
    else FirstOpen(txns, order[1..])
  }

  function UnresolvedRows(txns: map<TxnId, Txn>): map<TxnId, Txn> {
    map id | id in txns && txns[id].Unresolved() :: txns[id]
  }

  /** A restart: start-up, `_restore_runtime_state`, `_complete_startup_flow`. Everything but the
      transaction table and the journal is read afresh; `order` is the order rows come back in. */
  ghost function Restart(c: Core, order: seq<TxnId>, money: Ledger, counts: Counts, slots: map<SlotId, Slot>): Core {
    var restored := Restored(c.trace);
    var rows := InterruptedRows(c.trace, |c.trace|);
    var marked := MarkAll(restored, rows);
    var found := exists i :: 0 <= i < |rows| && rows[i].0 in restored;
    var pending := restored != map[] || found;
    var state := if pending then RECOVERY_PENDING else IDLE;
    var c1 := Core(marked, FirstOpen(restored, order), c.issued, state, state, false,
                   if pending then {RecoveryBlock} else {}, money, Dispenser.Hopper(counts, map[]), slots, c.products,
                   c.denoms, c.trace).Log([Boot(slots, money, counts)]);
    if found then c1.Log([SaveAll(UnresolvedRows(marked), money)]) else c1
  }

  /* ---------- runs ---------- */

  datatype Command =
    | StartPurchaseCmd(id: TxnId, product: ProductId, slot: SlotId, price: nat, sensorAgrees: bool)
    | AcceptCashCmd(id: TxnId, enabled: bool)
    | ValidatorCmd(event: ValidatorEvent, devices: Devices)
    | CancelCmd(id: TxnId, disables: bool, payout: Dispenser.Behaviour)
    | ConfirmPickupCmd(id: TxnId, closes: bool)
    | PickupTimeoutCmd(id: TxnId, closes: bool)
    | EnterServiceCmd
    | ExitServiceCmd
    | HealthCmd(found: set<Blocker>)
    | RecoverCmd(id: TxnId)

  ghost function Handle(c: Core, cmd: Command): Step {
    match cmd
    case StartPurchaseCmd(id, product, slot, price, agrees) => StartPurchase(c, id, product, slot, price, agrees)
    case AcceptCashCmd(id, enabled) => AcceptCash(c, id, enabled)
    case ValidatorCmd(event, devices) => ProcessValidatorEvent(c, event, devices)
    case CancelCmd(id, disables, payout) => CancelPurchase(c, id, disables, payout)
    case ConfirmPickupCmd(id, closes) => ConfirmPickup(c, id, closes)
    case PickupTimeoutCmd(id, closes) => PickupTimeout(c, id, closes)
    case EnterServiceCmd => Ok(EnterServiceMode(c))
    case ExitServiceCmd => Ok(ExitServiceMode(c))
    case HealthCmd(found) => Ok(HealthPoll(c, found))
    case RecoverCmd(id) => RecoverTransaction(c, id)
  }

  /** A run is made of completed commands and crashes. A crash lets a command get as far as its
      first `done` durable writes and physical actions, then restarts the machine. */
  datatype Event =
    | Completed(cmd: Command)
    | Crash(cmd: Command, done: nat, order: seq<TxnId>, money: Ledger, counts: Counts, slots: map<SlotId, Slot>)

  /** New transaction identifiers are fresh. */
  predicate FreshIds(c: Core, e: Event) {
    e.cmd.StartPurchaseCmd? ==> e.cmd.id !in c.issued
  }

  function Min(a: int, b: int): int {
    if a <= b then a else b
  }

  /** What is left of the command's trace when the power goes. */
  ghost function CutTrace(c: Core, cmd: Command, done: nat): seq<Action> {
    var full := Handle(c, cmd).core.trace;
    full[..Min(|full|, |c.trace| + done)]
  }

  ghost function Next(c: Core, e: Event): Core {
    match e
    case Completed(cmd) => Handle(c, cmd).core
    case Crash(cmd, done, order, money, counts, slots) =>
      Restart(Handle(c, cmd).core.(trace := CutTrace(c, cmd, done)), order, money, counts, slots)
  }

  ghost function Run(c: Core, events: seq<Event>): Core {
    if events == [] then c else Next(Run(c, events[..|events| - 1]), events[|events| - 1])
  }

  ghost predicate FreshRun(c: Core, events: seq<Event>) {
    events == [] || (FreshRun(c, events[..|events| - 1]) && FreshIds(Run(c, events[..|events| - 1]), events[|events| - 1]))
  }

  /** A machine that was never used. */
  predicate Initial(c: Core) {
    && c.txns == map[] && c.active.None? && c.issued == {}
    && c.fsm == c.shown == IDLE && c.blockers == {} && !c.serviceMode
    && !c.money.drift && c.hopper.replies == map[]
    && c.trace == [Boot(c.slots, c.money, c.hopper.counts)]
  }
}
