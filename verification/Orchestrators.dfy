/** The application core in the form it runs: the transaction registry, the machine state engine, the status projection,
    the money inventory and the payout device, with the command handlers changing them step by step. Each handler is
    proved to end in the state and with the error its step of the protocol gives. */
module Orchestrators {
  import opened Wrappers
  import opened Counts
  import opened ChangePlanning
  import opened Money
  import opened SaleAssessment
  import opened ChangeManagement
  import opened Fsm
  import opened Sale
  import opened Protocol
  import Dispenser
  import PayoutDevice
  import CrashRecovery

  ghost predicate AllHoldCoins(txns: map<TxnId, Txn>) {
    forall id :: id in txns ==> HoldsCoins(txns[id])
  }

  lemma PutHoldsCoins(txns: map<TxnId, Txn>, id: TxnId, t: Txn)
    requires AllHoldCoins(txns) && HoldsCoins(t)
    ensures AllHoldCoins(txns[id := t])
  {
  }

  lemma Joined<T>(s: seq<T>, a: seq<T>, b: T)
    ensures s + a + [b] == s + (a + [b])
  {
  }

  lemma Two<T>(s: seq<T>, a: T, b: T)
    ensures s + [a] + [b] == s + [a, b]
  {
  }

  lemma Three<T>(s: seq<T>, a: T, b: T, c: T)
    ensures s + [a] + [b] + [c] == s + [a, b, c]
  {
  }

  lemma Four<T>(s: seq<T>, a: T, b: T, c: T, d: T)
    ensures s + [a] + [b] + [c] + [d] == s + [a, b, c, d]
  {
  }

  class ApplicationCore {
    const fsm: StateMachineEngine
    const change: ChangeManager
    var transactions: map<TxnId, Txn>
    var activeId: Option<TxnId>
    var shown: MachineState
    var serviceMode: bool
    var blockers: set<Blocker>
    var slots: map<SlotId, Slot>
    var products: map<ProductId, bool>
    ghost var issued: set<TxnId>
    /** What reaches the database and the devices. */
    ghost var trace: seq<Action>

    ghost function Repr(): set<object> {
      {this, fsm, change.inventory, change.dispenser, change.dispenser.runner}
    }

    ghost predicate Valid()
      reads this, change.inventory
    {
      change.Ready() && AllHoldCoins(transactions)
    }

    ghost function View(): Core
      reads Repr()
    {
      Core(transactions, activeId, issued, fsm.state, shown, serviceMode, blockers, change.inventory.View(),
           change.dispenser.View(), slots, products, change.acceptedBills, trace)
    }

    /** A new machine: nothing registered, the state engine and the status in BOOT. */
    constructor (money: MoneyInventory, dispenser: PayoutDevice.MockChangeDispenser, acceptedBills: seq<int>,
                 slots: map<SlotId, Slot>, products: map<ProductId, bool>)
      requires forall d :: d in money.accountingCounts ==> d > 0
      ensures Valid()
      ensures View() == Core(map[], None, {}, BOOT, BOOT, false, {}, money.View(), dispenser.View(), slots, products,
                             acceptedBills, [Boot(slots, money.View(), dispenser.View().counts)])
    {
      fsm := new StateMachineEngine(BOOT);
      change := new ChangeManager(money, dispenser, acceptedBills);
      transactions, activeId := map[], None;
      shown, serviceMode, blockers := BOOT, false, {};
      this.slots, this.products := slots, products;
      trace, issued := [Boot(slots, money.View(), dispenser.View().counts)], {};
    }

    predicate SalesAllowed()
      reads this
    {
      blockers == {} && !serviceMode && !Unsafe(shown)
    }

    /** The rows the projector writes when an event is published. */
    ghost function Rows(primary: Option<TxnId>): Action
      reads this, change.inventory
    {
      SaveAll(RowsToSave(transactions, activeId, primary), change.inventory.View())
    }

    ghost method Publish(primary: Option<TxnId>)
      modifies this`trace
      ensures trace == old(trace) + [old(Rows(primary))]
      ensures View() == old(View()).Log([old(View()).Save(primary)])
    {
      hide RowsToSave, MoneyInventory.View, PayoutDevice.MockChangeDispenser.View;
      trace := trace + [Rows(primary)];
    }

    /** A journal row or a device command. */
    ghost method Record(a: Action)
      modifies this`trace
      ensures trace == old(trace) + [a] && View() == old(View()).Log([a])
    {
      hide RowsToSave, MoneyInventory.View, PayoutDevice.MockChangeDispenser.View;
      trace := trace + [a];
    }

    /** Changing a handler's own transaction changes nothing that the core shows. */
    lemma Apart(transaction: Transaction)
      ensures transaction !in Repr()
    {
    }

    lemma Cash()
      ensures View().money == change.inventory.View() && View().hopper == change.dispenser.View() && View().slots == slots
    {
      hide MoneyInventory.View, PayoutDevice.MockChangeDispenser.View;
    }

    lemma Fields()
      ensures View().txns == transactions && View().active == activeId && View().fsm == fsm.state && View().shown == shown
      ensures SalesAllowed() == View().SalesAllowed()
    {
      hide Unsafe;
    }

    /** The registry holds what the handler's transaction has become. */
    method Keep(id: TxnId, transaction: Transaction)
      requires Valid() && HoldsCoins(transaction.View())
      modifies this`transactions
      ensures Valid() && transactions == old(transactions)[id := transaction.View()]
      ensures View() == old(View()).Put(id, transaction.View())
    {
      hide Transaction.View, MoneyInventory.View, PayoutDevice.MockChangeDispenser.View, ChangeManager.Ready, AllHoldCoins;
      PutHoldsCoins(transactions, id, transaction.View());
      transactions := transactions[id := transaction.View()];
    }

    /** The registry's transaction, in a hand of its own. */
    method Fetch(id: TxnId) returns (transaction: Transaction)
      requires Valid() && id in transactions
      ensures fresh(transaction) && transaction !in Repr()
      ensures transaction.View() == transactions[id] && HoldsCoins(transaction.View())
    {
      hide Transaction.View, ChangeManager.Ready, AllHoldCoins;
      transaction := new Transaction.Load(transactions[id]);
      HeldAreCoins(transactions, id);
    }

    /** `set_sales_blocker`. */
    method Shut(b: Blocker)
      modifies this`blockers
      ensures blockers == old(blockers) + {b} && View() == old(View()).Block(b)
    {
      hide MoneyInventory.View, PayoutDevice.MockChangeDispenser.View;
      blockers := blockers + {b};
    }

    /** The registry's `clear_active`. */
    method Forget(id: TxnId)
      modifies this`activeId
      ensures activeId == (if old(activeId) == Some(id) then None else old(activeId)) && View() == old(View()).ClearActive(id)
    {
      hide MoneyInventory.View, PayoutDevice.MockChangeDispenser.View;
      if activeId == Some(id) {
        activeId := None;
      }
    }

    /** `fsm.transition`, followed by the status projection where it succeeds. */
    method GoTo(target: MachineState) returns (ok: bool)
      modifies this`shown, fsm
      ensures ok <==> old(fsm.state) == target || Allowed(old(fsm.state), target)
      ensures fsm.state == if ok then target else old(fsm.state)
      ensures shown == if ok then target else old(shown)
      ensures ok == old(View()).Reaches(target) && View() == if ok then old(View()).At(target) else old(View())
    {
      hide Allowed, StateMachineEngine.View, Engine.Transition, MoneyInventory.View, PayoutDevice.MockChangeDispenser.View;
      ok := fsm.Transition(target);
      if ok {
        shown := fsm.state;
      }
    }

    /** `fsm.transition` alone, where the table allows it. */
    method Move(target: MachineState)
      requires Allowed(fsm.state, target)
      modifies fsm
      ensures fsm.state == target && View() == old(View()).(fsm := target)
    {
      hide Allowed, StateMachineEngine.View, Engine.Transition, MoneyInventory.View, PayoutDevice.MockChangeDispenser.View;
      var ok := fsm.Transition(target);
    }

    /** `fsm.transition` where the table allows it, `force_state` otherwise, and the status projection. */
    method Enter(target: MachineState)
      modifies this`shown, fsm
      ensures fsm.state == shown == target && View() == old(View()).At(target)
    {
      hide Allowed, StateMachineEngine.View, Engine.Transition, Engine.Force, MoneyInventory.View,
        PayoutDevice.MockChangeDispenser.View;
      var ok := fsm.Transition(target);
      if !ok {
        fsm.ForceState(target);
      }
      shown := fsm.state;
    }

    /** `mark_faulted` and the transition to FAULT where the table allows it. */
    method FaultTransaction(id: TxnId, transaction: Transaction)
      requires Valid() && HoldsCoins(transaction.View()) && Allowed(fsm.state, FAULT)
      modifies this`transactions, this`shown, fsm, transaction
      ensures Valid() && transactions == old(transactions)[id := old(transaction.View()).MarkFaulted()]
      ensures fsm.state == shown == FAULT
      ensures View() == old(View()).Put(id, old(transaction.View()).MarkFaulted()).At(FAULT)
    {
      hide View, Allowed, StateMachineEngine.View, Transaction.View, ChangeManager.Ready, AllHoldCoins;
      Apart(transaction);
      transaction.MarkFaulted();
      Keep(id, transaction);
      var ok := GoTo(FAULT);
    }

    /* ---------- PaymentCoordinator.start_cash_session ---------- */

    method StartCashSession(id: TxnId, enabled: bool) returns (error: Option<Failure>)
      requires Valid()
      modifies Repr()
      ensures Valid() && Step(View(), error) == AcceptCash(old(View()), id, enabled)
    {
      hide Assess, RowsToSave, ReserveForSale, BeginSession, Allowed, Unsafe, AllHoldCoins, CanReserve,
        StateMachineEngine.View, Engine.Transition, MoneyInventory.View, PayoutDevice.MockChangeDispenser.View,
        ChangeManager.Ready;
      if !SalesAllowed() {
        return Some(SalesBlocked);
      }
      if id !in transactions {
        return Some(UnknownTransaction);
      }
      var assessment := change.AssessSale(transactions[id].price);
      if !assessment.supported {
        return Some(CashUnsafe);
      }
      AssessedPlanIsReservable(change.inventory.View(), change.acceptedBills, transactions[id].price);
      HoldReserve(id, assessment.plan);
      error := BeginCashSession(id, enabled);
    }

    method BeginCashSession(id: TxnId, enabled: bool) returns (error: Option<Failure>)
      requires Valid() && id in transactions
      modifies this, fsm
      ensures Valid() && Step(View(), error) == BeginSession(old(View()), id, enabled)
    {
      hide View, Allowed, StateMachineEngine.View, ChangeManager.Ready, AllHoldCoins, RowsToSave, Transaction.View, EnableSession;
      Fields();
      var transaction := Fetch(id);
      transaction.StartCashSession();
      Keep(id, transaction);
      var ok := GoTo(ACCEPTING_CASH);
      if !ok {
        return Some(TransitionRefused);
      }
      Fields();
      SessionAgain(old(View()), id, transaction.View(), enabled);
      error := OpenSession(id, transaction, enabled);
    }

    method HoldReserve(id: TxnId, plan: Counts)
      requires Valid() && id in transactions
      requires CanReserve(change.inventory.View(), plan) && Coins(plan)
      modifies this`transactions, this`trace, change.inventory
      ensures Valid() && View() == ReserveForSale(old(View()), id, plan) && id in transactions
    {
      hide RowsToSave, CanReserve;
      if plan == map[] {
        return;
      }
      var reserved := change.inventory.ReservePlan(plan);
      var transaction := new Transaction.Load(transactions[id]);
      transaction.AttachChangeReserve(plan);
      transactions := transactions[id := transaction.View()];
      Publish(Some(id));
    }

    /** The validator is asked for notes, under a journaled intent. */
    method OpenSession(id: TxnId, transaction: Transaction, enabled: bool) returns (error: Option<Failure>)
      requires Valid() && id in transactions && transactions[id] == transaction.View() && fsm.state == ACCEPTING_CASH == shown
      modifies this, fsm, transaction
      ensures Valid() && Step(View(), error) == EnableSession(old(View()), id, old(transaction.View()), enabled)
    {
      hide View, Allowed, StateMachineEngine.View, ChangeManager.Ready, AllHoldCoins, RowsToSave, Transaction.View;
      Fields();
      CashCanFault();
      HeldAreCoins(transactions, id);
      Record(Intent(id, EnableAcceptance));
      Record(Enable(id));
      if !enabled {
        Shut(ValidatorFault);
        FaultTransaction(id, transaction);
        Three(old(View()).trace, Intent(id, EnableAcceptance), Enable(id), Outcome(id, EnableAcceptance, OutcomeAmbiguous));
        Record(Outcome(id, EnableAcceptance, OutcomeAmbiguous));
        return Some(ValidatorFailed);
      }
      Record(Outcome(id, EnableAcceptance, Succeeded));
      Again(old(View()), id, transaction.View());
      Four(old(View()).trace, Intent(id, EnableAcceptance), Enable(id), Outcome(id, EnableAcceptance, Succeeded),
           View().Save(Some(id)));
      Publish(Some(id));
      return None;
    }

    /* ---------- PaymentCoordinator.complete_payment ---------- */

    /** `mark_ambiguous` and the way to RECOVERY_PENDING. */
    method AmbiguousTransaction(id: TxnId, transaction: Transaction)
      requires Valid() && HoldsCoins(transaction.View())
      modifies this`transactions, this`shown, fsm, transaction
      ensures Valid() && transactions == old(transactions)[id := old(transaction.View()).MarkAmbiguous()]
      ensures fsm.state == shown == RECOVERY_PENDING
      ensures View() == old(View()).Put(id, old(transaction.View()).MarkAmbiguous()).At(RECOVERY_PENDING)
    {
      hide View, Transaction.View, ChangeManager.Ready, AllHoldCoins;
      Apart(transaction);
      transaction.MarkAmbiguous();
      Keep(id, transaction);
      Enter(RECOVERY_PENDING);
    }

    /** The validator is told to stop, under a journaled intent; if it does not answer the machine goes into recovery. */
    method DisableAcceptance(id: TxnId, key: StepKey, transaction: Transaction, disables: bool) returns (ok: bool)
      requires Valid() && HoldsCoins(transaction.View())
      modifies this`transactions, this`shown, this`trace, fsm, transaction
      ensures Valid() && ok == disables
      ensures ok ==> transaction.View() == old(transaction.View())
                     && View() == old(View()).Log([Intent(id, key), Disable(id), Outcome(id, key, Succeeded)])
      ensures !ok ==> View() == old(View()).Put(id, old(transaction.View()).MarkAmbiguous()).At(RECOVERY_PENDING)
                                  .Log([Intent(id, key), Disable(id), Outcome(id, key, OutcomeAmbiguous)])
    {
      hide View, Transaction.View, ChangeManager.Ready, AllHoldCoins;
      Three(View().trace, Intent(id, key), Disable(id), Outcome(id, key, if disables then Succeeded else OutcomeAmbiguous));
      Record(Intent(id, key));
      Record(Disable(id));
      if !disables {
        AmbiguousTransaction(id, transaction);
        Record(Outcome(id, key, OutcomeAmbiguous));
        return false;
      }
      Record(Outcome(id, key, Succeeded));
      return true;
    }

    method ConfirmPaymentOf(id: TxnId, disables: bool) returns (error: Option<Failure>)
      requires Valid() && id in transactions
      modifies this, fsm
      ensures Valid() && id in transactions && Step(View(), error) == ConfirmPayment(old(View()), id, disables)
    {
      hide View, Allowed, StateMachineEngine.View, ChangeManager.Ready, AllHoldCoins, RowsToSave, Transaction.View, CloseAcceptance;
      Fields();
      var transaction := Fetch(id);
      var failed := transaction.ConfirmPayment();
      if failed.Some? {
        return Some(SaleFailure(failed.value));
      }
      error := ClosePayment(id, transaction, disables);
      Fields();
    }

    method ClosePayment(id: TxnId, transaction: Transaction, disables: bool) returns (error: Option<Failure>)
      requires Valid() && id in transactions && HoldsCoins(transaction.View())
      modifies this, fsm, transaction
      ensures Valid() && id in transactions
      ensures Step(View(), error) == CloseAcceptance(old(View()), id, old(transaction.View()), disables)
    {
      hide View, Allowed, StateMachineEngine.View, ChangeManager.Ready, AllHoldCoins, RowsToSave, Transaction.View;
      var ok := DisableAcceptance(id, DisableOnPayment, transaction, disables);
      if !ok {
        Fields();
        return Some(ValidatorFailed);
      }
      Keep(id, transaction);
      ok := GoTo(PAYMENT_ACCEPTED);
      Fields();
      if !ok {
        return Some(TransitionRefused);
      }
      Joined(old(View()).trace, [Intent(id, DisableOnPayment), Disable(id), Outcome(id, DisableOnPayment, Succeeded)],
             View().Save(Some(id)));
      Publish(Some(id));
      return None;
    }

    method FinalizeReserveOf(id: TxnId) returns (error: Option<Failure>)
      requires Valid() && id in transactions
      modifies this`transactions, change.inventory
      ensures Valid() && id in transactions && Step(View(), error) == FinalizeReserve(old(View()), id)
    {
      hide AllHoldCoins, Finalize;
      var transaction := new Transaction.Load(transactions[id]);
      HeldAreCoins(transactions, id);
      FinalizedHoldsCoins(change.inventory.View(), transactions[id]);
      error := change.FinalizeReserve(transaction);
      Keep(id, transaction);
    }

    /** The device call for a change that is due, and what its answer means. */
    method DispenseDue(id: TxnId) returns (error: Option<Failure>, ghost b: Dispenser.Behaviour)
      requires Valid() && id in transactions
      modifies Repr()
      ensures Valid() && id in transactions && fsm.state == old(fsm.state)
      ensures Step(View(), error) == DispenseChangeDue(old(View()), id, b)
    {
      hide AllHoldCoins, Dispenser.Pay, AfterChange, MoneyInventory.View, PayoutDevice.MockChangeDispenser.View,
        Transaction.View;
      b := Dispenser.Raise;
      if transactions[id].changeDue == 0 {
        return None, b;
      }
      if transactions[id].reserve.None? {
        return Some(ChangeUnavailable), b;
      }
      var transaction := new Transaction.Load(transactions[id]);
      HeldAreCoins(transactions, id);
      ReserveIsHeld(transaction);
      ghost var payout;
      error, payout, b := change.Dispense(transaction, id);
      trace := trace + [Payout(Dispenser.Request(id, Dispenser.Change), payout.reply, payout.paid)];
      ChangedHoldsCoins(old(change.inventory.View()), old(transactions)[id], payout.reply);
      Keep(id, transaction);
    }

    method PayChangeOf(id: TxnId) returns (error: Option<Failure>, ghost b: Dispenser.Behaviour)
      requires Valid() && id in transactions
      modifies Repr()
      ensures Valid() && id in transactions && Step(View(), error) == PayChange(old(View()), id, b)
    {
      hide View, Allowed, StateMachineEngine.View, ChangeManager.Ready, AllHoldCoins, RowsToSave, Transaction.View, DispenseChangeDue, AnnounceChange;
      b := Dispenser.Raise;
      var ok := AnnounceChangeOf(id);
      if !ok {
        return Some(TransitionRefused), b;
      }
      error, b := DispenseDue(id);
      if error.Some? {
        Record(Outcome(id, DispenseChange, OutcomeAmbiguous));
        return error, b;
      }
      Two(View().trace, Outcome(id, DispenseChange, Succeeded), View().Save(Some(id)));
      Record(Outcome(id, DispenseChange, Succeeded));
      Publish(Some(id));
    }

    /** The payout is announced before the device is called. */
    method AnnounceChangeOf(id: TxnId) returns (ok: bool)
      requires Valid() && id in transactions
      modifies this, fsm
      ensures Valid() && id in transactions && ok == old(View()).Reaches(DISPENSING_CHANGE)
      ensures View() == if ok then AnnounceChange(old(View()), id)
                        else old(View()).Put(id, old(View()).txns[id].MarkChangePending())
    {
      hide View, Allowed, StateMachineEngine.View, ChangeManager.Ready, AllHoldCoins, RowsToSave, Transaction.View, AnnounceChange;
      Fields();
      var transaction := Fetch(id);
      transaction.MarkChangePending();
      Keep(id, transaction);
      ok := GoTo(DISPENSING_CHANGE);
      Fields();
      if ok {
        ChangeIsAnnouncedInSteps(old(View()), id);
        Record(Intent(id, DispenseChange));
        Publish(Some(id));
        Fields();
      }
    }

    /** The guarded block of complete_payment. */
    method SettleChangeOf(id: TxnId) returns (error: Option<Failure>, ghost b: Dispenser.Behaviour)
      requires Valid() && id in transactions
      modifies Repr()
      ensures Valid() && id in transactions && Step(View(), error) == SettleChange(old(View()), id, b)
    {
      hide Allowed, FinalizeReserve, PayChange, AllHoldCoins, ChangeManager.Ready, MoneyInventory.View,
        PayoutDevice.MockChangeDispenser.View;
      b := Dispenser.Raise;
      var due := transactions[id].changeDue;
      error := FinalizeReserveOf(id);
      if error.None? && due > 0 {
        error, b := PayChangeOf(id);
      }
      if error.Some? && Allowed(fsm.state, RECOVERY_PENDING) {
        Enter(RECOVERY_PENDING);
      }
    }

    /* ---------- VendingController.handle_vend_authorized ---------- */

    method VendProductOf(id: TxnId, vends: bool) returns (error: Option<Failure>)
      requires Valid() && id in transactions
      modifies this, fsm
      ensures Valid() && id in transactions && Step(View(), error) == VendProduct(old(View()), id, vends)
    {
      hide View, Allowed, StateMachineEngine.View, ChangeManager.Ready, AllHoldCoins, RowsToSave, Transaction.View, DispenseAuthorized;
      Fields();
      var transaction := Fetch(id);
      var failed := transaction.AuthorizeVend();
      if failed.Some? {
        Publish(Some(id));
        return Some(SaleFailure(failed.value));
      }
      error := DispenseProduct(id, transaction, vends);
    }

    method DispenseProduct(id: TxnId, transaction: Transaction, vends: bool) returns (error: Option<Failure>)
      requires Valid() && id in transactions && HoldsCoins(transaction.View())
      modifies this, fsm, transaction
      ensures Valid() && id in transactions
      ensures Step(View(), error) == DispenseAuthorized(old(View()), id, old(transaction.View()), vends)
    {
      hide View, Allowed, StateMachineEngine.View, ChangeManager.Ready, AllHoldCoins, RowsToSave, Transaction.View, RunMotor;
      Keep(id, transaction);
      var ok := GoTo(DISPENSING_PRODUCT);
      if !ok {
        Publish(Some(id));
        return Some(TransitionRefused);
      }
      Fields();
      error := CommandMotor(id, transaction, vends);
    }

    method CommandMotor(id: TxnId, transaction: Transaction, vends: bool) returns (error: Option<Failure>)
      requires Valid() && id in transactions && transactions[id] == transaction.View() && fsm.state == DISPENSING_PRODUCT
      modifies this, fsm, transaction
      ensures Valid() && id in transactions && Step(View(), error) == RunMotor(old(View()), id, old(transaction.View()), vends)
    {
      hide View, Allowed, StateMachineEngine.View, ChangeManager.Ready, AllHoldCoins, RowsToSave, Transaction.View, TakeFromSlot;
      Fields();
      HeldAreCoins(transactions, id);
      Three(View().trace, View().Save(Some(id)), Intent(id, VendMotor), Motor(id, transaction.View(), vends));
      Publish(Some(id));
      Record(Intent(id, VendMotor));
      Record(Motor(id, transaction.View(), vends));
      if !vends {
        ProductCanFault();
        FaultTransaction(id, transaction);
        Record(Outcome(id, VendMotor, OutcomeAmbiguous));
        Fields();
        return Some(MotorFailed);
      }
      Record(Outcome(id, VendMotor, Succeeded));
      error := MarkVended(id, transaction);
      Fields();
    }

    /** The slot gives up one piece, and the transaction its product. */
    method MarkVended(id: TxnId, transaction: Transaction) returns (error: Option<Failure>)
      requires Valid() && id in transactions && HoldsCoins(transaction.View())
      modifies this, transaction
      ensures Valid() && id in transactions && Step(View(), error) == TakeFromSlot(old(View()), id, old(transaction.View()))
    {
      hide Allowed, StateMachineEngine.View, Engine.Transition, MoneyInventory.View,
        PayoutDevice.MockChangeDispenser.View, ChangeManager.Ready, AllHoldCoins, RowsToSave;
      if transaction.slot !in slots || !slots[transaction.slot].Sellable() {
        return Some(SlotEmpty);
      }
      var slot := slots[transaction.slot];
      slots := slots[transaction.slot := slot.(quantity := slot.quantity - 1)];
      transaction.MarkProductDispensed();
      Keep(id, transaction);
      Publish(Some(id));
      return None;
    }

    method OpenWindowFor(id: TxnId, opens: bool) returns (error: Option<Failure>)
      requires Valid() && id in transactions
      modifies this, fsm
      ensures Valid() && Step(View(), error) == OpenForPickup(old(View()), id, opens)
    {
      hide View, Allowed, StateMachineEngine.View, ChangeManager.Ready, AllHoldCoins, RowsToSave, Transaction.View,
        OpenForPickup;
      Fields();
      var transaction := Fetch(id);
      var ok := GoTo(OPENING_DELIVERY_WINDOW);
      if !ok {
        WindowIsRefused(old(View()), id, opens);
        return Some(TransitionRefused);
      }
      WindowOpensInSteps(old(View()), id);
      error := AskToOpen(id, transaction, opens);
    }

    method AskToOpen(id: TxnId, transaction: Transaction, opens: bool) returns (error: Option<Failure>)
      requires Valid() && HoldsCoins(transaction.View()) && fsm.state == OPENING_DELIVERY_WINDOW
      modifies this, fsm, transaction
      ensures Valid()
      ensures Step(View(), error) == WindowAsked(old(View()), id, old(transaction.View()), opens)
    {
      hide View, Allowed, StateMachineEngine.View, ChangeManager.Ready, AllHoldCoins, RowsToSave, Transaction.View;
      OpeningGoesOn();
      Apart(transaction);
      Record(Intent(id, OpenWindow));
      Record(Window(id, true));
      if !opens {
        FaultTransaction(id, transaction);
        Record(Outcome(id, OpenWindow, OutcomeAmbiguous));
        return Some(WindowFailed);
      }
      Record(Outcome(id, OpenWindow, Succeeded));
      AwaitPickup(id, transaction);
      Publish(Some(id));
      return None;
    }

    method AwaitPickup(id: TxnId, transaction: Transaction)
      requires Valid() && HoldsCoins(transaction.View()) && Allowed(fsm.state, WAITING_FOR_CUSTOMER_PICKUP)
      modifies this`transactions, this`shown, fsm, transaction
      ensures Valid() && transactions == old(transactions)[id := old(transaction.View()).MarkWindowOpened()]
      ensures View() == old(View()).Put(id, old(transaction.View()).MarkWindowOpened()).At(WAITING_FOR_CUSTOMER_PICKUP)
    {
      hide View, Allowed, StateMachineEngine.View, Transaction.View, ChangeManager.Ready, AllHoldCoins;
      Apart(transaction);
      transaction.MarkWindowOpened();
      Keep(id, transaction);
      var ok := GoTo(WAITING_FOR_CUSTOMER_PICKUP);
    }

    /** The payment, the change, the product and the window, as far as each succeeds. */
    method CompletePaymentOf(id: TxnId, disables: bool, vends: bool, opens: bool)
      returns (error: Option<Failure>, ghost b: Dispenser.Behaviour)
      requires Valid() && id in transactions
      modifies Repr()
      ensures Valid() && Step(View(), error) == CompletePayment(old(View()), id, Devices(disables, b, vends, opens))
    {
      hide ConfirmPayment, SettleChange, VendProduct, OpenForPickup, AllHoldCoins, ChangeManager.Ready,
        MoneyInventory.View, PayoutDevice.MockChangeDispenser.View;
      b := Dispenser.Raise;
      error := ConfirmPaymentOf(id, disables);
      if error.None? {
        error, b := SettleChangeOf(id);
        if error.None? {
          error := VendProductOf(id, vends);
          if error.None? {
            error := OpenWindowFor(id, opens);
          }
        }
      }
    }

    /* ---------- PaymentCoordinator.process_validator_event ---------- */

    method ProcessEvent(event: ValidatorEvent, disables: bool, vends: bool, opens: bool)
      returns (error: Option<Failure>, ghost b: Dispenser.Behaviour)
      requires Valid()
      modifies Repr()
      ensures Valid() && Step(View(), error) == ProcessValidatorEvent(old(View()), event, Devices(disables, b, vends, opens))
    {
      hide FaultValidator, StackBill, Allowed, StateMachineEngine.View, Engine.Transition, MoneyInventory.View,
        PayoutDevice.MockChangeDispenser.View, ChangeManager.Ready, AllHoldCoins, RowsToSave;
      b := Dispenser.Raise;
      Publish(None);
      if activeId.None? || activeId.value !in transactions {
        return None, b;
      }
      var id := activeId.value;
      if event.ValidatorFaulted? {
        error := FaultOnValidator(id);
      } else if event.BillStacked? {
        if event.bill.None? {
          return Some(MissingBillValue), b;
        }
        error, b := CountBill(id, event.bill.value, disables, vends, opens);
      } else {
        error := None;
      }
    }

    method FaultOnValidator(id: TxnId) returns (error: Option<Failure>)
      requires Valid() && id in transactions
      modifies this, fsm
      ensures Valid() && Step(View(), error) == FaultValidator(old(View()), id)
    {
      hide View, Allowed, StateMachineEngine.View, ChangeManager.Ready, AllHoldCoins, RowsToSave, Transaction.View;
      Fields();
      var transaction := Fetch(id);
      transaction.MarkFaulted();
      Keep(id, transaction);
      Shut(ValidatorFault);
      var ok := GoTo(FAULT);
      return if ok then Some(ValidatorFailed) else Some(TransitionRefused);
    }

    method CountBill(id: TxnId, bill: nat, disables: bool, vends: bool, opens: bool)
      returns (error: Option<Failure>, ghost b: Dispenser.Behaviour)
      requires Valid() && id in transactions
      modifies Repr()
      ensures Valid() && Step(View(), error) == StackBill(old(View()), id, bill, Devices(disables, b, vends, opens))
    {
      hide View, Allowed, StateMachineEngine.View, ChangeManager.Ready, AllHoldCoins, RowsToSave, Transaction.View, CompletePayment;
      b := Dispenser.Raise;
      Fields();
      var transaction := Fetch(id);
      var failed := transaction.RecordStackedCash(bill);
      if failed.Some? {
        return Some(SaleFailure(failed.value)), b;
      }
      Keep(id, transaction);
      Publish(Some(id));
      Fields();
      Shows(transaction);
      if transaction.acceptedAmount < transaction.price {
        return None, b;
      }
      error, b := CompletePaymentOf(id, disables, vends, opens);
    }

    /* ---------- PaymentCoordinator.cancel_purchase ---------- */

    method Cancel(id: TxnId, disables: bool) returns (error: Option<Failure>, ghost b: Dispenser.Behaviour)
      requires Valid()
      modifies Repr()
      ensures Valid() && Step(View(), error) == CancelPurchase(old(View()), id, disables, b)
    {
      hide View, Allowed, StateMachineEngine.View, ChangeManager.Ready, AllHoldCoins, RowsToSave, Transaction.View, RefundCash, CloseCancelled;
      b := Dispenser.Raise;
      Fields();
      if id !in transactions {
        return Some(UnknownTransaction), b;
      }
      var transaction := Fetch(id);
      var ok := DisableAcceptance(id, DisableOnCancel, transaction, disables);
      if !ok {
        return Some(ValidatorFailed), b;
      }
      error := None;
      Fields();
      if transactions[id].payment != Confirmed && transactions[id].accepted > 0 {
        error, b := RefundCancelledCash(id);
      }
      if error.None? {
        error := CloseSale(id);
      }
    }

    /** `inventory.release` of what the transaction holds. */
    method ReleaseReserveOf(id: TxnId)
      requires Valid() && id in transactions
      modifies this`transactions, change.inventory
      ensures Valid() && transactions == old(transactions)[id := old(transactions)[id].DropReserve()]
      ensures change.inventory.View() == ReleaseHeld(old(change.inventory.View()), old(transactions)[id])
    {
      var transaction := new Transaction.Load(transactions[id]);
      if transaction.changeReserve.Some? {
        change.inventory.ReleasePlan(transaction.changeReserve.value.counts);
        transaction.DropChangeReserve();
      }
      transactions := transactions[id := transaction.View()];
    }

    method RefundCancelledCash(id: TxnId) returns (error: Option<Failure>, ghost b: Dispenser.Behaviour)
      requires Valid() && id in transactions && transactions[id].accepted > 0
      modifies Repr()
      ensures Valid() && id in transactions && Step(View(), error) == RefundCash(old(View()), id, b)
    {
      hide View, Allowed, StateMachineEngine.View, ChangeManager.Ready, AllHoldCoins, RowsToSave, Transaction.View, AnnounceRefund, PayRefund, RefundFailure;
      Fields();
      AnnounceRefundOf(id);
      error, b := PayRefundOf(id, transactions[id].accepted);
      if error.Some? {
        FailRefund(id);
        return error, b;
      }
      Two(View().trace, Outcome(id, DispenseRefund, Succeeded), View().Save(Some(id)));
      Record(Outcome(id, DispenseRefund, Succeeded));
      Publish(Some(id));
    }

    method FailRefund(id: TxnId)
      requires Valid() && id in transactions
      modifies this, fsm
      ensures Valid() && id in transactions && View() == RefundFailure(old(View()), id)
    {
      hide View, Allowed, StateMachineEngine.View, ChangeManager.Ready, AllHoldCoins, RowsToSave, Transaction.View;
      Fields();
      var transaction := Fetch(id);
      AmbiguousTransaction(id, transaction);
      Two(View().trace, Outcome(id, DispenseRefund, OutcomeAmbiguous), View().Save(Some(id)));
      Record(Outcome(id, DispenseRefund, OutcomeAmbiguous));
      Publish(Some(id));
      Fields();
    }

    method AnnounceRefundOf(id: TxnId)
      requires Valid() && id in transactions
      modifies this, change.inventory
      ensures Valid() && id in transactions && View() == AnnounceRefund(old(View()), id)
      ensures transactions[id] == old(transactions)[id].DropReserve()
    {
      hide Allowed, StateMachineEngine.View, Engine.Transition, MoneyInventory.View,
        PayoutDevice.MockChangeDispenser.View, ChangeManager.Ready, AllHoldCoins, RowsToSave, ReleaseHeld;
      ReleaseReserveOf(id);
      ghost var saved := Rows(Some(id));
      Publish(Some(id));
      trace := trace + [Intent(id, DispenseRefund)];
      Joined(old(trace), [saved], Intent(id, DispenseRefund));
    }

    method PayRefundOf(id: TxnId, amount: nat) returns (error: Option<Failure>, ghost b: Dispenser.Behaviour)
      requires Valid() && amount > 0
      modifies this`trace, change.inventory, change.dispenser, change.dispenser.runner
      ensures Valid() && Step(View(), error) == PayRefund(old(View()), id, amount, b)
    {
      hide BestPlan, Dispenser.Pay, Settled, PayoutFailure, MoneyInventory.View, PayoutDevice.MockChangeDispenser.View,
        AllHoldCoins;
      ghost var payout;
      error, payout, b := change.DispenseRefund(id, amount);
      if payout.Some? {
        trace := trace + [Payout(Dispenser.Request(id, Dispenser.Refund), payout.value.reply, payout.value.paid)];
      }
    }

    method CloseSale(id: TxnId) returns (error: Option<Failure>)
      requires Valid() && id in transactions
      modifies this, fsm, change.inventory
      ensures Valid() && Step(View(), error) == CloseCancelled(old(View()), id)
    {
      hide View, Allowed, StateMachineEngine.View, ChangeManager.Ready, AllHoldCoins, RowsToSave, Transaction.View, ReleaseHeld;
      Fields();
      CancelledGoesIdle();
      CancelTransaction(id);
      var ok := GoTo(CANCELLED);
      if !ok {
        return Some(TransitionRefused);
      }
      Publish(Some(id));
      Forget(id);
      ok := GoTo(IDLE);
      return None;
    }

    /** What is still held is given back, and the transaction is cancelled. */
    method CancelTransaction(id: TxnId)
      requires Valid() && id in transactions
      modifies this`transactions, change.inventory
      ensures Valid() && transactions == old(transactions)[id := old(transactions)[id].DropReserve().Cancel()]
      ensures change.inventory.View() == ReleaseHeld(old(change.inventory.View()), old(transactions)[id])
      ensures View() == old(View()).(money := ReleaseHeld(old(View()).money, old(transactions)[id]))
                          .Put(id, old(transactions)[id].DropReserve().Cancel())
    {
      hide PayoutDevice.MockChangeDispenser.View, Transaction.View, MoneyInventory.View, ReleaseHeld, AllHoldCoins, ChangeManager.Ready;
      ReleaseReserveOf(id);
      var transaction := new Transaction.Load(transactions[id]);
      HeldAreCoins(transactions, id);
      transaction.Cancel();
      Keep(id, transaction);
    }

    /* ---------- VendingController.start_purchase, confirm_pickup ---------- */

    /** `create_transaction` under the fresh identifier `id`; None when a transaction is already active. */
    method CreateTransaction(id: TxnId, price: nat, slot: SlotId, product: ProductId) returns (created: bool)
      requires Valid() && id !in transactions
      modifies this`transactions, this`activeId, this`issued
      ensures Valid() && created == old(activeId).None?
      ensures !created ==> transactions == old(transactions) && activeId == old(activeId) && issued == old(issued)
      ensures created ==> transactions == old(transactions)[id := NewTxn(price, slot, product)] && activeId == Some(id)
                          && issued == old(issued) + {id}
      ensures View() == if !created then old(View())
                        else old(View()).(txns := old(View()).txns[id := NewTxn(price, slot, product)], active := Some(id),
                                          issued := old(View()).issued + {id})
    {
      hide MoneyInventory.View, PayoutDevice.MockChangeDispenser.View;
      if activeId.Some? {
        return false;
      }
      var transaction := new Transaction(price, slot, product);
      transactions := transactions[id := transaction.View()];
      activeId := Some(id);
      issued := issued + {id};
      return true;
    }

    method StartPurchaseOf(id: TxnId, product: ProductId, slot: SlotId, price: nat, sensorAgrees: bool)
      returns (error: Option<Failure>)
      requires Valid() && id !in transactions
      modifies this, fsm
      ensures Valid() && Step(View(), error) == StartPurchase(old(View()), id, product, slot, price, sensorAgrees)
    {
      hide View, Allowed, StateMachineEngine.View, ChangeManager.Ready, AllHoldCoins, RowsToSave, Transaction.View,
        SalesAllowed, Core.SalesAllowed, Selectable, Unsafe;
      Fields();
      if !SalesAllowed() {
        return Some(SalesBlocked);
      }
      var selectable := EnsureSelection(product, slot);
      if !selectable {
        return Some(SelectionUnavailable);
      }
      if !sensorAgrees {
        return Some(SensorMismatch);
      }
      var created := CreateTransaction(id, price, slot, product);
      if !created {
        return Some(TransactionActive);
      }
      var ok := SelectAndCheck();
      if !ok {
        return Some(TransitionRefused);
      }
      Publish(Some(id));
      return None;
    }

    /** `ensure_selection`: the product is sold, and the slot holds it. */
    method EnsureSelection(product: ProductId, slot: SlotId) returns (ok: bool)
      ensures ok == Selectable(View(), product, slot) && View() == old(View())
    {
      if product !in products || !products[product] {
        return false;
      }
      if slot !in slots || slots[slot].product != product {
        return false;
      }
      return slots[slot].Sellable();
    }

    /** The four transitions of a new purchase. */
    method SelectAndCheck() returns (ok: bool)
      modifies this`shown, fsm
      ensures ok <==> old(fsm.state) == PRODUCT_SELECTED || Allowed(old(fsm.state), PRODUCT_SELECTED)
      ensures ok == old(View()).Reaches(PRODUCT_SELECTED)
      ensures View() == if ok then old(View()).At(WAITING_FOR_PAYMENT) else old(View())
    {
      hide Allowed, StateMachineEngine.View, Engine.Transition, MoneyInventory.View, PayoutDevice.MockChangeDispenser.View;
      PurchaseGoesOn();
      ok := fsm.Transition(PRODUCT_SELECTED);
      if ok {
        ok := fsm.Transition(CHECKING_AVAILABILITY);
        ok := fsm.Transition(CHECKING_CHANGE);
        ok := fsm.Transition(WAITING_FOR_PAYMENT);
        shown := fsm.state;
      }
    }

    /** The window is told to close, under a journaled intent. */
    ghost method CommandClose(id: TxnId, key: StepKey, closes: bool)
      modifies this`trace
      ensures View() == old(View()).Log([Intent(id, key), Window(id, false),
                                         Outcome(id, key, if closes then Succeeded else OutcomeAmbiguous)])
    {
      hide View;
      Three(View().trace, Intent(id, key), Window(id, false), Outcome(id, key, if closes then Succeeded else OutcomeAmbiguous));
      Record(Intent(id, key));
      Record(Window(id, false));
      Record(Outcome(id, key, if closes then Succeeded else OutcomeAmbiguous));
    }

    method ConfirmPickupOf(id: TxnId, closes: bool) returns (error: Option<Failure>)
      requires Valid()
      modifies this, fsm
      ensures Valid() && Step(View(), error) == ConfirmPickup(old(View()), id, closes)
    {
      hide View, Allowed, StateMachineEngine.View, ChangeManager.Ready, AllHoldCoins, RowsToSave, Transaction.View, ClosePickup;
      Fields();
      if id !in transactions {
        return Some(UnknownTransaction);
      }
      var transaction := Fetch(id);
      transaction.ConfirmPickup();
      Keep(id, transaction);
      var ok := GoTo(CLOSING_DELIVERY_WINDOW);
      if !ok {
        return Some(TransitionRefused);
      }
      Fields();
      ClosePickupAgain(old(View()), id, transaction.View(), closes);
      error := CloseWindowFor(id, transaction, closes);
    }

    method CloseWindowFor(id: TxnId, transaction: Transaction, closes: bool) returns (error: Option<Failure>)
      requires Valid() && id in transactions && HoldsCoins(transaction.View()) && fsm.state == shown == CLOSING_DELIVERY_WINDOW
      modifies this, fsm, transaction
      ensures Valid() && Step(View(), error) == ClosePickup(old(View()), id, old(transaction.View()), closes)
    {
      hide View, Allowed, StateMachineEngine.View, ChangeManager.Ready, AllHoldCoins, RowsToSave, Transaction.View, PickupClosed;
      Fields();
      Apart(transaction);
      if closes {
        FinishSale(id, transaction);
        return None;
      }
      CommandClose(id, CloseOnPickup, false);
      transaction.MarkFaulted();
      Keep(id, transaction);
      return Some(WindowFailed);
    }

    method FinishSale(id: TxnId, transaction: Transaction)
      requires Valid() && id in transactions && HoldsCoins(transaction.View()) && fsm.state == CLOSING_DELIVERY_WINDOW
      modifies this, fsm, transaction
      ensures Valid() && View() == PickupClosed(old(View()), id, old(transaction.View()))
    {
      hide View, Allowed, StateMachineEngine.View, ChangeManager.Ready, AllHoldCoins, RowsToSave, Transaction.View,
        PickupClosed;
      Fields();
      SaleGoesIdle();
      PickupClosesInSteps(old(View()), id, old(transaction.View()));
      CloseForGood(id, transaction);
      PublishTwice(id);
      Forget(id);
      var ok := GoTo(IDLE);
    }

    /** The window is closed and the sale complete. */
    method CloseForGood(id: TxnId, transaction: Transaction)
      requires Valid() && id in transactions && HoldsCoins(transaction.View()) && Allowed(fsm.state, COMPLETED)
      modifies this, fsm, transaction
      ensures Valid() && fsm.state == COMPLETED
      ensures View() == old(View()).Log([Intent(id, CloseOnPickup), Window(id, false), Outcome(id, CloseOnPickup, Succeeded)])
                          .Put(id, old(transaction.View()).MarkWindowClosed()).(fsm := COMPLETED)
    {
      hide View, Allowed, StateMachineEngine.View, ChangeManager.Ready, AllHoldCoins, RowsToSave, Transaction.View;
      Apart(transaction);
      CommandClose(id, CloseOnPickup, true);
      transaction.MarkWindowClosed();
      Keep(id, transaction);
      Move(COMPLETED);
    }

    /* ---------- PickupTimeoutCoordinator._handle_timeout ---------- */

    method HandleTimeout(id: TxnId, closes: bool)
      requires Valid()
      modifies this, fsm
      ensures Valid() && Step(View(), None) == PickupTimeout(old(View()), id, closes)
    {
      hide View, Allowed, StateMachineEngine.View, ChangeManager.Ready, AllHoldCoins, RowsToSave, Transaction.View, TimedOutClosed, TimedOutStuck;
      Fields();
      if id !in transactions || transactions[id].status != WaitingForCustomerPickup {
        return;
      }
      var transaction := Fetch(id);
      if closes {
        CloseTimedOut(id, transaction);
      } else {
        FaultTimedOut(id, transaction);
      }
    }

    method CloseTimedOut(id: TxnId, transaction: Transaction)
      requires Valid() && id in transactions && transactions[id] == transaction.View() && HoldsCoins(transaction.View())
      modifies this, fsm, transaction
      ensures Valid() && View() == TimedOutClosed(old(View()), id)
    {
      hide View, Allowed, StateMachineEngine.View, ChangeManager.Ready, AllHoldCoins, RowsToSave, Transaction.View,
        TimedOutClosed;
      Fields();
      ElapsePickup(id);
      TimeoutClosesInSteps(old(View()), id, View().fsm, View().shown);
      CommandClose(id, CloseOnTimeout, true);
      ReviewLate(id, transaction);
      PublishTwice(id);
    }

    /** The window closed after the timeout: an operator looks at the sale. */
    method ReviewLate(id: TxnId, transaction: Transaction)
      requires Valid() && HoldsCoins(transaction.View())
      modifies this, fsm, transaction
      ensures Valid()
      ensures View() == old(View()).Put(id, old(transaction.View()).MarkPickupTimedOut()).At(RECOVERY_PENDING).Block(RecoveryBlock)
    {
      hide View, Allowed, StateMachineEngine.View, ChangeManager.Ready, AllHoldCoins, RowsToSave, Transaction.View;
      Apart(transaction);
      transaction.MarkPickupTimedOut();
      Keep(id, transaction);
      Halt(RECOVERY_PENDING, RecoveryBlock);
    }

    method FaultTimedOut(id: TxnId, transaction: Transaction)
      requires Valid() && id in transactions && transactions[id] == transaction.View() && HoldsCoins(transaction.View())
      modifies this, fsm, transaction
      ensures Valid() && View() == TimedOutStuck(old(View()), id)
    {
      hide View, Allowed, StateMachineEngine.View, ChangeManager.Ready, AllHoldCoins, RowsToSave, Transaction.View,
        TimedOutStuck;
      Fields();
      ElapsePickup(id);
      TimeoutSticksInSteps(old(View()), id, View().fsm, View().shown);
      StickLate(id, transaction);
      PublishTwice(id);
    }

    /** The window did not close after the timeout. */
    method StickLate(id: TxnId, transaction: Transaction)
      requires Valid() && HoldsCoins(transaction.View())
      modifies this, fsm, transaction
      ensures Valid()
      ensures View() == old(View()).Put(id, old(transaction.View()).MarkFaulted()).At(FAULT).Block(DeliveryWindowFault)
                          .Log([Intent(id, CloseOnTimeout), Window(id, false), Outcome(id, CloseOnTimeout, OutcomeAmbiguous)])
    {
      hide View, Allowed, StateMachineEngine.View, ChangeManager.Ready, AllHoldCoins, RowsToSave, Transaction.View;
      Apart(transaction);
      transaction.MarkFaulted();
      Keep(id, transaction);
      Halt(FAULT, DeliveryWindowFault);
      CommandClose(id, CloseOnTimeout, false);
    }

    /** The elapsed timeout is published, and a machine that was waiting starts closing. */
    method ElapsePickup(id: TxnId)
      modifies this`trace, this`shown, fsm
      ensures View() == old(View()).Log([old(View()).Save(Some(id))]).(fsm := fsm.state, shown := shown)
    {
      hide View, RowsToSave, Allowed;
      Fields();
      Publish(Some(id));
      Fields();
      if fsm.state == WAITING_FOR_CUSTOMER_PICKUP {
        var ok := GoTo(CLOSING_DELIVERY_WINDOW);
        Fields();
      }
    }

    method Halt(state: MachineState, b: Blocker)
      modifies this`shown, this`blockers, fsm
      ensures fsm.state == shown == state && blockers == old(blockers) + {b} && View() == old(View()).At(state).Block(b)
    {
      hide View;
      Enter(state);
      Shut(b);
    }

    ghost method PublishTwice(id: TxnId)
      modifies this`trace
      ensures View() == old(View()).Log([old(View()).Save(Some(id)), old(View()).Save(Some(id))])
    {
      hide View, RowsToSave;
      Two(View().trace, View().Save(Some(id)), View().Save(Some(id)));
      Publish(Some(id));
      Publish(Some(id));
    }

    /* ---------- ServiceModeCoordinator ---------- */

    method EnterService()
      requires Valid()
      modifies this, fsm
      ensures Valid() && View() == EnterServiceMode(old(View()))
    {
      hide Allowed, StateMachineEngine.View, Engine.Transition, MoneyInventory.View,
        PayoutDevice.MockChangeDispenser.View, ChangeManager.Ready, AllHoldCoins, RowsToSave;
      Enter(SERVICE_MODE);
      serviceMode := true;
      Publish(None);
    }

    method ExitService()
      requires Valid()
      modifies this, fsm
      ensures Valid() && View() == ExitServiceMode(old(View()))
    {
      hide Allowed, StateMachineEngine.View, Engine.Transition, MoneyInventory.View,
        PayoutDevice.MockChangeDispenser.View, ChangeManager.Ready, AllHoldCoins, RowsToSave;
      serviceMode := false;
      Enter(IDLE);
      Publish(None);
    }

    /* ---------- RecoveryManager ---------- */

    method Recover(id: TxnId) returns (error: Option<Failure>)
      requires Valid()
      modifies this, fsm
      ensures Valid() && Step(View(), error) == RecoverTransaction(old(View()), id)
    {
      hide View, Allowed, StateMachineEngine.View, ChangeManager.Ready, AllHoldCoins, RowsToSave, Transaction.View, AssessRecovery,
        RecoverTransaction;
      Fields();
      UnknownIsRefused(old(View()), id);
      if id !in transactions {
        return Some(UnknownTransaction);
      }
      RecoversInSteps(old(View()), id);
      var verdict := AssessRecovery(transactions[id]);
      BeginRecovery(id);
      if verdict.OperatorReview? || verdict.PendingReview? {
        Publish(Some(id));
        return Some(InterventionRequired);
      }
      if verdict.CancelSafe? {
        Fields();
        CancelSafely(id);
      }
      error := None;
    }

    method BeginRecovery(id: TxnId)
      modifies this`shown, this`blockers, this`trace, fsm
      ensures fsm.state == RECOVERY_PENDING
      ensures View() == old(View()).At(RECOVERY_PENDING).Block(RecoveryBlock).Log([old(View()).Save(Some(id))])
    {
      hide View, RowsToSave;
      Halt(RECOVERY_PENDING, RecoveryBlock);
      Publish(Some(id));
    }

    method CancelSafely(id: TxnId)
      requires Valid() && id in transactions && fsm.state == RECOVERY_PENDING
      modifies this`transactions, this`activeId, this`blockers, this`shown, this`trace, fsm
      ensures Valid()
      ensures var d := old(View()).(blockers := old(View()).blockers - {RecoveryBlock})
                         .Put(id, old(View()).txns[id].Cancel()).ClearActive(id).At(IDLE);
              View() == d.Log([d.Save(Some(id))])
    {
      hide View, Allowed, StateMachineEngine.View, ChangeManager.Ready, AllHoldCoins, RowsToSave, Transaction.View;
      RecoveryGoesIdle();
      CancelHeld(id);
      Forget(id);
      Unblock(RecoveryBlock);
      var ok := GoTo(IDLE);
      Publish(Some(id));
    }

    /** The transaction is cancelled with whatever it holds. */
    method CancelHeld(id: TxnId)
      requires Valid() && id in transactions
      modifies this`transactions
      ensures Valid() && View() == old(View()).Put(id, old(View()).txns[id].Cancel())
    {
      hide View, StateMachineEngine.View, ChangeManager.Ready, AllHoldCoins, RowsToSave, Transaction.View;
      Fields();
      var transaction := Fetch(id);
      transaction.Cancel();
      Keep(id, transaction);
    }

    method Unblock(b: Blocker)
      modifies this`blockers
      ensures View() == old(View()).(blockers := old(View()).blockers - {b})
    {
      hide MoneyInventory.View, PayoutDevice.MockChangeDispenser.View;
      blockers := blockers - {b};
    }

    /** `_mark_unresolved_intent` for every unresolved row of the journal, oldest first. */
    method MarkUnresolvedIntents(rows: seq<(TxnId, StepKey)>) returns (found: bool)
      requires Valid()
      modifies this`transactions
      ensures Valid() && transactions == MarkAll(old(transactions), rows)
      ensures found <==> exists i :: 0 <= i < |rows| && rows[i].0 in old(transactions)
    {
      found := false;
      for i := 0 to |rows|
        invariant Valid() && transactions == MarkAll(old(transactions), rows[..i]) && transactions.Keys == old(transactions).Keys
        invariant found <==> exists j :: 0 <= j < i && rows[j].0 in old(transactions)
      {
        assert rows[..i + 1][..i] == rows[..i];
        var (id, key) := rows[i];
        if id in transactions {
          var transaction := new Transaction.Load(transactions[id]);
          HeldAreCoins(transactions, id);
          if NeedsReview(key) {
            transaction.MarkAmbiguous();
          } else {
            transaction.MarkRecoveryPending();
          }
          Keep(id, transaction);
          found := true;
        }
      }
      assert rows[..|rows|] == rows;
    }

    /** `restore_transactions`: the first one that is not finished becomes the active one. */
    method RestoreTransactions(saved: map<TxnId, Txn>, order: seq<TxnId>)
      requires Valid() && AllHoldCoins(saved)
      modifies this`transactions, this`activeId
      ensures Valid() && transactions == saved && activeId == FirstOpen(saved, order)
    {
      transactions, activeId := saved, None;
      for i := 0 to |order|
        invariant transactions == saved && activeId == None
        invariant FirstOpen(saved, order) == FirstOpen(saved, order[i..])
      {
        if order[i] in saved && !saved[order[i]].Terminal() {
          activeId := Some(order[i]);
          return;
        }
        assert order[i..][1..] == order[i + 1..];
      }
    }

    /* ---------- restart: _restore_runtime_state and _complete_startup_flow ---------- */

    /** The unresolved rows of the table, and those with an unresolved intent. */
    method RowsToRestore(table: map<TxnId, Txn>, intents: seq<(TxnId, StepKey)>) returns (restored: map<TxnId, Txn>)
      ensures restored == map id | id in table && (table[id].Unresolved() || NamedIn(intents, id)) :: table[id]
      ensures View() == old(View())
    {
      restored := map id | id in table && table[id].Unresolved() :: table[id];
      for i := 0 to |intents|
        invariant restored == map id | id in table && (table[id].Unresolved() || NamedIn(intents[..i], id)) :: table[id]
      {
        var id := intents[i].0;
        NamedOneMore(intents, i);
        if id !in restored && id in table {
          restored := restored[id := table[id]];
        }
      }
      assert intents[..|intents|] == intents;
    }

    /** The restored transactions, the marks of their unresolved intents, and the block both call for. */
    method Reinstate(restored: map<TxnId, Txn>, intents: seq<(TxnId, StepKey)>, order: seq<TxnId>) returns (found: bool)
      requires Valid() && AllHoldCoins(restored)
      modifies this`transactions, this`activeId, this`shown, this`blockers, fsm
      ensures Valid()
      ensures found <==> exists i :: 0 <= i < |intents| && intents[i].0 in restored
      ensures View() == Reinstated(old(View()), restored, intents, order, restored != map[] || found)
    {
      hide View, AllHoldCoins, MarkAll, FirstOpen, ChangeManager.Ready;
      found := RestoreAndMark(restored, intents, order);
      if found {
        Halt(RECOVERY_PENDING, RecoveryBlock);
      }
      if restored != map[] {
        Halt(RECOVERY_PENDING, RecoveryBlock);
      }
    }

    method RestoreAndMark(restored: map<TxnId, Txn>, intents: seq<(TxnId, StepKey)>, order: seq<TxnId>) returns (found: bool)
      requires Valid() && AllHoldCoins(restored)
      modifies this`transactions, this`activeId
      ensures Valid() && transactions == MarkAll(restored, intents) && activeId == FirstOpen(restored, order)
      ensures found <==> exists i :: 0 <= i < |intents| && intents[i].0 in restored
      ensures View() == Reinstated(old(View()), restored, intents, order, false)
    {
      hide AllHoldCoins, MarkAll, FirstOpen, ChangeManager.Ready, MoneyInventory.View, PayoutDevice.MockChangeDispenser.View;
      RestoreTransactions(restored, order);
      found := MarkUnresolvedIntents(intents);
    }

    /** A machine that has just started reads back the table and the journal that the run `c` left. */
    method RestoreRuntimeState(ghost c: Core, table: map<TxnId, Txn>, intents: seq<(TxnId, StepKey)>, order: seq<TxnId>)
      requires Valid() && AllHoldCoins(table)
      requires table == Saved(c.trace) && intents == InterruptedRows(c.trace, |c.trace|)
      requires View() == Core(map[], None, c.issued, BOOT, BOOT, false, {}, change.inventory.View(),
                              Dispenser.Hopper(change.dispenser.View().counts, map[]), slots, c.products, c.denoms,
                              c.trace + [Boot(slots, change.inventory.View(), change.dispenser.View().counts)])
      modifies this, fsm
      ensures Valid() && View() == Restart(c, order, change.inventory.View(), change.dispenser.View().counts, slots)
    {
      hide View, Allowed, StateMachineEngine.View, ChangeManager.Ready, AllHoldCoins, RowsToSave, Saved, InterruptedRows, MarkAll,
        FirstOpen, Restored, NeedsRecovery, Interrupted, NamedIn, Unsafe, UnresolvedRows, Restart, Reinstated,
        Started;
      var restored := RowsToRestore(table, intents);
      RestoredExactly(c.trace, restored);
      SomeHoldCoins(table, restored);
      Cash();
      var found := Reinstate(restored, intents, order);
      RestartsInSteps(c, order, old(View()), found);
      CompleteStartup(found);
      Cash();
    }

    /** What was marked is saved, and a machine without a block becomes ready. */
    method CompleteStartup(found: bool)
      requires Valid()
      modifies this`trace, this`shown, fsm
      ensures Valid()
      ensures View() == Started(old(View()), found)
    {
      hide View, Allowed, StateMachineEngine.View, ChangeManager.Ready, AllHoldCoins, UnresolvedRows;
      Fields();
      if found {
        Record(SaveAll(UnresolvedRows(transactions), View().money));
      }
      if fsm.state == BOOT || fsm.state == SELF_TEST {
        Enter(IDLE);
      }
    }
  }

  function Started(c: Core, found: bool): Core {
    var d := if found then c.Log([SaveAll(UnresolvedRows(c.txns), c.money)]) else c;
    if c.fsm.BOOT? || c.fsm.SELF_TEST? then d.At(IDLE) else d
  }

  /** The registry as read back and marked, and the block if it calls for one. */
  function Reinstated(c: Core, restored: map<TxnId, Txn>, intents: seq<(TxnId, StepKey)>, order: seq<TxnId>, pending: bool): Core {
    var d := c.(txns := MarkAll(restored, intents), active := FirstOpen(restored, order));
    if pending then d.At(RECOVERY_PENDING).Block(RecoveryBlock) else d
  }

  lemma RestartsInSteps(c: Core, order: seq<TxnId>, booted: Core, found: bool)
    requires booted == Core(map[], None, c.issued, BOOT, BOOT, false, {}, booted.money, Dispenser.Hopper(booted.hopper.counts, map[]),
                            booted.slots, c.products, c.denoms,
                            c.trace + [Boot(booted.slots, booted.money, booted.hopper.counts)])
    requires var intents := InterruptedRows(c.trace, |c.trace|);
             found <==> exists i :: 0 <= i < |intents| && intents[i].0 in Restored(c.trace)
    ensures var pending := Restored(c.trace) != map[] || found;
            var d := Reinstated(booted, Restored(c.trace), InterruptedRows(c.trace, |c.trace|), order, pending);
            Started(d, found) == Restart(c, order, booted.money, booted.hopper.counts, booted.slots)
  {
    hide Restored, InterruptedRows, MarkAll, FirstOpen, UnresolvedRows;
    assert {} + {RecoveryBlock} == {RecoveryBlock};
  }

  predicate NamedIn(intents: seq<(TxnId, StepKey)>, id: TxnId) {
    exists i :: 0 <= i < |intents| && intents[i].0 == id
  }

  lemma NamedOneMore(intents: seq<(TxnId, StepKey)>, i: nat)
    requires i < |intents|
    ensures forall id :: NamedIn(intents[..i + 1], id) <==> NamedIn(intents[..i], id) || id == intents[i].0
  {
    var longer := intents[..i + 1];
    forall id ensures NamedIn(longer, id) <==> NamedIn(intents[..i], id) || id == intents[i].0 {
      if NamedIn(intents[..i], id) {
        var j :| 0 <= j < i && intents[..i][j].0 == id;
        assert longer[j].0 == id;
      }
      if id == intents[i].0 {
        assert longer[i].0 == id;
      }
      if NamedIn(longer, id) {
        var j :| 0 <= j < |longer| && longer[j].0 == id;
        assert j < i ==> intents[..i][j].0 == id;
      }
    }
  }

  lemma RestoredExactly(trace: seq<Action>, restored: map<TxnId, Txn>)
    requires var table, intents := Saved(trace), InterruptedRows(trace, |trace|);
             restored == map id | id in table && (table[id].Unresolved() || NamedIn(intents, id)) :: table[id]
    ensures restored == Restored(trace)
  {
    hide Saved, InterruptedRows, Interrupted;
    forall id | id in Saved(trace)
      ensures NamedIn(InterruptedRows(trace, |trace|), id) <==> exists key :: Interrupted(trace, id, key)
    {
      CrashRecovery.ListedExactly(trace, id);
    }
  }

  lemma SomeHoldCoins(table: map<TxnId, Txn>, restored: map<TxnId, Txn>)
    requires AllHoldCoins(table) && forall id :: id in restored ==> id in table && restored[id] == table[id]
    ensures AllHoldCoins(restored)
  {
  }

  lemma Five<T>(s: seq<T>, a: T, b: T, c: T, d: T, e: T)
    ensures s + [a] + [b, c, d] + [e, e] == s + [a, b, c, d, e, e]
  {
  }

  lemma ChangeIsAnnouncedInSteps(c: Core, id: TxnId)
    requires id in c.txns
    ensures var d := c.Put(id, c.txns[id].MarkChangePending()).At(DISPENSING_CHANGE).Log([Intent(id, DispenseChange)]);
            d.Log([d.Save(Some(id))]) == AnnounceChange(c, id)
  {
    hide RowsToSave;
    Two(c.trace, Intent(id, DispenseChange), c.Put(id, c.txns[id].MarkChangePending()).Save(Some(id)));
  }

  lemma PickupClosesInSteps(c: Core, id: TxnId, t: Txn)
    requires id in c.txns
    ensures var d := c.Log([Intent(id, CloseOnPickup), Window(id, false), Outcome(id, CloseOnPickup, Succeeded)])
                      .Put(id, t.MarkWindowClosed()).(fsm := COMPLETED);
            d.Log([d.Save(Some(id)), d.Save(Some(id))]).ClearActive(id).At(IDLE) == PickupClosed(c, id, t)
  {
    hide RowsToSave;
    var saved := c.Put(id, t.MarkWindowClosed()).Save(Some(id));
    assert c.trace + [Intent(id, CloseOnPickup), Window(id, false), Outcome(id, CloseOnPickup, Succeeded)] + [saved, saved]
           == c.trace + [Intent(id, CloseOnPickup), Window(id, false), Outcome(id, CloseOnPickup, Succeeded), saved, saved];
  }

  lemma TimeoutClosesInSteps(c: Core, id: TxnId, fsm: MachineState, shown: MachineState)
    requires id in c.txns
    ensures var d := c.Log([c.Save(Some(id))]).(fsm := fsm, shown := shown)
                      .Log([Intent(id, CloseOnTimeout), Window(id, false), Outcome(id, CloseOnTimeout, Succeeded)])
                      .Put(id, c.txns[id].MarkPickupTimedOut()).At(RECOVERY_PENDING).Block(RecoveryBlock);
            d.Log([d.Save(Some(id)), d.Save(Some(id))]) == TimedOutClosed(c, id)
  {
    hide RowsToSave;
    Five(c.trace, c.Save(Some(id)), Intent(id, CloseOnTimeout), Window(id, false), Outcome(id, CloseOnTimeout, Succeeded),
         c.Put(id, c.txns[id].MarkPickupTimedOut()).Save(Some(id)));
  }

  lemma TimeoutSticksInSteps(c: Core, id: TxnId, fsm: MachineState, shown: MachineState)
    requires id in c.txns
    ensures var d := c.Log([c.Save(Some(id))]).(fsm := fsm, shown := shown)
                      .Put(id, c.txns[id].MarkFaulted()).At(FAULT).Block(DeliveryWindowFault)
                      .Log([Intent(id, CloseOnTimeout), Window(id, false), Outcome(id, CloseOnTimeout, OutcomeAmbiguous)]);
            d.Log([d.Save(Some(id)), d.Save(Some(id))]) == TimedOutStuck(c, id)
  {
    hide RowsToSave;
    Five(c.trace, c.Save(Some(id)), Intent(id, CloseOnTimeout), Window(id, false), Outcome(id, CloseOnTimeout, OutcomeAmbiguous),
         c.Put(id, c.txns[id].MarkFaulted()).Save(Some(id)));
  }

  lemma WindowIsRefused(c: Core, id: TxnId, opens: bool)
    requires id in c.txns && !c.Reaches(OPENING_DELIVERY_WINDOW)
    ensures OpenForPickup(c, id, opens) == Step(c, Some(TransitionRefused))
  {
  }

  /** The window is told to open: the transaction is delivered, or faulted. */
  function WindowAsked(c: Core, id: TxnId, t: Txn, opens: bool): Step {
    var asked := c.Log([Intent(id, OpenWindow)]).Log([Window(id, true)]);
    if opens then
      var d := asked.Log([Outcome(id, OpenWindow, Succeeded)]).Put(id, t.MarkWindowOpened()).At(WAITING_FOR_CUSTOMER_PICKUP);
      Step(d.Log([d.Save(Some(id))]), None)
    else
      Step(asked.Put(id, t.MarkFaulted()).At(FAULT).Log([Outcome(id, OpenWindow, OutcomeAmbiguous)]), Some(WindowFailed))
  }

  lemma WindowOpensInSteps(c: Core, id: TxnId)
    requires id in c.txns && c.Reaches(OPENING_DELIVERY_WINDOW)
    ensures forall opens :: WindowAsked(c.At(OPENING_DELIVERY_WINDOW), id, c.txns[id], opens) == OpenForPickup(c, id, opens)
  {
    hide RowsToSave, Allowed;
    Three(c.trace, Intent(id, OpenWindow), Window(id, true), Outcome(id, OpenWindow, OutcomeAmbiguous));
    Four(c.trace, Intent(id, OpenWindow), Window(id, true), Outcome(id, OpenWindow, Succeeded),
         c.Put(id, c.txns[id].MarkWindowOpened()).At(WAITING_FOR_CUSTOMER_PICKUP).Save(Some(id)));
  }

  lemma UnknownIsRefused(c: Core, id: TxnId)
    ensures id !in c.txns ==> RecoverTransaction(c, id) == Step(c, Some(UnknownTransaction))
  {
  }

  /** The verdicts, step by step. */
  lemma RecoversInSteps(c: Core, id: TxnId)
    requires id in c.txns
    ensures var begun := c.At(RECOVERY_PENDING).Block(RecoveryBlock).Log([c.Save(Some(id))]);
            var cleared := begun.(blockers := begun.blockers - {RecoveryBlock}).Put(id, c.txns[id].Cancel()).ClearActive(id).At(IDLE);
            RecoverTransaction(c, id) ==
              match AssessRecovery(c.txns[id])
              case NothingToDo => Step(begun, None)
              case CancelSafe => Step(cleared.Log([cleared.Save(Some(id))]), None)
              case _ => Step(begun.Log([begun.Save(Some(id))]), Some(InterventionRequired))
  {
    hide RowsToSave, AssessRecovery;
    Two(c.trace, c.Save(Some(id)), c.Save(Some(id)));
    Two(c.trace, c.Save(Some(id)), c.Put(id, c.txns[id].Cancel()).ClearActive(id).Save(Some(id)));
    assert c.blockers + {RecoveryBlock} - {RecoveryBlock} == c.blockers - {RecoveryBlock};
  }

  lemma Again(c: Core, id: TxnId, t: Txn)
    requires id in c.txns && c.txns[id] == t
    ensures c.Put(id, t) == c
  {
  }

  lemma Shows(transaction: Transaction)
    ensures var t := transaction.View(); t.accepted == transaction.acceptedAmount && t.price == transaction.price
  {
  }

  /** Closing overwrites what the confirmation already did. */
  lemma ClosePickupAgain(c: Core, id: TxnId, t: Txn, closes: bool)
    requires id in c.txns
    ensures ClosePickup(c.Put(id, t).At(CLOSING_DELIVERY_WINDOW), id, t, closes) == ClosePickup(c, id, t, closes)
  {
    assert c.txns[id := t][id := t.MarkWindowClosed()] == c.txns[id := t.MarkWindowClosed()];
    assert c.txns[id := t][id := t.MarkFaulted()] == c.txns[id := t.MarkFaulted()];
  }

  lemma PurchaseGoesOn()
    ensures Allowed(PRODUCT_SELECTED, CHECKING_AVAILABILITY) && Allowed(CHECKING_AVAILABILITY, CHECKING_CHANGE)
            && Allowed(CHECKING_CHANGE, WAITING_FOR_PAYMENT)
  {
  }

  lemma SaleGoesIdle()
    ensures Allowed(CLOSING_DELIVERY_WINDOW, COMPLETED) && Allowed(COMPLETED, IDLE)
  {
  }

  lemma RecoveryGoesIdle()
    ensures Allowed(RECOVERY_PENDING, IDLE)
  {
  }

  lemma CancelledGoesIdle()
    ensures Allowed(CANCELLED, IDLE)
  {
  }

  lemma FinalizedHoldsCoins(l: Ledger, t: Txn)
    requires HoldsCoins(t)
    ensures HoldsCoins(Finalize(l, t).txn)
  {
    BestPlanIsReservable(ReleaseHeld(l, t), t.changeDue);
  }

  lemma ChangedHoldsCoins(l: Ledger, t: Txn, reply: Option<Dispenser.Reply>)
    requires HoldsCoins(t) && t.reserve.Some?
    ensures HoldsCoins(AfterChange(l, t, reply).txn)
  {
  }

  lemma ReserveIsHeld(transaction: Transaction)
    requires transaction.View().reserve.Some? && HoldsCoins(transaction.View())
    ensures transaction.changeReserve == transaction.View().reserve && Coins(transaction.changeReserve.value.counts)
  {
  }

  lemma ProductCanFault()
    ensures Allowed(DISPENSING_PRODUCT, FAULT)
  {
  }

  lemma OpeningGoesOn()
    ensures Allowed(OPENING_DELIVERY_WINDOW, FAULT) && Allowed(OPENING_DELIVERY_WINDOW, WAITING_FOR_CUSTOMER_PICKUP)
  {
  }

  lemma HeldAreCoins(txns: map<TxnId, Txn>, id: TxnId)
    requires AllHoldCoins(txns) && id in txns
    ensures HoldsCoins(txns[id])
  {
  }

  /** Opening the session overwrites what the transition to ACCEPTING_CASH already did. */
  lemma SessionAgain(c: Core, id: TxnId, t: Txn, enabled: bool)
    requires id in c.txns
    ensures EnableSession(c.Put(id, t).At(ACCEPTING_CASH), id, t, enabled) == EnableSession(c, id, t, enabled)
  {
    assert c.txns[id := t][id := t] == c.txns[id := t];
    assert c.txns[id := t][id := t.MarkFaulted()] == c.txns[id := t.MarkFaulted()];
  }

  lemma CashCanFault()
    ensures Allowed(ACCEPTING_CASH, FAULT)
  {
  }
}
