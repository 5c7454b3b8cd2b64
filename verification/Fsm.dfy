/** The machine state engine (`StateMachineEngine`, `ALLOWED_TRANSITIONS`). */
module Fsm {
  datatype MachineState =
    | BOOT | SELF_TEST | IDLE | PRODUCT_SELECTED | CHECKING_AVAILABILITY | CHECKING_CHANGE
    | WAITING_FOR_PAYMENT | ACCEPTING_CASH | PAYMENT_ACCEPTED | DISPENSING_CHANGE | DISPENSING_PRODUCT
    | OPENING_DELIVERY_WINDOW | WAITING_FOR_CUSTOMER_PICKUP | CLOSING_DELIVERY_WINDOW
    | COMPLETED | CANCELLED | OUT_OF_SERVICE | FAULT | SERVICE_MODE | RECOVERY_PENDING

  /** The transition table: may the machine go from `s` to `t`? */
  predicate Allowed(s: MachineState, t: MachineState) {
    match s
    case BOOT => t.SELF_TEST? || t.FAULT?
    case SELF_TEST => t.IDLE? || t.RECOVERY_PENDING? || t.OUT_OF_SERVICE? || t.FAULT?
    case IDLE => t.PRODUCT_SELECTED? || t.SERVICE_MODE? || t.OUT_OF_SERVICE? || t.FAULT?
    case PRODUCT_SELECTED => t.CHECKING_AVAILABILITY? || t.CANCELLED? || t.FAULT?
    case CHECKING_AVAILABILITY => t.CHECKING_CHANGE? || t.CANCELLED? || t.OUT_OF_SERVICE? || t.FAULT?
    case CHECKING_CHANGE => t.WAITING_FOR_PAYMENT? || t.CANCELLED? || t.OUT_OF_SERVICE?
    case WAITING_FOR_PAYMENT => t.ACCEPTING_CASH? || t.CANCELLED? || t.FAULT? || t.OUT_OF_SERVICE?
    case ACCEPTING_CASH => t.PAYMENT_ACCEPTED? || t.CANCELLED? || t.FAULT? || t.OUT_OF_SERVICE? || t.RECOVERY_PENDING?
    case PAYMENT_ACCEPTED => t.DISPENSING_CHANGE? || t.DISPENSING_PRODUCT? || t.FAULT? || t.RECOVERY_PENDING?
    case DISPENSING_CHANGE => t.DISPENSING_PRODUCT? || t.FAULT? || t.RECOVERY_PENDING?
    case DISPENSING_PRODUCT => t.OPENING_DELIVERY_WINDOW? || t.FAULT? || t.RECOVERY_PENDING?
    case OPENING_DELIVERY_WINDOW => t.WAITING_FOR_CUSTOMER_PICKUP? || t.FAULT? || t.RECOVERY_PENDING?
    case WAITING_FOR_CUSTOMER_PICKUP => t.CLOSING_DELIVERY_WINDOW? || t.FAULT? || t.RECOVERY_PENDING?
    case CLOSING_DELIVERY_WINDOW => t.COMPLETED? || t.FAULT? || t.RECOVERY_PENDING?
    case COMPLETED => t.IDLE? || t.OUT_OF_SERVICE?
    case CANCELLED => t.IDLE? || t.OUT_OF_SERVICE?
    case OUT_OF_SERVICE => t.SERVICE_MODE? || t.IDLE? || t.RECOVERY_PENDING?
    case FAULT => t.OUT_OF_SERVICE? || t.SERVICE_MODE? || t.RECOVERY_PENDING?
    case SERVICE_MODE => t.OUT_OF_SERVICE? || t.IDLE? || t.FAULT? || t.RECOVERY_PENDING?
    case RECOVERY_PENDING => t.IDLE? || t.OUT_OF_SERVICE? || t.FAULT? || t.SERVICE_MODE?
  }

  datatype Record = Record(previous: MachineState, next: MachineState)

  datatype Engine = Engine(state: MachineState, history: seq<Record>) {
    predicate CanTransition(target: MachineState) {
      Allowed(state, target)
    }

    /** A self-transition succeeds without a record; a disallowed one is refused. */
    function Transition(target: MachineState): Engine {
      if target != state && CanTransition(target) then Force(target) else this
    }

    predicate Refuses(target: MachineState) {
      target != state && !CanTransition(target)
    }

    function Force(target: MachineState): Engine {
      Engine(target, history + [Record(state, target)])
    }
  }

  class StateMachineEngine {
    var state: MachineState
    var history: seq<Record>

    function View(): Engine
      reads this
    {
      Engine(state, history)
    }

    constructor (initial: MachineState)
      ensures View() == Engine(initial, [])
    {
      state, history := initial, [];
    }

    method Transition(target: MachineState) returns (ok: bool)
      modifies this
      ensures ok == !old(View()).Refuses(target)
      ensures View() == old(View()).Transition(target)
      ensures ok <==> target == old(state) || Allowed(old(state), target)
      ensures state == if ok then target else old(state)
      ensures history == if ok && target != old(state) then old(history) + [Record(old(state), target)] else old(history)
    {
      if target == state {
        return true;
      }
      if !Allowed(state, target) {
        return false;
      }
      history := history + [Record(state, target)];
      state := target;
      return true;
    }

    method ForceState(target: MachineState)
      modifies this
      ensures View() == old(View()).Force(target)
      ensures state == target && history == old(history) + [Record(old(state), target)]
    {
      history := history + [Record(state, target)];
      state := target;
    }
  }
}

/** Every run of the engine under the moves the orchestrators make. */
module FsmRuns {
  import opened Fsm

  datatype Move = Transition(target: MachineState) | Force(target: MachineState)

  /** States the code forces: leaving service mode, fault, service mode, recovery. */
  predicate Forced(s: MachineState) {
    s.IDLE? || s.FAULT? || s.SERVICE_MODE? || s.RECOVERY_PENDING?
  }

  function Step(e: Engine, m: Move): Engine {
    match m
    case Transition(target) => e.Transition(target)
    case Force(target) => e.Force(target)
  }

  function Run(e: Engine, moves: seq<Move>): Engine {
    if moves == [] then e else Step(Run(e, moves[..|moves| - 1]), moves[|moves| - 1])
  }

  /** States from which a fresh engine may start: none inside a sale. */
  predicate Outside(s: MachineState) {
    Forced(s) || s.BOOT? || s.SELF_TEST? || s.OUT_OF_SERVICE?
  }

  /** The records form a chain from `first` to the current state, each an allowed move or a forced one. */
  ghost predicate Chained(e: Engine, first: MachineState) {
    && (forall i :: 0 <= i < |e.history| ==>
          Allowed(e.history[i].previous, e.history[i].next) || Forced(e.history[i].next))
    && (forall i :: 0 < i < |e.history| ==> e.history[i].previous == e.history[i - 1].next)
    && if e.history == [] then e.state == first
       else e.history[0].previous == first && e.history[|e.history| - 1].next == e.state
  }

  lemma {:induction false} RunIsChained(first: MachineState, moves: seq<Move>)
    requires forall i :: 0 <= i < |moves| && moves[i].Force? ==> Forced(moves[i].target)
    ensures Chained(Run(Engine(first, []), moves), first)
  {
    hide Allowed, Chained, Forced;
    if moves == [] {
      NothingIsChained(first);
    } else {
      var e, m := Run(Engine(first, []), moves[..|moves| - 1]), moves[|moves| - 1];
      RunIsChained(first, moves[..|moves| - 1]);
      if Allowed(e.state, m.target) || Forced(m.target) {
        RecordIsChained(e, first, m.target);
      }
    }
  }

  lemma NothingIsChained(first: MachineState)
    ensures Chained(Engine(first, []), first)
  {
  }

  lemma RecordIsChained(e: Engine, first: MachineState, target: MachineState)
    requires Chained(e, first) && (Allowed(e.state, target) || Forced(target))
    ensures Chained(e.Force(target), first)
  {
    hide Allowed, Forced;
  }

  /** `path` is the run of states entered by the records up to `i`, leaving from IDLE. */
  ghost predicate EnteredThrough(history: seq<Record>, i: int, path: seq<MachineState>)
    requires 0 <= i < |history| && path != []
  {
    && |path| <= i + 1
    && history[i + 1 - |path|].previous == IDLE
    && forall j :: 0 <= j < |path| ==> history[i + 1 - |path| + j].next == path[j]
  }

  const UP_TO_PAYMENT := [PRODUCT_SELECTED, CHECKING_AVAILABILITY, CHECKING_CHANGE, WAITING_FOR_PAYMENT,
                          ACCEPTING_CASH, PAYMENT_ACCEPTED]

  /** The states from which the table lets `s` be entered. */
  function Before(s: MachineState): set<MachineState> {
    match s
    case BOOT => {}
    case SELF_TEST => {BOOT}
    case IDLE => {SELF_TEST, COMPLETED, CANCELLED, OUT_OF_SERVICE, SERVICE_MODE, RECOVERY_PENDING}
    case PRODUCT_SELECTED => {IDLE}
    case CHECKING_AVAILABILITY => {PRODUCT_SELECTED}
    case CHECKING_CHANGE => {CHECKING_AVAILABILITY}
    case WAITING_FOR_PAYMENT => {CHECKING_CHANGE}
    case ACCEPTING_CASH => {WAITING_FOR_PAYMENT}
    case PAYMENT_ACCEPTED => {ACCEPTING_CASH}
    case DISPENSING_CHANGE => {PAYMENT_ACCEPTED}
    case DISPENSING_PRODUCT => {PAYMENT_ACCEPTED, DISPENSING_CHANGE}
    case OPENING_DELIVERY_WINDOW => {DISPENSING_PRODUCT}
    case WAITING_FOR_CUSTOMER_PICKUP => {OPENING_DELIVERY_WINDOW}
    case CLOSING_DELIVERY_WINDOW => {WAITING_FOR_CUSTOMER_PICKUP}
    case COMPLETED => {CLOSING_DELIVERY_WINDOW}
    case CANCELLED => {PRODUCT_SELECTED, CHECKING_AVAILABILITY, CHECKING_CHANGE, WAITING_FOR_PAYMENT, ACCEPTING_CASH}
    case OUT_OF_SERVICE =>
      {SELF_TEST, IDLE, CHECKING_AVAILABILITY, CHECKING_CHANGE, WAITING_FOR_PAYMENT, ACCEPTING_CASH, COMPLETED, CANCELLED, FAULT,
       SERVICE_MODE, RECOVERY_PENDING}
    case FAULT =>
      {BOOT, SELF_TEST, IDLE, PRODUCT_SELECTED, CHECKING_AVAILABILITY, WAITING_FOR_PAYMENT, ACCEPTING_CASH, PAYMENT_ACCEPTED,
       DISPENSING_CHANGE, DISPENSING_PRODUCT, OPENING_DELIVERY_WINDOW, WAITING_FOR_CUSTOMER_PICKUP, CLOSING_DELIVERY_WINDOW,
       SERVICE_MODE, RECOVERY_PENDING}
    case SERVICE_MODE => {IDLE, OUT_OF_SERVICE, FAULT, RECOVERY_PENDING}
    case RECOVERY_PENDING =>
      {SELF_TEST, ACCEPTING_CASH, PAYMENT_ACCEPTED, DISPENSING_CHANGE, DISPENSING_PRODUCT, OPENING_DELIVERY_WINDOW,
       WAITING_FOR_CUSTOMER_PICKUP, CLOSING_DELIVERY_WINDOW, OUT_OF_SERVICE, FAULT, SERVICE_MODE}
  }

  predicate SaleStep(s: MachineState) {
    || s.PRODUCT_SELECTED? || s.CHECKING_AVAILABILITY? || s.CHECKING_CHANGE? || s.WAITING_FOR_PAYMENT?
    || s.ACCEPTING_CASH? || s.PAYMENT_ACCEPTED? || s.DISPENSING_CHANGE? || s.DISPENSING_PRODUCT?
  }

  lemma BeforeIsExact(s: MachineState, p: MachineState)
    ensures Allowed(p, s) <==> p in Before(s)
  {
    hide Allowed, Before;
    if SaleStep(s) {
      BeforeSale(s, p);
    } else if s in {OUT_OF_SERVICE, FAULT} {
      BeforeStop(s, p);
    } else if s in {SERVICE_MODE, RECOVERY_PENDING} {
      BeforeService(s, p);
    } else {
      BeforeDelivery(s, p);
    }
  }

  lemma BeforeSale(s: MachineState, p: MachineState)
    requires SaleStep(s)
    ensures Allowed(p, s) <==> p in Before(s)
  {
  }

  lemma BeforeStop(s: MachineState, p: MachineState)
    requires s in {OUT_OF_SERVICE, FAULT}
    ensures Allowed(p, s) <==> p in Before(s)
  {
  }

  lemma BeforeService(s: MachineState, p: MachineState)
    requires s in {SERVICE_MODE, RECOVERY_PENDING}
    ensures Allowed(p, s) <==> p in Before(s)
  {
  }

  lemma BeforeDelivery(s: MachineState, p: MachineState)
    requires !SaleStep(s) && s !in {OUT_OF_SERVICE, FAULT, SERVICE_MODE, RECOVERY_PENDING}
    ensures Allowed(p, s) <==> p in Before(s)
  {
  }

  /** One record back along the chain. */
  lemma StepBack(e: Engine, first: MachineState, i: int)
    requires Chained(e, first) && Outside(first) && 0 <= i < |e.history|
    requires SaleStep(e.history[i].next)
    ensures e.history[i].previous in Before(e.history[i].next)
    ensures e.history[i].next != PRODUCT_SELECTED ==> i > 0 && e.history[i].previous == e.history[i - 1].next
  {
    BeforeIsExact(e.history[i].next, e.history[i].previous);
  }

  /** Payment can only be accepted through the full purchase path from IDLE. */
  lemma PaymentPath(e: Engine, first: MachineState, i: int)
    requires Chained(e, first) && Outside(first) && 0 <= i < |e.history|
    requires e.history[i].next == PAYMENT_ACCEPTED
    ensures EnteredThrough(e.history, i, UP_TO_PAYMENT)
  {
    StepBack(e, first, i);
    StepBack(e, first, i - 1);
    StepBack(e, first, i - 2);
    StepBack(e, first, i - 3);
    StepBack(e, first, i - 4);
    StepBack(e, first, i - 5);
  }

  lemma ExtendPath(history: seq<Record>, i: int, path: seq<MachineState>)
    requires 0 < i < |history| && path != [] && EnteredThrough(history, i - 1, path)
    ensures EnteredThrough(history, i, path + [history[i].next])
  {
    forall j | 0 <= j <= |path| ensures history[i - |path| + j].next == (path + [history[i].next])[j] {
      if j < |path| {
        assert history[i - |path| + j].next == path[j];
      }
    }
  }

  /** Every entry to DISPENSING_PRODUCT closes an unbroken purchase: selection, both checks, waiting,
      cash, payment and at most the change payout, with nothing in between since IDLE. */
  lemma ProductIsDispensedAfterPayment(first: MachineState, moves: seq<Move>, i: int)
    requires Outside(first)
    requires forall k :: 0 <= k < |moves| && moves[k].Force? ==> Forced(moves[k].target)
    requires 0 <= i < |Run(Engine(first, []), moves).history|
    requires Run(Engine(first, []), moves).history[i].next == DISPENSING_PRODUCT
    ensures var h := Run(Engine(first, []), moves).history;
            || EnteredThrough(h, i, UP_TO_PAYMENT + [DISPENSING_PRODUCT])
            || EnteredThrough(h, i, UP_TO_PAYMENT + [DISPENSING_CHANGE] + [DISPENSING_PRODUCT])
  {
    hide Allowed, Chained, Run, Outside, EnteredThrough, Forced;
    var e := Run(Engine(first, []), moves);
    RunIsChained(first, moves);
    StepBack(e, first, i);
    if e.history[i - 1].next == DISPENSING_CHANGE {
      StepBack(e, first, i - 1);
      PaymentPath(e, first, i - 2);
      ExtendPath(e.history, i - 1, UP_TO_PAYMENT);
      ExtendPath(e.history, i, UP_TO_PAYMENT + [DISPENSING_CHANGE]);
    } else {
      PaymentPath(e, first, i - 1);
      ExtendPath(e.history, i, UP_TO_PAYMENT);
    }
  }
}
