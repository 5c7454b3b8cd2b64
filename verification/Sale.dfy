/** The transaction entity with its payment session and change reserve
    (`Transaction`, `PaymentSession`, `ChangeReserve`). */
module Sale {
  import opened Wrappers
  import opened Counts

  type SlotId = nat

  type ProductId = nat

  datatype Status =
    | Created | CheckingAvailability | CheckingChange | WaitingForPayment | AcceptingCash | PaymentAccepted
    | DispensingChange | DispensingProduct | OpeningDeliveryWindow | WaitingForCustomerPickup
    | ClosingDeliveryWindow | PickupTimedOut | Completed | Cancelled | Faulted | Ambiguous

  datatype PaymentStatus = PaymentPending | Accepting | Confirmed | PaymentCancelled

  datatype PayoutStatus = NotRequired | Reserved | PayoutPending | Dispensed | PartiallyPaid | PayoutFailed | PayoutAmbiguous

  datatype DispenseStatus = NotStarted | Authorized | ProductDispensed | DispenseFailed | DispenseAmbiguous

  datatype DeliveryStatus = NotDelivered | WindowOpened | PickupConfirmed | WindowClosed

  datatype RecoveryStatus = NoRecovery | RecoveryPending | ManualReview

  datatype SessionStatus = SessionCreated | SessionAccepting | SessionCancelled | SessionCompleted

  datatype ReserveStatus = Active | Released | Consumed | ReserveAmbiguous

  /** The exceptions the handlers end with. */
  datatype Failure =
    | SalesBlocked | SelectionUnavailable | SensorMismatch | TransactionActive | UnknownTransaction
    | TransitionRefused | CashUnsafe | ValidatorFailed | MissingBillValue | SaleFailure(error: SaleError)
    | ChangeUnavailable | PayoutIncomplete | PayoutPartial | DispenserFailed | MotorFailed | WindowFailed | SlotEmpty
    | InterventionRequired

  datatype Session = Session(status: SessionStatus, accepted: nat, bills: seq<int>)

  datatype Reservation = Reservation(counts: Counts, status: ReserveStatus)

  datatype SaleError = NoSession | SessionIsCancelled | BelowPrice | NotConfirmed | ChangeUnresolved

  datatype Txn = Txn(
    price: nat, slot: SlotId, product: ProductId, status: Status, accepted: nat, changeDue: nat, payment: PaymentStatus,
    payout: PayoutStatus, dispense: DispenseStatus, delivery: DeliveryStatus, recovery: RecoveryStatus,
    session: Option<Session>, reserve: Option<Reservation>)
  {
    /** A new session replaces any earlier one. */
    function StartSession(): Txn {
      this.(session := Some(Session(SessionAccepting, 0, [])), status := AcceptingCash, payment := Accepting)
    }

    function AttachReserve(counts: Counts): Txn {
      this.(reserve := Some(Reservation(counts, Active)), payout := PayoutStatus.Reserved)
    }

    function DropReserve(): Txn {
      this.(reserve := None)
    }

    function MarkReserve(s: ReserveStatus): Txn {
      if reserve.Some? then this.(reserve := Some(reserve.value.(status := s))) else this
    }

    function RecordCash(bill: nat): Result<Txn, SaleError> {
      if session.None? then Err(NoSession)
      else if session.value.status == SessionCancelled then Err(SessionIsCancelled)
      else
        var s := session.value.(accepted := session.value.accepted + bill, bills := session.value.bills + [bill]);
        Ok(this.(session := Some(s), accepted := s.accepted))
    }

    function ConfirmPayment(): Result<Txn, SaleError> {
      if accepted < price then Err(BelowPrice)
      else
        Ok(this.(payment := Confirmed, status := PaymentAccepted,
                 session := if session.Some? then Some(session.value.(status := SessionCompleted)) else None,
                 changeDue := accepted - price,
                 payout := if accepted == price then NotRequired else payout))
    }

    function MarkChangePending(): Txn {
      this.(payout := PayoutPending, status := DispensingChange)
    }

    function MarkChangeDispensed(): Txn {
      this.(payout := Dispensed)
    }

    function MarkChangePartial(): Txn {
      this.(payout := PartiallyPaid, status := Ambiguous, recovery := RecoveryPending)
    }

    function AuthorizeVend(): Result<Txn, SaleError> {
      if payment != Confirmed then Err(NotConfirmed)
      else if changeDue > 0 && payout != Dispensed then Err(ChangeUnresolved)
      else Ok(this.(dispense := Authorized, status := DispensingProduct))
    }

    function MarkProductDispensed(): Txn {
      this.(dispense := ProductDispensed, status := OpeningDeliveryWindow)
    }

    function MarkWindowOpened(): Txn {
      this.(delivery := WindowOpened, status := WaitingForCustomerPickup)
    }

    function ConfirmPickup(): Txn {
      this.(delivery := PickupConfirmed, status := ClosingDeliveryWindow)
    }

    function MarkWindowClosed(): Txn {
      this.(delivery := WindowClosed, status := Completed)
    }

    function MarkPickupTimedOut(): Txn {
      this.(delivery := WindowClosed, status := PickupTimedOut, recovery := ManualReview)
    }

    function Cancel(): Txn {
      this.(status := Cancelled, payment := PaymentCancelled,
            session := if session.Some? then Some(session.value.(status := SessionCancelled)) else None)
    }

    function MarkFaulted(): Txn {
      this.(status := Faulted, recovery := RecoveryPending)
    }

    function MarkRecoveryPending(): Txn {
      this.(recovery := RecoveryPending)
    }

    function MarkAmbiguous(): Txn {
      this.(status := Ambiguous, recovery := ManualReview)
    }

    /** Still to be settled, as the registry and the transaction table select it. */
    predicate Unresolved() {
      recovery != NoRecovery || !Terminal()
    }

    predicate Terminal() {
      status.Completed? || status.Cancelled?
    }
  }

  function NewTxn(price: nat, slot: SlotId, product: ProductId): Txn {
    Txn(price, slot, product, Created, 0, 0, PaymentPending, NotRequired, NotStarted, NotDelivered, NoRecovery, None, None)
  }

  /** The entity the handlers mutate. Each method has the effect of the function of the same purpose above. */
  class Transaction {
    const price: nat
    const slot: SlotId
    const product: ProductId
    var status: Status
    var acceptedAmount: nat
    var changeDue: nat
    var paymentStatus: PaymentStatus
    var payoutStatus: PayoutStatus
    var dispenseStatus: DispenseStatus
    var deliveryStatus: DeliveryStatus
    var recoveryStatus: RecoveryStatus
    var paymentSession: Option<Session>
    var changeReserve: Option<Reservation>

    function View(): Txn
      reads this
    {
      Txn(price, slot, product, status, acceptedAmount, changeDue, paymentStatus, payoutStatus, dispenseStatus, deliveryStatus,
          recoveryStatus, paymentSession, changeReserve)
    }

    constructor (price: nat, slot: SlotId, product: ProductId)
      ensures View() == NewTxn(price, slot, product)
    {
      this.price, this.slot, this.product := price, slot, product;
      status, acceptedAmount, changeDue := Created, 0, 0;
      paymentStatus, payoutStatus, dispenseStatus := PaymentPending, NotRequired, NotStarted;
      deliveryStatus, recoveryStatus, paymentSession, changeReserve := NotDelivered, NoRecovery, None, None;
    }

    /** A transaction as it was saved. */
    constructor Load(t: Txn)
      ensures View() == t
    {
      price, slot, product := t.price, t.slot, t.product;
      status, acceptedAmount, changeDue := t.status, t.accepted, t.changeDue;
      paymentStatus, payoutStatus, dispenseStatus := t.payment, t.payout, t.dispense;
      deliveryStatus, recoveryStatus, paymentSession, changeReserve := t.delivery, t.recovery, t.session, t.reserve;
    }

    method StartCashSession()
      modifies this
      ensures View() == old(View()).StartSession()
    {
      paymentSession := Some(Session(SessionAccepting, 0, []));
      status := AcceptingCash;
      paymentStatus := Accepting;
    }

    method AttachChangeReserve(counts: Counts)
      modifies this
      ensures View() == old(View()).AttachReserve(counts)
    {
      changeReserve := Some(Reservation(counts, Active));
      payoutStatus := PayoutStatus.Reserved;
    }

    method DropChangeReserve()
      modifies this
      ensures View() == old(View()).DropReserve()
    {
      changeReserve := None;
    }

    method MarkChangeReserve(s: ReserveStatus)
      modifies this
      ensures View() == old(View()).MarkReserve(s)
    {
      if changeReserve.Some? {
        changeReserve := Some(changeReserve.value.(status := s));
      }
    }

    method RecordStackedCash(bill: nat) returns (error: Option<SaleError>)
      modifies this
      ensures match old(View()).RecordCash(bill)
              case Ok(t) => error.None? && View() == t
              case Err(e) => error == Some(e) && View() == old(View())
    {
      if paymentSession.None? {
        return Some(NoSession);
      }
      var session := paymentSession.value;
      if session.status == SessionCancelled {
        return Some(SessionIsCancelled);
      }
      session := session.(bills := session.bills + [bill]);
      session := session.(accepted := session.accepted + bill);
      paymentSession := Some(session);
      acceptedAmount := session.accepted;
      return None;
    }

    method ConfirmPayment() returns (error: Option<SaleError>)
      modifies this
      ensures match old(View()).ConfirmPayment()
              case Ok(t) => error.None? && View() == t
              case Err(e) => error == Some(e) && View() == old(View())
    {
      if acceptedAmount < price {
        return Some(BelowPrice);
      }
      paymentStatus := Confirmed;
      status := PaymentAccepted;
      if paymentSession.Some? {
        paymentSession := Some(paymentSession.value.(status := SessionCompleted));
      }
      changeDue := acceptedAmount - price;
      payoutStatus := if changeDue == 0 then NotRequired else payoutStatus;
      return None;
    }

    method MarkChangePending()
      modifies this
      ensures View() == old(View()).MarkChangePending()
    {
      payoutStatus := PayoutPending;
      status := DispensingChange;
    }

    method MarkChangeDispensed()
      modifies this
      ensures View() == old(View()).MarkChangeDispensed()
    {
      payoutStatus := Dispensed;
    }

    method MarkChangePartial()
      modifies this
      ensures View() == old(View()).MarkChangePartial()
    {
      payoutStatus := PartiallyPaid;
      status := Ambiguous;
      recoveryStatus := RecoveryPending;
    }

    method AuthorizeVend() returns (error: Option<SaleError>)
      modifies this
      ensures match old(View()).AuthorizeVend()
              case Ok(t) => error.None? && View() == t
              case Err(e) => error == Some(e) && View() == old(View())
    {
      if paymentStatus != Confirmed {
        return Some(NotConfirmed);
      }
      if changeDue > 0 && payoutStatus != Dispensed {
        return Some(ChangeUnresolved);
      }
      dispenseStatus := Authorized;
      status := DispensingProduct;
      return None;
    }

    method MarkProductDispensed()
      modifies this
      ensures View() == old(View()).MarkProductDispensed()
    {
      dispenseStatus := ProductDispensed;
      status := OpeningDeliveryWindow;
    }

    method MarkWindowOpened()
      modifies this
      ensures View() == old(View()).MarkWindowOpened()
    {
      deliveryStatus := WindowOpened;
      status := WaitingForCustomerPickup;
    }

    method ConfirmPickup()
      modifies this
      ensures View() == old(View()).ConfirmPickup()
    {
      deliveryStatus := PickupConfirmed;
      status := ClosingDeliveryWindow;
    }

    method MarkWindowClosed()
      modifies this
      ensures View() == old(View()).MarkWindowClosed()
    {
      deliveryStatus := WindowClosed;
      status := Completed;
    }

    method MarkPickupTimedOut()
      modifies this
      ensures View() == old(View()).MarkPickupTimedOut()
    {
      deliveryStatus := WindowClosed;
      status := PickupTimedOut;
      recoveryStatus := ManualReview;
    }

    method Cancel()
      modifies this
      ensures View() == old(View()).Cancel()
    {
      status := Cancelled;
      paymentStatus := PaymentCancelled;
      if paymentSession.Some? {
        paymentSession := Some(paymentSession.value.(status := SessionCancelled));
      }
    }

    method MarkFaulted()
      modifies this
      ensures View() == old(View()).MarkFaulted()
    {
      status := Faulted;
      recoveryStatus := RecoveryPending;
    }

    method MarkRecoveryPending()
      modifies this
      ensures View() == old(View()).MarkRecoveryPending()
    {
      recoveryStatus := RecoveryPending;
    }

    method MarkAmbiguous()
      modifies this
      ensures View() == old(View()).MarkAmbiguous()
    {
      status := Ambiguous;
      recoveryStatus := ManualReview;
    }
  }
}
