# Cash settlement and vend core: a verified model

A model of the machine's cash core and proofs about it: planning and reserving change, the payout device behind its
retrying command runner, the sale from product selection to pickup, the write-ahead journal, restart after a crash, and
pickup timeouts. `dafny verify dfyconfig.toml` checks everything.

## How it is built

* `Wrappers`, `Counts`, `ChangePlanning`, `WorstCase`, `SaleAssessment`, `ChangeManagement`: counts by denomination, the backtracking search, the worklist of
  underpaid amounts, the pre-sale check, reservation and settlement. Searches and loops are methods; what they must find is
  stated without them (payable amounts, overpayments some sequence of notes reaches, the lexicographically greatest plan).
* `Money`, `LedgerRuns`: the inventory class and every run of its operations.
* `Dispenser`, `PayoutDevice`, `CommandRunner`: the payout device as one abstract payout, the device with its injected
  faults and hopper, and the runner with retries and its cache. The device behind the runner is proved to be the abstract one.
* `Sale`, `Fsm`: the transaction and the state engine, as classes that change in place and as the functions those changes
  follow; `FsmRuns`: every run of the engine.
* `Protocol`: every command handler, validator event, restart and recovery as one step over a core state. A raising step
  keeps what it did before the raise. A trace records the durable writes and physical actions in order; a crash cuts the
  trace of a handler at any point and restarts the machine from the saved rows and the journal alone.
* `Orchestrators`: the handlers in the order the code performs them, over the inventory, engine, device and transaction
  objects, each proved to end in the state and with the error of its protocol step.
* `TraceFacts`, `ProtocolInvariant`, `ProtocolRuns`, `CrashRecovery`, `Restarts`, `Settlement`, `Refunds`: what a trace says, and
  the results about every run.
* `AgreedTerms`: the product, slot and price of a sale, from the command that starts it to the motor. `Endings`: how each
  handler ends, field by field, without the functions that compute it.
* `CashBooks`, `SavedLedger`, `HeldReserves`, `CashWithinAccepted`: the ledger against the hopper, in memory and as saved; the
  reserved counts against the reserves held; the cash paid out against the cash accepted. `RefundChargedTwice`,
  `CrashBeforeSave` and `DeliveredAndRefunded` are runs from a new machine in which these fail.
* `Journal`, `JournalJoin`: keys as strings, the table under insert-or-ignore, the query with its string rewriting, and the proof
  that it returns what the protocol calls interrupted.
* `PickupTimers`, `PickupTimeoutRuns`: the coordinator's critical sections as methods, and every interleaving at its awaits.
* `HexBytes`: the bench tool's printer and parser.

## Main results

* A sale is approved exactly when every overpayment the customer can reach can be paid out (`SupportedExactly`), and once an
  approved session is open, the note that reaches the price leaves a final reserve worth exactly the overpayment and never ends
  for lack of change (`EverySessionCanBeSettled`).
* Whenever the motor runs, exactly the overpayment has already left the hopper for that transaction; it runs at most once per
  transaction, across crashes (`VendOnlyWhenSettled`, `AtMostOneVend`).
* In every run the motor turns for the product, slot and price named when the purchase was started, and the slot then holds that
  product (`MotorServesWhatWasBought`). When a purchase starts, and cash is asked for, is exact (`StartSellsExactly`,
  `AsksForCashExactly`).
* A healthy payout device pays the whole plan, once, through any timeouts and transient failures the policy retries
  (`HealthyPays`, `RunAnswers`). What the runner runs again is exact, in terms of the policy's two lists (`RetriesExactly`).
* Cash paid out for a transaction does not always stay within the cash accepted for it. Over every run it does exactly when no
  cancellation pays a refund on top of an earlier payout (`RunWithinExactly`). The guard that fails is the payment status: a
  refused cancellation of a paid-up sale pays nothing but sets it to cancelled, so cancelling again at the pickup window pays
  back everything, after change and product were handed out (`DeliveredSaleIsRefunded`; 600 for 500 in `DeliveredSaleIsPaidBack`).
* Ledger and hopper agree or the drift latch is set after every command that does not repeat a refund that was paid
  (`HandleKeepsLedger`). The exception is exact (`CancelKeepsBooks`) and reached (`CancelledTwiceIsChargedTwice`). After a crash
  the ledger read back agrees exactly when the crash did not come between cash leaving the hopper and the next save
  (`CrashKeepsBooksExactly`); otherwise the books disagree without drift (`PowerCutLosesPayout`). Together: `RunKeepsBooks`.
* The reserved counts are the sum of the reserves still held, exactly unless a plan is attached over one still held, a paid out
  reserve is given back again, or a failed refund stays reserved (`HandleTalliesExactly`, `RunKeepsTally`).
* A crash anywhere leaves a machine that blocks sales exactly when something durable is unresolved (`RestartBlocksSales`).
  What becomes of every saved row is exact (`RestoresExactly`), is written down at once, and is the same however often the machine
  is restarted (`RestartAgain`). Recovery cancels exactly what is safe to cancel (`RecoversExactly`).
  Restart and recovery pay, vend and enable nothing (`RecoveryMovesNothing`), and until a transaction that is safe to cancel is
  recovered nothing is vended and no cash is asked for (`CrashStopsSales`); a cancellation may still pay a refund meanwhile.
* For any recorded names without colons the journal query returns exactly the intents whose rewritten action and step have no
  outcome (`JoinIsExact`); while no name begins with "intent" these are the ones without an outcome (`CleanJoin`), and for one
  that does, the query returns an intent that has its outcome (`IntentNamedStepIsNeverMatched`). No name the handlers use begins
  so (`StepNames`).
* No pickup is timed out early: over every run a poll claims exactly the waiting ones that nobody handles and whose deadline has
  come (`PollTakesExpired`, `HandledWasDue`).
* Nothing is abandoned by the pickup timeout supervisor exactly when every exception in handling finds no claim left to begin
  (`NothingAbandonedExactly`). A poll that claimed two timeouts and fails on the first abandons the second
  (`SecondTimeoutIsAbandoned`), for good (`AbandonedForGood`).

## Model

| member | source | states |
|---|---|---|
| ChangePlanning.PlanChange | src/flower_vending/payments/change_manager.py:141-166 | an error exactly for negative targets; None exactly when no bounded combination of stock is worth the target; otherwise the one exact plan that is lexicographically greatest by descending denomination |
| ChangePlanning.Backtrack | src/flower_vending/payments/change_manager.py:149-164 | the recursive search over a suffix of the denominations finds the best plan of that suffix, or there is none |
| ChangePlanning.StockedDenominations | src/flower_vending/payments/change_manager.py:147 | all stocked denominations, largest first, each once |
| ChangePlanning.BestPlanIsUnique | src/flower_vending/payments/change_manager.py:141-166 | two greedy-optimal plans for the same stock and target are equal, so the contract of PlanChange fixes its answer |
| ChangePlanning.BestPlanIffPayable | src/flower_vending/payments/change_manager.py:149-166 | a greedy-optimal plan exists exactly for the targets some bounded combination pays |
| WorstCase.WorstCaseChange | src/flower_vending/payments/change_manager.py:178-194 | None exactly when some first-crossing overpayment cannot be paid out, otherwise the largest such overpayment; terminates; no clause depends on which pending amount is popped |
| WorstCase.ProcessAmount | src/flower_vending/payments/change_manager.py:182-193 | all notes on top of one amount: new amounts wait exactly once, overpayments are checked and bounded |
| WorstCase.TryNote | src/flower_vending/payments/change_manager.py:183-193 | one note: a new underpaid amount joins the worklist, an overpayment is checked, an unpayable one ends the search |
| WorstCase.WorstIsExact | src/flower_vending/payments/change_manager.py:178-194 | once nothing is pending, every overpayment any sequence of notes can reach has been checked and is at most the maximum found |
| WorstCase.OverpaymentBelowLargestNote | src/flower_vending/payments/change_manager.py:185-193 | for a positive price the change due at the first crossing is below the largest note |
| WorstCase.SomeOverpayment | src/flower_vending/payments/change_manager.py:178-194 | from any open session some payment crosses the price, so the maximum is over a non-empty set |
| SaleAssessment.SupportedExactly | src/flower_vending/payments/change_manager.py:39-50 | a sale is approved exactly when there is no drift and, unless exact change is on or no notes are configured, every reachable overpayment can be paid; a worst case found always has a plan, so that later refusal is never taken |
| SaleAssessment.WorstExists | src/flower_vending/payments/change_manager.py:168-194 | a largest reachable overpayment exists for any non-empty set of positive notes |
| SaleAssessment.ApprovedSaleCanBeSettled | src/flower_vending/payments/change_manager.py:39-73 | settlement guarantee on the ledger: the approved plan can be reserved, and for every sequence of accepted notes that first reaches the price it can be given back and a plan worth exactly the overpayment found and reserved |
| ChangeManagement.ChangeManager.AssessSale | src/flower_vending/payments/change_manager.py:39-50 | computes the approval with the real search and worklist |
| ChangeManagement.ChangeManager.CalculateWorstCaseChange | src/flower_vending/payments/change_manager.py:168-194 | the worst case with its two early exits |
| ChangeManagement.ChangeManager.FinalizeReserve | src/flower_vending/payments/change_manager.py:55-73 | gives the held reserve back and takes the exact one, over the inventory and the transaction in place |
| ChangeManagement.ChangeManager.Dispense | src/flower_vending/payments/change_manager.py:75-109 | one payout of the device, then consumption, or drift and the transaction's mark, for every reply |
| ChangeManagement.ChangeManager.DispenseRefund | src/flower_vending/payments/change_manager.py:111-139 | a refund plan is reserved and paid once; the ledger is consumed, or drift is latched |
| Settlement.SessionOpens | src/flower_vending/app/orchestrators/payment_coordinator.py:40-62 | a first AcceptCash leaves the approved plan held and the count at zero |
| Settlement.SessionStaysOpen | src/flower_vending/app/orchestrators/payment_coordinator.py:100-138 | accepted notes below the price and all commands that neither move cash nor end the sale keep that state, whatever their order |
| Settlement.EverySessionCanBeSettled | src/flower_vending/app/orchestrators/payment_coordinator.py:140-228 | settlement guarantee on the machine: after an approved AcceptCash and any such run, the note that first reaches the price leaves, once its payment is confirmed, a final reserve worth exactly the overpayment, and never ends for lack of change, however the devices behave |
| Settlement.CrossedFinalizes | src/flower_vending/payments/change_manager.py:55-73 | finalize_reserve succeeds on the crossing note with a plan worth exactly the overpayment |
| Settlement.SaleCompletes | src/flower_vending/app/orchestrators/payment_coordinator.py:100-237 | with working devices and agreeing books the crossing note completes the sale: exact change out of the hopper, one piece out of the slot, customer at the window |
| Money.MoneyInventory.AvailableCounts | src/flower_vending/domain/entities/money_inventory.py:22-27 | accounting less reserved, not below zero, for every denomination |
| Money.MoneyInventory.ReservePlan | src/flower_vending/domain/entities/money_inventory.py:29-44 | refused exactly when some denomination is short; otherwise the reserved counts grow by the plan |
| Money.MoneyInventory.ReleasePlan | src/flower_vending/domain/entities/money_inventory.py:46-50 | the reserved counts shrink by the plan, stopping at zero |
| Money.MoneyInventory.ConsumePlan | src/flower_vending/domain/entities/money_inventory.py:52-60 | both counts shrink by the plan, the reserved ones stopping at zero |
| Money.ReserveThenRelease | src/flower_vending/domain/entities/money_inventory.py:33-50 | releasing what was reserved restores availability |
| LedgerRuns.ClampIsExact | src/flower_vending/domain/entities/money_inventory.py:46-60 | with each reserve closed once, the stop at zero never changes a value |
| LedgerRuns.RunKeepsBalance | src/flower_vending/domain/entities/money_inventory.py:22-60 | in every run of reserve, release and consume, reserved counts are the sum of the outstanding reserves and never exceed accounting, and every piece is accounted for or paid out |
| LedgerRuns.RunConservesValue | src/flower_vending/domain/entities/money_inventory.py:33-60 | inventory value plus consumed value is constant over every run |
| CashBooks.PayoutKeepsBooks | src/flower_vending/payments/change_manager.py:88-139 | one payout keeps ledger and hopper equal, or latches drift, exactly when it does not replay a request already paid |
| CashBooks.CancelKeepsBooks | src/flower_vending/app/orchestrators/payment_coordinator.py:239-286 | a cancellation keeps the books exactly when it does not repeat a refund that was paid |
| CashBooks.HandleKeepsBooks | src/flower_vending/app/orchestrators/payment_coordinator.py:40-352 | every command keeps accounting equal to the hopper, or drift set, unless it repeats a paid refund |
| SavedLedger.HandleKeepsLedger | src/flower_vending/runtime/bootstrap.py:308-325 | every command that does not repeat a paid refund leaves memory, the ledger saved at every event, and the hopper in agreement |
| SavedLedger.RestoredAgreesExactly | src/flower_vending/runtime/bootstrap.py:768-777 | a ledger read back agrees with the hopper exactly when it was already marked drifted or no cash left the hopper after it was saved |
| SavedLedger.CrashKeepsBooksExactly | src/flower_vending/runtime/bootstrap.py:308-325 | after a crash at any point of a command, reading back what was saved keeps the books exactly when the crash did not come between cash leaving the hopper and the next save |
| SavedLedger.RunKeepsBooks | src/flower_vending/payments/change_manager.py:88-139 | over every run with device faults, retries and crashes at all other points, and no repeated refund: accounting equals the hopper for every denomination, or drift is latched, in memory and whenever it was saved |
| CrashBeforeSave.CrashAfterPayoutLosesIt | src/flower_vending/app/orchestrators/payment_coordinator.py:305-311 | for every refund that is paid, a crash right after the payout leaves books that disagree without drift |
| CrashBeforeSave.PowerCutLosesPayout | src/flower_vending/app/orchestrators/payment_coordinator.py:287-345 | a run from a new machine in which that happens |
| CashBooks.AwaitedSaleRefundsOnce | src/flower_vending/app/orchestrators/payment_coordinator.py:265-269 | cancelling the sale that awaits its cash never repeats a refund |
| CashBooks.ChangeIsNeverShort | src/flower_vending/simulators/devices/mock_change_dispenser.py:81-86 | a change payout without drift never meets a hopper that lacks the pieces |
| RefundChargedTwice.RefusedCancelPays | src/flower_vending/app/orchestrators/payment_coordinator.py:265-275 | cancelling where CANCELLED is not reachable pays the refund and is then refused, leaving a transaction that can be cancelled again |
| RefundChargedTwice.CancelledTwiceIsChargedTwice | src/flower_vending/app/orchestrators/payment_coordinator.py:239-275 | a run from a new machine whose books agree after five events, and whose sixth, the same cancellation again, charges the ledger without any cash leaving, and without drift |
| CashWithinAccepted.HandleWithinExactly | src/flower_vending/app/orchestrators/payment_coordinator.py:40-352 | a command keeps every payout within what its transaction accepted, change and refunds together, exactly unless it is a cancellation whose refund, with what was paid before, is more |
| CashWithinAccepted.OverpayingPaysAgain | src/flower_vending/app/orchestrators/payment_coordinator.py:265-269 | only a cancellation that refunds, for the first time, a transaction that was already paid something can pay too much |
| CashWithinAccepted.DispensingOverpaysExactly | src/flower_vending/app/orchestrators/payment_coordinator.py:265-269 | with agreeing books and a device that dispenses, exactly those cancellations pay too much |
| CashWithinAccepted.RunWithinExactly | src/flower_vending/app/orchestrators/payment_coordinator.py:40-352 | over every run, crashes included, no transaction is ever paid more than it accepted exactly when no event overpays; a crash overpays only after the sixth write of the cancellation |
| CashWithinAccepted.WithinEverywhere | src/flower_vending/payments/change_manager.py:88-139 | the property read off payout by payout: what left the hopper so far is at most what the saved row accepted |
| CashWithinAccepted.DeliveredSaleIsRefunded | src/flower_vending/app/orchestrators/payment_coordinator.py:265-275 | with the customer at the window, a first cancellation pays nothing and is refused, and a second pays back everything accepted; that is too much exactly if change was paid |
| DeliveredAndRefunded.DeliveredSaleIsPaidBack | src/flower_vending/app/orchestrators/payment_coordinator.py:239-286 | a run from a new machine in which the product is dispensed and 600 leaves the hopper for 500 accepted |
| HeldReserves.HandleTalliesExactly | src/flower_vending/app/orchestrators/payment_coordinator.py:40-352 | after a command the reserved counts are the sum of the reserves still held exactly unless cash was asked for while a plan was held, a cancellation gave back a reserve already paid out, or a refund that was not dispensed stays reserved |
| HeldReserves.AcceptTalliesExactly | src/flower_vending/app/orchestrators/payment_coordinator.py:40-62 | asking for cash keeps the sum exactly unless a plan was still held and another is attached |
| HeldReserves.CancelTalliesExactly | src/flower_vending/app/orchestrators/payment_coordinator.py:265-273 | a cancellation keeps the sum exactly unless it gives back pieces that other transactions hold, or leaves a failed refund reserved |
| HeldReserves.RunKeepsTally | src/flower_vending/domain/entities/money_inventory.py:33-60 | in every run of such commands from an unused machine, at every moment and for every denomination, the reserved counts are what the transactions hold |
| HeldReserves.AwaitedCommandsTally | src/flower_vending/app/orchestrators/payment_coordinator.py:239-273 | asking for cash once per sale and cancelling only the sale that awaits it break the sum only by a refund that is not dispensed |
| PayoutDevice.MockChangeDispenser.PartialPlan | src/flower_vending/simulators/devices/mock_change_dispenser.py:138-153 | pays the request less one piece of its largest requested denomination; raises exactly when that leaves nothing |
| PayoutDevice.PartialIsOnePieceShort | src/flower_vending/simulators/devices/mock_change_dispenser.py:138-153 | a partial payout exists exactly for requests of two pieces or more, is one piece short, and is worth the request less that denomination |
| PayoutDevice.MockChangeDispenser.ConsumeInventory | src/flower_vending/simulators/devices/mock_change_dispenser.py:134-136 | the hopper loses exactly the plan |
| PayoutDevice.MockChangeDispenser.CanDispense | src/flower_vending/simulators/devices/mock_change_dispenser.py:34-40 | true exactly when the offered fault is not payout_unavailable and every requested count is in the hopper |
| PayoutDevice.MockChangeDispenser.RunOnce | src/flower_vending/simulators/devices/mock_change_dispenser.py:59-132 | one run of the command in place; each offered fault has its own answer: with none the covered request is paid in full, payout_unavailable and a short hopper pay nothing and answer failed, only the partial fault pays short, a timeout or a transient failure answers nothing, and nothing else changes the hopper |
| PayoutDevice.RunAnswers | src/flower_vending/simulators/devices/mock_change_dispenser.py:59-132 | the answer, the payout and the remaining faults of a run, one clause for each offered fault and for none |
| PayoutDevice.RetriedDispenseIsOnePayout | src/flower_vending/simulators/devices/mock_change_dispenser.py:42-54 | whatever is injected and retried, a first call moves cash at most once, answers what happened, and is remembered exactly when it returned |
| PayoutDevice.MockChangeDispenser.Dispense | src/flower_vending/simulators/devices/mock_change_dispenser.py:42-54 | one payout of the abstract device; with no fault pending and the request covered and unanswered the whole plan is paid and answered dispensed under every policy; a known request is replayed without moving cash |
| PayoutDevice.HealthyPays | src/flower_vending/devices/command_policy.py:94-224 | a covered new request is paid in full, once, however many retryable timeouts and transient failures, up to the retry count, come before the device works |
| Dispenser.FirstPay | src/flower_vending/simulators/devices/mock_change_dispenser.py:59-132 | what each reply of a first call pays: the whole request when dispensed, one piece of its largest denomination less when partial, nothing otherwise; the hopper loses exactly that, and the reply is remembered exactly when there was one |
| CommandRunner.DeviceCommandRunner.Run | src/flower_vending/devices/command_policy.py:68-233 | the loop does what the retry specification says, and the code after it is never reached |
| CommandRunner.RetriesExactly | src/flower_vending/devices/contracts.py:130-133 | a call runs a second time exactly when the policy has a retry left and the code of the first attempt is among the retryable ones and not among the others, a timeout under its own code and a marked error by its mark |
| CommandRunner.RetriesUntilGood | src/flower_vending/devices/command_policy.py:94-224 | j failures that may be repeated, then a good result, with j at most retry_count: that result comes back after j + 1 runs |
| CommandRunner.RetriesRunOut | src/flower_vending/devices/command_policy.py:186-224 | failures that may be repeated on every attempt end the call after retry_count + 1 runs with the last one's error |
| CommandRunner.UnclearResultRaises | src/flower_vending/devices/command_policy.py:111-150 | an unclear result under a policy that reviews such results is not repeated: the call ends at once with the ambiguous-result error |
| CommandRunner.Judge | src/flower_vending/devices/command_policy.py:96-224 | the last attempt always ends the call, and what is returned is what the attempt returned and is remembered |
| CommandRunner.RunsWithinPolicy | src/flower_vending/devices/command_policy.py:94-224 | the operation runs once for every attempt that calls for a retry and once more, at most retry_count + 1 times |
| CommandRunner.KeyedCallRunsOnce | src/flower_vending/devices/command_policy.py:83-92 | once a keyed call returned, every later call with that key returns the same result and runs nothing |
| CommandRunner.EffectAtMostOnce | src/flower_vending/devices/command_policy.py:96-224 | an operation whose failing attempts move nothing has, over all retries, the effect of at most one successful run |
| Fsm.StateMachineEngine.Transition | src/flower_vending/app/fsm/machine_fsm.py:49-60 | self-transitions succeed silently, allowed ones are recorded, others are refused without effect |
| Fsm.StateMachineEngine.ForceState | src/flower_vending/app/fsm/machine_fsm.py:62-68 | a forced move is recorded |
| FsmRuns.BeforeIsExact | src/flower_vending/app/fsm/transitions.py:8-106 | the whole table read backwards: for every state, the states it may be entered from |
| FsmRuns.RunIsChained | src/flower_vending/app/fsm/machine_fsm.py:46-68 | in every run the history is a connected chain ending in the current state, each record allowed or forced |
| FsmRuns.PaymentPath | src/flower_vending/app/fsm/transitions.py:8-106 | payment is accepted only straight after selection, both checks, waiting and cash, from IDLE |
| FsmRuns.ProductIsDispensedAfterPayment | src/flower_vending/app/fsm/transitions.py:8-106 | every entry to DISPENSING_PRODUCT closes an unbroken purchase since IDLE, with at most the change payout in between |
| Sale.Transaction.StartCashSession | src/flower_vending/domain/entities/transaction.py:102-106 | a new session replaces any earlier one |
| Sale.Transaction.AttachChangeReserve | src/flower_vending/domain/entities/transaction.py:108-111 | the reserve is held and the payout reserved |
| Sale.Transaction.RecordStackedCash | src/flower_vending/domain/entities/transaction.py:113-118 | counted only in a session that is not cancelled; the accepted amount follows the session |
| Sale.Transaction.ConfirmPayment | src/flower_vending/domain/entities/transaction.py:120-132 | refused below the price; otherwise the change due is the overpayment |
| Sale.Transaction.MarkChangePending | src/flower_vending/domain/entities/transaction.py:134-137 | the payout is pending |
| Sale.Transaction.MarkChangeDispensed | src/flower_vending/domain/entities/transaction.py:139-141 | the payout is done |
| Sale.Transaction.MarkChangePartial | src/flower_vending/domain/entities/transaction.py:143-147 | a partial payout is ambiguous and pending recovery |
| Sale.Transaction.AuthorizeVend | src/flower_vending/domain/entities/transaction.py:149-156 | refused before payment and before due change was dispensed |
| Sale.Transaction.MarkProductDispensed | src/flower_vending/domain/entities/transaction.py:158-161 | the product is out |
| Sale.Transaction.MarkWindowOpened | src/flower_vending/domain/entities/transaction.py:163-166 | the customer may pick up |
| Sale.Transaction.ConfirmPickup | src/flower_vending/domain/entities/transaction.py:168-171 | the window closes |
| Sale.Transaction.MarkWindowClosed | src/flower_vending/domain/entities/transaction.py:173-176 | the sale is completed |
| Sale.Transaction.MarkPickupTimedOut | src/flower_vending/domain/entities/transaction.py:178-182 | closed without pickup, for manual review |
| Sale.Transaction.Cancel | src/flower_vending/domain/entities/transaction.py:184-189 | cancelled, with its session |
| Sale.Transaction.MarkFaulted | src/flower_vending/domain/entities/transaction.py:191-194 | faulted, recovery pending |
| Sale.Transaction.MarkRecoveryPending | src/flower_vending/domain/entities/transaction.py:196-198 | recovery pending |
| Sale.Transaction.MarkAmbiguous | src/flower_vending/domain/entities/transaction.py:200-203 | ambiguous, for manual review |
| Orchestrators.ApplicationCore.StartPurchaseOf | src/flower_vending/app/orchestrators/vending_controller.py:52-85 | ends as the protocol's StartPurchase does: every refusal, and effects made before a refused transition; AgreedTerms.StartSellsExactly says when it succeeds |
| Orchestrators.ApplicationCore.StartCashSession | src/flower_vending/app/orchestrators/payment_coordinator.py:40-98 | ends as the protocol's AcceptCash does, with the real assessment and reservation |
| Orchestrators.ApplicationCore.ProcessEvent | src/flower_vending/app/orchestrators/payment_coordinator.py:100-138 | ends as the protocol's ProcessValidatorEvent does for some behaviour of the payout device |
| Orchestrators.ApplicationCore.ConfirmPaymentOf | src/flower_vending/app/orchestrators/payment_coordinator.py:140-177 | confirmation, stopping the validator, and the transition, with what is kept when one raises |
| Orchestrators.ApplicationCore.SettleChangeOf | src/flower_vending/app/orchestrators/payment_coordinator.py:178-228 | the guarded block: finalising, announcing, paying, and the way to recovery |
| Orchestrators.ApplicationCore.DispenseDue | src/flower_vending/payments/change_manager.py:88-109 | the device call inside the handler and what its answer does to ledger and transaction |
| Orchestrators.ApplicationCore.VendProductOf | src/flower_vending/app/orchestrators/vending_controller.py:156-202 | authorisation, durable row and intent, the motor, and the stock |
| Orchestrators.ApplicationCore.MarkVended | src/flower_vending/app/services/inventory_service.py:59-60 | the slot gives up one piece, or the call is refused when it is not sellable |
| Orchestrators.ApplicationCore.OpenWindowFor | src/flower_vending/app/orchestrators/vending_controller.py:211-246 | the window and the customer's turn, or the fault |
| Orchestrators.ApplicationCore.Cancel | src/flower_vending/app/orchestrators/payment_coordinator.py:239-286 | ends as the protocol's CancelPurchase does, return to IDLE included |
| Orchestrators.ApplicationCore.RefundCancelledCash | src/flower_vending/app/orchestrators/payment_coordinator.py:288-345 | reserve back, announcement, refund, and review when it fails |
| Orchestrators.ApplicationCore.ConfirmPickupOf | src/flower_vending/app/orchestrators/vending_controller.py:104-154 | ends as the protocol's ConfirmPickup does |
| Orchestrators.ApplicationCore.HandleTimeout | src/flower_vending/app/orchestrators/pickup_timeout_coordinator.py:113-207 | ends as the protocol's PickupTimeout does |
| Orchestrators.ApplicationCore.EnterService | src/flower_vending/app/orchestrators/service_mode_coordinator.py:24-39 | service mode is entered from every state |
| Orchestrators.ApplicationCore.ExitService | src/flower_vending/app/orchestrators/service_mode_coordinator.py:41-62 | service mode is left to IDLE from every state |
| Orchestrators.ApplicationCore.Recover | src/flower_vending/app/orchestrators/recovery_manager.py:104-148 | ends as the protocol's RecoverTransaction does; CrashRecovery.RecoversExactly says what it cancels |
| Orchestrators.ApplicationCore.MarkUnresolvedIntents | src/flower_vending/app/orchestrators/recovery_manager.py:67-73 | one mark per unresolved intent, in order |
| Orchestrators.ApplicationCore.CreateTransaction | src/flower_vending/app/orchestrators/transaction_coordinator.py:22-42 | refused while a transaction is active |
| Orchestrators.ApplicationCore.RestoreTransactions | src/flower_vending/app/orchestrators/transaction_coordinator.py:58-77 | the saved transactions are registered and the first unfinished one becomes active |
| Orchestrators.ApplicationCore.EnsureSelection | src/flower_vending/app/services/inventory_service.py:51-57 | true exactly for an enabled product in a sellable slot that serves it |
| Orchestrators.ApplicationCore.RowsToRestore | src/flower_vending/runtime/bootstrap.py:235-246 | exactly the unresolved rows and those with an unresolved intent |
| Orchestrators.ApplicationCore.RestoreRuntimeState | src/flower_vending/runtime/bootstrap.py:234-280 | a machine reading the table and the journal back ends as the protocol's Restart does |
| ProtocolInvariant.HandleKeepsInv | src/flower_vending/app/orchestrators/payment_coordinator.py:40-352 | every command keeps the invariant: all durable writes and physical actions were justified when they happened, stock follows the motor, a sale under way is untouched |
| ProtocolInvariant.SettleStep | src/flower_vending/app/orchestrators/payment_coordinator.py:178-228 | the guarded block either pays exactly the change due before the vend or leaves the sale |
| ProtocolInvariant.VendStep | src/flower_vending/app/orchestrators/vending_controller.py:156-202 | the motor is commanded only for a paid-up transaction, and its stock update cannot fail |
| ProtocolRuns.RunKeepsInv | src/flower_vending/runtime/bootstrap.py:234-325 | every run of commands and crashes keeps the invariant |
| ProtocolRuns.VendOnlyWhenSettled | src/flower_vending/domain/entities/transaction.py:120-156 | whenever the motor is commanded, payment is confirmed, covers the price, exactly the overpayment has left the hopper for that transaction, the row and the intent are durable, and the slot holds the product bought with a piece to give |
| ProtocolRuns.AtMostOneVend | src/flower_vending/app/orchestrators/vending_controller.py:156-202 | the motor runs at most once per transaction in every run, across restarts |
| ProtocolRuns.DriftStopsSales | src/flower_vending/payments/change_manager.py:40-41 | after any payout result other than dispensed, acceptance is never enabled again before a restart |
| ProtocolRuns.StockFollowsVends | src/flower_vending/app/services/inventory_service.py:51-60 | slot contents are what the last start read less the successful motor runs, and mark_vended never fails |
| Refunds.RefundDichotomy | src/flower_vending/app/orchestrators/payment_coordinator.py:239-352 | cancelling the active unconfirmed sale, whether or not any cash was taken, pays back exactly what was accepted, frees the reserve and idles the machine, or raises into recovery with the transaction ambiguous, never cancelled |
| CrashRecovery.RestartBlocksSales | src/flower_vending/runtime/bootstrap.py:234-260 | a restart blocks sales, in RECOVERY_PENDING, exactly when some durable transaction is unresolved or interrupted, and brings back exactly those |
| CrashRecovery.CrashIsReviewed | src/flower_vending/app/orchestrators/recovery_manager.py:67-102 | after a crash at any point of any command, an interrupted payout, refund or motor run comes back ambiguous, with sales blocked, and recovery refuses to act on it |
| CrashRecovery.InterruptedIsSaved | src/flower_vending/runtime/bootstrap.py:308-325 | money and goods are only announced for transactions whose row is already durable |
| CrashRecovery.RecoveryMovesNothing | src/flower_vending/app/orchestrators/recovery_manager.py:67-148 | restart and recovery never pay, vend or enable anything |
| CrashRecovery.BlockedStays | src/flower_vending/app/orchestrators/recovery_manager.py:50-148 | while recovery blocks sales no command vends or enables, unless it recovers a transaction that is safe to cancel |
| CrashRecovery.CrashStopsSales | src/flower_vending/runtime/bootstrap.py:234-260 | after such a crash nothing is vended and no cash asked for under any later commands until that recovery; a cancellation may still pay a refund |
| CrashRecovery.ListedExactly | src/flower_vending/infrastructure/persistence/journal.py:303-312 | a transaction has an interrupted action exactly when the query names it |
| CrashRecovery.RecoversExactly | src/flower_vending/app/orchestrators/recovery_manager.py:48-148 | a transaction is cancelled, and the machine freed, exactly when it is not over, not timed out, ambiguous or faulted, and its payment was never confirmed; every other open one is left as it is with an operator called for and sales blocked; no cash or goods move |
| Restarts.RestoresExactly | src/flower_vending/runtime/bootstrap.py:234-246 | a saved row comes back exactly when it is not over, is up for recovery or has an interrupted action; it comes back ambiguous exactly when a payout, motor or window action was interrupted, up for recovery when another one was, and otherwise as saved |
| Restarts.MarksAreSaved | src/flower_vending/runtime/bootstrap.py:261-263 | what a restart marks is durable before anything else happens, and every restored transaction is unresolved |
| Restarts.RestartAgain | src/flower_vending/runtime/bootstrap.py:234-274 | restarting again, however often, brings the same transactions back in the same state |
| Restarts.FirstOpenExactly | src/flower_vending/app/orchestrators/transaction_coordinator.py:58-77 | the sale taken up again is the first one, in the order the rows come back, that is not over |
| AgreedTerms.StartSellsExactly | src/flower_vending/app/orchestrators/vending_controller.py:52-85 | a purchase starts exactly when the machine may sell, the slot holds the enabled product with stock, the sensor agrees and nothing else is under way; each missing condition has its own error and leaves everything as it was |
| AgreedTerms.RunKeepsTerms | src/flower_vending/app/orchestrators/transaction_coordinator.py:22-42 | over every run, crashes included, every row ever saved and every motor run keep the product, slot and price named when the purchase started |
| AgreedTerms.MotorServesWhatWasBought | src/flower_vending/app/orchestrators/vending_controller.py:156-202 | in every run the motor turns for the product, slot and price of the starting command, and the slot then holds that product, enabled and in stock |
| Endings.AsksForCashExactly | src/flower_vending/app/orchestrators/payment_coordinator.py:40-62 | cash is asked for exactly when sales are open, the transaction exists, every reachable overpayment can be paid, the machine waits for payment and the validator answers; each refusal has its own error |
| Endings.NoteEnds | src/flower_vending/app/orchestrators/payment_coordinator.py:118-138 | a note below the price is counted and saved and nothing else happens; without an open session it is refused |
| Endings.PaymentEnds | src/flower_vending/app/orchestrators/payment_coordinator.py:140-177 | a paid price is confirmed with the overpayment due once the validator stopped; otherwise the sale is up for review with the machine in recovery |
| Endings.FinalizeEnds | src/flower_vending/payments/change_manager.py:55-73 | for a due change the best exact plan is taken in place of what the sale held, refused exactly when nothing in stock pays it |
| Endings.ChangeEnds | src/flower_vending/app/orchestrators/payment_coordinator.py:178-228 | for each reply of the payout device: paid and saved, or up for review with the drift latch set |
| Endings.VendEnds | src/flower_vending/app/orchestrators/vending_controller.py:156-202 | a settled sale leaves one piece less in its slot and is saved, or is faulted with the slot untouched; an unpaid or unsettled one is refused |
| Endings.WindowEnds | src/flower_vending/app/orchestrators/vending_controller.py:211-246 | the window opens for the customer, or the sale is faulted, with no cash or goods moved |
| Endings.PickupEnds | src/flower_vending/app/orchestrators/vending_controller.py:104-154 | a pickup with a window that closes leaves the sale completed, resolved and saved as such, the machine idle and no active sale, with no cash or stock moved; with one that stays open the sale is faulted |
| Endings.TimeoutEnds | src/flower_vending/app/orchestrators/pickup_timeout_coordinator.py:113-207 | a customer who does not come leaves the sale saved for review and sales blocked; a sale that does not wait is left alone |
| Endings.CloseEnds | src/flower_vending/app/orchestrators/payment_coordinator.py:265-286 | a closed cancellation holds no reserve, is saved, and idles the machine; where CANCELLED cannot be reached it is refused with the transaction already cancelled |
| Endings.RefundEnds | src/flower_vending/app/orchestrators/payment_coordinator.py:288-345 | a refund is paid and saved, or the sale is saved for review with the machine in recovery |
| Endings.ServiceEnds | src/flower_vending/app/orchestrators/service_mode_coordinator.py:24-62 | sales are closed in service mode and open after it exactly when nothing blocks them; no sale is touched |
| Endings.HealthEnds | src/flower_vending/app/orchestrators/health_monitor.py:40-97 | one poll sets exactly its own three reasons to what it found and leaves every other reason and every sale alone |
| Endings.SavesExactly | src/flower_vending/runtime/bootstrap.py:584-596 | an event saves the transaction it is about, or else the active one, and every unresolved one, and leaves the other rows as they were |
| Journal.TransactionJournal.AppendEntry | src/flower_vending/infrastructure/persistence/journal.py:51-87 | a row is ignored exactly when it has a key that is taken |
| Journal.TransactionJournal.RecordIntent | src/flower_vending/infrastructure/persistence/journal.py:138-162 | an intent row under its key |
| Journal.TransactionJournal.RecordOutcome | src/flower_vending/infrastructure/persistence/journal.py:164-195 | an outcome row under its key, named after the action and the outcome |
| Journal.TransactionJournal.UnresolvedIntents | src/flower_vending/infrastructure/persistence/journal.py:278-301 | the intent rows whose rewritten key no outcome row carries, in order |
| Journal.KeysAreInjective | src/flower_vending/app/journal.py:34-41 | keys of parts without colons are equal only for equal parts |
| Journal.ReplacedKey | src/flower_vending/infrastructure/persistence/journal.py:294-297 | rewriting an intent's key gives its outcome's key exactly when neither action nor step begins with "intent" |
| Journal.ReplacedIsFlipped | src/flower_vending/infrastructure/persistence/journal.py:294-297 | what rewriting does to any intent's key: the action and the step each lose a leading "intent" to "outcome" |
| Journal.KeysOfTable | src/flower_vending/infrastructure/persistence/journal.py:51-87 | for any recorded strings without colons, under insert-or-ignore a key is in the table exactly when its action was recorded |
| Journal.UnmatchedExactly | src/flower_vending/infrastructure/persistence/journal.py:278-301 | for any recorded strings without colons, the query leaves an intent unmatched exactly when no outcome was recorded for its rewritten action and step |
| Journal.JoinIsExact | src/flower_vending/infrastructure/persistence/journal.py:278-301 | over any sequence of recorded intents and outcomes the query returns exactly the rows of the open ones, each once, oldest first |
| Journal.CleanJoin | src/flower_vending/infrastructure/persistence/journal.py:278-301 | when no recorded action or step begins with "intent", open means: no outcome of the same action |
| Journal.IntentNamedStepIsNeverMatched | src/flower_vending/infrastructure/persistence/journal.py:278-301 | an intent and its outcome recorded for "intent_step", and the query still returns the intent |
| JournalJoin.StepNames | src/flower_vending/app/orchestrators/payment_coordinator.py:64-68 | the names the handlers use are told apart, have no colons and do not begin with "intent" |
| JournalJoin.EntriesAreActions | src/flower_vending/infrastructure/persistence/journal.py:138-195 | the rows a run records are its intents and outcomes |
| JournalJoin.OutcomesAreRecorded | src/flower_vending/infrastructure/persistence/journal.py:164-195 | an outcome row names the result the action had |
| JournalJoin.RestartReadsInterrupted | src/flower_vending/infrastructure/persistence/journal.py:278-301 | after any run the query returns exactly the interrupted actions, each once, oldest first |
| PickupTimers.PickupTimeoutCoordinator.SyncWaiting | src/flower_vending/app/orchestrators/pickup_timeout_coordinator.py:209-222 | exactly the waiting transactions are armed; earlier deadlines are kept |
| PickupTimers.PickupTimeoutCoordinator.ArmWaiting | src/flower_vending/app/orchestrators/pickup_timeout_coordinator.py:224-231 | armed once while waiting, disarmed otherwise |
| PickupTimers.PickupTimeoutCoordinator.CollectExpired | src/flower_vending/app/orchestrators/pickup_timeout_coordinator.py:94-111 | claimed, each once, are exactly the waiting ones that nobody handles and whose deadline, the earlier armed one if there is one, has come |
| PickupTimers.PickupTimeoutCoordinator.ClaimNow | src/flower_vending/app/orchestrators/pickup_timeout_coordinator.py:72-81 | a forced timeout is claimed unless it is being handled |
| PickupTimers.PickupTimeoutCoordinator.PickupFinished | src/flower_vending/app/orchestrators/pickup_timeout_coordinator.py:56-60 | the deadline is dropped |
| PickupTimers.PickupTimeoutCoordinator.ReleaseClaim | src/flower_vending/app/orchestrators/pickup_timeout_coordinator.py:204-207 | claim and deadline are dropped together |
| PickupTimers.DueExactly | src/flower_vending/app/orchestrators/pickup_timeout_coordinator.py:94-111 | the timeouts a poll claims, in terms of who waits, who is handled and which deadline has come |
| PickupTimers.CollectedIsExact | src/flower_vending/app/orchestrators/pickup_timeout_coordinator.py:94-111 | right after a sync every armed deadline belongs to a waiting transaction, and every waiting one is armed or claimed |
| PickupTimeoutRuns.OneTimeoutInFlight | src/flower_vending/app/orchestrators/pickup_timeout_coordinator.py:62-111 | over all interleavings at most one timeout is handled per transaction, only while its claim stands, and every claim has exactly one owner or was abandoned |
| PickupTimeoutRuns.NothingAbandonedExactly | src/flower_vending/app/orchestrators/pickup_timeout_coordinator.py:62-69 | over every run from a start nothing is abandoned exactly when every exception finds its task with no claim left to begin |
| PickupTimeoutRuns.AbandonedForGood | src/flower_vending/app/orchestrators/pickup_timeout_coordinator.py:62-69 | a claim abandoned once stays claimed over every later run, and no task ever handles it |
| PickupTimeoutRuns.SecondTimeoutIsAbandoned | src/flower_vending/app/orchestrators/pickup_timeout_coordinator.py:62-69 | from a start with two waiting customers: a poll claims both, the first one's handling raises, the second is abandoned |
| PickupTimeoutRuns.PollTakesExpired | src/flower_vending/app/orchestrators/pickup_timeout_coordinator.py:62-111 | at any point of any run a poll gives its task exactly the waiting ones nobody handles whose deadline has come, so nobody is timed out early |
| PickupTimeoutRuns.HandledWasDue | src/flower_vending/app/orchestrators/pickup_timeout_coordinator.py:62-111 | over every run whoever is being handled was waiting and unclaimed when a poll after the deadline, or a forced timeout, claimed them |
| PickupTimeoutRuns.DeadlinesStay | src/flower_vending/app/orchestrators/pickup_timeout_coordinator.py:209-231 | an armed deadline is never moved |
| PickupTimeoutRuns.WindowArms | src/flower_vending/app/orchestrators/pickup_timeout_coordinator.py:45-60 | an opened window arms its customer once, a finished pickup disarms |
| HexBytes.RoundTrip | src/flower_vending/devices/dbv300sd/bench.py:131-140 | printed bytes parse back to themselves with any of the four separators; nothing printed is the empty-payload error |
| HexBytes.TypedIsRead | src/flower_vending/devices/dbv300sd/bench.py:131-140 | bytes typed with or without a prefix, in either case, with any mix of white space and separators, are read as those bytes |

## Left out

- Interleaving of command handlers at their awaits: each handler runs to completion before the next starts; only the pickup timeout coordinator is modelled at await granularity, and in protocol runs a timeout is one step.
- Orchestrators.ApplicationCore.StartCashSession: the registry holds transactions by value and a handler works on an object that is written back at once, so two handlers sharing one transaction object are not captured; this goes for every method of that class.
- PaymentSession and ChangeReserve: values held by their transaction, not objects of their own; a released reserve is dropped, so its status after release is not kept.
- MachineStatus: the permission flags, recomputed at every change, are modelled by the condition they are recomputed from; warnings, the exact-change display flag and the displayed active transaction are not modelled.
- Event bus: publishing is a direct call of the projector and of the vend handler; the projector is assumed to succeed, and best-effort handlers are left out. Rows the projector writes twice in the same state are written once where noted in Protocol.
- Identifiers: transactions, slots and products are numbers; the journal lemmas take any injective naming without colons.
- Database: a table of last saved rows and a sequence of journal rows; foreign keys, event rows, JSON and the saved status and catalogue are not modelled. After a restart ledger, hopper and slots are arbitrary unless a result says otherwise; where the ledger is read back, it is the one saved last, and the hopper is as the payouts left it.
- SavedLedger.CrashKeepsBooksExactly: the rows and the ledger of one event are one durable write, where the code makes several; a crash between them is not captured.
- Restart: the rows saved while unresolved intents are announced one by one are written once, after all of them; the shutdown snapshot is left out.
- Settlement.EverySessionCanBeSettled: one AcceptCash per transaction, and meanwhile no cash session and no cancellation of another transaction, because handlers take any identifier and a second AcceptCash overwrites the reserve; exact change only and an empty list of notes switch the check off and are excluded.
- SavedLedger.RunKeepsBooks: excludes repeating a refund that was paid, and crashes between cash leaving the hopper and the next save, for both of which it is shown to fail; hands that refill or empty the hopper are not part of this model.
- HeldReserves.RunKeepsTally: between two starts of the machine, since a restart reads back counts whose reserves it does not bring back; a cancellation that both gives back others' pieces and leaves a failed refund reserved might come out even, so its exactness leaves that case open.
- Orchestrators.ApplicationCore.RestoreRuntimeState: the saved rows and the unresolved intents are taken as the results of the queries, that is as Saved and InterruptedRows of the run give them; JournalJoin.RestartReadsInterrupted shows the journal query gives the latter.
- ProtocolRuns.DriftStopsSales: up to the next restart, since whether the latch survives one is the database's affair.
- ChangePlanning.PlanChange: denominations are positive and there is one currency, as the code assumes without checking.
- Dispenser.FirstPay: a device that moves cash and then raises is not modelled; the simulated one raises before anything moves.
- CommandRunner.DeviceCommandRunner.Run: heartbeats and recorded faults are not modelled; the operation is a function of the device state, and MockChangeDispenser.RunOnce shows the in-place body has its effect.
- PickupTimeoutRuns.OneTimeoutInFlight: time is an abstract number and the lock is held only where the code does not wait; cancelling a task inside its final lock is not modelled.
- HexBytes.RoundTrip: ASCII text only.
- Health polling: one step with any findings. Temperature, door and watchdog devices, and the wire protocols, are not part of this model.
- Refund feasibility: the code promises none, and recovering a transaction that is safe to cancel pays nothing back; neither is claimed.
- User interface, configuration, logging, packaging and scenario drivers: they would add only easy members.
