/** The payout device itself: injected faults, partial payouts, the hopper's counts, and the runner in front of it
    (`MockChangeDispenser`). */
module PayoutDevice {
  import opened Wrappers
  import opened Counts
  import opened CommandRunner
  import opened Dispenser
  import ChangePlanning

  const PAYOUT_UNAVAILABLE: FaultCode := "payout_unavailable"

  /** What goes wrong during one run of the command. `Hang` outlasts the policy timeout before anything moves. */
  datatype Fault = NoFault | Timeout | Transient | Hang | Unavailable | AmbiguousResult | PartialPayout

  datatype DispenseResult = DispenseResult(reply: Reply, paid: Counts, fault: Option<FaultCode>)

  /** The hopper's counts and the faults still to come, one per run. */
  datatype Device = Device(counts: Counts, faults: seq<Fault>)

  /** The fault offered to the run under way. */
  function Offered(device: Device): Fault {
    if device.faults == [] then NoFault else device.faults[0]
  }

  /** One run of `_dispense_once`. */
  function DispenseOnce(plan: Counts, device: Device): (Device, Attempt<DispenseResult>) {
    var fault := Offered(device);
    var rest := device.(faults := if device.faults == [] then [] else device.faults[1..]);
    match fault
    case Timeout => (rest, Attempt.Raised(CommandError(COMMAND_TIMEOUT, Some(true))))
    case Transient => (rest, Attempt.Raised(CommandError(TRANSIENT_COMMAND_FAILURE, Some(true))))
    case Hang => (rest, Attempt.TimedOut)
    case Unavailable => (rest, Returned(DispenseResult(Failed, map[], Some(PAYOUT_UNAVAILABLE))))
    case _ =>
      if !Covers(device.counts, plan) then (rest, Returned(DispenseResult(Failed, map[], None)))
      else if fault.AmbiguousResult? then
        (rest, Returned(DispenseResult(Ambiguous, map[], Some(AMBIGUOUS_PHYSICAL_RESULT))))
      else if fault.PartialPayout? then
        if OneShort(plan) == map[] then (rest, Attempt.Raised(AdapterError))
        else (rest.(counts := Sub(device.counts, OneShort(plan))), Returned(DispenseResult(Partial, OneShort(plan), None)))
      else (rest.(counts := Sub(device.counts, plan)), Returned(DispenseResult(Dispensed, plan, None)))
  }

  /** Every requested piece is in the hopper. */
  predicate Holds(counts: Counts, plan: Counts) {
    forall d :: d in plan ==> plan[d] <= Get(counts, d)
  }

  /** What one run answers and moves, by the fault that is next in line. */
  predicate Answers(plan: Counts, before: Device, after: Device, attempt: Attempt<DispenseResult>) {
    var next := if before.faults == [] then NoFault else before.faults[0];
    && after.faults == (if before.faults == [] then [] else before.faults[1..])
    && (next.Timeout? ==> attempt == Attempt.Raised(CommandError("command_timeout", Some(true))))
    && (next.Transient? ==> attempt == Attempt.Raised(CommandError("transient_command_failure", Some(true))))
    && (next.Hang? ==> attempt == Attempt.TimedOut)
    && (next.Unavailable? ==> attempt == Returned(DispenseResult(Failed, map[], Some("payout_unavailable"))))
    && (next.AmbiguousResult? && Holds(before.counts, plan) ==>
          attempt == Returned(DispenseResult(Ambiguous, map[], Some("ambiguous_physical_result"))))
    && (next.PartialPayout? && Holds(before.counts, plan) ==>
          if OneShort(plan) == map[] then attempt == Attempt.Raised(AdapterError)
          else attempt == Returned(DispenseResult(Partial, OneShort(plan), None)))
    && (next.NoFault? && Holds(before.counts, plan) ==> attempt == Returned(DispenseResult(Dispensed, plan, None)))
    && ((next.NoFault? || next.PartialPayout? || next.AmbiguousResult?) && !Holds(before.counts, plan) ==>
          attempt == Returned(DispenseResult(Failed, map[], None)))
    && (after.counts == if attempt.Returned? && (attempt.result.reply.Dispensed? || attempt.result.reply.Partial?)
                        then Sub(before.counts, attempt.result.paid) else before.counts)
  }

  /** Each fault has its own answer; in particular a partial payout comes only from a partial-payout fault, and a device without
      faults pays the whole request when it holds the pieces. */
  lemma RunAnswers(plan: Counts, device: Device)
    ensures Answers(plan, device, DispenseOnce(plan, device).0, DispenseOnce(plan, device).1)
  {
    hide Sub, OneShort;
  }

  const READING: Reading<DispenseResult> := Reading((r: DispenseResult) => r.fault, (r: DispenseResult) => r.reply.Ambiguous?,
                                           (r: DispenseResult) => if r.reply.Ambiguous? then Unreconciled else Reconciliation.Confirmed,
                                           false)

  /* ---------- partial payouts ---------- */

  /** How many pieces a request asks for. */
  ghost function Pieces(plan: Counts): nat
    decreases plan.Keys
  {
    if d :| d in plan then (if plan[d] > 0 then plan[d] else 0) + Pieces(plan - {d}) else 0
  }

  lemma {:induction false} PiecesSplit(plan: Counts, d: int)
    requires d in plan
    ensures Pieces(plan) == (if plan[d] > 0 then plan[d] else 0) + Pieces(plan - {d})
    decreases plan.Keys
  {
    var e :| e in plan && Pieces(plan) == (if plan[e] > 0 then plan[e] else 0) + Pieces(plan - {e});
    if e != d {
      PiecesSplit(plan - {e}, d);
      PiecesSplit(plan - {d}, e);
      assert plan - {e} - {d} == plan - {d} - {e};
    }
  }

  lemma {:induction false} SomeLargest(plan: Counts)
    requires exists d :: d in plan && plan[d] > 0
    ensures exists d :: d in plan && IsLargestRequested(plan, d)
    decreases plan.Keys
  {
    var d :| d in plan && plan[d] > 0;
    if e :| e in plan && plan[e] > 0 && e > d {
      assert e in plan - {d};
      SomeLargest(plan - {d});
      var m :| m in plan - {d} && IsLargestRequested(plan - {d}, m);
      forall x | x in plan && plan[x] > 0 ensures x <= m {
        assert x == d || x in plan - {d};
      }
      assert IsLargestRequested(plan, m);
    } else {
      assert IsLargestRequested(plan, d);
    }
  }

  /** A partial payout is one piece short, and there is one exactly when two pieces or more were requested. */
  lemma PartialIsOnePieceShort(plan: Counts)
    ensures OneShort(plan) != map[] <==> Pieces(plan) >= 2
    ensures OneShort(plan) != map[] ==> Pieces(OneShort(plan)) == Pieces(plan) - 1
    ensures Coins(plan) && OneShort(plan) != map[] ==>
              exists d :: IsLargestRequested(plan, d) && Worth(OneShort(plan)) == Worth(plan) - d
  {
    if exists d :: d in plan && plan[d] > 0 {
      SomeLargest(plan);
      var d :| d in plan && IsLargestRequested(plan, d);
      OnePieceOff(plan, d);
    } else {
      NoPieces(plan);
    }
  }

  function Requested(plan: Counts): Counts {
    map e | e in plan && plan[e] > 0 :: plan[e]
  }

  lemma OneShortAt(plan: Counts, d: int)
    requires IsLargestRequested(plan, d)
    ensures Get(OneShort(plan), d) == plan[d] - 1
    ensures OneShort(plan) - {d} == Requested(plan - {d})
    ensures forall e :: e in OneShort(plan) ==> OneShort(plan)[e] > 0
  {
    assert OneShort(plan) == map e | e in plan && plan[e] > (if e == d then 1 else 0) :: if e == d then plan[e] - 1 else plan[e];
  }

  lemma OnePieceOff(plan: Counts, d: int)
    requires IsLargestRequested(plan, d)
    ensures OneShort(plan) != map[] <==> Pieces(plan) >= 2
    ensures Pieces(OneShort(plan)) == Pieces(plan) - 1
    ensures Coins(plan) ==> Worth(OneShort(plan)) == Worth(plan) - d
  {
    hide OneShort, Pieces, Worth;
    OneShortAt(plan, d);
    PiecesWithout(plan, d);
    PiecesWithout(OneShort(plan), d);
    RequestedPieces(plan - {d});
    SomePieces(OneShort(plan));
    if Coins(plan) {
      OneShortIsWorth(plan, d);
    }
  }

  lemma PiecesWithout(plan: Counts, d: int)
    ensures Pieces(plan) == (if Get(plan, d) > 0 then Get(plan, d) else 0) + Pieces(plan - {d})
  {
    if d in plan {
      PiecesSplit(plan, d);
    } else {
      assert plan - {d} == plan;
    }
  }

  /** Entries that request nothing do not count. */
  lemma {:induction false} RequestedPieces(plan: Counts)
    ensures Pieces(Requested(plan)) == Pieces(plan)
    decreases plan.Keys
  {
    if d :| d in plan {
      RequestedPieces(plan - {d});
      PiecesWithout(plan, d);
      PiecesWithout(Requested(plan), d);
      assert Requested(plan) - {d} == Requested(plan - {d});
    } else {
      RequestedCoins(plan);
    }
  }

  /** A plan of positive counts is requested as it stands. */
  lemma RequestedCoins(plan: Counts)
    requires forall d :: d in plan ==> plan[d] > 0
    ensures Requested(plan) == plan
  {
    forall d | d in plan ensures d in Requested(plan) {
      assert plan[d] > 0;
    }
  }

  lemma SomePieces(plan: Counts)
    requires forall d :: d in plan ==> plan[d] > 0
    ensures plan != map[] <==> Pieces(plan) > 0
  {
    Inhabited(plan.Keys);
    if d :| d in plan {
      PiecesSplit(plan, d);
    } else {
      assert plan == map[];
    }
  }

  lemma {:induction false} NoPieces(plan: Counts)
    requires forall d :: d in plan ==> plan[d] <= 0
    ensures Pieces(plan) == 0 && OneShort(plan) == map[]
    decreases plan.Keys
  {
    if d :| d in plan {
      PiecesSplit(plan, d);
      NoPieces(plan - {d});
    }
  }

  /* ---------- the device behind its runner ---------- */

  function Operation(plan: Counts): Device -> (Device, Attempt<DispenseResult>) {
    device => DispenseOnce(plan, device)
  }

  function HopperOf(device: Device): Counts {
    device.counts
  }

  /** Only a run whose result is kept moves cash. */
  lemma CashMovesOnlyOnSuccess(policy: Policy, plan: Counts)
    ensures EffectOnlyWhenCached(policy, READING, Operation(plan), HopperOf)
  {
  }

  /** What the abstract payout device did, seen through the runner. */
  function BehaviourOf(outcome: Outcome<DispenseResult>): Behaviour {
    match outcome
    case Returns(result) => Behaviour.Attempt(result.reply)
    case Raises(_) => Raise
  }

  function ReplyOf(outcome: Outcome<DispenseResult>): Option<Reply> {
    if outcome.Returns? then Some(outcome.result.reply) else None
  }

  /** Whatever faults are injected and whatever the policy retries, a first call for a request is one payout of the
      abstract device: at most one movement of cash, answered as it happened. */
  lemma RetriedDispenseIsOnePayout(policy: Policy, plan: Counts, device: Device, req: Request, replies: map<Request, Reply>)
    requires req !in replies
    ensures var e := Attempts(policy, READING, Operation(plan), device, 1);
            var p := Pay(Hopper(device.counts, replies), req, plan, BehaviourOf(e.outcome));
            && e.world.counts == p.hopper.counts
            && (e.outcome.Returns? <==> p.reply.Some?) && (e.outcome.Returns? <==> e.cached.Some?)
            && (e.outcome.Returns? ==>
                  && e.cached == Some(e.outcome.result)
                  && p.reply == Some(e.outcome.result.reply) && p.paid == e.outcome.result.paid
                  && p.hopper.replies == replies[req := e.outcome.result.reply])
            && (e.outcome.Raises? ==> p.paid == map[] && p.hopper.replies == replies)
  {
    CashMovesOnlyOnSuccess(policy, plan);
    var at := EffectAtMostOnce(policy, READING, Operation(plan), HopperOf, device);
    var e := Attempts(policy, READING, Operation(plan), device, 1);
    OneRunIsOnePayout(policy, plan, at, e.runs == policy.retryCount + 1, req, replies);
  }

  /** A device that holds the pieces and whose next faults are `failures` timeouts or transient failures, and nothing after them,
      pays the whole request once, under every policy that still retries those. */
  lemma HealthyPays(policy: Policy, plan: Counts, device: Device, failures: nat)
    requires |device.faults| == failures <= policy.retryCount && Holds(device.counts, plan)
    requires forall i :: 0 <= i < failures ==> device.faults[i].Timeout? || device.faults[i].Transient?
    requires failures > 0 ==> "command_timeout" !in policy.nonRetryable && "transient_command_failure" !in policy.nonRetryable
    ensures var e := Attempts(policy, READING, Operation(plan), device, 1);
            && e.outcome == Returns(DispenseResult(Dispensed, plan, None)) && e.cached == Some(DispenseResult(Dispensed, plan, None))
            && e.world == Device(Sub(device.counts, plan), []) && e.runs == failures + 1
  {
    hide Sub, Holds, OneShort;
    forall k: nat | k <= failures
      ensures After(Operation(plan), device, k) == Device(device.counts, device.faults[k..])
    {
      FaultsAreConsumed(plan, device, k);
    }
    forall k: nat | k < failures ensures MayRepeat(policy, READING, AttemptAt(Operation(plan), device, k)) {
      RunAnswers(plan, Device(device.counts, device.faults[k..]));
    }
    var last := Device(device.counts, []);
    assert device.faults[failures..] == [];
    RunAnswers(plan, last);
    RetriesUntilGood(policy, READING, Operation(plan), device, 1, failures);
    assert After(Operation(plan), device, failures + 1) == Operation(plan)(last).0;
  }

  lemma {:induction false} FaultsAreConsumed(plan: Counts, device: Device, k: nat)
    requires k <= |device.faults|
    requires forall i :: 0 <= i < k ==> device.faults[i].Timeout? || device.faults[i].Transient?
    ensures After(Operation(plan), device, k) == Device(device.counts, device.faults[k..])
  {
    if k > 0 {
      FaultsAreConsumed(plan, device, k - 1);
      RunAnswers(plan, Device(device.counts, device.faults[k - 1..]));
      assert device.faults[k - 1..][1..] == device.faults[k..];
    }
  }

  /** The run that decides. */
  lemma OneRunIsOnePayout(policy: Policy, plan: Counts, at: Device, last: bool, req: Request, replies: map<Request, Reply>)
    requires req !in replies
    requires Judge(policy, READING, DispenseOnce(plan, at).1, last).Finish?
    ensures var (next, attempt) := DispenseOnce(plan, at);
            var v := Judge(policy, READING, attempt, last);
            var p := Pay(Hopper(at.counts, replies), req, plan, BehaviourOf(v.outcome));
            && next.counts == p.hopper.counts
            && (v.outcome.Returns? <==> p.reply.Some?) && (v.outcome.Returns? <==> v.cached.Some?)
            && (v.outcome.Returns? ==>
                  && v.cached == Some(v.outcome.result)
                  && p.reply == Some(v.outcome.result.reply) && p.paid == v.outcome.result.paid
                  && p.hopper.replies == replies[req := v.outcome.result.reply])
            && (v.outcome.Raises? ==> p.paid == map[] && p.hopper.replies == replies)
  {
    hide Covers, OneShort, Sub, Policy.IsRetryable, Policy.ShouldRetry;
    match Offered(at)
    case Timeout =>
    case Transient =>
    case Hang =>
    case Unavailable =>
    case AmbiguousResult =>
    case PartialPayout =>
    case NoFault =>
  }

  class MockChangeDispenser {
    var inventory: map<int, int>
    var faults: seq<Fault>
    const runner: DeviceCommandRunner<Request, DispenseResult>

    function Replies(): map<Request, Reply>
      reads runner
    {
      map r | r in runner.cache :: runner.cache[r].reply
    }

    function View(): Hopper
      reads this, runner
    {
      Hopper(inventory, Replies())
    }

    constructor (inventory: Counts, policy: Policy, faults: seq<Fault>)
      ensures View() == Hopper(inventory, map[]) && fresh(runner) && runner.policy == policy
    {
      this.inventory, this.faults := inventory, faults;
      runner := new DeviceCommandRunner(policy);
    }

    method CanDispense(plan: Counts) returns (can: bool)
      ensures can == (!Offered(Device(inventory, faults)).Unavailable? && Covers(inventory, plan))
    {
      if faults != [] && faults[0].Unavailable? {
        return false;
      }
      can := forall d :: d in plan ==> Get(inventory, d) >= plan[d];
    }

    method ConsumeInventory(plan: Counts)
      modifies this`inventory
      ensures inventory == Sub(old(inventory), plan)
    {
      hide Sub, Except;
      var left := plan.Keys;
      NothingDone(inventory, plan);
      while left != {}
        invariant left <= plan.Keys
        invariant inventory == Sub(old(inventory), Except(plan, left))
        decreases left
      {
        Inhabited(left);
        var denomination :| denomination in left;
        SubOneMore(old(inventory), plan, left, denomination);
        inventory := inventory[denomination := Get(inventory, denomination) - plan[denomination]];
        left := left - {denomination};
      }
      EverythingDone(plan);
    }

    /** Denominations from the largest down; the first that is requested gives up one piece. None when nothing
        would be paid. */
    method PartialPlan(requested: Counts) returns (paid: Option<Counts>)
      ensures paid == if OneShort(requested) == map[] then None else Some(OneShort(requested))
    {
      var so: Counts := map[];
      var remainingSkip := 1;
      var left := requested.Keys;
      while left != {}
        invariant left <= requested.Keys
        invariant forall d, e :: d in left && e in requested.Keys - left ==> d < e
        invariant remainingSkip == if exists e :: e in requested.Keys - left && requested[e] > 0 then 0 else 1
        invariant so == PaidSoFar(requested, left)
        decreases left
      {
        Inhabited(left);
        var denomination := ChangePlanning.Largest(left);
        var count := requested[denomination];
        if count > 0 {
          SkipAt(requested, left, denomination);
          var paidCount := if remainingSkip > 0 then count - 1 else count;
          remainingSkip := 0;
          if paidCount > 0 {
            so := so[denomination := paidCount];
          }
        }
        assert requested.Keys - (left - {denomination}) == (requested.Keys - left) + {denomination};
        left := left - {denomination};
      }
      AllPaid(requested);
      return if so == map[] then None else Some(so);
    }

    /** One run of the command, in place. */
    method RunOnce(plan: Counts) returns (attempt: Attempt<DispenseResult>)
      modifies this
      ensures (Device(inventory, faults), attempt) == DispenseOnce(plan, old(Device(inventory, faults)))
      ensures Answers(plan, old(Device(inventory, faults)), Device(inventory, faults), attempt)
    {
      RunAnswers(plan, Device(inventory, faults));
      var fault := Offered(Device(inventory, faults));
      var can := CanDispense(plan);
      faults := if faults == [] then [] else faults[1..];
      if fault.Timeout? {
        return Attempt.Raised(CommandError(COMMAND_TIMEOUT, Some(true)));
      } else if fault.Transient? {
        return Attempt.Raised(CommandError(TRANSIENT_COMMAND_FAILURE, Some(true)));
      } else if fault.Hang? {
        return Attempt.TimedOut;
      } else if fault.Unavailable? {
        return Returned(DispenseResult(Failed, map[], Some(PAYOUT_UNAVAILABLE)));
      } else if !can {
        return Returned(DispenseResult(Failed, map[], None));
      } else if fault.AmbiguousResult? {
        return Returned(DispenseResult(Ambiguous, map[], Some(AMBIGUOUS_PHYSICAL_RESULT)));
      } else if fault.PartialPayout? {
        var paid := PartialPlan(plan);
        if paid.None? {
          return Attempt.Raised(AdapterError);
        }
        ConsumeInventory(paid.value);
        return Returned(DispenseResult(Partial, paid.value, None));
      }
      ConsumeInventory(plan);
      return Returned(DispenseResult(Dispensed, plan, None));
    }

    /** The command as the change manager calls it: one payout of the abstract device, known requests replayed. */
    method Dispense(request: Request, plan: Counts) returns (outcome: Outcome<DispenseResult>)
      modifies this, runner
      ensures var p := Pay(old(View()), request, plan, BehaviourOf(outcome));
              View() == p.hopper && p.reply == ReplyOf(outcome)
      ensures old(faults) == [] && Holds(old(inventory), plan) && request !in old(Replies()) ==>
                && outcome == Returns(DispenseResult(Dispensed, plan, None))
                && inventory == Sub(old(inventory), plan) && faults == []
      ensures request in old(Replies()) ==> inventory == old(inventory) && ReplyOf(outcome) == Some(old(Replies()[request]))
    {
      hide Sub, Holds, OneShort, Covers, Pay, Attempts, DispenseOnce;
      ghost var before := View();
      if faults == [] && Holds(inventory, plan) && request !in before.replies {
        HealthyPays(runner.policy, plan, Device(inventory, faults), 0);
      }
      var after, o, runs := runner.Run(READING, Some(request), Operation(plan), Device(inventory, faults));
      if request in before.replies {
        RepeatedPay(before, request, plan, BehaviourOf(o));
      } else {
        RetriedDispenseIsOnePayout(runner.policy, plan, Device(inventory, faults), request, before.replies);
      }
      inventory, faults := after.counts, after.faults;
      outcome := o;
      assert View().replies == Pay(before, request, plan, BehaviourOf(outcome)).hopper.replies;
    }
  }

  ghost function PaidSoFar(requested: Counts, left: set<int>): Counts {
    map e | e in requested && e !in left && requested[e] > (if IsLargestRequested(requested, e) then 1 else 0)
      :: if IsLargestRequested(requested, e) then requested[e] - 1 else requested[e]
  }

  /** The next denomination is the one to give up a piece exactly when no larger one was requested. */
  lemma SkipAt(requested: Counts, left: set<int>, d: int)
    requires left <= requested.Keys && d in left && forall e :: e in left ==> e <= d
    requires forall x, e :: x in left && e in requested.Keys - left ==> x < e
    requires requested[d] > 0
    ensures IsLargestRequested(requested, d) <==> !exists e :: e in requested.Keys - left && requested[e] > 0
  {
    if e :| e in requested.Keys - left && requested[e] > 0 {
      assert d < e;
    }
  }

  lemma AllPaid(requested: Counts)
    ensures PaidSoFar(requested, {}) == OneShort(requested)
  {
    if d :| d in requested && IsLargestRequested(requested, d) {
      OneShortAt(requested, d);
      assert forall e :: IsLargestRequested(requested, e) ==> e == d;
    } else if exists d :: d in requested && requested[d] > 0 {
      SomeLargest(requested);
    }
  }
}
