/** The payout device: physical counts and replies kept per request
    (`MockChangeDispenser` behind its command runner). */
module Dispenser {
  import opened Wrappers
  import opened Counts

  datatype Purpose = Change | Refund

  /** `"{transaction_id}:change"` and `"{transaction_id}:refund"`. */
  datatype Request = Request(id: nat, purpose: Purpose)

  datatype Reply = Dispensed | Partial | Failed | Ambiguous

  /** What the device does with a request it has not answered yet: raise before any result,
      or attempt a result. */
  datatype Behaviour = Raise | Attempt(reply: Reply)

  datatype Hopper = Hopper(counts: Counts, replies: map<Request, Reply>)

  /** `reply` is None when the command raised; `paid` is what physically left the hopper. */
  datatype Payout = Payout(hopper: Hopper, reply: Option<Reply>, paid: Counts)

  predicate Covers(counts: Counts, plan: Counts) {
    forall d :: d in plan ==> Get(counts, d) >= plan[d]
  }

  predicate IsLargestRequested(plan: Counts, d: int) {
    d in plan && plan[d] > 0 && forall e :: e in plan && plan[e] > 0 ==> e <= d
  }

  /** The request without one piece of its largest requested denomination. */
  function OneShort(plan: Counts): Counts {
    if exists d :: d in plan && IsLargestRequested(plan, d) then
      var d :| d in plan && IsLargestRequested(plan, d);
      map e | e in plan && plan[e] > (if e == d then 1 else 0) :: if e == d then plan[e] - 1 else plan[e]
    else map[]
  }

  /** One `dispense` call. A known request replays its reply and pays nothing. */
  ghost function Pay(h: Hopper, req: Request, plan: Counts, b: Behaviour): Payout {
    if req in h.replies then Payout(h, Some(h.replies[req]), map[])
    else if b.Raise? then Payout(h, None, map[])
    else
      var reply := if Covers(h.counts, plan) then b.reply else Failed;
      match reply
      case Dispensed => Payout(Hopper(Sub(h.counts, plan), h.replies[req := Dispensed]), Some(Dispensed), plan)
      case Partial =>
        if OneShort(plan) == map[] then Payout(h, None, map[])
        else Payout(Hopper(Sub(h.counts, OneShort(plan)), h.replies[req := Partial]), Some(Partial), OneShort(plan))
      case _ => Payout(h.(replies := h.replies[req := reply]), Some(reply), map[])
  }

  lemma OneShortIsCoins(plan: Counts)
    requires Coins(plan)
    ensures Coins(OneShort(plan)) && 0 <= Worth(OneShort(plan)) <= Worth(plan)
  {
    WorthNonNegative(plan);
    WorthNonNegative(OneShort(plan));
    if d :| d in plan && IsLargestRequested(plan, d) {
      OneShortIsWorth(plan, d);
    }
  }

  lemma OneShortIsWorth(plan: Counts, d: int)
    requires Coins(plan) && IsLargestRequested(plan, d)
    ensures Worth(OneShort(plan)) == Worth(plan) - d
  {
    var short := OneShort(plan);
    assert short == map e | e in plan && plan[e] > (if e == d then 1 else 0) :: if e == d then plan[e] - 1 else plan[e];
    WorthWithout(plan, d);
    WorthWithout(short, d);
    assert short - {d} == plan - {d};
    assert d * (plan[d] - 1) == d * plan[d] - d;
  }

  /** What a first call for a request does to the hopper: the whole plan leaves it when the reply says so, all but one piece
      on a partial reply, nothing on any other; the reply is remembered exactly when there was one. */
  lemma FirstPay(h: Hopper, req: Request, plan: Counts, b: Behaviour)
    requires req !in h.replies && Coins(plan)
    ensures var p := Pay(h, req, plan, b);
            && p.paid == (match p.reply case Some(Dispensed) => plan case Some(Partial) => OneShort(plan) case _ => map[])
            && p.hopper.counts == (if p.paid == map[] && p.reply != Some(Dispensed) then h.counts else Sub(h.counts, p.paid))
            && p.hopper.replies == (if p.reply.Some? then h.replies[req := p.reply.value] else h.replies)
            && 0 <= Worth(p.paid) <= Worth(plan)
            && (p.reply == Some(Dispensed) ==> p.paid == plan)
            && (forall r :: r in p.hopper.replies ==> r == req || r in h.replies)
  {
    hide OneShort, Covers, Sub, Coins, Worth;
    PlanAndShortAreWorth(plan);
  }

  lemma PlanAndShortAreWorth(plan: Counts)
    requires Coins(plan)
    ensures Worth(map[]) == 0 <= Worth(OneShort(plan)) <= Worth(plan)
  {
    OneShortIsCoins(plan);
  }

  /** A request answered before moves nothing. */
  lemma RepeatedPay(h: Hopper, req: Request, plan: Counts, b: Behaviour)
    requires req in h.replies
    ensures Pay(h, req, plan, b) == Payout(h, Some(h.replies[req]), map[])
  {
  }
}
