/** The pre-sale safety check: the largest overpayment a customer can reach, or the fact that
    some reachable overpayment cannot be paid out (`_calculate_worst_case_change`). */
module WorstCase {
  import opened Wrappers
  import opened Counts
  import opened ChangePlanning

  ghost function Total(notes: seq<int>): int {
    if notes == [] then 0 else Total(notes[..|notes| - 1]) + notes[|notes| - 1]
  }

  /** Notes the validator takes: configured and of positive value. */
  ghost predicate Accepts(denoms: seq<int>, notes: seq<int>) {
    forall i :: 0 <= i < |notes| ==> notes[i] in denoms && notes[i] > 0
  }

  /** The payment that closes a session: every earlier note left it below the price. */
  ghost predicate FirstCrossing(notes: seq<int>, price: int) {
    && notes != []
    && Total(notes) >= price
    && forall k :: 0 < k < |notes| ==> Total(notes[..k]) < price
  }

  ghost predicate Overpayment(denoms: seq<int>, price: int, change: int) {
    exists notes :: Accepts(denoms, notes) && FirstCrossing(notes, price) && change == Total(notes) - price
  }

  /** `amount` can be in the session while it is still open. */
  ghost predicate Underpaid(denoms: seq<int>, price: int, amount: int) {
    exists notes :: Accepts(denoms, notes) && amount == Total(notes) && (notes == [] || amount < price)
  }

  /** What the check must guarantee before cash is taken. */
  ghost predicate EveryOverpaymentPayable(available: Counts, denoms: seq<int>, price: int) {
    forall change :: Overpayment(denoms, price, change) ==> Payable(available, change)
  }

  ghost predicate IsWorst(denoms: seq<int>, price: int, worst: int) {
    && Overpayment(denoms, price, worst)
    && forall change :: Overpayment(denoms, price, change) ==> change <= worst
  }

  lemma TotalSnoc(notes: seq<int>, d: int)
    ensures Total(notes + [d]) == Total(notes) + d
  {
    assert (notes + [d])[..|notes|] == notes;
  }

  lemma {:induction false} PrefixTotals(denoms: seq<int>, notes: seq<int>, k: nat)
    requires Accepts(denoms, notes) && k <= |notes|
    ensures 0 <= Total(notes[..k]) <= Total(notes)
    ensures k > 0 ==> Total(notes[..k]) > 0
    decreases |notes|
  {
    if k < |notes| {
      var shorter := notes[..|notes| - 1];
      assert shorter[..k] == notes[..k];
      PrefixTotals(denoms, shorter, k);
    } else if k > 0 {
      var shorter := notes[..|notes| - 1];
      assert notes[..k] == notes;
      assert shorter[..k - 1] == shorter;
      PrefixTotals(denoms, shorter, k - 1);
    }
  }

  /** One more note on an open session: still open, or the payment just crossed the price. */
  lemma NextNote(denoms: seq<int>, price: int, amount: int, d: int)
    requires Underpaid(denoms, price, amount) && d in denoms && d > 0
    ensures amount >= 0
    ensures amount + d < price ==> Underpaid(denoms, price, amount + d)
    ensures amount + d >= price ==> Overpayment(denoms, price, amount + d - price)
  {
    var notes :| Accepts(denoms, notes) && amount == Total(notes) && (notes == [] || amount < price);
    var more := notes + [d];
    TotalSnoc(notes, d);
    PrefixTotals(denoms, notes, 0);
    assert Accepts(denoms, more);
    if amount + d >= price {
      forall k | 0 < k < |more| ensures Total(more[..k]) < price {
        assert more[..k] == notes[..k];
        PrefixTotals(denoms, notes, k);
      }
      assert FirstCrossing(more, price);
    }
  }

  /** Every overpayment is one note on top of an open session. */
  lemma LastNote(denoms: seq<int>, price: int, change: int) returns (amount: int, d: int)
    requires Overpayment(denoms, price, change)
    ensures Underpaid(denoms, price, amount) && d in denoms && d > 0
    ensures amount + d - price == change >= 0
    ensures amount == 0 || amount < price
  {
    var notes :| Accepts(denoms, notes) && FirstCrossing(notes, price) && change == Total(notes) - price;
    var shorter := notes[..|notes| - 1];
    d := notes[|notes| - 1];
    amount := Total(shorter);
    assert Accepts(denoms, shorter);
  }

  /** Change due never reaches the largest note. */
  lemma OverpaymentBelowLargestNote(denoms: seq<int>, price: int, change: int, largest: int)
    requires price > 0 && Overpayment(denoms, price, change)
    requires forall d :: d in denoms ==> d <= largest
    ensures 0 <= change < largest
  {
    var amount, d := LastNote(denoms, price, change);
  }

  /** Some payment always closes the session, so there is an overpayment to bound. */
  lemma {:induction false} SomeOverpayment(denoms: seq<int>, price: int, amount: int, d: int)
    requires Underpaid(denoms, price, amount) && d in denoms && d > 0
    ensures exists change :: Overpayment(denoms, price, change)
    decreases price - amount
  {
    NextNote(denoms, price, amount, d);
    if amount + d < price {
      SomeOverpayment(denoms, price, amount + d, d);
    }
  }

  /** Amounts the stock can pay out exactly. */
  ghost function PayableAmounts(available: Counts): iset<int> {
    iset x | Payable(available, x)
  }

  /** The work one note on top of `amount` calls for has been done. */
  ghost predicate NoteDone(payable: iset<int>, price: int, reachable: set<int>, worst: int, amount: int, d: int) {
    if amount + d < price then amount + d in reachable
    else amount + d - price in payable && amount + d - price <= worst
  }

  ghost predicate AmountDone(payable: iset<int>, denoms: seq<int>, price: int, reachable: set<int>, worst: int, amount: int) {
    forall d {:trigger NoteDone(payable, price, reachable, worst, amount, d)} ::
      d in denoms ==> NoteDone(payable, price, reachable, worst, amount, d)
  }

  /** All reachable amounts but those in `pending` and possibly `current` are done. */
  ghost predicate Progress(payable: iset<int>, denoms: seq<int>, price: int, reachable: set<int>, pending: seq<int>,
                           worst: int, current: Option<int>) {
    forall x {:trigger AmountDone(payable, denoms, price, reachable, worst, x)} ::
      x in reachable && x !in pending && Some(x) != current
      ==> AmountDone(payable, denoms, price, reachable, worst, x)
  }

  /** Once every reachable amount is done, every underpaid amount is among them. */
  lemma {:induction false} ReachableIsComplete(payable: iset<int>, denoms: seq<int>, price: int, reachable: set<int>,
                                               worst: int, notes: seq<int>)
    requires 0 in reachable
    requires Progress(payable, denoms, price, reachable, [], worst, None)
    requires Accepts(denoms, notes) && (notes == [] || Total(notes) < price)
    ensures Total(notes) in reachable
    decreases |notes|
  {
    if notes != [] {
      var shorter, d := notes[..|notes| - 1], notes[|notes| - 1];
      ReachableIsComplete(payable, denoms, price, reachable, worst, shorter);
      assert AmountDone(payable, denoms, price, reachable, worst, Total(shorter));
      assert NoteDone(payable, price, reachable, worst, Total(shorter), d);
    }
  }

  /** Then every overpayment is payable and bounded by `worst`. */
  lemma WorstIsExact(payable: iset<int>, denoms: seq<int>, price: int, reachable: set<int>, worst: int, change: int)
    requires 0 in reachable
    requires Progress(payable, denoms, price, reachable, [], worst, None)
    requires Overpayment(denoms, price, change)
    ensures change in payable && change <= worst
  {
    var amount, d := LastNote(denoms, price, change);
    var notes :| Accepts(denoms, notes) && amount == Total(notes) && (notes == [] || amount < price);
    ReachableIsComplete(payable, denoms, price, reachable, worst, notes);
    assert AmountDone(payable, denoms, price, reachable, worst, amount);
    assert NoteDone(payable, price, reachable, worst, amount, d);
  }

  ghost function Unvisited(price: int, reachable: set<int>): set<int> {
    set x | 0 <= x < price && x !in reachable
  }

  ghost predicate Distinct(pending: seq<int>) {
    forall i, j :: 0 <= i < j < |pending| ==> pending[i] != pending[j]
  }

  /** The worklist's amounts are open sessions, each waiting at most once. */
  ghost predicate Worklist(denoms: seq<int>, price: int, reachable: set<int>, pending: seq<int>, worst: int) {
    && 0 in reachable
    && (forall x :: x in reachable ==> Underpaid(denoms, price, x))
    && (forall i :: 0 <= i < |pending| ==> pending[i] in reachable)
    && Distinct(pending)
    && (worst == 0 || Overpayment(denoms, price, worst))
  }

  /** One more processed note keeps the worklist sound; amounts already done stay done. */
  lemma DoneGrows(payable: iset<int>, denoms: seq<int>, price: int, reachable: set<int>, more: set<int>,
                  worst: int, worse: int, pending: seq<int>, longer: seq<int>, current: Option<int>)
    requires reachable <= more && worst <= worse
    requires forall x :: x in pending ==> x in longer
    requires forall x :: x in more && x !in reachable ==> x in longer
    requires Progress(payable, denoms, price, reachable, pending, worst, current)
    ensures Progress(payable, denoms, price, more, longer, worse, current)
  {
    forall x | x in more && x !in longer && Some(x) != current
      ensures AmountDone(payable, denoms, price, more, worse, x)
    {
      assert AmountDone(payable, denoms, price, reachable, worst, x);
      forall d | d in denoms ensures NoteDone(payable, price, more, worse, x, d) {
        assert NoteDone(payable, price, reachable, worst, x, d);
      }
    }
  }

  /** One note on top of `accepted`: the next worklist, or None when the overpayment is unpayable. */
  method TryNote(available: Counts, ghost denoms: seq<int>, price: nat, accepted: int, d: int,
                 reachable: set<int>, pending: seq<int>, worst: int)
    returns (next: Option<(set<int>, seq<int>, int)>)
    requires forall k :: k in available ==> k > 0
    requires Worklist(denoms, price, reachable, pending, worst)
    requires accepted in reachable && accepted !in pending && d in denoms && d > 0
    ensures next.None? ==> !EveryOverpaymentPayable(available, denoms, price)
    ensures next.Some? ==>
              var (more, longer, worse) := next.value;
              && Worklist(denoms, price, more, longer, worse)
              && reachable <= more && pending <= longer && accepted !in longer && worst <= worse
              && (forall x :: x in more && x !in reachable ==> x in longer)
              && NoteDone(PayableAmounts(available), price, more, worse, accepted, d)
              && ((more == reachable && longer == pending) || Unvisited(price, more) < Unvisited(price, reachable))
  {
    var projected := accepted + d;
    NextNote(denoms, price, accepted, d);
    if projected < price {
      if projected !in reachable {
        assert projected in Unvisited(price, reachable);
        return Some((reachable + {projected}, pending + [projected], worst));
      }
      return Some((reachable, pending, worst));
    }
    var change := projected - price;
    var plan := PlanChange(available, change);
    if plan.value.None? {
      return None;
    }
    return Some((reachable, pending, if change > worst then change else worst));
  }

  lemma NotesStayDone(payable: iset<int>, price: int, reachable: set<int>, more: set<int>, worst: int, worse: int,
                      amount: int, notes: seq<int>, d: int)
    requires reachable <= more && worst <= worse
    requires AmountDone(payable, notes, price, reachable, worst, amount)
    requires NoteDone(payable, price, more, worse, amount, d)
    ensures AmountDone(payable, notes + [d], price, more, worse, amount)
  {
    forall e | e in notes + [d] ensures NoteDone(payable, price, more, worse, amount, e) {
      if e in notes {
        assert NoteDone(payable, price, reachable, worst, amount, e);
      }
    }
  }

  /** The body of the worklist loop: every denomination on top of one popped amount. */
  method ProcessAmount(available: Counts, denoms: seq<int>, price: nat, accepted: int,
                       reachable: set<int>, pending: seq<int>, worst: int)
    returns (next: Option<(set<int>, seq<int>, int)>)
    requires forall k :: k in available ==> k > 0
    requires forall d :: d in denoms ==> d > 0
    requires Worklist(denoms, price, reachable, pending, worst)
    requires accepted in reachable && accepted !in pending
    requires Progress(PayableAmounts(available), denoms, price, reachable, pending, worst, Some(accepted))
    ensures next.None? ==> !EveryOverpaymentPayable(available, denoms, price)
    ensures next.Some? ==>
              var (more, longer, worse) := next.value;
              && Worklist(denoms, price, more, longer, worse)
              && Progress(PayableAmounts(available), denoms, price, more, longer, worse, None)
              && ((more == reachable && longer == pending) || Unvisited(price, more) < Unvisited(price, reachable))
  {
    var reached, waiting, most := reachable, pending, worst;
    ghost var payable := PayableAmounts(available);
    for i := 0 to |denoms|
      invariant Worklist(denoms, price, reached, waiting, most)
      invariant accepted in reached && accepted !in waiting
      invariant Progress(payable, denoms, price, reached, waiting, most, Some(accepted))
      invariant AmountDone(payable, denoms[..i], price, reached, most, accepted)
      invariant (reached == reachable && waiting == pending)
                || Unvisited(price, reached) < Unvisited(price, reachable)
    {
      var step := TryNote(available, denoms, price, accepted, denoms[i], reached, waiting, most);
      if step.None? {
        return None;
      }
      var (more, longer, worse) := step.value;
      DoneGrows(payable, denoms, price, reached, more, most, worse, waiting, longer, Some(accepted));
      NotesStayDone(payable, price, reached, more, most, worse, accepted, denoms[..i], denoms[i]);
      assert denoms[..i] + [denoms[i]] == denoms[..i + 1];
      reached, waiting, most := more, longer, worse;
    }
    assert denoms[..|denoms|] == denoms;
    return Some((reached, waiting, most));
  }

  /** `_calculate_worst_case_change` past its two early exits. The contract does not depend on
      the order in which pending amounts are popped. */
  method WorstCaseChange(available: Counts, denoms: seq<int>, price: nat) returns (worst: Option<int>)
    requires denoms != [] && forall d :: d in denoms ==> d > 0
    requires forall d :: d in available ==> d > 0
    ensures worst.Some? <==> EveryOverpaymentPayable(available, denoms, price)
    ensures worst.Some? ==> IsWorst(denoms, price, worst.value)
  {
    var reachable, pending, most := {0}, [0], 0;
    assert Accepts(denoms, []) && Total([]) == 0;
    while pending != []
      invariant Worklist(denoms, price, reachable, pending, most)
      invariant Progress(PayableAmounts(available), denoms, price, reachable, pending, most, None)
      decreases Unvisited(price, reachable), |pending|
    {
      var accepted := pending[|pending| - 1];
      var next := ProcessAmount(available, denoms, price, accepted, reachable, pending[..|pending| - 1], most);
      if next.None? {
        return None;
      }
      reachable, pending, most := next.value.0, next.value.1, next.value.2;
    }
    WorklistDone(available, denoms, price, reachable, most);
    return Some(most);
  }

  lemma WorklistDone(available: Counts, denoms: seq<int>, price: nat, reachable: set<int>, most: int)
    requires denoms != [] && forall d :: d in denoms ==> d > 0
    requires Worklist(denoms, price, reachable, [], most)
    requires Progress(PayableAmounts(available), denoms, price, reachable, [], most, None)
    ensures EveryOverpaymentPayable(available, denoms, price) && IsWorst(denoms, price, most)
  {
    forall change | Overpayment(denoms, price, change) ensures Payable(available, change) && change <= most {
      WorstIsExact(PayableAmounts(available), denoms, price, reachable, most, change);
    }
    SomeOverpayment(denoms, price, 0, denoms[0]);
    var some :| Overpayment(denoms, price, some);
    var amount, d := LastNote(denoms, price, some);
  }
}
