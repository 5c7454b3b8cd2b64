/** What holds of every run: any interleaving of commands, validator events, service mode,
    recovery and crashes, with any device behaviour. */
module ProtocolRuns {
  import opened Wrappers
  import opened Counts
  import opened Money
  import opened Fsm
  import opened Sale
  import opened Protocol
  import opened TraceFacts
  import opened ProtocolInvariant
  import Dispenser

  /* ---------- restart ---------- */

  lemma {:induction false} SavedIsKnown(trace: seq<Action>, issued: set<TxnId>)
    requires OnlyFor(trace, issued)
    ensures Saved(trace).Keys <= issued
  {
    if trace != [] {
      SavedIsKnown(trace[..|trace| - 1], issued);
    }
  }

  lemma {:induction false} MarkAllKeys(txns: map<TxnId, Txn>, rows: seq<(TxnId, StepKey)>)
    ensures MarkAll(txns, rows).Keys == txns.Keys
  {
    if rows != [] {
      MarkAllKeys(txns, rows[..|rows| - 1]);
    }
  }

  lemma {:induction false} FirstOpenKnown(txns: map<TxnId, Txn>, order: seq<TxnId>)
    ensures FirstOpen(txns, order).Some? ==> FirstOpen(txns, order).value in txns
  {
    if order != [] {
      FirstOpenKnown(txns, order[1..]);
    }
  }

  /** A restart appends the boot and at most one write of rows. */
  lemma RestartTrace(c: Core, order: seq<TxnId>, money: Ledger, counts: Counts, slots: map<SlotId, Slot>)
    ensures var r := Restart(c, order, money, counts, slots);
            || r.trace == c.trace + [Boot(slots, money, counts)]
            || exists rows: map<TxnId, Txn> ::
                 rows.Keys <= Restored(c.trace).Keys && r.trace == (c.trace + [Boot(slots, money, counts)]) + [SaveAll(rows, money)]
  {
    hide Restored, InterruptedRows, MarkAll, FirstOpen;
    var marked := MarkAll(Restored(c.trace), InterruptedRows(c.trace, |c.trace|));
    MarkAllKeys(Restored(c.trace), InterruptedRows(c.trace, |c.trace|));
    var rows := UnresolvedRows(marked);
    assert rows.Keys <= Restored(c.trace).Keys;
  }

  lemma RestartKeepsInv(c: Core, order: seq<TxnId>, money: Ledger, counts: Counts, slots: map<SlotId, Slot>)
    requires Sound(c.trace) && OnlyFor(c.trace, c.issued)
    ensures Inv(Restart(c, order, money, counts, slots))
  {
    hide Restart, Sound, Saved, Stock, PayoutWentWrong;
    var r := Restart(c, order, money, counts, slots);
    RestartState(c, order, money, counts, slots);
    BootIsSound(c.trace, c.issued, slots, money, counts);
    RestartTrace(c, order, money, counts, slots);
    if r.trace != c.trace + [Boot(slots, money, counts)] {
      var rows: map<TxnId, Txn> :| rows.Keys <= Restored(c.trace).Keys && r.trace == (c.trace + [Boot(slots, money, counts)]) + [SaveAll(rows, money)];
      QuietConcat(c.trace + [Boot(slots, money, counts)], [SaveAll(rows, money)], c.issued);
      QuietFacts(c.trace + [Boot(slots, money, counts)], r.trace, c.issued);
    }
  }

  lemma RestoredIsKnown(trace: seq<Action>, issued: set<TxnId>)
    requires OnlyFor(trace, issued)
    ensures Restored(trace).Keys <= issued
  {
    hide OnlyFor, NeedsRecovery, Saved;
    SavedIsKnown(trace, issued);
  }

  /** What a restart leaves besides the trace. */
  lemma RestartState(c: Core, order: seq<TxnId>, money: Ledger, counts: Counts, slots: map<SlotId, Slot>)
    requires OnlyFor(c.trace, c.issued)
    ensures var r := Restart(c, order, money, counts, slots);
            && r.txns.Keys == Restored(c.trace).Keys <= r.issued && r.issued == c.issued
            && (r.active.Some? ==> r.active.value in r.issued)
            && r.hopper.replies == map[] && r.slots == slots && !InSale(r.fsm)
  {
    hide Restart, Restored, InterruptedRows, MarkAll, FirstOpen, OnlyFor;
    RestoredIsKnown(c.trace, c.issued);
    MarkAllKeys(Restored(c.trace), InterruptedRows(c.trace, |c.trace|));
    FirstOpenKnown(Restored(c.trace), order);
    RestartFields(c, order, money, counts, slots);
  }

  lemma RestartFields(c: Core, order: seq<TxnId>, money: Ledger, counts: Counts, slots: map<SlotId, Slot>)
    ensures var r := Restart(c, order, money, counts, slots);
            && r.txns == MarkAll(Restored(c.trace), InterruptedRows(c.trace, |c.trace|))
            && r.active == FirstOpen(Restored(c.trace), order)
            && r.issued == c.issued && r.hopper.replies == map[] && r.slots == slots && !InSale(r.fsm)
  {
    hide Restored, InterruptedRows, MarkAll, FirstOpen, UnresolvedRows;
  }

  lemma BootIsSound(trace: seq<Action>, issued: set<TxnId>, slots: map<SlotId, Slot>, money: Ledger, counts: Counts)
    requires Sound(trace) && OnlyFor(trace, issued)
    ensures var all := trace + [Boot(slots, money, counts)];
            Sound(all) && OnlyFor(all, issued) && !PayoutWentWrong(all) && Stock(all) == slots
  {
    SoundSnoc(trace, Boot(slots, money, counts));
    Snoc(trace, Boot(slots, money, counts));
  }

  /* ---------- the invariant over runs ---------- */

  lemma NextKeepsInv(c: Core, e: Event)
    requires Inv(c) && FreshIds(c, e)
    ensures Inv(Next(c, e))
  {
    hide Handle, Restart, Sound;
    HandleKeepsInv(c, e.cmd);
    if e.Crash? {
      var full := Handle(c, e.cmd).core;
      var cut := CutTrace(c, e.cmd, e.done);
      SoundCut(full.trace, |cut|);
      RestartKeepsInv(full.(trace := cut), e.order, e.money, e.counts, e.slots);
    }
  }

  lemma {:induction false} RunKeepsInv(c: Core, events: seq<Event>)
    requires Initial(c) && FreshRun(c, events)
    ensures Inv(Run(c, events))
  {
    hide Next, Inv;
    if events == [] {
      InitialInv(c);
    } else {
      RunKeepsInv(c, events[..|events| - 1]);
      NextKeepsInv(Run(c, events[..|events| - 1]), events[|events| - 1]);
    }
  }

  lemma InitialInv(c: Core)
    requires Initial(c)
    ensures Inv(c)
  {
    BootIsSound([], {}, c.slots, c.money, c.hopper.counts);
    assert [] + [Boot(c.slots, c.money, c.hopper.counts)] == c.trace;
  }

  /* ---------- main results ---------- */

  /** Whenever the motor is commanded, the payment is confirmed, covers the price, and exactly the
      overpayment has physically left the hopper for that transaction; the row and the intent are
      already durable; and the slot holds the product that was bought. */
  lemma VendOnlyWhenSettled(c: Core, events: seq<Event>, i: nat)
    requires Initial(c) && FreshRun(c, events)
    requires i < |Run(c, events).trace| && Run(c, events).trace[i].Motor?
    ensures var trace := Run(c, events).trace;
            var id, t := trace[i].id, trace[i].txn;
            && t.payment.Confirmed? && t.accepted >= t.price
            && Paid(trace[..i], id) == t.accepted - t.price
            && Intent(id, VendMotor) in trace[..i]
            && Serves(Stock(trace[..i]), t)
            && id in Saved(trace[..i]) && Saved(trace[..i])[id] == t && !t.Terminal()
  {
    hide Inv, Run, FreshRun, Paid, Saved, Vended, Stock, Serves;
    RunKeepsInv(c, events);
    InvSound(Run(c, events));
    SoundAt(Run(c, events).trace, i);
  }

  lemma InvSound(c: Core)
    requires Inv(c)
    ensures Sound(c.trace)
  {
  }

  lemma {:induction false} MotorVends(trace: seq<Action>, i: nat)
    requires i < |trace| && trace[i].Motor?
    ensures Vended(trace, trace[i].id)
  {
    if i < |trace| - 1 {
      MotorVends(trace[..|trace| - 1], i);
    }
  }

  /** The motor runs at most once per transaction, whatever happens in between, restarts included. */
  lemma AtMostOneVend(c: Core, events: seq<Event>, i: nat, j: nat)
    requires Initial(c) && FreshRun(c, events)
    requires i < j < |Run(c, events).trace| && Run(c, events).trace[i].Motor? && Run(c, events).trace[j].Motor?
    ensures Run(c, events).trace[i].id != Run(c, events).trace[j].id
  {
    hide Inv, Run, FreshRun, Paid, Saved, Vended;
    var trace := Run(c, events).trace;
    RunKeepsInv(c, events);
    InvSound(Run(c, events));
    SoundAt(trace, j);
    MotorVends(trace[..j], i);
  }

  /** After a payout result other than dispensed, cash acceptance is never enabled again before a restart. */
  lemma DriftStopsSales(c: Core, events: seq<Event>, i: nat, j: nat)
    requires Initial(c) && FreshRun(c, events)
    requires i < j < |Run(c, events).trace|
    requires BadReply(Run(c, events).trace[i]) && Run(c, events).trace[j].Enable?
    ensures exists k :: i < k < j && Run(c, events).trace[k].Boot?
  {
    hide Inv, Run, FreshRun, Paid, Saved, Vended, PayoutWentWrong;
    var trace := Run(c, events).trace;
    RunKeepsInv(c, events);
    InvSound(Run(c, events));
    SoundAt(trace, j);
    WrongUntilBoot(trace[..j], i);
    if k :| i < k < j && trace[..j][k].Boot? {
      assert trace[k].Boot?;
    }
  }

  lemma {:induction false} WrongUntilBoot(trace: seq<Action>, i: nat)
    requires i < |trace| && BadReply(trace[i])
    ensures PayoutWentWrong(trace) || exists k :: i < k < |trace| && trace[k].Boot?
  {
    if i < |trace| - 1 {
      var shorter := trace[..|trace| - 1];
      WrongUntilBoot(shorter, i);
      if k :| i < k < |shorter| && shorter[k].Boot? {
        assert trace[k].Boot?;
      } else if trace[|trace| - 1].Boot? {
        assert trace[|trace| - 1].Boot?;
      }
    }
  }

  /** Slot contents are what the last start read, less the successful motor runs since, and the stock
      update after a motor run never fails. */
  lemma StockFollowsVends(c: Core, events: seq<Event>, slot: SlotId, event: ValidatorEvent, devices: Devices)
    requires Initial(c) && FreshRun(c, events)
    ensures var now := Run(c, events);
            && (slot in now.slots <==> slot in BootSlots(now.trace))
            && (slot in now.slots ==> now.slots[slot].quantity == BootSlots(now.trace)[slot].quantity - Vends(now.trace, slot))
            && ProcessValidatorEvent(now, event, devices).error != Some(SlotEmpty)
  {
    hide Run, FreshRun, Paid, Saved, Vended, Stock, Sound, ProcessValidatorEvent;
    RunKeepsInv(c, events);
    StockIsBootLessVends(Run(c, events).trace, slot);
    ValidatorKeepsInv(Run(c, events), event, devices);
  }
}
