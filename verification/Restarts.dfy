/** What a restart makes of every saved row, and that restarting again makes nothing else of it. */
module Restarts {
  import opened Wrappers
  import opened Counts
  import opened Money
  import opened Sale
  import opened Protocol
  import opened TraceFacts
  import opened ProtocolInvariant
  import opened ProtocolRuns
  import opened CrashRecovery

  /** The actions that may have moved cash, goods or the window when they were cut short. */
  const DOUBTFUL := {DispenseChange, DispenseRefund, VendMotor, OpenWindow, CloseOnPickup, CloseOnTimeout}

  ghost predicate Doubted(rows: seq<(TxnId, StepKey)>, id: TxnId) {
    exists i :: 0 <= i < |rows| && rows[i].0 == id && rows[i].1 in DOUBTFUL
  }

  ghost predicate Listed(rows: seq<(TxnId, StepKey)>, id: TxnId) {
    exists i :: 0 <= i < |rows| && rows[i].0 == id
  }

  ghost predicate LastFor(rows: seq<(TxnId, StepKey)>, id: TxnId, i: int) {
    0 <= i < |rows| && rows[i].0 == id && forall j :: i < j < |rows| ==> rows[j].0 != id
  }

  /** `r` is the row `t` under the marks of `rows`: in doubt it is ambiguous, and the last mark says who resolves it. */
  ghost predicate MarkedAs(rows: seq<(TxnId, StepKey)>, id: TxnId, t: Txn, r: Txn) {
    && r == t.(status := r.status, recovery := r.recovery)
    && r.status == (if Doubted(rows, id) then Status.Ambiguous else t.status)
    && (!Listed(rows, id) ==> r.recovery == t.recovery)
    && forall i :: LastFor(rows, id, i) ==> r.recovery == if rows[i].1 in DOUBTFUL then ManualReview else RecoveryPending
  }

  lemma {:induction false} MarksExactly(txns: map<TxnId, Txn>, rows: seq<(TxnId, StepKey)>, id: TxnId)
    requires id in txns
    ensures id in MarkAll(txns, rows) && MarkedAs(rows, id, txns[id], MarkAll(txns, rows)[id])
  {
    hide MarkedAs, NeedsReview;
    if rows == [] {
      NothingMarked(id, txns[id]);
    } else {
      var front, last := rows[..|rows| - 1], rows[|rows| - 1];
      MarksExactly(txns, front, id);
      MarkAllKeys(txns, front);
      OneMoreMark(front, last, id, txns[id], MarkAll(txns, front)[id]);
      ReviewedExactly(last.1);
      assert rows == front + [last];
    }
  }

  lemma NothingMarked(id: TxnId, t: Txn)
    ensures MarkedAs([], id, t, t)
  {
  }

  lemma ReviewedExactly(key: StepKey)
    ensures NeedsReview(key) <==> key in DOUBTFUL
  {
  }

  lemma OneMoreMark(front: seq<(TxnId, StepKey)>, last: (TxnId, StepKey), id: TxnId, t: Txn, r: Txn)
    requires MarkedAs(front, id, t, r)
    ensures var marked := if last.0 != id then r else if last.1 in DOUBTFUL then r.MarkAmbiguous() else r.MarkRecoveryPending();
            MarkedAs(front + [last], id, t, marked)
  {
    var rows := front + [last];
    assert rows[|front|] == last;
    if Doubted(front, id) {
      var i :| 0 <= i < |front| && front[i].0 == id && front[i].1 in DOUBTFUL;
      assert rows[i] == front[i];
    }
    if Listed(front, id) {
      var i :| 0 <= i < |front| && front[i].0 == id;
      assert rows[i] == front[i];
    }
    forall i | LastFor(rows, id, i) && i < |front| ensures LastFor(front, id, i) {
      assert forall j :: i < j < |front| ==> rows[j] == front[j];
    }
  }

  lemma {:induction false} SomeLast(rows: seq<(TxnId, StepKey)>, id: TxnId)
    requires Listed(rows, id)
    ensures exists i :: LastFor(rows, id, i)
  {
    var n := |rows| - 1;
    if rows[n].0 == id {
      assert LastFor(rows, id, n);
    } else {
      var i :| 0 <= i < |rows| && rows[i].0 == id;
      assert rows[..n][i] == rows[i];
      SomeLast(rows[..n], id);
      var k :| LastFor(rows[..n], id, k);
      assert LastFor(rows, id, k);
    }
  }

  /** The same marks again change nothing. */
  lemma MarkedOnce(rows: seq<(TxnId, StepKey)>, id: TxnId, t: Txn, r: Txn, again: Txn)
    requires MarkedAs(rows, id, t, r) && MarkedAs(rows, id, r, again)
    ensures again == r
  {
    if Listed(rows, id) {
      SomeLast(rows, id);
    }
  }

  ghost predicate InDoubt(trace: seq<Action>, id: TxnId) {
    exists key :: key in DOUBTFUL && Interrupted(trace, id, key)
  }

  lemma DoubtedExactly(trace: seq<Action>, id: TxnId)
    ensures Doubted(InterruptedRows(trace, |trace|), id) <==> InDoubt(trace, id)
  {
    hide Interrupted;
    var rows := InterruptedRows(trace, |trace|);
    assert trace[..|trace|] == trace;
    if i :| 0 <= i < |rows| && rows[i].0 == id && rows[i].1 in DOUBTFUL {
      assert (id, rows[i].1) == rows[i];
      ListedIsInterrupted(trace, |trace|, id, rows[i].1);
    }
    if key :| key in DOUBTFUL && Interrupted(trace, id, key) {
      assert Intent(id, key) in trace by {
        InterruptedWasAnnounced(trace, id, key);
      }
      InterruptedIsListed(trace, |trace|, id, key);
      assert (id, key) in rows;
    }
  }

  lemma InterruptedWasAnnounced(trace: seq<Action>, id: TxnId, key: StepKey)
    requires Interrupted(trace, id, key)
    ensures Intent(id, key) in trace
  {
  }

  /** A restart brings back exactly the saved rows that are not over, are up for recovery or have an interrupted action. A row with
      an interrupted payout, motor run or window move comes back ambiguous; one with another interrupted action is up for
      recovery; any other is as it was saved. */
  lemma RestoresExactly(c: Core, order: seq<TxnId>, money: Ledger, counts: Counts, slots: map<SlotId, Slot>, id: TxnId)
    ensures var r, saved := Restart(c, order, money, counts, slots), Saved(c.trace);
            var interrupted := exists key :: Interrupted(c.trace, id, key);
            && (id in r.txns <==> id in saved && (saved[id].status !in {Status.Completed, Status.Cancelled}
                                                  || saved[id].recovery != NoRecovery || interrupted))
            && (id in r.txns ==>
                  && r.txns[id] == saved[id].(status := r.txns[id].status, recovery := r.txns[id].recovery)
                  && r.txns[id].status == (if InDoubt(c.trace, id) then Status.Ambiguous else saved[id].status)
                  && (if interrupted then r.txns[id].recovery in {ManualReview, RecoveryPending}
                      else r.txns[id].recovery == saved[id].recovery)
                  && (interrupted && !InDoubt(c.trace, id) ==> r.txns[id].recovery == RecoveryPending))
  {
    hide Restart, Saved, InterruptedRows, MarkAll, FirstOpen, Interrupted;
    RestartFields(c, order, money, counts, slots);
    MarkAllKeys(Restored(c.trace), InterruptedRows(c.trace, |c.trace|));
    DoubtedExactly(c.trace, id);
    ListedExactly(c.trace, id);
    if id in Restored(c.trace) {
      MarksExactly(Restored(c.trace), InterruptedRows(c.trace, |c.trace|), id);
      if Listed(InterruptedRows(c.trace, |c.trace|), id) {
        SomeLast(InterruptedRows(c.trace, |c.trace|), id);
      }
    }
  }

  /** The `i`-th row to come back is there and not over. */
  predicate OpenAt(txns: map<TxnId, Txn>, order: seq<TxnId>, i: nat)
    requires i < |order|
  {
    order[i] in txns && txns[order[i]].status !in {Status.Completed, Status.Cancelled}
  }

  /** The sale a restart takes up again: the first one, in the order the rows come back, that is not over. */
  lemma {:induction false} FirstOpenExactly(txns: map<TxnId, Txn>, order: seq<TxnId>)
    ensures FirstOpen(txns, order).None? ==> forall i :: 0 <= i < |order| ==> !OpenAt(txns, order, i)
    ensures FirstOpen(txns, order).Some? ==>
              exists i :: 0 <= i < |order| && order[i] == FirstOpen(txns, order).value && OpenAt(txns, order, i)
                          && forall j :: 0 <= j < i ==> !OpenAt(txns, order, j)
  {
    if order == [] {
    } else if OpenAt(txns, order, 0) {
      assert FirstOpen(txns, order) == Some(order[0]);
    } else {
      var rest := order[1..];
      FirstOpenExactly(txns, rest);
      assert forall j :: 0 < j < |order| ==> (OpenAt(txns, order, j) <==> OpenAt(txns, rest, j - 1));
      if FirstOpen(txns, rest).Some? {
        var i :| 0 <= i < |rest| && rest[i] == FirstOpen(txns, rest).value && OpenAt(txns, rest, i)
                 && forall j :: 0 <= j < i ==> !OpenAt(txns, rest, j);
        assert OpenAt(txns, order, i + 1);
      }
    }
  }

  /* ---------- restarting again ---------- */

  /** Neither announces an action nor records one. */
  predicate Unannouncing(a: Action) {
    !a.Intent? && !a.Outcome?
  }

  lemma StillInterrupted(trace: seq<Action>, a: Action, id: TxnId, key: StepKey)
    requires Unannouncing(a)
    ensures Interrupted(trace + [a], id, key) <==> Interrupted(trace, id, key)
  {
    if HasOutcome(trace, id, key) {
      var r :| Outcome(id, key, r) in trace;
      assert Outcome(id, key, r) in trace + [a];
    }
  }

  lemma {:induction false} RowsUpTo(trace: seq<Action>, a: Action, n: nat)
    requires n <= |trace| && Unannouncing(a)
    ensures InterruptedRows(trace + [a], n) == InterruptedRows(trace, n)
  {
    hide Interrupted;
    if n > 0 {
      RowsUpTo(trace, a, n - 1);
      assert (trace + [a])[n - 1] == trace[n - 1];
      if trace[n - 1].Intent? {
        StillInterrupted(trace, a, trace[n - 1].id, trace[n - 1].key);
      }
    }
  }

  /** Reading and writing rows leaves the list of interrupted actions as it is. */
  lemma SameRows(trace: seq<Action>, a: Action)
    requires Unannouncing(a)
    ensures InterruptedRows(trace + [a], |trace + [a]|) == InterruptedRows(trace, |trace|)
  {
    hide Interrupted;
    RowsUpTo(trace, a, |trace|);
  }

  ghost predicate MarkedAll(rows: seq<(TxnId, StepKey)>, before: map<TxnId, Txn>, after: map<TxnId, Txn>) {
    after.Keys == before.Keys && forall id :: id in before ==> MarkedAs(rows, id, before[id], after[id])
  }

  lemma MarksAll(txns: map<TxnId, Txn>, rows: seq<(TxnId, StepKey)>)
    ensures MarkedAll(rows, txns, MarkAll(txns, rows))
  {
    hide MarkAll, MarkedAs;
    MarkAllKeys(txns, rows);
    forall id | id in txns ensures MarkedAs(rows, id, txns[id], MarkAll(txns, rows)[id]) {
      MarksExactly(txns, rows, id);
    }
  }

  /** A restored row is unresolved once it is marked. */
  lemma MarkedIsUnresolved(trace: seq<Action>, id: TxnId, r: Txn)
    requires NeedsRecovery(trace, id) && MarkedAs(InterruptedRows(trace, |trace|), id, Saved(trace)[id], r)
    ensures r.Unresolved()
  {
    hide Saved, Interrupted, InterruptedRows;
    ListedExactly(trace, id);
    if Listed(InterruptedRows(trace, |trace|), id) {
      SomeLast(InterruptedRows(trace, |trace|), id);
    }
  }

  /** A restart writes down what it marks. */
  lemma MarksAreSaved(c: Core, order: seq<TxnId>, money: Ledger, counts: Counts, slots: map<SlotId, Slot>)
    ensures var r := Restart(c, order, money, counts, slots);
            && Saved(r.trace) == Saved(c.trace) + r.txns
            && InterruptedRows(r.trace, |r.trace|) == InterruptedRows(c.trace, |c.trace|)
            && forall id :: id in r.txns ==> r.txns[id].Unresolved()
  {
    hide Restart, Saved, InterruptedRows, MarkAll, FirstOpen, Restored, MarkedAs;
    RestartFields(c, order, money, counts, slots);
    RestartWrites(c, order, money, counts, slots);
    var restored, rows := Restored(c.trace), InterruptedRows(c.trace, |c.trace|);
    var marked, booted := MarkAll(restored, rows), c.trace + [Boot(slots, money, counts)];
    MarksAll(restored, rows);
    forall id | id in marked ensures marked[id].Unresolved() {
      RestoredIsSaved(c.trace, id);
      MarkedIsUnresolved(c.trace, id, marked[id]);
    }
    SameRows(c.trace, Boot(slots, money, counts));
    Snoc(c.trace, Boot(slots, money, counts));
    if AnyRestored(rows, restored) {
      assert UnresolvedRows(marked) == marked;
      SameRows(booted, SaveAll(marked, money));
      Snoc(booted, SaveAll(marked, money));
    } else {
      UnlistedAreSame(restored, rows);
      RestoredAreSaved(c.trace);
    }
  }

  ghost predicate AnyRestored(rows: seq<(TxnId, StepKey)>, txns: map<TxnId, Txn>) {
    exists i :: 0 <= i < |rows| && rows[i].0 in txns
  }

  lemma RestartWrites(c: Core, order: seq<TxnId>, money: Ledger, counts: Counts, slots: map<SlotId, Slot>)
    ensures var marked := MarkAll(Restored(c.trace), InterruptedRows(c.trace, |c.trace|));
            var booted := c.trace + [Boot(slots, money, counts)];
            Restart(c, order, money, counts, slots).trace ==
              if AnyRestored(InterruptedRows(c.trace, |c.trace|), Restored(c.trace)) then booted + [SaveAll(UnresolvedRows(marked), money)]
              else booted
  {
    hide InterruptedRows, MarkAll, FirstOpen, Restored, UnresolvedRows;
  }

  lemma RestoredIsSaved(trace: seq<Action>, id: TxnId)
    ensures id in Restored(trace) ==> NeedsRecovery(trace, id) && Restored(trace)[id] == Saved(trace)[id]
  {
    hide NeedsRecovery, Saved;
  }

  lemma RestoredAreSaved(trace: seq<Action>)
    ensures Saved(trace) + Restored(trace) == Saved(trace)
  {
    hide NeedsRecovery, Saved;
  }

  lemma UnlistedAreSame(txns: map<TxnId, Txn>, rows: seq<(TxnId, StepKey)>)
    requires forall i :: 0 <= i < |rows| ==> rows[i].0 !in txns
    ensures MarkAll(txns, rows) == txns
  {
    hide MarkAll;
    MarksAll(txns, rows);
    assert forall id :: id in txns ==> !Listed(rows, id);
  }

  /** Whoever was not brought back the first time is not brought back the second time, and everybody else is. */
  lemma SameOnesAgain(trace: seq<Action>, later: seq<Action>, txns: map<TxnId, Txn>)
    requires txns.Keys == Restored(trace).Keys && Saved(later) == Saved(trace) + txns
    requires forall id :: id in txns ==> txns[id].Unresolved()
    requires InterruptedRows(later, |later|) == InterruptedRows(trace, |trace|)
    ensures Restored(later) == txns
  {
    hide Saved, Interrupted, InterruptedRows;
    forall id ensures NeedsRecovery(later, id) <==> id in txns {
      ListedExactly(trace, id);
      ListedExactly(later, id);
    }
  }

  /** However often the machine is restarted before anybody recovers anything, the transactions come back the same. */
  lemma RestartAgain(c: Core, order: seq<TxnId>, money: Ledger, counts: Counts, slots: map<SlotId, Slot>,
                     order2: seq<TxnId>, money2: Ledger, counts2: Counts, slots2: map<SlotId, Slot>)
    ensures var r := Restart(c, order, money, counts, slots);
            Restart(r, order2, money2, counts2, slots2).txns == r.txns
  {
    hide Restart, Saved, InterruptedRows, MarkAll, NeedsRecovery, Restored, MarkedAs;
    var r := Restart(c, order, money, counts, slots);
    var rows := InterruptedRows(c.trace, |c.trace|);
    RestartFields(c, order, money, counts, slots);
    RestartFields(r, order2, money2, counts2, slots2);
    MarksAreSaved(c, order, money, counts, slots);
    MarksAll(Restored(c.trace), rows);
    SameOnesAgain(c.trace, r.trace, r.txns);
    MarksAll(r.txns, rows);
    forall id | id in r.txns ensures MarkAll(r.txns, rows)[id] == r.txns[id] {
      MarkedOnce(rows, id, Restored(c.trace)[id], r.txns[id], MarkAll(r.txns, rows)[id]);
    }
  }
}
