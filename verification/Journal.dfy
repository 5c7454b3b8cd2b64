/** The durable intent/outcome journal: its idempotency keys as strings, insert-or-ignore on the unique key, and the query
    for intents without an outcome (`app/journal.py`, `SQLiteTransactionJournal`). */
module Journal {
  import opened Wrappers

  datatype Kind = IntentRow | OutcomeRow | OtherRow

  datatype Row = Row(kind: Kind, name: string, key: Option<string>)

  /** `journal_idempotency_key`. */
  function Key(txn: string, action: string, step: string, kind: string): string {
    txn + ":" + action + ":" + step + ":" + kind
  }

  const INTENT := "intent"
  const OUTCOME := "outcome"

  /** A call of record_outcome, or of record_intent when there is no outcome. */
  datatype Entry = Entry(txn: string, action: string, step: string, outcome: Option<string>)

  function RowOf(e: Entry): Row {
    match e.outcome
    case None => Row(IntentRow, e.action, Some(Key(e.txn, e.action, e.step, INTENT)))
    case Some(outcome) => Row(OutcomeRow, e.action + "_" + outcome, Some(Key(e.txn, e.action, e.step, OUTCOME)))
  }

  /** INSERT OR IGNORE under the unique index on the key. */
  function Append(rows: seq<Row>, row: Row): seq<Row> {
    if row.key.Some? && (exists i :: 0 <= i < |rows| && rows[i].key == row.key) then rows else rows + [row]
  }

  /** SQL's `replace(text, ':intent', ':outcome')`: occurrences from the left, none overlapping. */
  function Replaced(text: string): string {
    if text == "" then ""
    else if ":intent" <= text then ":outcome" + Replaced(text[7..])
    else [text[0]] + Replaced(text[1..])
  }

  /** The join condition of `unresolved_intents`. */
  predicate Unmatched(rows: seq<Row>, row: Row) {
    row.kind.IntentRow? && row.key.Some?
    && !exists i :: 0 <= i < |rows| && rows[i].kind.OutcomeRow? && rows[i].key == Some(Replaced(row.key.value))
  }

  /** `unresolved_intents`, over the first `upTo` rows in the order of their identifiers. */
  function Unresolved(rows: seq<Row>, upTo: nat): seq<Row>
    requires upTo <= |rows|
  {
    if upTo == 0 then []
    else
      var earlier := Unresolved(rows, upTo - 1);
      if Unmatched(rows, rows[upTo - 1]) then earlier + [rows[upTo - 1]] else earlier
  }

  class TransactionJournal {
    var rows: seq<Row>

    constructor ()
      ensures rows == []
    {
      rows := [];
    }

    /** A row whose key is taken is ignored. */
    method AppendEntry(row: Row)
      modifies this
      ensures rows == Append(old(rows), row)
    {
      if row.key.Some? {
        for i := 0 to |rows|
          invariant rows == old(rows) && forall j :: 0 <= j < i ==> rows[j].key != row.key
        {
          if rows[i].key == row.key {
            return;
          }
        }
      }
      rows := rows + [row];
    }

    method RecordIntent(txn: string, action: string, step: string)
      modifies this
      ensures rows == Append(old(rows), RowOf(Entry(txn, action, step, None)))
    {
      AppendEntry(Row(IntentRow, action, Some(Key(txn, action, step, INTENT))));
    }

    method RecordOutcome(txn: string, action: string, step: string, outcome: string)
      modifies this
      ensures rows == Append(old(rows), RowOf(Entry(txn, action, step, Some(outcome))))
    {
      AppendEntry(Row(OutcomeRow, action + "_" + outcome, Some(Key(txn, action, step, OUTCOME))));
    }

    method UnresolvedIntents() returns (found: seq<Row>)
      ensures found == Unresolved(rows, |rows|)
    {
      found := [];
      for i := 0 to |rows|
        invariant found == Unresolved(rows, i)
      {
        if Unmatched(rows, rows[i]) {
          found := found + [rows[i]];
        }
      }
    }
  }

  /* ---------- keys ---------- */

  /** A part of a key. */
  predicate Part(s: string) {
    ':' !in s
  }

  function FirstColon(s: string): nat {
    if s == "" || s[0] == ':' then 0 else 1 + FirstColon(s[1..])
  }

  lemma {:induction false} FirstColonAt(a: string, rest: string)
    requires Part(a)
    ensures FirstColon(a + ":" + rest) == |a|
  {
    if a != "" {
      FirstColonAt(a[1..], rest);
      assert (a + ":" + rest)[1..] == a[1..] + ":" + rest;
    }
  }

  lemma PartEnds(a: string, b: string, restA: string, restB: string)
    requires Part(a) && Part(b) && a + ":" + restA == b + ":" + restB
    ensures a == b && restA == restB
  {
    var x, y := a + ":" + restA, b + ":" + restB;
    FirstColonAt(a, restA);
    FirstColonAt(b, restB);
    assert x[..|a|] == a && y[..|b|] == b;
    assert x[|a| + 1..] == restA && y[|b| + 1..] == restB;
  }

  /** Key construction is injective on parts without colons. */
  lemma KeysAreInjective(t: string, a: string, s: string, k: string, t': string, a': string, s': string, k': string)
    requires Part(t) && Part(a) && Part(s) && Part(t') && Part(a') && Part(s')
    requires Key(t, a, s, k) == Key(t', a', s', k')
    ensures t == t' && a == a' && s == s' && k == k'
  {
    KeyShape(t, a, s, k);
    KeyShape(t', a', s', k');
    PartEnds(t, t', a + ":" + (s + ":" + k), a' + ":" + (s' + ":" + k'));
    PartEnds(a, a', s + ":" + k, s' + ":" + k');
    PartEnds(s, s', k, k');
  }

  lemma KeyShape(t: string, a: string, s: string, k: string)
    ensures Key(t, a, s, k) == t + ":" + (a + ":" + (s + ":" + k))
  {
  }

  lemma ReplacedSkips(c: char, rest: string)
    requires c != ':'
    ensures Replaced([c] + rest) == [c] + Replaced(rest)
  {
    assert ([c] + rest)[0] == c && ([c] + rest)[1..] == rest;
  }

  lemma {:induction false} SkipPart(a: string, rest: string)
    requires Part(a)
    ensures Replaced(a + rest) == a + Replaced(rest)
  {
    hide Replaced;
    if a == "" {
      assert a + rest == rest && a + Replaced(rest) == Replaced(rest);
    } else {
      SkipPart(a[1..], rest);
      ReplacedSkips(a[0], a[1..] + rest);
      assert a + rest == [a[0]] + (a[1..] + rest) && a == [a[0]] + a[1..];
    }
  }

  /** No pattern reaches across a colon. */
  lemma BeginsWithIntent(a: string, rest: string)
    requires Part(a)
    ensures INTENT <= a + (":" + rest) <==> INTENT <= a
  {
    var x := a + (":" + rest);
    if |a| < 6 {
      assert x[|a|] == ':' != INTENT[|a|];
    } else {
      assert x[..6] == a[..6];
    }
  }

  /** A colon is replaced together with what follows it exactly when that begins with the pattern. */
  lemma AtColon(a: string, rest: string)
    requires Part(a)
    ensures !(INTENT <= a) ==> Replaced(":" + (a + (":" + rest))) == ":" + (a + Replaced(":" + rest))
    ensures INTENT <= a ==> Replaced(":" + (a + (":" + rest))) == ":outcome" + (a[6..] + Replaced(":" + rest))
  {
    var text := ":" + (a + (":" + rest));
    BeginsWithIntent(a, rest);
    assert text[1..] == a + (":" + rest);
    assert ":intent" <= text <==> INTENT <= text[1..];
    if INTENT <= a {
      assert text[7..] == a[6..] + (":" + rest);
      SkipPart(a[6..], ":" + rest);
    } else {
      SkipPart(a, ":" + rest);
    }
  }

  lemma LastPart()
    ensures Replaced(":" + INTENT) == ":" + OUTCOME
  {
    assert (":" + INTENT)[7..] == "";
  }

  /** The key with its parts grouped from the right. */
  function Grouped(t: string, a: string, s: string, k: string): string {
    t + (":" + (a + (":" + (s + (":" + k)))))
  }

  lemma KeyIsGrouped(t: string, a: string, s: string, k: string)
    ensures Key(t, a, s, k) == Grouped(t, a, s, k)
  {
  }

  /** A part as the rewriting leaves it. */
  function Flipped(part: string): string {
    if INTENT <= part then OUTCOME + part[6..] else part
  }

  lemma FlippedIsPart(part: string)
    requires Part(part)
    ensures Part(Flipped(part))
  {
  }

  /** Rewriting an intent's key gives the key of the outcome of the flipped action and step. */
  lemma ReplacedIsFlipped(t: string, a: string, s: string)
    requires Part(t) && Part(a) && Part(s)
    ensures Replaced(Key(t, a, s, INTENT)) == Key(t, Flipped(a), Flipped(s), OUTCOME)
  {
    hide Replaced, Key, Flipped;
    KeyIsGrouped(t, a, s, INTENT);
    KeyIsGrouped(t, Flipped(a), Flipped(s), OUTCOME);
    SkipPart(t, ":" + (a + (":" + (s + (":" + INTENT)))));
    FlippedAtColon(a, s + (":" + INTENT));
    FlippedAtColon(s, INTENT);
    LastPart();
  }

  lemma FlippedAtColon(a: string, rest: string)
    requires Part(a)
    ensures Replaced(":" + (a + (":" + rest))) == ":" + (Flipped(a) + Replaced(":" + rest))
  {
    hide Replaced;
    AtColon(a, rest);
    if INTENT <= a {
      assert ":outcome" + (a[6..] + Replaced(":" + rest)) == ":" + ((OUTCOME + a[6..]) + Replaced(":" + rest));
    }
  }

  /** That is its own outcome's key exactly when neither the action nor the step begins with "intent". */
  lemma ReplacedKey(t: string, a: string, s: string)
    requires Part(t) && Part(a) && Part(s)
    ensures Replaced(Key(t, a, s, INTENT)) == Key(t, a, s, OUTCOME) <==> !(INTENT <= a) && !(INTENT <= s)
  {
    hide Replaced, Key;
    ReplacedIsFlipped(t, a, s);
    FlippedIsPart(a);
    FlippedIsPart(s);
    if Replaced(Key(t, a, s, INTENT)) == Key(t, a, s, OUTCOME) {
      KeysAreInjective(t, Flipped(a), Flipped(s), OUTCOME, t, a, s, OUTCOME);
    }
  }

  /* ---------- the table and the query ---------- */

  /** No part of the entry holds a colon. */
  predicate Plain(e: Entry) {
    Part(e.txn) && Part(e.action) && Part(e.step)
  }

  /** The table after a sequence of calls. */
  function Table(entries: seq<Entry>): seq<Row> {
    if entries == [] then [] else Append(Table(entries[..|entries| - 1]), RowOf(entries[|entries| - 1]))
  }

  ghost predicate HasOutcome(entries: seq<Entry>, t: string, a: string, s: string) {
    exists outcome :: Entry(t, a, s, Some(outcome)) in entries
  }

  ghost predicate HasKey(rows: seq<Row>, key: string) {
    exists i :: 0 <= i < |rows| && rows[i].key == Some(key)
  }

  lemma AppendKeys(rows: seq<Row>, row: Row, key: string)
    requires row.key.Some?
    ensures HasKey(Append(rows, row), key) <==> HasKey(rows, key) || row.key.value == key
  {
    var more := rows + [row];
    if HasKey(rows, key) {
      var i :| 0 <= i < |rows| && rows[i].key == Some(key);
      assert more[i].key == Some(key);
    }
    if row.key.value == key {
      assert more[|rows|].key == Some(key);
    }
  }

  lemma LastOutcome(front: seq<Entry>, last: Entry, t: string, a: string, s: string)
    ensures HasOutcome(front + [last], t, a, s) <==>
              HasOutcome(front, t, a, s) || (last.outcome.Some? && last == Entry(t, a, s, last.outcome))
  {
    if last.outcome.Some? && last == Entry(t, a, s, last.outcome) {
      assert Entry(t, a, s, Some(last.outcome.value)) in front + [last];
    }
    if HasOutcome(front, t, a, s) {
      var r :| Entry(t, a, s, Some(r)) in front;
      assert Entry(t, a, s, Some(r)) in front + [last];
    }
  }

  /** Two plain entries of the same kind share a key only if they concern the same step. */
  lemma RowKeys(e: Entry, t: string, a: string, s: string)
    requires Plain(e) && Part(t) && Part(a) && Part(s)
    ensures RowOf(e).key == Some(Key(t, a, s, INTENT)) <==> e == Entry(t, a, s, None)
    ensures RowOf(e).key == Some(Key(t, a, s, OUTCOME)) <==> e.outcome.Some? && e == Entry(t, a, s, e.outcome)
  {
    hide Key;
    var kind := if e.outcome.None? then INTENT else OUTCOME;
    assert INTENT[0] != OUTCOME[0];
    if Key(e.txn, e.action, e.step, kind) == Key(t, a, s, INTENT) {
      KeysAreInjective(e.txn, e.action, e.step, kind, t, a, s, INTENT);
    }
    if Key(e.txn, e.action, e.step, kind) == Key(t, a, s, OUTCOME) {
      KeysAreInjective(e.txn, e.action, e.step, kind, t, a, s, OUTCOME);
    }
  }

  /** A key is in the table exactly when its step was recorded. */
  lemma {:induction false} KeysOfTable(entries: seq<Entry>, t: string, a: string, s: string)
    requires (forall e :: e in entries ==> Plain(e)) && Part(t) && Part(a) && Part(s)
    ensures HasKey(Table(entries), Key(t, a, s, INTENT)) <==> Entry(t, a, s, None) in entries
    ensures HasKey(Table(entries), Key(t, a, s, OUTCOME)) <==> HasOutcome(entries, t, a, s)
  {
    hide Key, RowOf, Append, HasKey, HasOutcome, Plain, Part;
    if entries != [] {
      var front, last := entries[..|entries| - 1], entries[|entries| - 1];
      assert entries == front + [last];
      KeysOfTable(front, t, a, s);
      LastOutcome(front, last, t, a, s);
      RowHasKey(last);
      RowKeys(last, t, a, s);
      AppendKeys(Table(front), RowOf(last), Key(t, a, s, INTENT));
      AppendKeys(Table(front), RowOf(last), Key(t, a, s, OUTCOME));
    } else {
      NoKeys(Key(t, a, s, INTENT), t, a, s);
      NoKeys(Key(t, a, s, OUTCOME), t, a, s);
    }
  }

  lemma RowHasKey(e: Entry)
    ensures RowOf(e).key.Some?
  {
  }

  lemma NoKeys(key: string, t: string, a: string, s: string)
    ensures !HasKey([], key) && !HasOutcome([], t, a, s)
  {
  }

  /** Keys of outcomes are carried by outcome rows. */
  lemma {:induction false} OutcomeRows(entries: seq<Entry>, i: nat, t: string, a: string, s: string)
    requires (forall e :: e in entries ==> Plain(e)) && Part(t) && Part(a) && Part(s)
    requires i < |Table(entries)| && Table(entries)[i].key == Some(Key(t, a, s, OUTCOME))
    ensures Table(entries)[i].kind.OutcomeRow?
  {
    hide Key, Plain, Part;
    var front, last := entries[..|entries| - 1], entries[|entries| - 1];
    if i < |Table(front)| {
      OutcomeRows(front, i, t, a, s);
    } else {
      RowKeys(last, t, a, s);
    }
  }

  /** The join leaves an intent unmatched exactly when the flipped step has no outcome. */
  lemma UnmatchedExactly(entries: seq<Entry>, t: string, a: string, s: string)
    requires (forall e :: e in entries ==> Plain(e)) && Part(t) && Part(a) && Part(s)
    ensures Unmatched(Table(entries), RowOf(Entry(t, a, s, None))) <==> !HasOutcome(entries, t, Flipped(a), Flipped(s))
  {
    hide Key, Replaced, Table, Flipped, Part, Plain, HasOutcome;
    ReplacedIsFlipped(t, a, s);
    FlippedIsPart(a);
    FlippedIsPart(s);
    KeysOfTable(entries, t, Flipped(a), Flipped(s));
    var rows, outcome := Table(entries), Key(t, Flipped(a), Flipped(s), OUTCOME);
    if i :| 0 <= i < |rows| && rows[i].key == Some(outcome) {
      OutcomeRows(entries, i, t, Flipped(a), Flipped(s));
    }
  }

  /** Intents the query should return, oldest first, each once. */
  ghost function OpenIntents(entries: seq<Entry>, upTo: nat): seq<Entry>
    requires upTo <= |entries|
  {
    if upTo == 0 then []
    else
      var earlier, e := OpenIntents(entries, upTo - 1), entries[upTo - 1];
      if e.outcome.None? && !HasOutcome(entries, e.txn, Flipped(e.action), Flipped(e.step)) && e !in earlier then earlier + [e]
      else earlier
  }

  /** One more entry. */
  lemma OpenOneMore(entries: seq<Entry>, before: seq<Entry>, e: Entry)
    requires before + [e] <= entries
    ensures var earlier := OpenIntents(entries, |before|);
            OpenIntents(entries, |before| + 1)
            == if e.outcome.None? && !HasOutcome(entries, e.txn, Flipped(e.action), Flipped(e.step)) && e !in earlier
               then earlier + [e] else earlier
  {
    assert entries[|before|] == e;
  }

  function RowsOf(entries: seq<Entry>): seq<Row> {
    if entries == [] then [] else RowsOf(entries[..|entries| - 1]) + [RowOf(entries[|entries| - 1])]
  }

  lemma {:induction false} TableGrows(entries: seq<Entry>, k: nat)
    requires k <= |entries|
    ensures Table(entries[..k]) <= Table(entries)
  {
    if k < |entries| {
      var front := entries[..|entries| - 1];
      TableGrows(front, k);
      assert front[..k] == entries[..k];
      assert Table(front) <= Table(entries);
    } else {
      assert entries[..k] == entries;
    }
  }

  lemma {:induction false} NotOpen(entries: seq<Entry>, k: nat, e: Entry)
    requires k <= |entries| && e !in entries[..k]
    ensures e !in OpenIntents(entries, k)
  {
    if k > 0 {
      assert entries[..k] == entries[..k - 1] + [entries[k - 1]];
      NotOpen(entries, k - 1, e);
    }
  }

  lemma {:induction false} OpenIsListed(entries: seq<Entry>, k: nat, e: Entry)
    requires k <= |entries| && e in entries[..k]
    requires e.outcome.None? && !HasOutcome(entries, e.txn, Flipped(e.action), Flipped(e.step))
    ensures e in OpenIntents(entries, k)
  {
    hide HasOutcome, Flipped;
    if entries[k - 1] != e {
      assert entries[..k] == entries[..k - 1] + [entries[k - 1]];
      OpenIsListed(entries, k - 1, e);
    }
  }

  /** For any recorded steps, the query over the table returns exactly the intents whose flipped step has no outcome. */
  lemma {:induction false} JoinIsExact(entries: seq<Entry>, k: nat)
    requires (forall e :: e in entries ==> Plain(e)) && k <= |entries|
    ensures |Table(entries[..k])| <= |Table(entries)|
    ensures Unresolved(Table(entries), |Table(entries[..k])|) == RowsOf(OpenIntents(entries, k))
  {
    hide Unmatched, RowOf, Plain, HasOutcome, Flipped;
    TableGrows(entries, k);
    if k > 0 {
      JoinIsExact(entries, k - 1);
      assert entries[..k][..k - 1] == entries[..k - 1];
      JoinStep(entries, k);
    }
  }

  lemma JoinStep(entries: seq<Entry>, k: nat)
    requires (forall e :: e in entries ==> Plain(e)) && 0 < k <= |entries|
    requires Table(entries[..k - 1]) <= Table(entries[..k]) <= Table(entries)
    requires Table(entries[..k]) == Append(Table(entries[..k - 1]), RowOf(entries[k - 1]))
    requires Unresolved(Table(entries), |Table(entries[..k - 1])|) == RowsOf(OpenIntents(entries, k - 1))
    ensures Unresolved(Table(entries), |Table(entries[..k])|) == RowsOf(OpenIntents(entries, k))
  {
    hide Unmatched, Key, Plain, HasOutcome, Flipped, Table;
    var all, rows, e := Table(entries), Table(entries[..k - 1]), entries[k - 1];
    var earlier := OpenIntents(entries, k - 1);
    assert (earlier + [e])[..|earlier|] == earlier;
    if e.outcome.None? {
      PlainParts(e);
      UnmatchedExactly(entries, e.txn, e.action, e.step);
      KeysOfTable(entries[..k - 1], e.txn, e.action, e.step);
      if HasKey(rows, Key(e.txn, e.action, e.step, INTENT)) {
        if !HasOutcome(entries, e.txn, Flipped(e.action), Flipped(e.step)) {
          OpenIsListed(entries, k - 1, e);
        }
      } else {
        NotOpen(entries, k - 1, e);
        assert all[|rows|] == RowOf(e);
      }
    } else if |Table(entries[..k])| > |rows| {
      assert all[|rows|] == RowOf(e);
      OutcomeIsNoIntent(all, RowOf(e));
    }
  }

  lemma PlainParts(e: Entry)
    requires Plain(e)
    ensures Part(e.txn) && Part(e.action) && Part(e.step)
  {
  }

  lemma OutcomeIsNoIntent(rows: seq<Row>, row: Row)
    requires row.kind.OutcomeRow?
    ensures !Unmatched(rows, row)
  {
  }

  /** No action or step begins with "intent". */
  predicate Clean(e: Entry) {
    Plain(e) && !(INTENT <= e.action) && !(INTENT <= e.step)
  }

  /** With such names the query returns exactly the steps with an intent and no outcome. */
  lemma CleanJoin(entries: seq<Entry>, e: Entry)
    requires (forall x :: x in entries ==> Clean(x)) && e.outcome.None?
    ensures Unresolved(Table(entries), |Table(entries)|) == RowsOf(OpenIntents(entries, |entries|))
    ensures e in OpenIntents(entries, |entries|) <==> e in entries && !HasOutcome(entries, e.txn, e.action, e.step)
  {
    hide HasOutcome;
    assert entries[..|entries|] == entries;
    JoinIsExact(entries, |entries|);
    if e in entries && !HasOutcome(entries, e.txn, e.action, e.step) {
      OpenIsListed(entries, |entries|, e);
    }
    if e in OpenIntents(entries, |entries|) {
      ListedIsOpen(entries, |entries|, e);
    }
  }

  lemma {:induction false} ListedIsOpen(entries: seq<Entry>, k: nat, e: Entry)
    requires k <= |entries| && e in OpenIntents(entries, k)
    ensures e in entries && !HasOutcome(entries, e.txn, Flipped(e.action), Flipped(e.step))
  {
    if e in OpenIntents(entries, k - 1) {
      ListedIsOpen(entries, k - 1, e);
    }
  }

  const INTENT_NAMED := [Entry("t", "a", "intent_step", None), Entry("t", "a", "intent_step", Some("succeeded"))]

  /** A step named after an intent is returned as unresolved although its outcome was recorded. */
  lemma IntentNamedStepIsNeverMatched()
    ensures Table(INTENT_NAMED) == [RowOf(INTENT_NAMED[0]), RowOf(INTENT_NAMED[1])]
    ensures Unresolved(Table(INTENT_NAMED), 2) == [RowOf(INTENT_NAMED[0])]
  {
    hide Key, Replaced;
    var intent, outcome := INTENT_NAMED[0], INTENT_NAMED[1];
    assert Plain(intent) && Plain(outcome) && INTENT <= intent.step;
    assert INTENT_NAMED[..1] == [intent] && [intent][..0] == [];
    RowKeys(intent, "t", "a", "intent_step");
    RowKeys(outcome, "t", "a", "intent_step");
    assert Table([intent]) == [RowOf(intent)];
    ReplacedKey("t", "a", "intent_step");
    var rows := Table(INTENT_NAMED);
    assert rows == [RowOf(intent), RowOf(outcome)];
    OutcomeIsNoIntent(rows, RowOf(outcome));
    assert rows[1].key != Some(Replaced(rows[0].key.value));
    assert Unmatched(rows, rows[0]);
    assert Unresolved(rows, 1) == [rows[0]];
  }
}

/** The journal of a run: what the query returns on restart is what the protocol calls interrupted. */
module JournalJoin {
  import opened Wrappers
  import opened Protocol
  import opened TraceFacts
  import CrashRecovery
  import J = Journal

  function ActionName(key: StepKey): string {
    match key
    case EnableAcceptance => "acceptance_enable_requested"
    case DisableOnPayment => "acceptance_disable_requested"
    case DisableOnCancel => "acceptance_disable_requested"
    case DispenseChange => "change_dispense_requested"
    case DispenseRefund => "refund_dispense_requested"
    case VendMotor => "motor_vend_requested"
    case OpenWindow => "window_open_requested"
    case CloseOnPickup => "window_close_requested"
    case CloseOnTimeout => "window_close_requested"
  }

  function LogicalStep(key: StepKey): string {
    match key
    case EnableAcceptance => "start_cash_session.enable_acceptance"
    case DisableOnPayment => "complete_payment.disable_acceptance"
    case DisableOnCancel => "cancel_purchase.disable_acceptance"
    case DispenseChange => "complete_payment.dispense_change"
    case DispenseRefund => "cancel_purchase.dispense_refund"
    case VendMotor => "handle_vend_authorized.vend_motor"
    case OpenWindow => "handle_vend_authorized.open_window"
    case CloseOnPickup => "confirm_pickup.close_window"
    case CloseOnTimeout => "pickup_timeout.close_window"
  }

  /** Transaction identifiers as they are written: distinct, and without colons. */
  ghost predicate Naming(name: TxnId -> string) {
    && (forall i: TxnId :: J.Part(name(i)))
    && forall i: TxnId, j: TxnId :: name(i) == name(j) ==> i == j
  }

  function IntentEntry(name: TxnId -> string, id: TxnId, key: StepKey): J.Entry {
    J.Entry(name(id), ActionName(key), LogicalStep(key), None)
  }

  function OutcomeEntry(name: TxnId -> string, id: TxnId, key: StepKey, result: JournalResult): J.Entry {
    J.Entry(name(id), ActionName(key), LogicalStep(key), Some(if result.Succeeded? then "succeeded" else "ambiguous"))
  }

  /** The calls of the journal in a trace. */
  function EntriesOf(name: TxnId -> string, trace: seq<Action>): seq<J.Entry> {
    if trace == [] then []
    else
      var entries := EntriesOf(name, trace[..|trace| - 1]);
      match trace[|trace| - 1]
      case Intent(id, key) => entries + [IntentEntry(name, id, key)]
      case Outcome(id, key, result) => entries + [OutcomeEntry(name, id, key, result)]
      case _ => entries
  }

  /** Length and first letter tell the steps apart. */
  function StepShape(key: StepKey): (nat, char) {
    match key
    case EnableAcceptance => (36, 's')
    case DisableOnPayment => (35, 'c')
    case DisableOnCancel => (34, 'c')
    case DispenseChange => (32, 'c')
    case DispenseRefund => (31, 'c')
    case VendMotor => (33, 'h')
    case OpenWindow => (34, 'h')
    case CloseOnPickup => (27, 'c')
    case CloseOnTimeout => (27, 'p')
  }

  lemma StepHasShape(key: StepKey)
    ensures |LogicalStep(key)| == StepShape(key).0 && LogicalStep(key)[0] == StepShape(key).1
  {
  }

  lemma StepIsPlain(key: StepKey)
    ensures J.Part(LogicalStep(key))
  {
    hide LogicalStep;
    if key.EnableAcceptance? {
      EnableStepIsPlain();
    } else if key.DisableOnPayment? || key.DisableOnCancel? {
      DisableStepIsPlain(key);
    } else if key.DispenseChange? || key.DispenseRefund? {
      PayoutStepIsPlain(key);
    } else if key.VendMotor? {
      MotorStepIsPlain();
    } else {
      WindowStepIsPlain(key);
    }
  }

  lemma EnableStepIsPlain()
    ensures J.Part(LogicalStep(EnableAcceptance))
  {
  }

  lemma DisableStepIsPlain(key: StepKey)
    requires key.DisableOnPayment? || key.DisableOnCancel?
    ensures J.Part(LogicalStep(key))
  {
    match key
    case DisableOnPayment =>
    case DisableOnCancel =>
  }

  lemma PayoutStepIsPlain(key: StepKey)
    requires key.DispenseChange? || key.DispenseRefund?
    ensures J.Part(LogicalStep(key))
  {
    match key
    case DispenseChange =>
    case DispenseRefund =>
  }

  lemma MotorStepIsPlain()
    ensures J.Part(LogicalStep(VendMotor))
  {
  }

  lemma WindowStepIsPlain(key: StepKey)
    requires key.OpenWindow? || key.CloseOnPickup? || key.CloseOnTimeout?
    ensures J.Part(LogicalStep(key))
  {
    match key
    case OpenWindow =>
    case CloseOnPickup =>
    case CloseOnTimeout =>
  }

  lemma ActionIsPlain(key: StepKey)
    ensures J.Part(ActionName(key)) && |ActionName(key)| > 0 && ActionName(key)[0] != 'i'
  {
    hide ActionName;
    if key.OpenWindow? || key.CloseOnPickup? || key.CloseOnTimeout? || key.VendMotor? {
      DeliveryActionIsPlain(key);
    } else {
      CashActionIsPlain(key);
    }
  }

  lemma CashActionIsPlain(key: StepKey)
    requires !(key.OpenWindow? || key.CloseOnPickup? || key.CloseOnTimeout? || key.VendMotor?)
    ensures J.Part(ActionName(key)) && |ActionName(key)| > 0 && ActionName(key)[0] != 'i'
  {
    hide ActionName;
    if key.DispenseChange? || key.DispenseRefund? {
      PayoutActionIsPlain(key);
    } else {
      AcceptanceActionIsPlain(key);
    }
  }

  lemma AcceptanceActionIsPlain(key: StepKey)
    requires key.EnableAcceptance? || key.DisableOnPayment? || key.DisableOnCancel?
    ensures J.Part(ActionName(key)) && |ActionName(key)| > 0 && ActionName(key)[0] != 'i'
  {
    match key
    case EnableAcceptance =>
    case DisableOnPayment =>
    case DisableOnCancel =>
  }

  lemma PayoutActionIsPlain(key: StepKey)
    requires key.DispenseChange? || key.DispenseRefund?
    ensures J.Part(ActionName(key)) && |ActionName(key)| > 0 && ActionName(key)[0] != 'i'
  {
    match key
    case DispenseChange =>
    case DispenseRefund =>
  }

  lemma DeliveryActionIsPlain(key: StepKey)
    requires key.OpenWindow? || key.CloseOnPickup? || key.CloseOnTimeout? || key.VendMotor?
    ensures J.Part(ActionName(key)) && |ActionName(key)| > 0 && ActionName(key)[0] != 'i'
  {
    match key
    case VendMotor =>
    case OpenWindow =>
    case CloseOnPickup =>
    case CloseOnTimeout =>
  }

  /** The steps the code journals are told apart by their names, and none begins with "intent". */
  lemma StepNames(a: StepKey, b: StepKey)
    ensures LogicalStep(a) == LogicalStep(b) ==> a == b
    ensures J.Part(ActionName(a)) && J.Part(LogicalStep(a))
    ensures !(J.INTENT <= ActionName(a)) && !(J.INTENT <= LogicalStep(a))
  {
    hide LogicalStep, ActionName;
    StepHasShape(a);
    StepHasShape(b);
    StepIsPlain(a);
    ActionIsPlain(a);
    assert J.INTENT[0] == 'i';
  }

  /** Every call the handlers make is plainly named. */
  lemma {:induction false} EntriesAreClean(name: TxnId -> string, trace: seq<Action>, e: J.Entry)
    requires Naming(name) && e in EntriesOf(name, trace)
    ensures J.Clean(e)
  {
    hide ActionName, LogicalStep;
    var front, last := trace[..|trace| - 1], trace[|trace| - 1];
    if e in EntriesOf(name, front) {
      EntriesAreClean(name, front, e);
    } else if last.Intent? || last.Outcome? {
      StepNames(last.key, last.key);
    }
  }

  /** Entries and actions tell the same story. */
  lemma {:induction false} EntriesAreActions(name: TxnId -> string, trace: seq<Action>, id: TxnId, key: StepKey)
    requires Naming(name)
    ensures IntentEntry(name, id, key) in EntriesOf(name, trace) <==> Intent(id, key) in trace
    ensures J.HasOutcome(EntriesOf(name, trace), name(id), ActionName(key), LogicalStep(key)) <==> HasOutcome(trace, id, key)
  {
    hide ActionName, LogicalStep, J.HasOutcome, HasOutcome;
    if trace != [] {
      var front, last := trace[..|trace| - 1], trace[|trace| - 1];
      assert trace == front + [last];
      EntriesAreActions(name, front, id, key);
      LastOutcome(front, last, id, key);
      if last.Intent? || last.Outcome? {
        StepNames(last.key, key);
        var e := if last.Intent? then IntentEntry(name, last.id, last.key) else OutcomeEntry(name, last.id, last.key, last.result);
        J.LastOutcome(EntriesOf(name, front), e, name(id), ActionName(key), LogicalStep(key));
      }
    } else {
      NoOutcome(id, key);
      J.NoKeys("", name(id), ActionName(key), LogicalStep(key));
    }
  }

  /** An outcome is recorded with what came of the action, under the names of its intent. */
  lemma OutcomesAreRecorded(name: TxnId -> string, trace: seq<Action>, id: TxnId, key: StepKey, result: JournalResult)
    requires Naming(name)
    ensures J.Entry(name(id), ActionName(key), LogicalStep(key), Some(if result == Succeeded then "succeeded" else "ambiguous"))
              in EntriesOf(name, trace)
            <==> Outcome(id, key, result) in trace
  {
    hide ActionName, LogicalStep, EntriesOf;
    OutcomeEntries(name, trace, id, key, result);
  }

  lemma {:induction false} OutcomeEntries(name: TxnId -> string, trace: seq<Action>, id: TxnId, key: StepKey, result: JournalResult)
    requires Naming(name)
    ensures OutcomeEntry(name, id, key, result) in EntriesOf(name, trace) <==> Outcome(id, key, result) in trace
  {
    hide OutcomeEntry, IntentEntry;
    if trace == [] {
    } else {
      var front, last := trace[..|trace| - 1], trace[|trace| - 1];
      assert trace == front + [last];
      OutcomeEntries(name, front, id, key, result);
      if last.Outcome? {
        if OutcomeEntry(name, last.id, last.key, last.result) == OutcomeEntry(name, id, key, result) {
          EntriesAreApart(name, last.id, last.key, last.result, id, key, result);
        }
      } else if last.Intent? {
        IntentIsNoOutcome(name, last.id, last.key, id, key, result);
      }
    }
  }

  lemma IntentIsNoOutcome(name: TxnId -> string, i: TxnId, a: StepKey, j: TxnId, b: StepKey, result: JournalResult)
    ensures IntentEntry(name, i, a) != OutcomeEntry(name, j, b, result)
  {
    hide ActionName, LogicalStep;
  }

  lemma EntriesAreApart(name: TxnId -> string, i: TxnId, a: StepKey, x: JournalResult, j: TxnId, b: StepKey, y: JournalResult)
    requires Naming(name) && OutcomeEntry(name, i, a, x) == OutcomeEntry(name, j, b, y)
    ensures i == j && a == b && x == y
  {
    hide ActionName, LogicalStep;
    StepNames(a, b);
    assert "succeeded"[0] == 's' && "ambiguous"[0] == 'a';
  }

  lemma NoOutcome(id: TxnId, key: StepKey)
    ensures !HasOutcome([], id, key)
  {
  }

  lemma LastOutcome(front: seq<Action>, last: Action, id: TxnId, key: StepKey)
    ensures HasOutcome(front + [last], id, key) <==>
              HasOutcome(front, id, key) || (last.Outcome? && last.id == id && last.key == key)
  {
    if last.Outcome? && last.id == id && last.key == key {
      assert Outcome(id, key, last.result) in front + [last];
    }
    if HasOutcome(front, id, key) {
      var r :| Outcome(id, key, r) in front;
      assert Outcome(id, key, r) in front + [last];
    }
  }

  /** The entries of interrupted actions. */
  function Named(name: TxnId -> string, rows: seq<(TxnId, StepKey)>): seq<J.Entry> {
    if rows == [] then []
    else Named(name, rows[..|rows| - 1]) + [IntentEntry(name, rows[|rows| - 1].0, rows[|rows| - 1].1)]
  }

  lemma {:induction false} NamedExactly(name: TxnId -> string, rows: seq<(TxnId, StepKey)>, id: TxnId, key: StepKey)
    requires Naming(name)
    ensures IntentEntry(name, id, key) in Named(name, rows) <==> (id, key) in rows
  {
    hide ActionName, LogicalStep;
    if rows != [] {
      var front, last := rows[..|rows| - 1], rows[|rows| - 1];
      assert rows == front + [last];
      NamedExactly(name, front, id, key);
      StepNames(last.1, key);
    }
  }

  lemma {:induction false} EntriesGrow(name: TxnId -> string, trace: seq<Action>, k: nat)
    requires k <= |trace|
    ensures EntriesOf(name, trace[..k]) <= EntriesOf(name, trace)
  {
    if k < |trace| {
      var front := trace[..|trace| - 1];
      EntriesGrow(name, front, k);
      assert front[..k] == trace[..k];
      assert EntriesOf(name, front) <= EntriesOf(name, trace);
    } else {
      assert trace[..k] == trace;
    }
  }

  /** The open intents of the calls are the interrupted actions of the trace. */
  lemma {:induction false} OpenIsInterrupted(name: TxnId -> string, trace: seq<Action>, k: nat)
    requires Naming(name) && k <= |trace|
    ensures |EntriesOf(name, trace[..k])| <= |EntriesOf(name, trace)|
    ensures J.OpenIntents(EntriesOf(name, trace), |EntriesOf(name, trace[..k])|) == Named(name, InterruptedRows(trace, k))
  {
    hide IntentEntry, OutcomeEntry, J.HasOutcome, HasOutcome;
    EntriesGrow(name, trace, k);
    if k > 0 {
      OpenIsInterrupted(name, trace, k - 1);
      assert trace[..k][..k - 1] == trace[..k - 1];
      OpenStep(name, trace, k);
    }
  }

  lemma OpenStep(name: TxnId -> string, trace: seq<Action>, k: nat)
    requires Naming(name) && 0 < k <= |trace|
    requires EntriesOf(name, trace[..k - 1]) <= EntriesOf(name, trace[..k]) <= EntriesOf(name, trace)
    requires J.OpenIntents(EntriesOf(name, trace), |EntriesOf(name, trace[..k - 1])|) == Named(name, InterruptedRows(trace, k - 1))
    ensures J.OpenIntents(EntriesOf(name, trace), |EntriesOf(name, trace[..k])|) == Named(name, InterruptedRows(trace, k))
  {
    hide IntentEntry, OutcomeEntry, J.HasOutcome, HasOutcome, J.Flipped, J.OpenIntents, Named;
    var all, before, a := EntriesOf(name, trace), EntriesOf(name, trace[..k - 1]), trace[k - 1];
    assert trace[..k][..k - 1] == trace[..k - 1];
    match a
    case Intent(id, key) =>
      J.OpenOneMore(all, before, IntentEntry(name, id, key));
      IntentIsOpen(name, trace, id, key);
      assert a in trace;
      NamedExactly(name, InterruptedRows(trace, k - 1), id, key);
      NamedOneMore(name, InterruptedRows(trace, k - 1), id, key);
    case Outcome(id, key, result) =>
      J.OpenOneMore(all, before, OutcomeEntry(name, id, key, result));
      OutcomeIsNoIntentEntry(name, id, key, result);
    case _ =>
  }

  lemma NamedOneMore(name: TxnId -> string, rows: seq<(TxnId, StepKey)>, id: TxnId, key: StepKey)
    ensures Named(name, rows + [(id, key)]) == Named(name, rows) + [IntentEntry(name, id, key)]
  {
    assert (rows + [(id, key)])[..|rows|] == rows;
  }

  lemma OutcomeIsNoIntentEntry(name: TxnId -> string, id: TxnId, key: StepKey, result: JournalResult)
    ensures OutcomeEntry(name, id, key, result).outcome.Some?
  {
  }

  lemma IntentIsOpen(name: TxnId -> string, trace: seq<Action>, id: TxnId, key: StepKey)
    requires Naming(name)
    ensures var e := IntentEntry(name, id, key);
            && e.outcome.None?
            && (J.HasOutcome(EntriesOf(name, trace), e.txn, J.Flipped(e.action), J.Flipped(e.step)) <==> HasOutcome(trace, id, key))
  {
    hide ActionName, LogicalStep, J.HasOutcome, HasOutcome, J.Flipped;
    EntriesAreActions(name, trace, id, key);
    FlippedNames(key);
  }

  lemma FlippedNames(key: StepKey)
    ensures J.Flipped(ActionName(key)) == ActionName(key) && J.Flipped(LogicalStep(key)) == LogicalStep(key)
  {
    hide ActionName, LogicalStep;
    StepNames(key, key);
  }

  /** What restart reads back after any run: the query returns exactly the interrupted actions, oldest first, each once. */
  lemma RestartReadsInterrupted(name: TxnId -> string, trace: seq<Action>)
    requires Naming(name)
    ensures var rows := J.Table(EntriesOf(name, trace));
            J.Unresolved(rows, |rows|) == J.RowsOf(Named(name, InterruptedRows(trace, |trace|)))
  {
    hide J.Clean, J.Plain;
    var entries := EntriesOf(name, trace);
    forall e | e in entries ensures J.Plain(e) {
      EntriesAreClean(name, trace, e);
      CleanIsPlain(e);
    }
    assert trace[..|trace|] == trace && entries[..|entries|] == entries;
    J.JoinIsExact(entries, |entries|);
    OpenIsInterrupted(name, trace, |trace|);
  }

  lemma CleanIsPlain(e: J.Entry)
    requires J.Clean(e)
    ensures J.Plain(e)
  {
  }
}
