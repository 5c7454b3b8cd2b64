/** Pickup timeout supervision (`PickupTimeoutCoordinator`): deadlines and claims change only inside the lock, and a claimed
    timeout is handled over several awaits between which everything else may run. */
module PickupTimers {
  import opened Counts
  import opened Protocol

  /** Armed deadlines, and the transactions whose timeout somebody has claimed. */
  datatype Timers = Timers(deadlines: map<TxnId, int>, handling: set<TxnId>)

  /** `_sync_waiting_transactions`: exactly the waiting transactions are armed, earlier deadlines are kept. `waiting` gives
      every waiting transaction the deadline it would be armed with. */
  function Synced(deadlines: map<TxnId, int>, waiting: map<TxnId, int>): map<TxnId, int> {
    map id | id in waiting :: if id in deadlines then deadlines[id] else waiting[id]
  }

  function Expired(t: Timers, now: int): set<TxnId> {
    set id | id in t.deadlines && t.deadlines[id] <= now && id !in t.handling
  }

  function Claim(t: Timers, ids: set<TxnId>): Timers {
    Timers(t.deadlines - ids, t.handling + ids)
  }

  /** `_collect_expired`. */
  function Collected(t: Timers, waiting: map<TxnId, int>, now: int): Timers {
    var synced := t.(deadlines := Synced(t.deadlines, waiting));
    Claim(synced, Expired(synced, now))
  }

  /** The timeouts a poll claims. */
  function Due(t: Timers, waiting: map<TxnId, int>, now: int): set<TxnId> {
    Expired(t.(deadlines := Synced(t.deadlines, waiting)), now)
  }

  /** Arm one transaction, or disarm it when it is not waiting. */
  function Arm(t: Timers, waiting: map<TxnId, int>, id: TxnId): Timers {
    if id !in waiting then t.(deadlines := t.deadlines - {id})
    else if id in t.deadlines then t
    else t.(deadlines := t.deadlines[id := waiting[id]])
  }

  function Disarm(t: Timers, id: TxnId): Timers {
    t.(deadlines := t.deadlines - {id})
  }

  function Release(t: Timers, id: TxnId): Timers {
    Timers(t.deadlines - {id}, t.handling - {id})
  }

  /** Right after a sync every armed deadline belongs to a waiting transaction, and every waiting transaction is armed or
      has been claimed. */
  lemma CollectedIsExact(t: Timers, waiting: map<TxnId, int>, now: int)
    ensures var after := Collected(t, waiting, now);
            && after.deadlines.Keys == waiting.Keys - Due(t, waiting, now)
            && after.handling == t.handling + Due(t, waiting, now) && Due(t, waiting, now) !! t.handling
            && (forall id :: id in waiting ==> id in after.deadlines || id in after.handling)
            && (forall id :: id in after.deadlines ==> after.deadlines[id] > now || id in after.handling)
  {
    var synced := t.(deadlines := Synced(t.deadlines, waiting));
    forall id | id in waiting && id !in Collected(t, waiting, now).deadlines ensures id in Due(t, waiting, now) {
      assert id in synced.deadlines;
    }
  }

  /** Exactly those are claimed that wait, are not being handled, and whose deadline, the earlier armed one if there is one, has
      come. */
  lemma DueExactly(t: Timers, waiting: map<TxnId, int>, now: int)
    ensures forall id :: id in Due(t, waiting, now) <==>
              && id in waiting && id !in t.handling
              && (if id in t.deadlines then t.deadlines[id] else waiting[id]) <= now
    ensures forall id :: id in Collected(t, waiting, now).handling - t.handling <==> id in Due(t, waiting, now)
  {
  }

  /** One armed deadline more is claimed, or left alone. */
  lemma LookedAt(t: Timers, now: int, left: set<TxnId>, id: TxnId)
    requires id in left && id in t.deadlines
    ensures var so, more := Claim(t, Expired(t, now) - left), Claim(t, Expired(t, now) - (left - {id}));
            if id in Expired(t, now) then more == Timers(so.deadlines - {id}, so.handling + {id}) else more == so
    ensures Expired(t, now) - (left - {id}) == (Expired(t, now) - left) + (if id in Expired(t, now) then {id} else {})
  {
  }

  predicate Distinct(ids: seq<TxnId>) {
    forall i, j :: 0 <= i < j < |ids| ==> ids[i] != ids[j]
  }

  class PickupTimeoutCoordinator {
    var deadlines: map<TxnId, int>
    var handling: set<TxnId>

    function View(): Timers
      reads this
    {
      Timers(deadlines, handling)
    }

    constructor ()
      ensures View() == Timers(map[], {})
    {
      deadlines, handling := map[], {};
    }

    method ArmWaiting(id: TxnId, waiting: map<TxnId, int>)
      modifies this`deadlines
      ensures View() == Arm(old(View()), waiting, id)
    {
      if id !in waiting {
        deadlines := deadlines - {id};
      } else if id !in deadlines {
        deadlines := deadlines[id := waiting[id]];
      }
    }

    method SyncWaiting(waiting: map<TxnId, int>)
      modifies this`deadlines
      ensures deadlines == Synced(old(deadlines), waiting)
    {
      var left := waiting.Keys;
      while left != {}
        invariant left <= waiting.Keys
        invariant deadlines.Keys == old(deadlines).Keys + (waiting.Keys - left)
        invariant forall id :: id in deadlines ==> deadlines[id] == if id in old(deadlines) then old(deadlines)[id] else waiting[id]
        decreases left
      {
        Inhabited(left);
        var id :| id in left;
        ArmWaiting(id, waiting);
        left := left - {id};
      }
      left := deadlines.Keys;
      while left != {}
        invariant left <= deadlines.Keys
        invariant waiting.Keys <= deadlines.Keys
        invariant forall id :: id in deadlines && id !in left ==> id in waiting
        invariant forall id :: id in deadlines ==> deadlines[id] == if id in old(deadlines) then old(deadlines)[id] else waiting[id]
        decreases left
      {
        Inhabited(left);
        var id :| id in left;
        left := left - {id};
        if id !in waiting {
          deadlines := deadlines - {id};
        }
      }
    }

    /** The claimed timeouts, each once. */
    method CollectExpired(now: int, waiting: map<TxnId, int>) returns (expired: seq<TxnId>)
      modifies this
      ensures View() == Collected(old(View()), waiting, now)
      ensures Distinct(expired) && forall id :: id in expired <==> id in Due(old(View()), waiting, now)
      ensures forall id :: id in expired <==>
                && id in waiting && id !in old(handling)
                && (if id in old(deadlines) then old(deadlines)[id] else waiting[id]) <= now
    {
      DueExactly(View(), waiting, now);
      hide Synced;
      SyncWaiting(waiting);
      ghost var synced := View();
      expired := [];
      var left := deadlines.Keys;
      while left != {}
        invariant left <= synced.deadlines.Keys
        invariant View() == Claim(synced, Expired(synced, now) - left)
        invariant Distinct(expired) && forall id :: id in expired <==> id in Expired(synced, now) - left
        decreases left
      {
        Inhabited(left);
        var id :| id in left;
        LookedAt(synced, now, left, id);
        if deadlines[id] <= now && id !in handling {
          deadlines := deadlines - {id};
          handling := handling + {id};
          expired := expired + [id];
        }
        left := left - {id};
      }
      assert Expired(synced, now) - {} == Expired(synced, now);
    }

    /** The claiming part of force_timeout_now: false when the timeout is being handled already. */
    method ClaimNow(id: TxnId) returns (claimed: bool)
      modifies this
      ensures claimed == (id !in old(handling))
      ensures View() == if claimed then Claim(old(View()), {id}) else old(View())
    {
      if id in handling {
        return false;
      }
      deadlines := deadlines - {id};
      handling := handling + {id};
      return true;
    }

    method PickupFinished(id: TxnId)
      modifies this`deadlines
      ensures View() == Disarm(old(View()), id)
    {
      deadlines := deadlines - {id};
    }

    /** The `finally` part of handling. */
    method ReleaseClaim(id: TxnId)
      modifies this
      ensures View() == Release(old(View()), id)
    {
      handling := handling - {id};
      deadlines := deadlines - {id};
    }
  }
}

/** Every interleaving of polls, forced timeouts, pickup events and status changes at the awaits. */
module PickupTimeoutRuns {
  import opened Wrappers
  import opened Protocol
  import opened PickupTimers

  /** A poll or a forced timeout under way: the transaction it is handling, and those it has claimed and not begun. */
  datatype Task = Task(current: Option<TxnId>, todo: seq<TxnId>) {
    predicate Owns(id: TxnId) {
      current == Some(id) || id in todo
    }
  }

  /** `abandoned` holds the claims of polls that ended with an exception before they got to them. */
  datatype World = World(timers: Timers, waiting: map<TxnId, int>, tasks: map<nat, Task>, abandoned: set<TxnId>)

  datatype Move =
    | Poll(task: nat, now: int, claimed: seq<TxnId>)
    | Force(task: nat, id: TxnId)
    | Begin(task: nat)
    | Finish(task: nat)
    | Abort(task: nat)
    | WindowOpened(id: TxnId)
    | PickedUp(id: TxnId)
    | StatusChange(waiting: map<TxnId, int>)

  predicate IsClaim(claimed: seq<TxnId>, due: set<TxnId>) {
    Distinct(claimed) && (forall i :: 0 <= i < |claimed| ==> claimed[i] in due) && (forall id :: id in due ==> id in claimed)
  }

  function Step(w: World, m: Move): World {
    match m
    case Poll(task, now, claimed) =>
      if task in w.tasks || !IsClaim(claimed, Due(w.timers, w.waiting, now)) then w
      else w.(timers := Collected(w.timers, w.waiting, now), tasks := w.tasks[task := Task(None, claimed)])
    case Force(task, id) =>
      if task in w.tasks || id !in w.waiting || id in w.timers.handling then w
      else w.(timers := Claim(w.timers, {id}), tasks := w.tasks[task := Task(Some(id), [])])
    case Begin(task) =>
      if task !in w.tasks || w.tasks[task].current.Some? || w.tasks[task].todo == [] then w
      else w.(tasks := w.tasks[task := Task(Some(w.tasks[task].todo[0]), w.tasks[task].todo[1..])])
    case Finish(task) =>
      if task !in w.tasks || w.tasks[task].current.None? then w
      else w.(timers := Release(w.timers, w.tasks[task].current.value), tasks := w.tasks[task := w.tasks[task].(current := None)])
    case Abort(task) =>
      if task !in w.tasks || w.tasks[task].current.None? then w
      else
        World(Release(w.timers, w.tasks[task].current.value), w.waiting, w.tasks - {task},
              w.abandoned + (set id | id in w.tasks[task].todo))
    case WindowOpened(id) => w.(timers := Arm(w.timers, w.waiting, id))
    case PickedUp(id) => w.(timers := Disarm(w.timers, id))
    case StatusChange(waiting) => w.(waiting := waiting)
  }

  function Run(w: World, moves: seq<Move>): World {
    if moves == [] then w else Step(Run(w, moves[..|moves| - 1]), moves[|moves| - 1])
  }

  predicate Start(w: World) {
    w.timers.handling == {} && w.tasks == map[] && w.abandoned == {}
  }

  /** A task names no transaction twice. */
  ghost predicate Single(t: Task) {
    Distinct(t.todo) && (t.current.Some? ==> t.current.value !in t.todo)
  }

  ghost predicate Owned(w: World, id: TxnId) {
    exists k :: k in w.tasks && w.tasks[k].Owns(id)
  }

  /** Every claim has exactly one owner, or was abandoned. */
  ghost predicate Exclusive(w: World) {
    && (forall k :: k in w.tasks ==> Single(w.tasks[k]))
    && (forall k, id :: k in w.tasks && w.tasks[k].Owns(id) ==> id in w.timers.handling && id !in w.abandoned)
    && (forall k, l, id :: k in w.tasks && l in w.tasks && w.tasks[k].Owns(id) && w.tasks[l].Owns(id) ==> k == l)
    && w.abandoned <= w.timers.handling
    && (forall id :: id in w.timers.handling ==> id in w.abandoned || Owned(w, id))
  }

  /** The deadline a poll goes by. */
  function DeadlineOf(w: World, id: TxnId): Option<int> {
    if id !in w.waiting then None
    else if id in w.timers.deadlines then Some(w.timers.deadlines[id]) else Some(w.waiting[id])
  }

  /** A poll, at any point of any run, gives its task exactly the waiting transactions that nobody handles and whose deadline has
      come; in particular no customer is timed out early. */
  lemma PollTakesExpired(w: World, moves: seq<Move>, task: nat, now: int, claimed: seq<TxnId>, id: TxnId)
    requires var before, after := Run(w, moves), Run(w, moves + [Poll(task, now, claimed)]); task !in before.tasks && task in after.tasks
    ensures var before, after := Run(w, moves), Run(w, moves + [Poll(task, now, claimed)]);
            after.tasks[task].Owns(id) <==>
              && DeadlineOf(before, id).Some? && DeadlineOf(before, id).value <= now && id !in before.timers.handling
  {
    hide Run, Due, Collected;
    RunSnoc(w, moves, Poll(task, now, claimed));
    DueExactly(Run(w, moves).timers, Run(w, moves).waiting, now);
  }

  lemma RunSnoc(w: World, moves: seq<Move>, m: Move)
    ensures Run(w, moves + [m]) == Step(Run(w, moves), m)
  {
    hide Step;
    assert (moves + [m])[..|moves|] == moves;
  }

  /** An armed deadline is never moved: it stays until its transaction is picked up, claimed, released, or found by a poll not to
      be waiting. */
  lemma DeadlinesStay(w: World, m: Move, id: TxnId)
    requires id in w.timers.deadlines && id in Step(w, m).timers.deadlines
    ensures Step(w, m).timers.deadlines[id] == w.timers.deadlines[id]
  {
  }

  /** What is known of the waiting customers is what the status said last. */
  lemma WaitingIsReported(w: World, m: Move)
    ensures Step(w, m).waiting == if m.StatusChange? then m.waiting else w.waiting
  {
    hide Collected, Due, Claim, Arm, Disarm, Release;
  }

  /** The `i`-th move claimed the timeout of a waiting customer nobody was handling: by a poll after the deadline, or by hand. */
  ghost predicate TakenAt(w: World, moves: seq<Move>, i: nat, id: TxnId)
    requires i < |moves|
  {
    var before := Run(w, moves[..i]);
    && DeadlineOf(before, id).Some? && id !in before.timers.handling
    && ((moves[i].Force? && moves[i].id == id) || (moves[i].Poll? && DeadlineOf(before, id).value <= moves[i].now))
  }

  lemma StepTakes(w: World, m: Move, id: TxnId)
    requires id in Step(w, m).timers.handling && id !in w.timers.handling
    ensures DeadlineOf(w, id).Some?
    ensures (m.Force? && m.id == id) || (m.Poll? && DeadlineOf(w, id).value <= m.now)
  {
    if m.Poll? {
      DueExactly(w.timers, w.waiting, m.now);
    }
  }

  /** Whoever's timeout is being handled was waiting when it was claimed, and the deadline had come or it was forced. */
  lemma {:induction false} HandledWasDue(w: World, moves: seq<Move>, id: TxnId)
    requires Start(w) && id in Run(w, moves).timers.handling
    ensures exists i :: 0 <= i < |moves| && TakenAt(w, moves, i, id)
  {
    hide Step, DeadlineOf;
    var n := |moves| - 1;
    if id in Run(w, moves[..n]).timers.handling {
      HandledWasDue(w, moves[..n], id);
      var i :| 0 <= i < n && TakenAt(w, moves[..n], i, id);
      assert moves[..n][..i] == moves[..i];
      assert TakenAt(w, moves, i, id);
    } else {
      StepTakes(Run(w, moves[..n]), moves[n], id);
      assert TakenAt(w, moves, n, id);
    }
  }

  /** A window that opens arms its customer's deadline, unless one is armed; a finished pickup disarms it. */
  lemma WindowArms(w: World, id: TxnId)
    ensures var armed := Step(w, WindowOpened(id)).timers.deadlines;
            && (id in armed <==> id in w.waiting)
            && (id in armed ==> armed[id] == if id in w.timers.deadlines then w.timers.deadlines[id] else w.waiting[id])
            && (forall other :: other != id ==> (other in armed <==> other in w.timers.deadlines))
    ensures id !in Step(w, PickedUp(id)).timers.deadlines
  {
  }

  /** A new task with fresh claims. */
  lemma NewTask(w: World, task: nat, t: Task, timers: Timers, ids: set<TxnId>)
    requires Exclusive(w) && task !in w.tasks && Single(t)
    requires forall id :: t.Owns(id) <==> id in ids
    requires ids !! w.timers.handling && timers.handling == w.timers.handling + ids
    ensures Exclusive(w.(timers := timers, tasks := w.tasks[task := t]))
  {
    var d := w.(timers := timers, tasks := w.tasks[task := t]);
    forall id | id in timers.handling ensures id in d.abandoned || Owned(d, id) {
      if id in ids {
        assert d.tasks[task].Owns(id);
      } else if Owned(w, id) {
        var k :| k in w.tasks && w.tasks[k].Owns(id);
        assert d.tasks[k].Owns(id);
      }
    }
  }

  /** A task that gives up what it handles, `rest` becoming its new state or, for None, ending it. */
  lemma TaskReleases(w: World, task: nat, d: World)
    requires Exclusive(w) && task in w.tasks && w.tasks[task].current.Some?
    requires d == Step(w, Finish(task)) || d == Step(w, Abort(task))
    ensures Exclusive(d)
  {
    var t := w.tasks[task];
    assert t.Owns(t.current.value);
    forall id | id in d.timers.handling ensures id in d.abandoned || Owned(d, id) {
      if id !in w.abandoned {
        assert Owned(w, id);
        var k :| k in w.tasks && w.tasks[k].Owns(id);
        if k != task || d == Step(w, Finish(task)) {
          assert d.tasks[k].Owns(id);
        }
      }
    }
    forall k, id | k in d.tasks && d.tasks[k].Owns(id) ensures id in d.timers.handling && id !in d.abandoned {
      assert w.tasks[k].Owns(id);
      assert id in d.abandoned ==> id in w.abandoned || t.Owns(id);
    }
    forall id | id in d.abandoned ensures id in d.timers.handling {
      assert id in w.abandoned || t.Owns(id);
    }
  }

  lemma BeginKeeps(w: World, task: nat)
    requires Exclusive(w)
    ensures Exclusive(Step(w, Begin(task)))
  {
    var d := Step(w, Begin(task));
    if d != w {
      assert w.tasks[task].todo == [w.tasks[task].todo[0]] + w.tasks[task].todo[1..];
      forall k, id | k in w.tasks ensures d.tasks[k].Owns(id) <==> w.tasks[k].Owns(id) {
      }
      forall id | id in d.timers.handling ensures id in d.abandoned || Owned(d, id) {
        if id !in w.abandoned {
          assert Owned(w, id);
          var k :| k in w.tasks && w.tasks[k].Owns(id);
          assert d.tasks[k].Owns(id);
        }
      }
    }
  }

  lemma StepKeepsExclusive(w: World, m: Move)
    requires Exclusive(w)
    ensures Exclusive(Step(w, m))
  {
    match m
    case Poll(task, now, claimed) =>
      if Step(w, m) != w {
        CollectedIsExact(w.timers, w.waiting, now);
        NewTask(w, task, Task(None, claimed), Collected(w.timers, w.waiting, now), Due(w.timers, w.waiting, now));
      }
    case Force(task, id) =>
      if Step(w, m) != w {
        NewTask(w, task, Task(Some(id), []), Claim(w.timers, {id}), {id});
      }
    case Begin(task) => BeginKeeps(w, task);
    case Finish(task) =>
      if task in w.tasks && w.tasks[task].current.Some? {
        TaskReleases(w, task, Step(w, m));
      }
    case Abort(task) =>
      if task in w.tasks && w.tasks[task].current.Some? {
        TaskReleases(w, task, Step(w, m));
      }
    case WindowOpened(id) => OnlyDeadlines(w, Step(w, m));
    case PickedUp(id) => OnlyDeadlines(w, Step(w, m));
    case StatusChange(waiting) => OnlyDeadlines(w, Step(w, m));
  }

  lemma OnlyDeadlines(w: World, d: World)
    requires Exclusive(w)
    requires d.tasks == w.tasks && d.abandoned == w.abandoned && d.timers.handling == w.timers.handling
    ensures Exclusive(d)
  {
    forall id | id in d.timers.handling ensures id in d.abandoned || Owned(d, id) {
      if Owned(w, id) {
        var k :| k in w.tasks && w.tasks[k].Owns(id);
        assert d.tasks[k].Owns(id);
      }
    }
  }

  lemma {:induction false} RunKeepsExclusive(w: World, moves: seq<Move>)
    requires Exclusive(w)
    ensures Exclusive(Run(w, moves))
  {
    if moves != [] {
      RunKeepsExclusive(w, moves[..|moves| - 1]);
      StepKeepsExclusive(Run(w, moves[..|moves| - 1]), moves[|moves| - 1]);
    }
  }

  /** At most one timeout is being handled per transaction, and only while its claim stands; every standing claim belongs to
      exactly one task under way, unless that task ended with an exception before it got to it. */
  lemma OneTimeoutInFlight(w: World, moves: seq<Move>, id: TxnId)
    requires Start(w)
    ensures var now := Run(w, moves);
            && (forall k, l :: k in now.tasks && l in now.tasks && now.tasks[k].current == now.tasks[l].current == Some(id)
                  ==> k == l && id in now.timers.handling)
            && (id in now.timers.handling <==> id in now.abandoned || Owned(now, id))
            && !(id in now.abandoned && Owned(now, id))
  {
    assert Exclusive(w);
    RunKeepsExclusive(w, moves);
    var now := Run(w, moves);
    forall k, l | k in now.tasks && l in now.tasks && now.tasks[k].current == now.tasks[l].current == Some(id)
      ensures k == l && id in now.timers.handling
    {
      assert now.tasks[k].Owns(id) && now.tasks[l].Owns(id);
    }
  }

  /** The move that abandons claims: an exception in the handling of one while others are still to be begun. */
  predicate Abandons(w: World, m: Move) {
    m.Abort? && m.task in w.tasks && w.tasks[m.task].current.Some? && w.tasks[m.task].todo != []
  }

  /** A move abandons claims of the running polls, and those before stay abandoned. */
  lemma StepAbandons(w: World, m: Move)
    ensures w.abandoned <= Step(w, m).abandoned
    ensures Abandons(w, m) ==> w.tasks[m.task].todo[0] in Step(w, m).abandoned
    ensures !Abandons(w, m) ==> Step(w, m).abandoned == w.abandoned
  {
  }

  /** Every exception in a poll's handling found nothing left to begin. */
  predicate NeverAbandons(w: World, moves: seq<Move>) {
    moves == []
    || var front, last := moves[..|moves| - 1], moves[|moves| - 1];
       NeverAbandons(w, front) && !Abandons(Run(w, front), last)
  }

  /** Nothing has been abandoned exactly when no move of the run abandoned anything. */
  lemma {:induction false} NothingAbandonedExactly(w: World, moves: seq<Move>)
    requires Start(w)
    ensures Run(w, moves).abandoned == {} <==> NeverAbandons(w, moves)
  {
    if moves != [] {
      var front, last := moves[..|moves| - 1], moves[|moves| - 1];
      NothingAbandonedExactly(w, front);
      StepAbandons(Run(w, front), last);
    }
  }

  /** An abandoned claim stays claimed under every later move, and nobody owns it: that transaction's timeout is never
      handled again. */
  lemma {:induction false} AbandonedForGood(w: World, moves: seq<Move>, id: TxnId)
    requires Exclusive(w) && id in w.abandoned
    ensures var now := Run(w, moves);
            && id in now.abandoned && id in now.timers.handling && !Owned(now, id)
            && forall k :: k in now.tasks ==> now.tasks[k].current != Some(id)
  {
    RunKeepsExclusive(w, moves);
    if moves != [] {
      AbandonedForGood(w, moves[..|moves| - 1], id);
      StepAbandons(Run(w, moves[..|moves| - 1]), moves[|moves| - 1]);
    }
    var now := Run(w, moves);
    forall k | k in now.tasks ensures now.tasks[k].current != Some(id) {
      assert !now.tasks[k].Owns(id);
    }
  }

  /** Two customers' deadlines have passed. */
  const TWO_WAITING := World(Timers(map[], {}), map[1 := 3, 2 := 4], map[], {})

  /** A run in which it happens: the poll claims both timeouts and handling the first one raises. */
  lemma SecondTimeoutIsAbandoned()
    ensures Start(TWO_WAITING)
    ensures Run(TWO_WAITING, [Poll(0, 5, [1, 2]), Begin(0), Abort(0)]).abandoned == {2}
  {
    var w, moves := TWO_WAITING, [Poll(0, 5, [1, 2]), Begin(0), Abort(0)];
    ThreeMoves(w, moves);
    hide Run;
    BothAreClaimed();
    OneIsBegun(Step(w, moves[0]));
    RestIsAbandoned(Step(Step(w, moves[0]), moves[1]));
  }

  lemma OneIsBegun(w: World)
    requires w.tasks == map[0 := Task(None, [1, 2])]
    ensures var d := Step(w, Begin(0)); d.tasks == map[0 := Task(Some(1), [2])] && d.abandoned == w.abandoned
  {
  }

  lemma RestIsAbandoned(w: World)
    requires w.tasks == map[0 := Task(Some(1), [2])] && w.abandoned == {}
    ensures Step(w, Abort(0)).abandoned == {2}
  {
  }

  lemma ThreeMoves(w: World, moves: seq<Move>)
    requires |moves| == 3
    ensures Run(w, moves) == Step(Step(Step(w, moves[0]), moves[1]), moves[2])
  {
    hide Step;
    assert moves[..2][..1] == [moves[0]] && [moves[0]][..0] == [];
    assert Run(w, [moves[0]]) == Step(w, moves[0]);
  }

  lemma BothAreClaimed()
    ensures var polled := Step(TWO_WAITING, Poll(0, 5, [1, 2]));
            polled.tasks == map[0 := Task(None, [1, 2])] && polled.abandoned == {}
  {
    assert Due(TWO_WAITING.timers, TWO_WAITING.waiting, 5) == {1, 2};
  }
}
