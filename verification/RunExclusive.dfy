/**
 * The per-key lock (packages/database/src/run-exclusive.ts): a promise queue inside each process, then one advisory
 * lock per key across processes. The queues in voucher.ts and voucher-spend-store.ts are the same queue without the
 * second lock. A guarded body is taken to end before its database transaction does.
 */
module RunExclusive {
  import opened Prelude

  /** A key as one process queues it; the advisory lock is shared by every process. */
  datatype Slot = Slot(process: nat, key: string)

  datatype Phase = Queued | Parked | Running | Settled(ok: bool)

  /** `previous` is the tail this call found in the map; `cleaned` says its own clean-up callback has run. */
  datatype Task = Task(slot: Slot, previous: Option<nat>, phase: Phase, cleaned: bool)

  /** Tasks are numbered in order of arrival. `tails` holds every process's map, `holder` the advisory locks. */
  datatype State = State(tasks: seq<Task>, tails: map<Slot, nat>, holder: map<string, nat>)

  datatype Action =
    | Arrive(slot: Slot)
    | OpenTransaction(id: nat)
    | TransactionFails(id: nat)
    | Acquire(id: nat)
    | Finish(id: nat, ok: bool)
    | CleanUp(id: nat)

  const INITIAL := State([], map[], map[])

  function Tail(tails: map<Slot, nat>, slot: Slot): Option<nat> { if slot in tails then Some(tails[slot]) else None }

  /** The clean-up callback removes the entry only if nobody arrived since. */
  function Cleared(tails: map<Slot, nat>, slot: Slot, id: nat): map<Slot, nat> {
    if slot in tails && tails[slot] == id then tails - {slot} else tails
  }

  class InProcess {
    var tails: map<Slot, nat>

    constructor ()
      ensures tails == map[]
    {
      tails := map[];
    }

    method Enqueue(slot: Slot, id: nat) returns (previous: Option<nat>)
      modifies this
      ensures previous == Tail(old(tails), slot) && tails == old(tails)[slot := id]
    {
      previous := if slot in tails then Some(tails[slot]) else None;
      tails := tails[slot := id];
    }

    method AfterTail(slot: Slot, id: nat)
      modifies this
      ensures tails == Cleared(old(tails), slot, id)
    {
      if slot in tails && tails[slot] == id {
        tails := tails - {slot};
      }
    }
  }

  predicate MayGo(s: State, t: Task) {
    t.previous.None? || (t.previous.value < |s.tasks| && s.tasks[t.previous.value].phase.Settled?)
  }

  function SetPhase(s: State, id: nat, phase: Phase): State
    requires id < |s.tasks|
  {
    s.(tasks := s.tasks[id := s.tasks[id].(phase := phase)])
  }

  function Step(s: State, a: Action): Option<State> {
    match a
    case Arrive(slot) => Some(s.(tasks := s.tasks + [Task(slot, Tail(s.tails, slot), Queued, false)], tails := s.tails[slot := |s.tasks|]))
    case OpenTransaction(id) =>
      if id < |s.tasks| && s.tasks[id].phase.Queued? && MayGo(s, s.tasks[id]) then Some(SetPhase(s, id, Parked)) else None
    case TransactionFails(id) =>
      if id < |s.tasks| && ((s.tasks[id].phase.Queued? && MayGo(s, s.tasks[id])) || s.tasks[id].phase.Parked?)
      then Some(SetPhase(s, id, Settled(false))) else None
    case Acquire(id) =>
      if id < |s.tasks| && s.tasks[id].phase.Parked? && s.tasks[id].slot.key !in s.holder
      then Some(SetPhase(s, id, Running).(holder := s.holder[s.tasks[id].slot.key := id])) else None
    case Finish(id, ok) =>
      if id < |s.tasks| && s.tasks[id].phase.Running?
      then Some(SetPhase(s, id, Settled(ok)).(holder := s.holder - {s.tasks[id].slot.key})) else None
    case CleanUp(id) =>
      if id < |s.tasks| && s.tasks[id].phase.Settled? && !s.tasks[id].cleaned
      then Some(s.(tasks := s.tasks[id := s.tasks[id].(cleaned := true)], tails := Cleared(s.tails, s.tasks[id].slot, id))) else None
  }

  function Run(s: State, actions: seq<Action>): Option<State>
    decreases |actions|
  {
    if actions == [] then Some(s)
    else match Step(s, actions[0])
      case None => None
      case Some(next) => Run(next, actions[1..])
  }

  // ---------------------------------------------------------------- the invariant

  predicate Same(s: State, i: nat, j: nat) { i < |s.tasks| && j < |s.tasks| && s.tasks[i].slot == s.tasks[j].slot }

  /** Bodies start in arrival order: once `j` has left the queue, everything before it on its slot is settled. */
  predicate InOrder(s: State, i: nat, j: nat) {
    i < j && Same(s, i, j) && !s.tasks[j].phase.Queued? ==> s.tasks[i].phase.Settled?
  }

  /** What a queued task waits for covers everything before it: its predecessor is the last one, or all are settled. */
  predicate Waits(s: State, i: nat, j: nat) {
    i < j && Same(s, i, j) ==>
      (match s.tasks[j].previous
       case None => s.tasks[i].phase.Settled?
       case Some(p) => i <= p < j && Same(s, p, j))
  }

  predicate PreviousOk(s: State, j: nat) {
    j < |s.tasks| && s.tasks[j].previous.Some? ==> s.tasks[j].previous.value < j && Same(s, s.tasks[j].previous.value, j)
  }

  /** The map's entry for a slot is the last task that arrived there; without one, nothing waits or runs. */
  predicate TailOk(s: State, i: nat) {
    i < |s.tasks| ==>
      && (s.tasks[i].slot in s.tails ==> i <= s.tails[s.tasks[i].slot] < |s.tasks| && Same(s, i, s.tails[s.tasks[i].slot]))
      && (s.tasks[i].slot !in s.tails ==> s.tasks[i].phase.Settled?)
  }

  predicate HolderOk(s: State, i: nat) {
    i < |s.tasks| && s.tasks[i].phase.Running? ==> s.tasks[i].slot.key in s.holder && s.holder[s.tasks[i].slot.key] == i
  }

  /** A locked key is locked by a running task: a lock is never left behind. */
  predicate LockOk(s: State, key: string)
    requires key in s.holder
  {
    s.holder[key] < |s.tasks| && s.tasks[s.holder[key]].phase.Running? && s.tasks[s.holder[key]].slot.key == key
  }

  /** An entry stays only for a task that is still to be cleaned up. */
  predicate EntryOk(s: State, slot: Slot)
    requires slot in s.tails
  {
    s.tails[slot] < |s.tasks| && s.tasks[s.tails[slot]].slot == slot && !s.tasks[s.tails[slot]].cleaned
  }

  predicate CleanOk(s: State, i: nat) { i < |s.tasks| && s.tasks[i].cleaned ==> s.tasks[i].phase.Settled? }

  ghost predicate Orders(s: State) {
    (forall i: nat, j: nat :: InOrder(s, i, j) && Waits(s, i, j)) && (forall j: nat :: PreviousOk(s, j))
  }

  ghost predicate Tails(s: State) {
    && (forall i: nat :: TailOk(s, i) && CleanOk(s, i))
    && (forall slot :: slot in s.tails ==> EntryOk(s, slot))
  }

  ghost predicate Locks(s: State) { (forall i: nat :: HolderOk(s, i)) && (forall k :: k in s.holder ==> LockOk(s, k)) }

  ghost predicate Inv(s: State) { Orders(s) && Tails(s) && Locks(s) }

  lemma OrderKept(s: State, a: Action, i: nat, j: nat)
    requires Inv(s) && Step(s, a).Some?
    ensures InOrder(Step(s, a).value, i, j) && Waits(Step(s, a).value, i, j)
  {
    assert InOrder(s, i, j) && Waits(s, i, j) && TailOk(s, i);
    if j < |s.tasks| && s.tasks[j].previous.Some? {
      assert InOrder(s, i, s.tasks[j].previous.value);
    }
  }

  lemma OrdersKept(s: State, a: Action)
    requires Inv(s) && Step(s, a).Some?
    ensures Orders(Step(s, a).value)
  {
    var t := Step(s, a).value;
    forall i: nat, j: nat
      ensures InOrder(t, i, j) && Waits(t, i, j)
    {
      OrderKept(s, a, i, j);
    }
    forall j: nat
      ensures PreviousOk(t, j)
    {
      assert PreviousOk(s, j);
      if a.Arrive? && a.slot in s.tails { assert EntryOk(s, a.slot); }
    }
  }

  lemma TailsKept(s: State, a: Action)
    requires Inv(s) && Step(s, a).Some?
    ensures Tails(Step(s, a).value)
  {
    var t := Step(s, a).value;
    forall i: nat
      ensures TailOk(t, i) && CleanOk(t, i)
    {
      assert TailOk(s, i) && CleanOk(s, i);
      if a.CleanUp? { assert InOrder(s, i, a.id); }
    }
    forall slot | slot in t.tails
      ensures EntryOk(t, slot)
    {
      assert slot in s.tails ==> EntryOk(s, slot);
    }
  }

  lemma LocksKept(s: State, a: Action)
    requires Inv(s) && Step(s, a).Some?
    ensures Locks(Step(s, a).value)
  {
    var t := Step(s, a).value;
    forall i: nat
      ensures HolderOk(t, i)
    {
      assert HolderOk(s, i);
      if a.Finish? { assert HolderOk(s, a.id); }
    }
    forall k | k in t.holder
      ensures LockOk(t, k)
    {
      assert k in s.holder ==> LockOk(s, k);
      if a.Finish? { assert HolderOk(s, a.id); }
    }
  }

  lemma {:induction false} RunKeeps(s: State, actions: seq<Action>)
    requires Inv(s) && Run(s, actions).Some?
    ensures Inv(Run(s, actions).value)
    decreases |actions|
  {
    if actions != [] {
      OrdersKept(s, actions[0]);
      TailsKept(s, actions[0]);
      LocksKept(s, actions[0]);
      RunKeeps(Step(s, actions[0]).value, actions[1..]);
    }
  }

  // ---------------------------------------------------------------- the theorems

  /** Across all processes, at most one body per key runs. */
  lemma OneBodyPerKey(actions: seq<Action>, i: nat, j: nat)
    requires Run(INITIAL, actions).Some?
    requires var s := Run(INITIAL, actions).value;
             && i < |s.tasks| && j < |s.tasks| && s.tasks[i].slot.key == s.tasks[j].slot.key
             && s.tasks[i].phase.Running? && s.tasks[j].phase.Running?
    ensures i == j
  {
    RunKeeps(INITIAL, actions);
    var s := Run(INITIAL, actions).value;
    assert HolderOk(s, i) && HolderOk(s, j);
  }

  /** In one process, tasks on a key leave the queue in arrival order, and at most one of them is parked on the lock or running. */
  lemma FirstComeFirstServed(actions: seq<Action>, i: nat, j: nat)
    requires Run(INITIAL, actions).Some?
    requires i < j && Same(Run(INITIAL, actions).value, i, j)
    ensures var s := Run(INITIAL, actions).value;
            s.tasks[j].phase.Queued? || s.tasks[i].phase.Settled?
  {
    RunKeeps(INITIAL, actions);
    assert InOrder(Run(INITIAL, actions).value, i, j);
  }

  /** The map forgets a key only when nothing on it waits or runs, and remembers none that is over and cleaned up. */
  lemma EntryExactlyWhileNeeded(actions: seq<Action>, slot: Slot)
    requires Run(INITIAL, actions).Some?
    ensures var s := Run(INITIAL, actions).value;
            && (slot !in s.tails ==> forall i :: 0 <= i < |s.tasks| && s.tasks[i].slot == slot ==> s.tasks[i].phase.Settled?)
            && ((forall i :: 0 <= i < |s.tasks| && s.tasks[i].slot == slot ==> s.tasks[i].cleaned) ==> slot !in s.tails)
  {
    RunKeeps(INITIAL, actions);
    var s := Run(INITIAL, actions).value;
    forall i | 0 <= i < |s.tasks| && s.tasks[i].slot == slot
      ensures slot !in s.tails ==> s.tasks[i].phase.Settled?
    {
      assert TailOk(s, i);
    }
    if slot in s.tails { assert EntryOk(s, slot); }
  }

  /** The earliest unsettled task of a slot. */
  lemma {:induction false} FirstUnsettled(s: State, slot: Slot, upto: nat) returns (id: nat)
    requires upto < |s.tasks| && s.tasks[upto].slot == slot && !s.tasks[upto].phase.Settled?
    ensures id <= upto && s.tasks[id].slot == slot && !s.tasks[id].phase.Settled?
    ensures forall i :: 0 <= i < id && s.tasks[i].slot == slot ==> s.tasks[i].phase.Settled?
    decreases upto
  {
    if i :| 0 <= i < upto && s.tasks[i].slot == slot && !s.tasks[i].phase.Settled? {
      id := FirstUnsettled(s, slot, i);
    } else {
      id := upto;
    }
  }

  predicate Moves(s: State, id: nat) {
    || Step(s, OpenTransaction(id)).Some?
    || Step(s, Acquire(id)).Some?
    || Step(s, Finish(id, true)).Some?
  }

  /**
   * Nothing blocks a key for good: while a task is unsettled, some task of that key can move, whether or not the ones
   * before it threw. Every move uses up work, so every waiting body gets its turn once the running ones end.
   */
  lemma NobodyIsStuck(actions: seq<Action>, waiting: nat)
    requires Run(INITIAL, actions).Some?
    requires waiting < |Run(INITIAL, actions).value.tasks| && !Run(INITIAL, actions).value.tasks[waiting].phase.Settled?
    ensures var s := Run(INITIAL, actions).value;
            exists id: nat :: id < |s.tasks| && s.tasks[id].slot.key == s.tasks[waiting].slot.key && Moves(s, id)
  {
    RunKeeps(INITIAL, actions);
    var s := Run(INITIAL, actions).value;
    var first := FirstUnsettled(s, s.tasks[waiting].slot, waiting);
    if s.tasks[first].phase.Queued? {
      assert PreviousOk(s, first);
      assert Moves(s, first);
    } else if s.tasks[first].phase.Running? {
      assert Moves(s, first);
    } else {
      var key := s.tasks[first].slot.key;
      if key in s.holder {
        assert LockOk(s, key);
        assert Moves(s, s.holder[key]);
      } else {
        assert Moves(s, first);
      }
    }
  }

  function Work(t: Task): nat {
    (match t.phase case Queued => 3 case Parked => 2 case Running => 1 case Settled(_) => 0) + if t.cleaned then 0 else 1
  }

  function TotalWork(tasks: seq<Task>): nat {
    if tasks == [] then 0 else TotalWork(tasks[..|tasks| - 1]) + Work(tasks[|tasks| - 1])
  }

  lemma {:induction false} TotalWorkMoves(tasks: seq<Task>, id: nat, t: Task)
    requires id < |tasks|
    ensures TotalWork(tasks[id := t]) == TotalWork(tasks) - Work(tasks[id]) + Work(t)
  {
    var n := |tasks| - 1;
    if id < n {
      assert tasks[id := t][..n] == tasks[..n][id := t];
      TotalWorkMoves(tasks[..n], id, t);
    } else {
      assert tasks[id := t][..n] == tasks[..n];
    }
  }

  /** Every step but an arrival strictly uses up the work left: with arrivals over, every task settles and is cleaned up. */
  lemma StepsUseUpWork(s: State, a: Action)
    requires Step(s, a).Some? && !a.Arrive?
    ensures TotalWork(Step(s, a).value.tasks) < TotalWork(s.tasks)
  {
    TotalWorkMoves(s.tasks, a.id, Step(s, a).value.tasks[a.id]);
  }
}
