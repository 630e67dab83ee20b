/**
 * One pay.sh operation (apps/api/src/agent/pay-authority.ts, packages/database/src/pay-operation-store.ts).
 * The machine takes no lock at all: single use rests on the frozen operation row and on the spend row's unique hash.
 */
module PayOperations {
  import opened Prelude
  import opened SpendStore

  datatype Choice = ALLOW | DENY | REJECT_BEFORE_EXECUTION

  datatype Key = Key(caller: string, operation: string)

  /** What a request is bound to: fingerprint, offer hash, asset, recipient and network in one text, and the amount. */
  datatype Payment = Payment(text: string, amount: nat, recipient: string)

  datatype Request = Request(key: Key, attempt: string, payment: Payment)

  /** `tag` stands for the ids, time and signature that make one answer differ from another. */
  datatype Answer = Answer(decision: Choice, attempt: string, tag: string)

  datatype Operation = Operation(binding: Digest, attempt: string, decision: Choice, answer: Answer, approvalId: Option<string>)

  datatype SaveError = AlreadyDecided

  /** Creates the row, or replaces one that is still waiting for the owner. */
  function Saved(rows: map<Key, Operation>, key: Key, op: Operation): Result<map<Key, Operation>, SaveError> {
    if key in rows && rows[key].decision != REJECT_BEFORE_EXECUTION then Err(AlreadyDecided) else Ok(rows[key := op])
  }

  class InMemoryPayOperationStore {
    var rows: map<Key, Operation>

    constructor ()
      ensures rows == map[]
    {
      rows := map[];
    }

    method Get(key: Key) returns (row: Option<Operation>)
      ensures row == if key in rows then Some(rows[key]) else None
    {
      row := if key in rows then Some(rows[key]) else None;
    }

    method Save(key: Key, op: Operation) returns (r: Result<(), SaveError>)
      modifies this
      ensures match Saved(old(rows), key, op)
              case Err(error) => r == Err(error) && rows == old(rows)
              case Ok(after) => r == Ok(()) && rows == after
    {
      if key in rows && rows[key].decision != REJECT_BEFORE_EXECUTION {
        return Err(AlreadyDecided);
      }
      rows := rows[key := op];
      return Ok(());
    }
  }

  // ---------------------------------------------------------------- the machine

  /** The two hashes of this path: what a row is bound to, and the hash its spend is recorded under. */
  datatype Hashes = Hashes(binding: Payment -> Digest, spend: ((Key, Digest)) -> Digest)
  {
    function BindingOf(q: Request): Digest { binding(q.payment) }
    function SpendHash(q: Request): Digest { spend((q.key, BindingOf(q))) }
  }

  datatype Stage = Asked(q: Request) | Deciding(q: Request, existing: Option<Operation>) | Charged(q: Request)

  datatype Delivery = Delivery(q: Request, answer: Answer)

  datatype State = State(operations: map<Key, Operation>, spends: seq<Entry>, asks: map<nat, Stage>,
                         delivered: set<Delivery>, payments: set<Payment>)

  datatype Action =
    | Ask(pid: nat, q: Request)
    | Look(pid: nat, tag: string)
    | Charge(pid: nat, mandate: Digest, autonomous: bool, at: int)
    | Finish(pid: nat, decision: Choice, tag: string, approvalId: Option<string>, reaches: bool)
    | StillWaiting(pid: nat)
    | Stop(pid: nat)
    | OtherSpend(entry: Entry)

  const INITIAL := State(map[], [], map[], {}, {})

  function Deliver(s: State, pid: nat, q: Request, answer: Answer): State {
    s.(asks := s.asks - {pid}, delivered := s.delivered + {Delivery(q, answer)})
  }

  /** What an operation row means for a request under the same id; None when the request is to be decided. */
  function Recall(h: Hashes, row: Option<Operation>, q: Request, tag: string): Option<Answer> {
    if row.Some? && row.value.binding != h.BindingOf(q) then Some(Answer(DENY, q.attempt, tag))
    else if row.Some? && row.value.decision != REJECT_BEFORE_EXECUTION then
      if row.value.attempt == q.attempt then Some(row.value.answer)
      else if row.value.decision == ALLOW then Some(Answer(DENY, q.attempt, tag))
      else Some(row.value.answer)
    else None
  }

  function SpendRow(h: Hashes, q: Request, mandate: Digest, autonomous: bool, at: int): Entry {
    Entry(mandate, PayCaller(q.key.caller), q.payment.amount, q.payment.amount, autonomous, q.payment.recipient, h.SpendHash(q), at)
  }

  function OperationOf(h: Hashes, q: Request, decision: Choice, tag: string, approvalId: Option<string>): Operation {
    Operation(h.BindingOf(q), q.attempt, decision, Answer(decision, q.attempt, tag), approvalId)
  }

  function RowOf(s: State, key: Key): Option<Operation> {
    if key in s.operations then Some(s.operations[key]) else None
  }

  function Step(h: Hashes, s: State, a: Action): Option<State> {
    match a
    case Ask(pid, q) =>
      if pid in s.asks then None
      else Some(s.(asks := s.asks[pid := Asked(q)], payments := s.payments + {q.payment}))
    case Look(pid, tag) =>
      if !(pid in s.asks && s.asks[pid].Asked?) then None
      else
        var q := s.asks[pid].q;
        var row := RowOf(s, q.key);
        (match Recall(h, row, q, tag)
         case Some(answer) => Some(Deliver(s, pid, q, answer))
         case None => Some(s.(asks := s.asks[pid := Deciding(q, row)])))
    case Charge(pid, mandate, autonomous, at) =>
      if !(pid in s.asks && s.asks[pid].Deciding?) then None
      else (match RecordEntry(s.spends, SpendRow(h, s.asks[pid].q, mandate, autonomous, at))
            case Err(_) => None
            case Ok(rows) => Some(s.(spends := rows, asks := s.asks[pid := Charged(s.asks[pid].q)])))
    case Finish(pid, decision, tag, approvalId, reaches) =>
      if !(pid in s.asks && if decision == ALLOW then s.asks[pid].Charged? else s.asks[pid].Deciding?) then None
      else
        var q := s.asks[pid].q;
        var op := OperationOf(h, q, decision, tag, approvalId);
        (match Saved(s.operations, q.key, op)
         case Err(_) => None
         case Ok(rows) =>
           var stored := s.(operations := rows, asks := s.asks - {pid});
           Some(if reaches then Deliver(stored, pid, q, op.answer) else stored))
    case StillWaiting(pid) =>
      if pid in s.asks && s.asks[pid].Deciding? && s.asks[pid].existing.Some?
      then Some(Deliver(s, pid, s.asks[pid].q, s.asks[pid].existing.value.answer)) else None
    case Stop(pid) => if pid in s.asks then Some(s.(asks := s.asks - {pid})) else None
    case OtherSpend(entry) =>
      (match RecordEntry(s.spends, entry)
       case Err(_) => None
       case Ok(rows) => Some(s.(spends := rows)))
  }

  function Run(h: Hashes, s: State, actions: seq<Action>): Option<State>
    decreases |actions|
  {
    if actions == [] then Some(s)
    else match Step(h, s, actions[0])
      case None => None
      case Some(next) => Run(h, next, actions[1..])
  }

  // ---------------------------------------------------------------- the invariant

  /** A request's spend was recorded, for the amount of a payment with this request's binding. */
  predicate Paid(h: Hashes, s: State, q: Request) {
    exists e :: e in s.spends && PaysFor(h, s, q, e)
  }

  predicate PaysFor(h: Hashes, s: State, q: Request, e: Entry) {
    e.messageHash == h.SpendHash(q) && exists p :: p in s.payments && h.binding(p) == h.BindingOf(q) && e.delta == p.amount
  }

  predicate AskOk(h: Hashes, s: State, stage: Stage) {
    && stage.q.payment in s.payments
    && (stage.Charged? ==> Paid(h, s, stage.q))
    && (stage.Deciding? && stage.existing.Some? ==>
          stage.existing.value.decision == REJECT_BEFORE_EXECUTION && stage.existing.value.answer.decision == REJECT_BEFORE_EXECUTION)
  }

  /** A stored row keeps its own answer, and an `allow` was paid for. */
  predicate RowOk(h: Hashes, s: State, key: Key)
    requires key in s.operations
  {
    var op := s.operations[key];
    && op.answer.decision == op.decision && op.answer.attempt == op.attempt
    && (op.decision == ALLOW ==> exists p :: p in s.payments && h.binding(p) == op.binding && Paid(h, s, Request(key, op.attempt, p)))
  }

  /** An `allow` that was delivered is the stored answer, to the same attempt at the same payment. */
  predicate DeliveredOk(h: Hashes, s: State, d: Delivery) {
    && d.q.payment in s.payments
    && (d.answer.decision == ALLOW ==>
          && d.q.key in s.operations
          && s.operations[d.q.key] == Operation(h.BindingOf(d.q), d.q.attempt, ALLOW, d.answer, s.operations[d.q.key].approvalId))
  }

  predicate Unique(rows: seq<Entry>) {
    forall i, j :: 0 <= i < j < |rows| ==> rows[i].messageHash != rows[j].messageHash
  }

  predicate Inv(h: Hashes, s: State) {
    && Unique(s.spends)
    && (forall p :: p in s.asks ==> AskOk(h, s, s.asks[p]))
    && (forall k :: k in s.operations ==> RowOk(h, s, k))
    && (forall d :: d in s.delivered ==> DeliveredOk(h, s, d))
  }

  lemma PaidStays(h: Hashes, s: State, t: State, q: Request)
    requires Paid(h, s, q) && s.spends <= t.spends && s.payments <= t.payments
    ensures Paid(h, t, q)
  {
    var e :| e in s.spends && PaysFor(h, s, q, e);
    var p :| p in s.payments && h.binding(p) == h.BindingOf(q) && e.delta == p.amount;
    assert p in t.payments;
    assert e in t.spends && PaysFor(h, t, q, e);
  }

  lemma RowStays(h: Hashes, s: State, t: State, key: Key)
    requires key in s.operations && RowOk(h, s, key) && s.spends <= t.spends && s.payments <= t.payments
    requires key in t.operations && t.operations[key] == s.operations[key]
    ensures RowOk(h, t, key)
  {
    var op := s.operations[key];
    if op.decision == ALLOW {
      var p :| p in s.payments && h.binding(p) == op.binding && Paid(h, s, Request(key, op.attempt, p));
      PaidStays(h, s, t, Request(key, op.attempt, p));
      assert p in t.payments;
    }
  }

  /** Spends and payments only grow, decided rows stay: whatever the step did not add still holds. */
  predicate Grows(s: State, t: State) {
    && s.spends <= t.spends && s.payments <= t.payments && Unique(t.spends)
    && forall k :: k in s.operations && s.operations[k].decision != REJECT_BEFORE_EXECUTION ==>
         k in t.operations && t.operations[k] == s.operations[k]
  }

  lemma Keeps(h: Hashes, s: State, t: State)
    requires Inv(h, s) && Grows(s, t)
    requires forall p :: p in t.asks ==> (p in s.asks && t.asks[p] == s.asks[p]) || AskOk(h, t, t.asks[p])
    requires forall k :: k in t.operations ==> (k in s.operations && t.operations[k] == s.operations[k]) || RowOk(h, t, k)
    requires forall d :: d in t.delivered ==> d in s.delivered || DeliveredOk(h, t, d)
    ensures Inv(h, t)
  {
    forall p | p in t.asks
      ensures AskOk(h, t, t.asks[p])
    {
      if p in s.asks && t.asks[p] == s.asks[p] && s.asks[p].Charged? { PaidStays(h, s, t, s.asks[p].q); }
    }
    forall k | k in t.operations
      ensures RowOk(h, t, k)
    {
      if k in s.operations && t.operations[k] == s.operations[k] { RowStays(h, s, t, k); }
    }
    forall d | d in t.delivered
      ensures DeliveredOk(h, t, d)
    {
      if d in s.delivered { assert DeliveredOk(h, s, d); }
    }
  }

  lemma RecordedUnique(rows: seq<Entry>, e: Entry)
    requires Unique(rows) && RecordEntry(rows, e).Ok?
    ensures Unique(rows + [e])
  {
    forall i | 0 <= i < |rows|
      ensures rows[i].messageHash != e.messageHash
    {
      assert rows[i] in rows;
    }
  }

  lemma LookKeeps(h: Hashes, s: State, pid: nat, tag: string)
    requires Inv(h, s) && pid in s.asks && s.asks[pid].Asked?
    ensures Inv(h, Step(h, s, Look(pid, tag)).value)
  {
    var t := Step(h, s, Look(pid, tag)).value;
    var q := s.asks[pid].q;
    assert AskOk(h, s, s.asks[pid]);
    if q.key in s.operations { assert RowOk(h, s, q.key); }
    Keeps(h, s, t);
  }

  lemma ChargeKeeps(h: Hashes, s: State, pid: nat, e: Entry)
    requires Inv(h, s) && pid in s.asks && s.asks[pid].Deciding? && RecordEntry(s.spends, e).Ok?
    requires e.messageHash == h.SpendHash(s.asks[pid].q) && e.delta == s.asks[pid].q.payment.amount
    ensures Inv(h, s.(spends := s.spends + [e], asks := s.asks[pid := Charged(s.asks[pid].q)]))
  {
    var q := s.asks[pid].q;
    var t := s.(spends := s.spends + [e], asks := s.asks[pid := Charged(q)]);
    RecordedUnique(s.spends, e);
    assert AskOk(h, s, s.asks[pid]);
    assert e in t.spends && q.payment in t.payments && PaysFor(h, t, q, e);
    Keeps(h, s, t);
  }

  lemma FinishKeeps(h: Hashes, s: State, a: Action)
    requires a.Finish? && Inv(h, s) && Step(h, s, a).Some?
    ensures Inv(h, Step(h, s, a).value)
  {
    var t := Step(h, s, a).value;
    var q := s.asks[a.pid].q;
    assert AskOk(h, s, s.asks[a.pid]);
    assert RowOk(h, t, q.key) by {
      if a.decision == ALLOW {
        PaidStays(h, s, t, q);
        assert q.payment in t.payments && Paid(h, t, Request(q.key, q.attempt, q.payment));
      }
    }
    Keeps(h, s, t);
  }

  lemma StepKeeps(h: Hashes, s: State, a: Action)
    requires Inv(h, s) && Step(h, s, a).Some?
    ensures Inv(h, Step(h, s, a).value)
  {
    match a
    case Look(pid, tag) => LookKeeps(h, s, pid, tag);
    case Charge(pid, mandate, autonomous, at) => ChargeKeeps(h, s, pid, SpendRow(h, s.asks[pid].q, mandate, autonomous, at));
    case Finish(_, _, _, _, _) => FinishKeeps(h, s, a);
    case OtherSpend(entry) =>
      RecordedUnique(s.spends, entry);
      Keeps(h, s, Step(h, s, a).value);
    case StillWaiting(pid) =>
      assert AskOk(h, s, s.asks[pid]);
      Keeps(h, s, Step(h, s, a).value);
    case _ => Keeps(h, s, Step(h, s, a).value);
  }

  lemma {:induction false} RunKeeps(h: Hashes, s: State, actions: seq<Action>)
    requires Inv(h, s) && Run(h, s, actions).Some?
    ensures Inv(h, Run(h, s, actions).value)
    decreases |actions|
  {
    if actions != [] {
      StepKeeps(h, s, actions[0]);
      RunKeeps(h, Step(h, s, actions[0]).value, actions[1..]);
    }
  }

  // ---------------------------------------------------------------- the theorems

  /**
   * One allow per operation. In every run, any `allow` ever delivered is the operation's stored answer, given to the
   * same attempt at a payment with the same binding, and exactly one spend row, of that payment's amount, stands
   * for it; or two different payments share a binding hash.
   */
  lemma OneAllowPerOperation(h: Hashes, actions: seq<Action>, d: Delivery)
    requires Run(h, INITIAL, actions).Some?
    requires d in Run(h, INITIAL, actions).value.delivered && d.answer.decision == ALLOW
    ensures var s := Run(h, INITIAL, actions).value;
            && d.q.key in s.operations
            && s.operations[d.q.key].decision == ALLOW && s.operations[d.q.key].answer == d.answer
            && s.operations[d.q.key].attempt == d.q.attempt && s.operations[d.q.key].binding == h.BindingOf(d.q)
            && Unique(s.spends)
            && (|| (exists e :: e in s.spends && e.messageHash == h.SpendHash(d.q) && e.delta == d.q.payment.amount)
                || CollidesIn(h.binding, s.payments))
  {
    RunKeeps(h, INITIAL, actions);
    var s := Run(h, INITIAL, actions).value;
    assert DeliveredOk(h, s, d) && RowOk(h, s, d.q.key);
    var op := s.operations[d.q.key];
    var p :| p in s.payments && h.binding(p) == op.binding && Paid(h, s, Request(d.q.key, op.attempt, p));
    var e :| e in s.spends && PaysFor(h, s, Request(d.q.key, op.attempt, p), e);
    var paid :| paid in s.payments && h.binding(paid) == h.binding(p) && e.delta == paid.amount;
    assert e.messageHash == h.SpendHash(d.q);
    Collide(h.binding, s.payments, paid, d.q.payment);
  }

  /** A decided operation never changes. */
  lemma {:induction false} DecidedStays(h: Hashes, s: State, actions: seq<Action>, key: Key)
    requires Run(h, s, actions).Some?
    requires key in s.operations && s.operations[key].decision != REJECT_BEFORE_EXECUTION
    ensures var t := Run(h, s, actions).value;
            key in t.operations && t.operations[key] == s.operations[key]
    decreases |actions|
  {
    if actions != [] { DecidedStays(h, Step(h, s, actions[0]).value, actions[1..], key); }
  }

  /** Charged, but the answer was never stored: the process stopped in between. */
  predicate LostCharge(h: Hashes, s: State, key: Key, binding: Digest) {
    && Recorded(s.spends, h.spend((key, binding)))
    && (forall p :: p in s.asks && s.asks[p].Charged? ==> !(s.asks[p].q.key == key && h.BindingOf(s.asks[p].q) == binding))
    && !(key in s.operations && s.operations[key].decision == ALLOW && s.operations[key].binding == binding)
  }

  lemma LostChargeStays(h: Hashes, s: State, a: Action, key: Key, binding: Digest)
    requires Inv(h, s) && LostCharge(h, s, key, binding) && Step(h, s, a).Some?
    ensures LostCharge(h, Step(h, s, a).value, key, binding)
  {
    var t := Step(h, s, a).value;
    var e :| e in s.spends && e.messageHash == h.spend((key, binding));
    assert e in t.spends;
    if a.Finish? {
      assert s.asks[a.pid].Charged? && s.asks[a.pid].q.key == key ==> h.BindingOf(s.asks[a.pid].q) != binding;
    }
  }

  /** A lost charge is for good: the same payment under that operation is never charged again and never allowed. */
  lemma {:induction false} LostChargeIsFinal(h: Hashes, s: State, actions: seq<Action>, key: Key, binding: Digest)
    requires Inv(h, s) && LostCharge(h, s, key, binding) && Run(h, s, actions).Some?
    ensures var t := Run(h, s, actions).value;
            && Unique(t.spends) && Recorded(t.spends, h.spend((key, binding)))
            && forall d :: d in t.delivered && d.q.key == key && h.BindingOf(d.q) == binding ==> d.answer.decision != ALLOW
    decreases |actions|
  {
    if actions != [] {
      LostChargeStays(h, s, actions[0], key, binding);
      StepKeeps(h, s, actions[0]);
      LostChargeIsFinal(h, Step(h, s, actions[0]).value, actions[1..], key, binding);
    } else {
      forall d | d in s.delivered && d.q.key == key && h.BindingOf(d.q) == binding
        ensures d.answer.decision != ALLOW
      {
        assert DeliveredOk(h, s, d);
      }
    }
  }

  /** One request that runs alone to an `allow`. */
  function AloneToAllow(pid: nat, q: Request, mandate: Digest, autonomous: bool, at: int, tag: string): seq<Action> {
    [Ask(pid, q), Look(pid, tag), Charge(pid, mandate, autonomous, at), Finish(pid, ALLOW, tag, None, true)]
  }

  predicate MayBeDecided(h: Hashes, s: State, q: Request) {
    q.key in s.operations ==> s.operations[q.key].decision == REJECT_BEFORE_EXECUTION && s.operations[q.key].binding == h.BindingOf(q)
  }

  lemma RunTwo(h: Hashes, s: State, a: Action, b: Action, rest: seq<Action>)
    ensures Run(h, s, [a, b] + rest) ==
            if Step(h, s, a).None? then None
            else if Step(h, Step(h, s, a).value, b).None? then None
            else Run(h, Step(h, Step(h, s, a).value, b).value, rest)
  {
    assert ([a, b] + rest)[1..] == [b] + rest;
    assert ([b] + rest)[1..] == rest;
  }

  /**
   * When a charge can follow: a request gets a new charge and an `allow` exactly when its operation has no row, or one
   * still waiting for the same binding, and its own spend hash is unused. A lost charge leaves no row, so it blocks
   * its own payment only: the same operation id can be charged again for a different one.
   */
  lemma AllowedIff(h: Hashes, s: State, pid: nat, q: Request, mandate: Digest, autonomous: bool, at: int, tag: string)
    requires pid !in s.asks
    ensures var end := Run(h, s, AloneToAllow(pid, q, mandate, autonomous, at, tag));
            && (end.Some? <==> MayBeDecided(h, s, q) && !Recorded(s.spends, h.SpendHash(q)))
            && (end.Some? ==>
                  && end.value.spends == s.spends + [SpendRow(h, q, mandate, autonomous, at)]
                  && end.value.delivered == s.delivered + {Delivery(q, Answer(ALLOW, q.attempt, tag))}
                  && end.value.operations == s.operations[q.key := OperationOf(h, q, ALLOW, tag, None)])
  {
    var script := AloneToAllow(pid, q, mandate, autonomous, at, tag);
    var rest := [Charge(pid, mandate, autonomous, at), Finish(pid, ALLOW, tag, None, true)];
    assert script == [Ask(pid, q), Look(pid, tag)] + rest;
    RunTwo(h, s, Ask(pid, q), Look(pid, tag), rest);
    var looked := Step(h, Step(h, s, Ask(pid, q)).value, Look(pid, tag)).value;
    assert rest == rest + [];
    RunTwo(h, looked, rest[0], rest[1], []);
  }

  /** A request that is charged and then lost before its answer is stored. */
  function LosesItsCharge(pid: nat, q: Request, mandate: Digest, at: int): seq<Action> {
    [Ask(pid, q), Look(pid, "")] + ([Charge(pid, mandate, true, at), Stop(pid)] + [])
  }

  lemma ChargeIsLost(h: Hashes, q: Request, mandate: Digest, at: int)
    ensures Run(h, INITIAL, LosesItsCharge(0, q, mandate, at)) ==
            Some(State(map[], [SpendRow(h, q, mandate, true, at)], map[], {}, {q.payment}))
  {
    var rest := [Charge(0, mandate, true, at), Stop(0)] + [];
    var looked := State(map[], [], map[0 := Deciding(q, None)], {}, {q.payment});
    RunTwo(h, INITIAL, Ask(0, q), Look(0, ""), rest);
    var asked := Step(h, INITIAL, Ask(0, q)).value;
    assert asked.payments == {q.payment} && asked.asks == map[0 := Asked(q)];
    assert asked.asks[0 := Deciding(q, None)] == looked.asks;
    assert Step(h, asked, Look(0, "")) == Some(looked);
    RunTwo(h, looked, Charge(0, mandate, true, at), Stop(0), []);
    var charged := Step(h, looked, Charge(0, mandate, true, at)).value;
    assert charged.spends == [SpendRow(h, q, mandate, true, at)] && charged.asks - {0} == map[];
  }

  /**
   * The stronger promise fails: a charge whose answer was never stored, then a different payment under the same
   * operation id, which is charged and allowed too.
   */
  lemma OneOperationChargedTwice(h: Hashes, first: Request, second: Request, mandate: Digest, at: int)
    requires first.key == second.key && h.SpendHash(first) != h.SpendHash(second)
    ensures var s := Run(h, INITIAL, LosesItsCharge(0, first, mandate, at));
            && s.Some? && LostCharge(h, s.value, first.key, h.BindingOf(first))
            && var t := Run(h, s.value, AloneToAllow(1, second, mandate, true, at, ""));
               && t.Some?
               && t.value.spends == [SpendRow(h, first, mandate, true, at), SpendRow(h, second, mandate, true, at)]
               && Delivery(second, Answer(ALLOW, second.attempt, "")) in t.value.delivered
  {
    ChargeIsLost(h, first, mandate, at);
    var e := SpendRow(h, first, mandate, true, at);
    var s := State(map[], [e], map[], {}, {first.payment});
    assert e in s.spends;
    AllowedIff(h, s, 1, second, mandate, true, at, "");
  }

  /**
   * What an operation id already used means, from any state. A different payment is denied. A decided operation gives
   * its stored answer back to the same attempt; after an `allow` a new attempt is denied, after a `deny` it gets the
   * stored answer too. Only without a row, or with one still waiting for this payment, is anything decided. Looking
   * changes no operation and no spend.
   */
  lemma UsedOperation(h: Hashes, s: State, pid: nat, q: Request, tag: string)
    requires pid !in s.asks
    ensures var end := Run(h, s, [Ask(pid, q), Look(pid, tag)]);
            && end.Some? && end.value.operations == s.operations && end.value.spends == s.spends
            && (q.key in s.operations && s.operations[q.key].binding != h.binding(q.payment) ==>
                  end.value.delivered == s.delivered + {Delivery(q, Answer(DENY, q.attempt, tag))})
            && (q.key in s.operations && s.operations[q.key].binding == h.binding(q.payment) ==>
                  var row := s.operations[q.key];
                  && (row.decision != REJECT_BEFORE_EXECUTION && row.attempt == q.attempt ==>
                        end.value.delivered == s.delivered + {Delivery(q, row.answer)})
                  && (row.decision == ALLOW && row.attempt != q.attempt ==>
                        end.value.delivered == s.delivered + {Delivery(q, Answer(DENY, q.attempt, tag))})
                  && (row.decision == DENY && row.attempt != q.attempt ==>
                        end.value.delivered == s.delivered + {Delivery(q, row.answer)})
                  && (row.decision == REJECT_BEFORE_EXECUTION ==>
                        end.value.delivered == s.delivered && end.value.asks == s.asks[pid := Deciding(q, Some(row))]))
            && (q.key !in s.operations ==> end.value.delivered == s.delivered && end.value.asks == s.asks[pid := Deciding(q, None)])
  {
    assert [Ask(pid, q), Look(pid, tag)] == [Ask(pid, q), Look(pid, tag)] + [];
    RunTwo(h, s, Ask(pid, q), Look(pid, tag), []);
    assert s.asks[pid := Asked(q)][pid := Deciding(q, RowOf(s, q.key))] == s.asks[pid := Deciding(q, RowOf(s, q.key))];
  }

  // ---------------------------------------------------------------- the decision as it runs

  /** What the gate, the owner and the chain make of a request that is to be decided. */
  datatype Verdict = Grants | Refuses | AsksOwner(approvalId: string) | OwnerStillSilent | BreaksBefore | BreaksAfterCharge

  datatype Outside = Outside(verdict: Verdict, mandate: Digest, autonomous: bool, at: int, tag: string)

  /** The machine steps after a request was looked up and found undecided. */
  function Rest(pid: nat, row: Option<Operation>, mayCharge: bool, x: Outside): seq<Action> {
    match x.verdict
    case Refuses => [Finish(pid, DENY, x.tag, None, true)]
    case AsksOwner(id) => [Finish(pid, REJECT_BEFORE_EXECUTION, x.tag, Some(id), true)]
    case OwnerStillSilent => if row.Some? then [StillWaiting(pid)] else [Stop(pid)]
    case BreaksBefore => [Stop(pid)]
    case BreaksAfterCharge => if mayCharge then [Charge(pid, x.mandate, x.autonomous, x.at), Stop(pid)] else [Stop(pid)]
    case Grants =>
      if mayCharge then [Charge(pid, x.mandate, x.autonomous, x.at), Finish(pid, ALLOW, x.tag, None, true)] else [Stop(pid)]
  }

  function Script(h: Hashes, s: State, pid: nat, q: Request, x: Outside): seq<Action> {
    [Ask(pid, q), Look(pid, x.tag)] +
    if Recall(h, RowOf(s, q.key), q, x.tag).Some? then [] else Rest(pid, RowOf(s, q.key), !Recorded(s.spends, h.SpendHash(q)), x)
  }

  predicate Leaves(s: State, t: State, q: Request, operations: map<Key, Operation>, spends: seq<Entry>, answer: Option<Answer>) {
    && t.operations == operations && t.spends == spends
    && t.delivered == if answer.Some? then s.delivered + {Delivery(q, answer.value)} else s.delivered
  }

  function Looked(s: State, pid: nat, q: Request): State {
    s.(asks := s.asks[pid := Deciding(q, RowOf(s, q.key))], payments := s.payments + {q.payment})
  }

  /** An undecided request, looked up: the rest of its script runs from here. */
  lemma LooksUp(h: Hashes, s: State, pid: nat, q: Request, tag: string, rest: seq<Action>)
    requires pid !in s.asks && Recall(h, RowOf(s, q.key), q, tag).None?
    ensures Run(h, s, [Ask(pid, q), Look(pid, tag)] + rest) == Run(h, Looked(s, pid, q), rest)
  {
    RunTwo(h, s, Ask(pid, q), Look(pid, tag), rest);
    assert s.asks[pid := Asked(q)][pid := Deciding(q, RowOf(s, q.key))] == s.asks[pid := Deciding(q, RowOf(s, q.key))];
  }

  /** What the process leaves behind once the request is to be decided. */
  predicate Decides(h: Hashes, s: State, t: State, q: Request, x: Outside) {
    var row, mayCharge := RowOf(s, q.key), !Recorded(s.spends, h.SpendHash(q));
    var charge := SpendRow(h, q, x.mandate, x.autonomous, x.at);
    match x.verdict
    case Refuses => Leaves(s, t, q, s.operations[q.key := OperationOf(h, q, DENY, x.tag, None)], s.spends, Some(Answer(DENY, q.attempt, x.tag)))
    case AsksOwner(id) =>
      Leaves(s, t, q, s.operations[q.key := OperationOf(h, q, REJECT_BEFORE_EXECUTION, x.tag, Some(id))], s.spends,
             Some(Answer(REJECT_BEFORE_EXECUTION, q.attempt, x.tag)))
    case OwnerStillSilent => Leaves(s, t, q, s.operations, s.spends, if row.Some? then Some(row.value.answer) else None)
    case BreaksBefore => Leaves(s, t, q, s.operations, s.spends, None)
    case BreaksAfterCharge => Leaves(s, t, q, s.operations, if mayCharge then s.spends + [charge] else s.spends, None)
    case Grants =>
      if mayCharge then
        Leaves(s, t, q, s.operations[q.key := OperationOf(h, q, ALLOW, x.tag, None)], s.spends + [charge], Some(Answer(ALLOW, q.attempt, x.tag)))
      else Leaves(s, t, q, s.operations, s.spends, None)
  }

  lemma RunOne(h: Hashes, s: State, a: Action)
    ensures Run(h, s, [a]) == Step(h, s, a)
  {
    assert [a][1..] == [];
  }

  lemma RestEnds(h: Hashes, s: State, pid: nat, q: Request, x: Outside)
    requires Recall(h, RowOf(s, q.key), q, x.tag).None?
    ensures var end := Run(h, Looked(s, pid, q), Rest(pid, RowOf(s, q.key), !Recorded(s.spends, h.SpendHash(q)), x));
            end.Some? && Decides(h, s, end.value, q, x)
  {
    var looked, rest := Looked(s, pid, q), Rest(pid, RowOf(s, q.key), !Recorded(s.spends, h.SpendHash(q)), x);
    if |rest| == 1 {
      RunOne(h, looked, rest[0]);
      assert rest == [rest[0]];
    } else {
      assert rest == [rest[0], rest[1]] + [];
      RunTwo(h, looked, rest[0], rest[1], []);
    }
  }

  /** Where the script ends, spelled out: the stores and the answer that leaves the process. */
  lemma ScriptEnds(h: Hashes, s: State, pid: nat, q: Request, x: Outside)
    requires pid !in s.asks
    ensures var end, recalled := Run(h, s, Script(h, s, pid, q, x)), Recall(h, RowOf(s, q.key), q, x.tag);
            && end.Some?
            && if recalled.Some? then Leaves(s, end.value, q, s.operations, s.spends, recalled) else Decides(h, s, end.value, q, x)
  {
    if Recall(h, RowOf(s, q.key), q, x.tag).Some? {
      RunTwo(h, s, Ask(pid, q), Look(pid, x.tag), []);
    } else {
      LooksUp(h, s, pid, q, x.tag, Rest(pid, RowOf(s, q.key), !Recorded(s.spends, h.SpendHash(q)), x));
      RestEnds(h, s, pid, q, x);
    }
  }

  /**
   * What one request does to the two stores and what it answers, field by field: used operations first, then what the
   * gate, the owner or a failure made of a request that was to be decided.
   */
  predicate Rightly(h: Hashes, operations: map<Key, Operation>, spends: seq<Entry>, q: Request, x: Outside,
                    operations': map<Key, Operation>, spends': seq<Entry>, answer: Option<Answer>)
  {
    var used, binding := q.key in operations, h.binding(q.payment);
    var hash := h.spend((q.key, binding));
    var charge := Entry(x.mandate, PayCaller(q.key.caller), q.payment.amount, q.payment.amount, x.autonomous, q.payment.recipient, hash, x.at);
    var unpaid := forall e :: e in spends ==> e.messageHash != hash;
    if used && operations[q.key].binding != binding then
      operations' == operations && spends' == spends && answer == Some(Answer(DENY, q.attempt, x.tag))
    else if used && operations[q.key].decision != REJECT_BEFORE_EXECUTION then
      && operations' == operations && spends' == spends
      && answer == Some(if operations[q.key].decision == ALLOW && operations[q.key].attempt != q.attempt
                        then Answer(DENY, q.attempt, x.tag) else operations[q.key].answer)
    else match x.verdict
      case Refuses =>
        && operations' == operations[q.key := Operation(binding, q.attempt, DENY, Answer(DENY, q.attempt, x.tag), None)]
        && spends' == spends && answer == Some(Answer(DENY, q.attempt, x.tag))
      case AsksOwner(id) =>
        && operations' == operations[q.key := Operation(binding, q.attempt, REJECT_BEFORE_EXECUTION, Answer(REJECT_BEFORE_EXECUTION, q.attempt, x.tag), Some(id))]
        && spends' == spends && answer == Some(Answer(REJECT_BEFORE_EXECUTION, q.attempt, x.tag))
      case OwnerStillSilent =>
        operations' == operations && spends' == spends && answer == if used then Some(operations[q.key].answer) else None
      case BreaksBefore => operations' == operations && spends' == spends && answer == None
      case BreaksAfterCharge => operations' == operations && spends' == (if unpaid then spends + [charge] else spends) && answer == None
      case Grants =>
        if unpaid then
          && operations' == operations[q.key := Operation(binding, q.attempt, ALLOW, Answer(ALLOW, q.attempt, x.tag), None)]
          && spends' == spends + [charge] && answer == Some(Answer(ALLOW, q.attempt, x.tag))
        else operations' == operations && spends' == spends && answer == None
  }

  /** One request decided on the two stores: the same stores and the same answer as one run of the machine. */
  method Decide(operations: InMemoryPayOperationStore, spends: InMemoryVoucherSpendStore, h: Hashes, q: Request, x: Outside,
                ghost s: State, ghost pid: nat)
    returns (answer: Option<Answer>)
    requires s.operations == operations.rows && s.spends == spends.rows && pid !in s.asks
    modifies operations, spends
    ensures Rightly(h, old(operations.rows), old(spends.rows), q, x, operations.rows, spends.rows, answer)
    ensures var end := Run(h, s, Script(h, s, pid, q, x));
            end.Some? && Leaves(s, end.value, q, operations.rows, spends.rows, answer)
  {
    ScriptEnds(h, s, pid, q, x);
    var row := operations.Get(q.key);
    var recalled := Recall(h, row, q, x.tag);
    if recalled.Some? {
      return recalled;
    }
    match x.verdict
    case BreaksBefore => return None;
    case OwnerStillSilent => return if row.Some? then Some(row.value.answer) else None;
    case Refuses =>
      var _ := operations.Save(q.key, OperationOf(h, q, DENY, x.tag, None));
      return Some(Answer(DENY, q.attempt, x.tag));
    case AsksOwner(id) =>
      var _ := operations.Save(q.key, OperationOf(h, q, REJECT_BEFORE_EXECUTION, x.tag, Some(id)));
      return Some(Answer(REJECT_BEFORE_EXECUTION, q.attempt, x.tag));
    case BreaksAfterCharge =>
      var _ := spends.Record(SpendRow(h, q, x.mandate, x.autonomous, x.at));
      return None;
    case Grants =>
      var charged := spends.Record(SpendRow(h, q, x.mandate, x.autonomous, x.at));
      if charged.Err? {
        return None;
      }
      var _ := operations.Save(q.key, OperationOf(h, q, ALLOW, x.tag, None));
      return Some(Answer(ALLOW, q.attempt, x.tag));
  }
}
