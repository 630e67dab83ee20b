/**
 * Owner approvals (apps/api/src/agent/owner-approvals.ts, packages/database/src/owner-approval-store.ts): requests,
 * wallet signatures and uses interleave, each one reading a row first and moving it later by compare and set.
 */
module OwnerApprovals {
  import opened Prelude
  import opened Model
  import opened OwnerApproval
  import Gate
  import GateLaws

  datatype Status = PENDING | APPROVED | REJECTED | CONSUMED

  /** The one payment a request is about; nothing here changes after it is asked. */
  datatype Payment = Payment(id: string, kind: string, mandateHash: Digest, subjectHash: Digest, offerHash: Digest, amount: nat,
                             recipient: string, agent: Key, reason: string, expiresAt: int, signers: seq<Signer>)

  datatype Record = Record(payment: Payment, status: Status, decidedAt: Option<int>, ownerSignature: Option<OwnerSignature>)

  function TermsOf(p: Payment): Terms {
    Terms(p.id, p.mandateHash, p.kind, p.amount, p.recipient, p.subjectHash, p.offerHash, p.expiresAt)
  }

  datatype Patch = NoPatch | Decided(at: int, signature: OwnerSignature)

  function Patched(r: Record, status: Status, patch: Patch): Record {
    match patch
    case NoPatch => r.(status := status)
    case Decided(at, signature) => r.(status := status, decidedAt := Some(at), ownerSignature := Some(signature))
  }

  /** Compare and set: moves a row only if it is still where the caller saw it. */
  function Moved(rows: map<string, Record>, id: string, from: Status, to: Status, patch: Patch): Option<map<string, Record>> {
    if id in rows && rows[id].status == from then Some(rows[id := Patched(rows[id], to, patch)]) else None
  }

  class InMemoryOwnerApprovalStore {
    var rows: map<string, Record>

    constructor ()
      ensures rows == map[]
    {
      rows := map[];
    }

    method Create(r: Record) returns (created: bool)
      modifies this
      ensures created <==> r.payment.id !in old(rows)
      ensures rows == if created then old(rows)[r.payment.id := r] else old(rows)
    {
      created := r.payment.id !in rows;
      if created {
        rows := rows[r.payment.id := r];
      }
    }

    method Get(id: string) returns (r: Option<Record>)
      ensures r == if id in rows then Some(rows[id]) else None
    {
      r := if id in rows then Some(rows[id]) else None;
    }

    method Transition(id: string, from: Status, to: Status, patch: Patch) returns (moved: bool)
      modifies this
      ensures match Moved(old(rows), id, from, to, patch)
              case None => !moved && rows == old(rows)
              case Some(after) => moved && rows == after
    {
      if id !in rows || rows[id].status != from {
        return false;
      }
      rows := rows[id := Patched(rows[id], to, patch)];
      return true;
    }
  }

  // ---------------------------------------------------------------- one call, in its two halves

  /** What a request for approval was about: `subject` are the exact bytes (a voucher, or a pay.sh binding) it is bound to. */
  datatype Ask = Ask(kind: string, mandate: Mandate, subject: Bytes, offer: Offer, recipient: string, reason: string, ttlSeconds: int)

  datatype Expected = Expected(kind: string, mandateHash: Digest, subjectHash: Digest)

  datatype Setting = Setting(world: World, sha: Sha256)

  function PaymentOf(w: Setting, id: string, a: Ask, expiresAt: int): Payment {
    Payment(id, a.kind, w.world.bodyHash(a.mandate.body), w.sha(a.subject), w.world.offerHash(a.offer), a.offer.amount, a.recipient,
            a.mandate.body.agent, a.reason, expiresAt, ApprovalSigners(a.mandate))
  }

  function NewRecord(w: Setting, id: string, a: Ask, now: int): Record {
    Record(PaymentOf(w, id, a, now + a.ttlSeconds), PENDING, None, None)
  }

  function Verifies(w: World, p: Payment, signature: OwnerSignature, now: int): Checked {
    VerifyOwnerApproval(w, TermsOf(p), signature, p.signers, p.agent, now)
  }

  /** What a signature submitted against this row, as read, moves it to. */
  function SignPatch(w: World, r: Record, signature: OwnerSignature, now: int): Option<Patch> {
    if r.status != PENDING || Verifies(w, r.payment, signature, now).Refused? then None
    else Some(Decided(now, OwnerSignature(ED25519, signature.signer, signature.signature)))
  }

  /** Whether a row, as read, may be used for exactly this payment now. */
  predicate MayConsume(w: World, r: Record, e: Expected, now: int) {
    && r.status == APPROVED && r.ownerSignature.Some?
    && r.payment.kind == e.kind && r.payment.mandateHash == e.mandateHash && r.payment.subjectHash == e.subjectHash
    && Verifies(w, r.payment, r.ownerSignature.value, now).Accepted?
  }

  /** One of the payment's signers, not the agent, signed exactly this payment, and it has not lapsed at `now`. */
  predicate Covers(w: World, p: Payment, signature: OwnerSignature, now: int) {
    && signature.scheme == ED25519 && now < p.expiresAt
    && signature.signer != p.agent && (exists i :: 0 <= i < |p.signers| && p.signers[i].publicKey == signature.signer)
    && signature.signature ==
       w.sign((signature.signer,
               ApprovalText(Terms(p.id, p.mandateHash, p.kind, p.amount, p.recipient, p.subjectHash, p.offerHash, p.expiresAt))))
  }

  lemma VerifiesIff(w: World, p: Payment, signature: OwnerSignature, now: int)
    ensures Verifies(w, p, signature, now).Accepted? <==> Covers(w, p, signature, now)
  {
    var found := FindSigner(p.signers, signature.signer);
    if found.Some? {
      var i :| 0 <= i < |p.signers| && p.signers[i] == found.value;
    }
  }

  method SubmitSignature(store: InMemoryOwnerApprovalStore, w: World, id: string, signature: OwnerSignature, now: int) returns (ok: bool)
    modifies store
    ensures ok <==> id in old(store.rows) && old(store.rows)[id].status == PENDING && Covers(w, old(store.rows)[id].payment, signature, now)
    ensures store.rows == if ok then old(store.rows)[id := Record(old(store.rows)[id].payment, APPROVED, Some(now),
                                                                  Some(OwnerSignature(ED25519, signature.signer, signature.signature)))]
                          else old(store.rows)
  {
    if id in store.rows { VerifiesIff(w, store.rows[id].payment, signature, now); }
    var row := store.Get(id);
    if row.None? {
      return false;
    }
    var patch := SignPatch(w, row.value, signature, now);
    if patch.None? {
      return false;
    }
    ok := store.Transition(id, PENDING, APPROVED, patch.value);
  }

  method Consume(store: InMemoryOwnerApprovalStore, w: World, id: string, e: Expected, now: int) returns (used: Option<Record>)
    modifies store
    ensures used.Some? <==>
              && id in old(store.rows) && old(store.rows)[id].status == APPROVED && old(store.rows)[id].ownerSignature.Some?
              && var p := old(store.rows)[id].payment;
                 && e == Expected(p.kind, p.mandateHash, p.subjectHash)
                 && Covers(w, p, old(store.rows)[id].ownerSignature.value, now)
    ensures used.Some? ==> used.value == old(store.rows)[id] && store.rows == old(store.rows)[id := used.value.(status := CONSUMED)]
    ensures used.None? ==> store.rows == old(store.rows)
  {
    if id in store.rows && store.rows[id].ownerSignature.Some? {
      VerifiesIff(w, store.rows[id].payment, store.rows[id].ownerSignature.value, now);
    }
    var row := store.Get(id);
    if row.None? || !MayConsume(w, row.value, e, now) {
      return None;
    }
    var moved := store.Transition(id, APPROVED, CONSUMED, NoPatch);
    used := if moved then row else None;
  }

  // ---------------------------------------------------------------- many calls at once

  datatype Call = Signing(id: string, signature: OwnerSignature, row: Record) | Using(id: string, expected: Expected, row: Record)

  datatype Use = Use(id: string, expected: Expected, record: Record, at: int)

  /** `asks` remembers what each request was about, `uses` every approval a consume returned. */
  datatype State = State(rows: map<string, Record>, asks: map<string, Ask>, calls: map<nat, Call>, uses: seq<Use>)

  datatype Action =
    | Request(id: string, ask: Ask, now: int)
    | ReadToSign(pid: nat, id: string, signature: OwnerSignature)
    | ReadToUse(pid: nat, id: string, expected: Expected)
    | Move(pid: nat, now: int)
    | Stop(pid: nat)

  const INITIAL := State(map[], map[], map[], [])

  function Signed(w: Setting, s: State, pid: nat, c: Call, patch: Option<Patch>): State
    requires c.Signing?
  {
    var ended := s.(calls := s.calls - {pid});
    if patch.None? then ended
    else match Moved(s.rows, c.id, PENDING, APPROVED, patch.value)
      case None => ended
      case Some(rows) => ended.(rows := rows)
  }

  function Used(w: Setting, s: State, pid: nat, c: Call, now: int): State
    requires c.Using?
  {
    var ended := s.(calls := s.calls - {pid});
    if !MayConsume(w.world, c.row, c.expected, now) then ended
    else match Moved(s.rows, c.id, APPROVED, CONSUMED, NoPatch)
      case None => ended
      case Some(rows) => ended.(rows := rows, uses := s.uses + [Use(c.id, c.expected, c.row, now)])
  }

  function AfterMove(w: Setting, s: State, pid: nat, now: int): State
    requires pid in s.calls
  {
    var c := s.calls[pid];
    if c.Signing? then Signed(w, s, pid, c, SignPatch(w.world, c.row, c.signature, now)) else Used(w, s, pid, c, now)
  }

  /** One step between two awaits. A call that finds nothing to do just ends. */
  function Step(w: Setting, s: State, a: Action): Option<State> {
    match a
    case Request(id, ask, now) =>
      if id in s.rows then None
      else Some(s.(rows := s.rows[id := NewRecord(w, id, ask, now)], asks := s.asks[id := ask]))
    case ReadToSign(pid, id, signature) =>
      if pid in s.calls || id !in s.rows then None else Some(s.(calls := s.calls[pid := Signing(id, signature, s.rows[id])]))
    case ReadToUse(pid, id, expected) =>
      if pid in s.calls || id !in s.rows then None else Some(s.(calls := s.calls[pid := Using(id, expected, s.rows[id])]))
    case Move(pid, now) => if pid in s.calls then Some(AfterMove(w, s, pid, now)) else None
    case Stop(pid) => if pid in s.calls then Some(s.(calls := s.calls - {pid})) else None
  }

  function Run(w: Setting, s: State, actions: seq<Action>): Option<State>
    decreases |actions|
  {
    if actions == [] then Some(s)
    else match Step(w, s, actions[0])
      case None => None
      case Some(next) => Run(w, next, actions[1..])
  }

  // ---------------------------------------------------------------- the invariant

  function Rank(status: Status): nat {
    match status case PENDING => 0 case APPROVED => 1 case REJECTED => 2 case CONSUMED => 3
  }

  /** A later version of a row: further along, the same payment, and a signature once there is never replaced. */
  predicate Later(a: Record, b: Record) {
    && a.payment == b.payment && Rank(a.status) <= Rank(b.status)
    && (a.status != PENDING ==> b.ownerSignature == a.ownerSignature && b.decidedAt == a.decidedAt)
  }

  predicate Grounded(w: Setting, id: string, r: Record, ask: Ask) {
    && r.status != REJECTED
    && r.payment == PaymentOf(w, id, ask, r.payment.expiresAt)
    && (r.status == PENDING ==> r.ownerSignature.None?)
    && (r.status != PENDING ==>
          && r.ownerSignature.Some? && r.decidedAt.Some?
          && Verifies(w.world, r.payment, r.ownerSignature.value, r.decidedAt.value).Accepted?)
  }

  predicate RowOk(w: Setting, s: State, id: string)
    requires id in s.rows
  {
    id in s.asks && Grounded(w, id, s.rows[id], s.asks[id])
  }

  predicate CallOk(s: State, c: Call) { c.id in s.rows && Later(c.row, s.rows[c.id]) }

  predicate Spent(w: Setting, u: Use, row: Record) {
    row == u.record.(status := CONSUMED) && MayConsume(w.world, u.record, u.expected, u.at)
  }

  predicate UseOk(w: Setting, s: State, u: Use) { u.id in s.rows && Spent(w, u, s.rows[u.id]) }

  predicate DistinctUses(uses: seq<Use>) { forall i, j :: 0 <= i < j < |uses| ==> uses[i].id != uses[j].id }

  predicate Inv(w: Setting, s: State) { RowsOk(w, s) && CallsOk(s) && UsesOk(w, s) }

  lemma LaterStill(a: Record, b: Record, c: Record)
    requires Later(a, b) && Later(b, c)
    ensures Later(a, c)
  {
  }

  predicate RowsOk(w: Setting, s: State) { forall id :: id in s.rows ==> RowOk(w, s, id) }

  predicate CallsOk(s: State) { forall p :: p in s.calls ==> CallOk(s, s.calls[p]) }

  predicate UsesOk(w: Setting, s: State) { (forall i :: 0 <= i < |s.uses| ==> UseOk(w, s, s.uses[i])) && DistinctUses(s.uses) }

  predicate OneRow(s: State, t: State, id: string, moved: Record) {
    id in s.rows && t.rows == s.rows[id := moved]
  }

  lemma RowsMove(w: Setting, s: State, t: State, id: string, moved: Record)
    requires RowsOk(w, s) && OneRow(s, t, id, moved) && t.asks == s.asks
    requires id in s.asks && Grounded(w, id, moved, s.asks[id])
    ensures RowsOk(w, t)
  {
    forall other | other in t.rows
      ensures RowOk(w, t, other)
    {
      if other != id { assert RowOk(w, s, other); }
    }
  }

  lemma CallsMove(s: State, t: State, id: string, moved: Record, pid: nat)
    requires CallsOk(s) && OneRow(s, t, id, moved) && t.calls == s.calls - {pid} && Later(s.rows[id], moved)
    ensures CallsOk(t)
  {
    forall p | p in t.calls
      ensures CallOk(t, t.calls[p])
    {
      assert CallOk(s, s.calls[p]);
      if s.calls[p].id == id { LaterStill(s.calls[p].row, s.rows[id], moved); }
    }
  }

  /** A spent row cannot be spent again, so moving a row leaves every earlier use alone. */
  lemma UsesStay(w: Setting, s: State, t: State, id: string, moved: Record)
    requires UsesOk(w, s) && OneRow(s, t, id, moved) && s.rows[id].status != CONSUMED && t.uses == s.uses
    ensures UsesOk(w, t) && forall i :: 0 <= i < |s.uses| ==> s.uses[i].id != id
  {
    forall i | 0 <= i < |s.uses|
      ensures s.uses[i].id != id && UseOk(w, t, s.uses[i])
    {
      assert UseOk(w, s, s.uses[i]);
    }
  }

  lemma UsesGrow(w: Setting, s: State, t: State, u: Use)
    requires UsesOk(w, s) && t == s.(uses := s.uses + [u]) && UseOk(w, t, u)
    requires forall i :: 0 <= i < |s.uses| ==> s.uses[i].id != u.id
    ensures UsesOk(w, t)
  {
    forall i | 0 <= i < |s.uses|
      ensures UseOk(w, t, t.uses[i])
    {
      assert UseOk(w, s, s.uses[i]);
    }
  }

  /** A move on one row keeps everything: the row itself is later, the others are untouched. */
  lemma RowMoves(w: Setting, s: State, pid: nat, id: string, moved: Record)
    requires Inv(w, s) && id in s.rows && Later(s.rows[id], moved) && id in s.asks && Grounded(w, id, moved, s.asks[id])
    requires s.rows[id].status != CONSUMED
    ensures var t := s.(calls := s.calls - {pid}, rows := s.rows[id := moved]);
            Inv(w, t) && forall i :: 0 <= i < |s.uses| ==> s.uses[i].id != id
  {
    var t := s.(calls := s.calls - {pid}, rows := s.rows[id := moved]);
    RowsMove(w, s, t, id, moved);
    CallsMove(s, t, id, moved, pid);
    UsesStay(w, s, t, id, moved);
  }

  /** A signature that verifies against a row as it was read, on a row that is still pending: it verifies now. */
  lemma SignedRow(w: Setting, id: string, read: Record, row: Record, ask: Ask, signature: OwnerSignature, now: int)
    requires Grounded(w, id, row, ask) && Later(read, row) && row.status == PENDING
    requires SignPatch(w.world, read, signature, now).Some?
    ensures var signed := Patched(row, APPROVED, SignPatch(w.world, read, signature, now).value);
            Grounded(w, id, signed, ask) && Later(row, signed)
  {
    var signed := Patched(row, APPROVED, SignPatch(w.world, read, signature, now).value);
    assert signed.payment == read.payment;
  }

  /** A row read as approved and still approved is the row that was read. */
  lemma UsedRow(w: Setting, u: Use, row: Record, ask: Ask)
    requires Grounded(w, u.id, row, ask) && Later(u.record, row) && row.status == APPROVED
    requires MayConsume(w.world, u.record, u.expected, u.at)
    ensures row == u.record
    ensures Spent(w, u, row.(status := CONSUMED)) && Grounded(w, u.id, row.(status := CONSUMED), ask) && Later(row, row.(status := CONSUMED))
  {
  }

  lemma SigningKeeps(w: Setting, s: State, pid: nat, now: int)
    requires Inv(w, s) && pid in s.calls && s.calls[pid].Signing?
    requires SignPatch(w.world, s.calls[pid].row, s.calls[pid].signature, now).Some?
    requires s.calls[pid].id in s.rows && s.rows[s.calls[pid].id].status == PENDING
    ensures var c := s.calls[pid];
            Inv(w, s.(calls := s.calls - {pid}, rows := s.rows[c.id := Patched(s.rows[c.id], APPROVED, SignPatch(w.world, c.row, c.signature, now).value)]))
  {
    var c := s.calls[pid];
    assert CallOk(s, c) && RowOk(w, s, c.id);
    SignedRow(w, c.id, c.row, s.rows[c.id], s.asks[c.id], c.signature, now);
    var signed := Patched(s.rows[c.id], APPROVED, SignPatch(w.world, c.row, c.signature, now).value);
    RowMoves(w, s, pid, c.id, signed);
  }

  lemma UsingKeeps(w: Setting, s: State, pid: nat, now: int)
    requires Inv(w, s) && pid in s.calls && s.calls[pid].Using?
    requires MayConsume(w.world, s.calls[pid].row, s.calls[pid].expected, now)
    requires s.calls[pid].id in s.rows && s.rows[s.calls[pid].id].status == APPROVED
    ensures var c := s.calls[pid];
            Inv(w, s.(calls := s.calls - {pid}, rows := s.rows[c.id := s.rows[c.id].(status := CONSUMED)],
                      uses := s.uses + [Use(c.id, c.expected, c.row, now)]))
  {
    var c := s.calls[pid];
    var u := Use(c.id, c.expected, c.row, now);
    assert CallOk(s, c) && RowOk(w, s, c.id);
    UsedRow(w, u, s.rows[c.id], s.asks[c.id]);
    RowMoves(w, s, pid, c.id, s.rows[c.id].(status := CONSUMED));
    var moved := s.(calls := s.calls - {pid}, rows := s.rows[c.id := s.rows[c.id].(status := CONSUMED)]);
    UseAdded(w, moved, u);
  }

  lemma UseAdded(w: Setting, s: State, u: Use)
    requires Inv(w, s) && UseOk(w, s, u) && forall i :: 0 <= i < |s.uses| ==> s.uses[i].id != u.id
    ensures Inv(w, s.(uses := s.uses + [u]))
  {
    var t := s.(uses := s.uses + [u]);
    UsesGrow(w, s, t, u);
    forall id | id in t.rows
      ensures RowOk(w, t, id)
    {
      assert RowOk(w, s, id);
    }
    forall p | p in t.calls
      ensures CallOk(t, t.calls[p])
    {
      assert CallOk(s, s.calls[p]);
    }
  }

  lemma OnlyCallsEnd(w: Setting, s: State, t: State)
    requires Inv(w, s) && t == s.(calls := t.calls)
    requires forall p :: p in t.calls ==> (p in s.calls && t.calls[p] == s.calls[p]) || CallOk(s, t.calls[p])
    ensures Inv(w, t)
  {
    forall id | id in t.rows
      ensures RowOk(w, t, id)
    {
      assert RowOk(w, s, id);
    }
    forall p | p in t.calls
      ensures CallOk(t, t.calls[p])
    {
      assert p in s.calls && t.calls[p] == s.calls[p] ==> CallOk(s, s.calls[p]);
    }
    forall i | 0 <= i < |t.uses|
      ensures UseOk(w, t, t.uses[i])
    {
      assert UseOk(w, s, s.uses[i]);
    }
  }

  lemma RequestKeeps(w: Setting, s: State, id: string, ask: Ask, record: Record)
    requires Inv(w, s) && id !in s.rows && Grounded(w, id, record, ask)
    ensures Inv(w, s.(rows := s.rows[id := record], asks := s.asks[id := ask]))
  {
    var t := s.(rows := s.rows[id := record], asks := s.asks[id := ask]);
    forall other | other in t.rows
      ensures RowOk(w, t, other)
    {
      if other != id { assert RowOk(w, s, other); }
    }
    forall p | p in t.calls
      ensures CallOk(t, t.calls[p])
    {
      assert CallOk(s, s.calls[p]);
    }
    forall i | 0 <= i < |t.uses|
      ensures UseOk(w, t, t.uses[i])
    {
      assert UseOk(w, s, s.uses[i]);
    }
  }

  lemma MoveKeeps(w: Setting, s: State, pid: nat, now: int)
    requires Inv(w, s) && pid in s.calls
    ensures Inv(w, AfterMove(w, s, pid, now))
  {
    var c := s.calls[pid];
    if c.Signing? && SignPatch(w.world, c.row, c.signature, now).Some? && c.id in s.rows && s.rows[c.id].status == PENDING {
      SigningKeeps(w, s, pid, now);
    } else if c.Using? && MayConsume(w.world, c.row, c.expected, now) && c.id in s.rows && s.rows[c.id].status == APPROVED {
      UsingKeeps(w, s, pid, now);
    } else {
      OnlyCallsEnd(w, s, s.(calls := s.calls - {pid}));
    }
  }

  lemma MoveAdvances(w: Setting, s: State, pid: nat, now: int, id: string)
    requires pid in s.calls && CallOk(s, s.calls[pid]) && id in s.rows && RowOk(w, s, id)
    ensures id in AfterMove(w, s, pid, now).rows && Later(s.rows[id], AfterMove(w, s, pid, now).rows[id])
  {
  }

  /** Every step leaves every row as it was or further along. */
  lemma RowsOnlyAdvance(w: Setting, s: State, a: Action, id: string)
    requires Inv(w, s) && Step(w, s, a).Some? && id in s.rows
    ensures id in Step(w, s, a).value.rows && Later(s.rows[id], Step(w, s, a).value.rows[id])
  {
    if a.Move? {
      assert RowOk(w, s, id) && CallOk(s, s.calls[a.pid]);
      MoveAdvances(w, s, a.pid, a.now, id);
    }
  }

  lemma StepKeeps(w: Setting, s: State, a: Action)
    requires Inv(w, s) && Step(w, s, a).Some?
    ensures Inv(w, Step(w, s, a).value)
  {
    match a
    case Request(id, ask, now) => RequestKeeps(w, s, id, ask, NewRecord(w, id, ask, now));
    case Move(pid, now) => MoveKeeps(w, s, pid, now);
    case _ => OnlyCallsEnd(w, s, Step(w, s, a).value);
  }

  lemma {:induction false} RunKeeps(w: Setting, s: State, actions: seq<Action>)
    requires Inv(w, s) && Run(w, s, actions).Some?
    ensures Inv(w, Run(w, s, actions).value)
    decreases |actions|
  {
    if actions != [] {
      StepKeeps(w, s, actions[0]);
      RunKeeps(w, Step(w, s, actions[0]).value, actions[1..]);
    }
  }

  /** What a request stores: its payment, pending, until its own deadline, to be signed by the mandate's approvers. */
  lemma RequestStores(w: Setting, s: State, id: string, a: Ask, now: int)
    ensures Step(w, s, Request(id, a, now)).Some? <==> id !in s.rows
    ensures id !in s.rows ==>
              var r := Step(w, s, Request(id, a, now)).value.rows[id];
              && r.status == PENDING && r.decidedAt == None && r.ownerSignature == None
              && r.payment == Payment(id, a.kind, w.world.bodyHash(a.mandate.body), w.sha(a.subject), w.world.offerHash(a.offer),
                                      a.offer.amount, a.recipient, a.mandate.body.agent, a.reason, now + a.ttlSeconds, r.payment.signers)
              && forall k, role :: Signer(k, role) in r.payment.signers <==>
                   exists l :: l in a.mandate.chain && l.publicKey == k && l.role == role && role in {OWNER, APPROVER}
                               && role in a.mandate.body.escalation.approverRoles && k != a.mandate.body.agent
  {
    if id !in s.rows {
      forall k, role
        ensures Signer(k, role) in ApprovalSigners(a.mandate) <==>
                exists l :: l in a.mandate.chain && l.publicKey == k && l.role == role && role in {OWNER, APPROVER}
                            && role in a.mandate.body.escalation.approverRoles && k != a.mandate.body.agent
      {
        SignerIff(a.mandate, k, role);
      }
    }
  }

  lemma SignerIff(m: Mandate, k: Key, role: Role)
    ensures Signer(k, role) in ApprovalSigners(m) <==>
            exists l :: l in m.chain && l.publicKey == k && l.role == role && role in {OWNER, APPROVER}
                        && role in m.body.escalation.approverRoles && k != m.body.agent
  {
    if l :| l in m.chain && l.publicKey == k && l.role == role && role in {OWNER, APPROVER} && role in m.body.escalation.approverRoles && k != m.body.agent {
      assert MayApprove(m, l);
    }
  }

  // ---------------------------------------------------------------- the theorems

  /** A stored approval only moves PENDING, APPROVED, CONSUMED, and what it is about never changes. */
  lemma {:induction false} StatusOnlyForward(w: Setting, s: State, actions: seq<Action>, id: string)
    requires Inv(w, s) && Run(w, s, actions).Some? && id in s.rows
    ensures var t := Run(w, s, actions).value;
            && id in t.rows && Later(s.rows[id], t.rows[id])
            && s.rows[id].status in {PENDING, APPROVED, CONSUMED} && t.rows[id].status in {PENDING, APPROVED, CONSUMED}
    decreases |actions|
  {
    assert RowOk(w, s, id);
    if actions != [] {
      var t := Step(w, s, actions[0]).value;
      StepKeeps(w, s, actions[0]);
      RowsOnlyAdvance(w, s, actions[0], id);
      StatusOnlyForward(w, t, actions[1..], id);
      LaterStill(s.rows[id], t.rows[id], Run(w, t, actions[1..]).value.rows[id]);
    }
  }

  /** Of all the uses of one approval, at most one ever returns it. */
  lemma SingleUse(w: Setting, actions: seq<Action>, i: nat, j: nat)
    requires Run(w, INITIAL, actions).Some?
    requires i < |Run(w, INITIAL, actions).value.uses| && j < |Run(w, INITIAL, actions).value.uses|
    requires Run(w, INITIAL, actions).value.uses[i].id == Run(w, INITIAL, actions).value.uses[j].id
    ensures i == j
  {
    RunKeeps(w, INITIAL, actions);
  }

  /**
   * A returned approval carries an unexpired signature over its own terms, by a key the asking mandate lists as owner
   * or approver in a role that may approve, and never by the agent; and it is for exactly the payment expected.
   */
  lemma UsedApprovalIsSigned(w: Setting, actions: seq<Action>, i: nat)
    requires Run(w, INITIAL, actions).Some? && i < |Run(w, INITIAL, actions).value.uses|
    ensures var s := Run(w, INITIAL, actions).value;
            var u := s.uses[i];
            && u.id in s.asks && u.record.ownerSignature.Some?
            && var signature, a, m := u.record.ownerSignature.value, s.asks[u.id], s.asks[u.id].mandate;
               && signature.signature ==
                  w.world.sign((signature.signer,
                                ApprovalText(Terms(u.id, w.world.bodyHash(m.body), a.kind, a.offer.amount, a.recipient,
                                                   w.sha(a.subject), w.world.offerHash(a.offer), u.record.payment.expiresAt))))
               && u.at < u.record.payment.expiresAt
               && signature.signer != m.body.agent
               && (exists l :: l in m.chain && l.publicKey == signature.signer && l.role in {OWNER, APPROVER} && l.role in m.body.escalation.approverRoles)
               && u.expected == Expected(s.asks[u.id].kind, w.world.bodyHash(m.body), w.sha(s.asks[u.id].subject))
  {
    RunKeeps(w, INITIAL, actions);
    var s := Run(w, INITIAL, actions).value;
    var u := s.uses[i];
    assert UseOk(w, s, u) && RowOk(w, s, u.id);
    ApprovalAcceptedIff(w.world, s.asks[u.id].mandate, TermsOf(u.record.payment), u.record.ownerSignature.value, u.at);
  }

  /** The approval the gate is shown for a used record. */
  function GateApproval(r: Record): Gate.Approval {
    var role := if r.ownerSignature.None? then None
                else match FindSigner(r.payment.signers, r.ownerSignature.value.signer) case None => None case Some(s) => Some(Gate.Approver("wallet", s.role));
    Gate.Approval(r.payment.id, r.payment.offerHash, Gate.GRANTED, r.payment.expiresAt, role, Some(TermsOf(r.payment)), r.ownerSignature)
  }

  /**
   * The payment an approval lets through is the one the wallet signed: the same subject bytes, and the same slice
   * in the same offer, or a collision of SHA-256 or of the offer hash.
   */
  lemma AdmittedPaymentIsTheSignedOne(w: Setting, actions: seq<Action>, i: nat, m: Mandate, o: Offer, c: Gate.Context, subject: Bytes)
    requires Run(w, INITIAL, actions).Some? && i < |Run(w, INITIAL, actions).value.uses|
    requires c.approval == Some(GateApproval(Run(w, INITIAL, actions).value.uses[i].record))
    requires w.sha(subject) == Run(w, INITIAL, actions).value.uses[i].expected.subjectHash
    requires Gate.Evaluate(w.world, Some(m), Some(o), c).decision == Gate.ALLOW
    ensures var s := Run(w, INITIAL, actions).value;
            var u := s.uses[i];
            && u.id in s.asks
            && (subject == s.asks[u.id].subject || CollidesIn(w.sha, {subject, s.asks[u.id].subject}))
            && ((o == s.asks[u.id].offer && o.amount == TermsOf(u.record.payment).amount) || CollidesIn(w.world.offerHash, {o, s.asks[u.id].offer}))
  {
    RunKeeps(w, INITIAL, actions);
    var s := Run(w, INITIAL, actions).value;
    var u := s.uses[i];
    assert UseOk(w, s, u) && RowOk(w, s, u.id);
    GateLaws.AllowIff(w.world, Some(m), Some(o), c);
    GateLaws.ApprovalCountsIff(w.world, m, o, c);
    Collide(w.sha, {subject, s.asks[u.id].subject}, subject, s.asks[u.id].subject);
    Collide(w.world.offerHash, {o, s.asks[u.id].offer}, o, s.asks[u.id].offer);
  }

  /** A used approval always counts at the gate for its own offer under the mandate that asked, until it expires. */
  lemma UsedApprovalCounts(w: Setting, actions: seq<Action>, i: nat, o: Offer, c: Gate.Context)
    requires Run(w, INITIAL, actions).Some? && i < |Run(w, INITIAL, actions).value.uses|
    requires c.approval == Some(GateApproval(Run(w, INITIAL, actions).value.uses[i].record))
    ensures var s := Run(w, INITIAL, actions).value;
            var u := s.uses[i];
            && u.id in s.asks
            && (GateLaws.ApprovalCounts(w.world, s.asks[u.id].mandate, o, c) <==>
                w.world.offerHash(o) == u.record.payment.offerHash && c.now < u.record.payment.expiresAt)
  {
    RunKeeps(w, INITIAL, actions);
    var s := Run(w, INITIAL, actions).value;
    var u := s.uses[i];
    assert UseOk(w, s, u) && RowOk(w, s, u.id);
    var m := s.asks[u.id].mandate;
    ApprovalAcceptedIff(w.world, m, TermsOf(u.record.payment), u.record.ownerSignature.value, u.at);
    ApprovalAcceptedIff(w.world, m, TermsOf(u.record.payment), u.record.ownerSignature.value, c.now);
    GateLaws.ApprovalCountsIff(w.world, m, o, c);
  }
}
