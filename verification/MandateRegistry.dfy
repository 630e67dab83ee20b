/**
 * The on-chain mandate registry (programs/atlas-mandate/src/lib.rs): mandates are created once and revoked for good,
 * and every mandate's roots are numbered without gaps, each written once.
 */
module MandateRegistry {
  import opened Prelude
  import BatchFile

  type Pubkey = Digest

  const MIN_WINDOW_SECONDS := 60
  const MAX_WINDOW_SECONDS := 31_536_000
  const ZERO: Digest := Zeros(32)

  datatype Terms = Terms(mandateHash: Digest, gateAuthority: Pubkey, mint: Pubkey, maxPerPayment: nat, maxPerWindow: nat, windowSeconds: int,
                         maxTotal: nat, escalationThreshold: nat, notBefore: int, expiresAt: int)

  datatype Mandate = Mandate(terms: Terms, owner: Pubkey, approver: Pubkey, agent: Pubkey, createdAt: int,
                             revoked: bool, revokedAt: int, revokedBy: Pubkey, nextRootSeq: nat)

  datatype Root = Root(merkleRoot: Digest, leafCount: nat, anchoredAt: int) | RootV2(merkleRoot: Digest, leafCount: nat, anchoredAt: int, batchHeader: Digest, batchFileHash: Digest)

  datatype RegistryError =
    | ApproverIsOwner | AgentNotIndependent | ZeroLimit | PerPaymentAboveTotal | WindowAboveTotal | InvalidWindow | InvalidValidity | AlreadyExpired
    | NotAuthorizedToRevoke | AlreadyRevoked | UnauthorizedAnchor | OutOfOrderSeq | EmptyBatch | MissingBatchHash | BatchHeaderMismatch
    | AccountInUse | AccountMissing

  /** Accounts by address: mandates at the address of their hash, roots at the address of (mandate, sequence). */
  datatype Ledger = Ledger(mandates: map<Pubkey, Mandate>, roots: map<(Pubkey, nat), Root>)

  datatype Instruction =
    | CreateMandate(address: Pubkey, terms: Terms, owner: Pubkey, approver: Pubkey, agent: Pubkey)
    | RevokeMandate(address: Pubkey, authority: Pubkey)
    | AnchorRoot(address: Pubkey, gate: Pubkey, seqNo: nat, merkleRoot: Digest, leafCount: nat)
    | AnchorRootV2(address: Pubkey, gate: Pubkey, seqNo: nat, merkleRoot: Digest, leafCount: nat, batchHeader: Digest, batchFileHash: Digest)

  function ValidateCreate(t: Terms, owner: Pubkey, approver: Pubkey, agent: Pubkey, now: int): Option<RegistryError> {
    if owner == approver then Some(ApproverIsOwner)
    else if agent == owner || agent == approver then Some(AgentNotIndependent)
    else if t.maxPerPayment == 0 || t.maxPerWindow == 0 || t.maxTotal == 0 then Some(ZeroLimit)
    else if t.maxPerPayment > t.maxTotal then Some(PerPaymentAboveTotal)
    else if t.maxPerWindow > t.maxTotal then Some(WindowAboveTotal)
    else if !(MIN_WINDOW_SECONDS <= t.windowSeconds <= MAX_WINDOW_SECONDS) then Some(InvalidWindow)
    else if t.expiresAt <= t.notBefore then Some(InvalidValidity)
    else if t.expiresAt <= now then Some(AlreadyExpired)
    else None
  }

  function Header(i: Instruction): Bytes
    requires i.AnchorRootV2?
  {
    BatchFile.HeaderText(i.address, i.seqNo, i.leafCount, i.merkleRoot, i.batchFileHash)
  }

  /** What the two anchor instructions check alike. */
  function AnchorProblem(h: Sha256, l: Ledger, i: Instruction): Option<RegistryError>
    requires i.AnchorRoot? || i.AnchorRootV2?
  {
    if i.address !in l.mandates then Some(AccountMissing)
    else if (i.address, i.seqNo) in l.roots then Some(AccountInUse)
    else if i.leafCount == 0 then Some(EmptyBatch)
    else if i.AnchorRootV2? && (i.batchHeader == ZERO || i.batchFileHash == ZERO) then Some(MissingBatchHash)
    else if i.gate != l.mandates[i.address].terms.gateAuthority then Some(UnauthorizedAnchor)
    else if i.seqNo != l.mandates[i.address].nextRootSeq then Some(OutOfOrderSeq)
    else if i.AnchorRootV2? && i.batchHeader != h(Header(i)) then Some(BatchHeaderMismatch)
    else if i.seqNo + 1 >= U64 then Some(OutOfOrderSeq)
    else None
  }

  function NewRoot(i: Instruction, now: int): Root
    requires i.AnchorRoot? || i.AnchorRootV2?
  {
    if i.AnchorRoot? then Root(i.merkleRoot, i.leafCount, now) else RootV2(i.merkleRoot, i.leafCount, now, i.batchHeader, i.batchFileHash)
  }

  /** When a mandate may be created: independent signers, sound limits, and a validity that has not passed. */
  predicate MayCreate(t: Terms, owner: Pubkey, approver: Pubkey, agent: Pubkey, now: int) {
    && owner != approver && agent != owner && agent != approver
    && 0 < t.maxPerPayment <= t.maxTotal && 0 < t.maxPerWindow <= t.maxTotal
    && 60 <= t.windowSeconds <= 31_536_000
    && t.notBefore < t.expiresAt && now < t.expiresAt
  }

  /** The account says what the instruction said. */
  predicate Names(m: Mandate, terms: Terms, owner: Pubkey, approver: Pubkey, agent: Pubkey) {
    m.terms == terms && m.owner == owner && m.approver == approver && m.agent == agent
  }

  predicate Fresh(m: Mandate, now: int) { m.createdAt == now && !m.revoked && m.revokedAt == 0 && m.revokedBy == ZERO && m.nextRootSeq == 0 }

  function Created(l: Ledger, address: Pubkey, terms: Terms, owner: Pubkey, approver: Pubkey, agent: Pubkey, now: int): Result<Ledger, RegistryError> {
    var problem := ValidateCreate(terms, owner, approver, agent, now);
    if address in l.mandates then Err(AccountInUse)
    else if problem.Some? then Err(problem.value)
    else Ok(l.(mandates := l.mandates[address := Mandate(terms, owner, approver, agent, now, false, 0, ZERO, 0)]))
  }

  function Revoked(l: Ledger, address: Pubkey, authority: Pubkey, now: int): Result<Ledger, RegistryError> {
    if address !in l.mandates then Err(AccountMissing)
    else
      var m := l.mandates[address];
      if authority != m.owner && authority != m.approver then Err(NotAuthorizedToRevoke)
      else if m.revoked then Err(AlreadyRevoked)
      else Ok(l.(mandates := l.mandates[address := m.(revoked := true, revokedAt := now, revokedBy := authority)]))
  }

  /** A new root account, and the next sequence number. */
  function Anchored(l: Ledger, address: Pubkey, seqNo: nat, root: Root): Ledger
    requires address in l.mandates
  {
    Ledger(l.mandates[address := l.mandates[address].(nextRootSeq := seqNo + 1)], l.roots[(address, seqNo) := root])
  }

  /** One instruction; a rejected one changes nothing. */
  function Execute(h: Sha256, l: Ledger, i: Instruction, now: int): Result<Ledger, RegistryError> {
    match i
    case CreateMandate(address, terms, owner, approver, agent) => Created(l, address, terms, owner, approver, agent, now)
    case RevokeMandate(address, authority) => Revoked(l, address, authority, now)
    case _ =>
      var problem := AnchorProblem(h, l, i);
      if problem.Some? then Err(problem.value) else Ok(Anchored(l, i.address, i.seqNo, NewRoot(i, now)))
  }

  class MandateProgram {
    var mandates: map<Pubkey, Mandate>
    var roots: map<(Pubkey, nat), Root>

    constructor ()
      ensures View() == Ledger(map[], map[])
    {
      mandates, roots := map[], map[];
    }

    function View(): Ledger
      reads this
    {
      Ledger(mandates, roots)
    }

    method Create(address: Pubkey, terms: Terms, owner: Pubkey, approver: Pubkey, agent: Pubkey, now: int) returns (error: Option<RegistryError>)
      modifies this
      ensures match Created(old(View()), address, terms, owner, approver, agent, now)
              case Err(e) => error == Some(e) && View() == old(View())
              case Ok(after) => error == None && View() == after
      ensures error.None? <==> address !in old(mandates) && MayCreate(terms, owner, approver, agent, now)
      ensures error.None? ==> roots == old(roots) && mandates.Keys == old(mandates).Keys + {address} &&
                              (forall a :: a in old(mandates) ==> mandates[a] == old(mandates)[a]) &&
                              Names(mandates[address], terms, owner, approver, agent) && Fresh(mandates[address], now)
    {
      if address in mandates {
        return Some(AccountInUse);
      }
      error := ValidateCreate(terms, owner, approver, agent, now);
      if error.None? {
        mandates := mandates[address := Mandate(terms, owner, approver, agent, now, false, 0, ZERO, 0)];
      }
    }

    method Revoke(address: Pubkey, authority: Pubkey, now: int) returns (error: Option<RegistryError>)
      modifies this
      ensures match Revoked(old(View()), address, authority, now)
              case Err(e) => error == Some(e) && View() == old(View())
              case Ok(after) => error == None && View() == after
      ensures error == if address !in old(mandates) then Some(AccountMissing)
                       else if authority !in {old(mandates)[address].owner, old(mandates)[address].approver} then Some(NotAuthorizedToRevoke)
                       else if old(mandates)[address].revoked then Some(AlreadyRevoked) else None
      ensures roots == old(roots)
      ensures mandates == if error.Some? then old(mandates)
                          else old(mandates)[address := old(mandates)[address].(revoked := true, revokedAt := now, revokedBy := authority)]
    {
      if address !in mandates {
        return Some(AccountMissing);
      }
      var m := mandates[address];
      if authority != m.owner && authority != m.approver {
        return Some(NotAuthorizedToRevoke);
      }
      if m.revoked {
        return Some(AlreadyRevoked);
      }
      mandates := mandates[address := m.(revoked := true, revokedAt := now, revokedBy := authority)];
      return None;
    }

    /** Both anchor instructions: the checks, then the new root account and the next sequence number. */
    method Anchor(h: Sha256, i: Instruction, now: int) returns (error: Option<RegistryError>)
      requires i.AnchorRoot? || i.AnchorRootV2?
      modifies this
      ensures match Execute(h, old(View()), i, now)
              case Err(e) => error == Some(e) && View() == old(View())
              case Ok(after) => error == None && View() == after
    {
      var problem := AnchorProblem(h, View(), i);
      if problem.Some? {
        return problem;
      }
      roots := roots[(i.address, i.seqNo) := NewRoot(i, now)];
      mandates := mandates[i.address := mandates[i.address].(nextRootSeq := i.seqNo + 1)];
      return None;
    }
  }

  // ---------------------------------------------------------------- what every run keeps

  datatype Event = Event(instruction: Instruction, now: int)

  function Apply(h: Sha256, l: Ledger, e: Event): Ledger {
    match Execute(h, l, e.instruction, e.now) case Ok(after) => after case Err(_) => l
  }

  function ApplyAll(h: Sha256, l: Ledger, events: seq<Event>): Ledger
    decreases |events|
  {
    if events == [] then l else ApplyAll(h, Apply(h, l, events[0]), events[1..])
  }

  /** The roots of a mandate are exactly those numbered below its counter. */
  predicate Numbered(l: Ledger, address: Pubkey)
    requires address in l.mandates
  {
    && l.mandates[address].nextRootSeq < U64
    && (forall k :: k in l.roots && k.0 == address ==> k.1 < l.mandates[address].nextRootSeq)
    && (forall n: nat :: n < l.mandates[address].nextRootSeq ==> (address, n) in l.roots)
  }

  /** Independent signers, and the limit relations creation checked. */
  predicate WellMade(m: Mandate) {
    && m.owner != m.approver && m.agent != m.owner && m.agent != m.approver
    && 0 < m.terms.maxPerPayment <= m.terms.maxTotal && 0 < m.terms.maxPerWindow <= m.terms.maxTotal
    && MIN_WINDOW_SECONDS <= m.terms.windowSeconds <= MAX_WINDOW_SECONDS && m.terms.notBefore < m.terms.expiresAt
    && (m.revoked ==> m.revokedBy == m.owner || m.revokedBy == m.approver)
  }

  predicate Inv(l: Ledger) {
    && (forall a :: a in l.mandates ==> Numbered(l, a) && WellMade(l.mandates[a]))
    && (forall k :: k in l.roots ==> k.0 in l.mandates)
  }

  /** Writing root `nextRootSeq` and counting it keeps the numbering, for this mandate and every other. */
  lemma AnchorKeeps(l: Ledger, address: Pubkey, seqNo: nat, root: Root)
    requires Inv(l) && address in l.mandates && l.mandates[address].nextRootSeq == seqNo && seqNo + 1 < U64
    ensures Inv(Anchored(l, address, seqNo, root))
  {
    var t := Anchored(l, address, seqNo, root);
    forall a | a in t.mandates
      ensures Numbered(t, a) && WellMade(t.mandates[a])
    {
      assert Numbered(l, a) && WellMade(l.mandates[a]);
    }
  }

  lemma MandateKeeps(l: Ledger, address: Pubkey, m: Mandate)
    requires Inv(l) && WellMade(m)
    requires if address in l.mandates then m.nextRootSeq == l.mandates[address].nextRootSeq else m.nextRootSeq == 0
    ensures Inv(l.(mandates := l.mandates[address := m]))
  {
    var t := l.(mandates := l.mandates[address := m]);
    forall a | a in t.mandates
      ensures Numbered(t, a) && WellMade(t.mandates[a])
    {
      if a in l.mandates { assert Numbered(l, a) && WellMade(l.mandates[a]); }
    }
  }

  lemma ApplyKeeps(h: Sha256, l: Ledger, e: Event)
    requires Inv(l)
    ensures Inv(Apply(h, l, e))
  {
    var i := e.instruction;
    if Execute(h, l, i, e.now).Ok? {
      match i
      case CreateMandate(address, terms, owner, approver, agent) =>
        MandateKeeps(l, address, Mandate(terms, owner, approver, agent, e.now, false, 0, ZERO, 0));
      case RevokeMandate(address, authority) =>
        MandateKeeps(l, address, l.mandates[address].(revoked := true, revokedAt := e.now, revokedBy := authority));
      case _ => AnchorKeeps(l, i.address, i.seqNo, NewRoot(i, e.now));
    }
  }

  lemma {:induction false} ApplyAllKeeps(h: Sha256, l: Ledger, events: seq<Event>)
    requires Inv(l)
    ensures Inv(ApplyAll(h, l, events))
    decreases |events|
  {
    if events != [] {
      ApplyKeeps(h, l, events[0]);
      ApplyAllKeeps(h, Apply(h, l, events[0]), events[1..]);
    }
  }

  /** A root, once written, is never changed; a mandate's terms and signers never change; revocation is final. */
  lemma {:induction false} WrittenOnce(h: Sha256, l: Ledger, events: seq<Event>, root: (Pubkey, nat), address: Pubkey)
    ensures var t := ApplyAll(h, l, events);
            && (root in l.roots ==> root in t.roots && t.roots[root] == l.roots[root])
            && (address in l.mandates ==>
                  && address in t.mandates
                  && t.mandates[address].terms == l.mandates[address].terms
                  && t.mandates[address].owner == l.mandates[address].owner && t.mandates[address].approver == l.mandates[address].approver
                  && t.mandates[address].agent == l.mandates[address].agent
                  && t.mandates[address].nextRootSeq >= l.mandates[address].nextRootSeq
                  && (l.mandates[address].revoked ==>
                        t.mandates[address].revoked && t.mandates[address].revokedAt == l.mandates[address].revokedAt
                        && t.mandates[address].revokedBy == l.mandates[address].revokedBy))
    decreases |events|
  {
    if events != [] { WrittenOnce(h, Apply(h, l, events[0]), events[1..], root, address); }
  }

  /** In every reachable ledger, a mandate's root accounts are exactly those with sequence 0 to `nextRootSeq - 1`. */
  lemma RootsAreNumbered(h: Sha256, events: seq<Event>, address: Pubkey, n: nat)
    ensures var l := ApplyAll(h, Ledger(map[], map[]), events);
            && (address in l.mandates ==> ((address, n) in l.roots <==> n < l.mandates[address].nextRootSeq))
            && (address !in l.mandates ==> (address, n) !in l.roots)
  {
    ApplyAllKeeps(h, Ledger(map[], map[]), events);
    var l := ApplyAll(h, Ledger(map[], map[]), events);
    if address in l.mandates { assert Numbered(l, address); }
    if (address, n) in l.roots { assert (address, n).0 == address; }
  }

  /**
   * In every reachable ledger both anchor instructions are accepted exactly on their own conditions: the root account
   * is never in the way, and a revoked mandate still takes evidence.
   */
  lemma AnchorAcceptedIff(h: Sha256, events: seq<Event>, i: Instruction, now: int)
    requires i.AnchorRoot? || i.AnchorRootV2?
    ensures var l := ApplyAll(h, Ledger(map[], map[]), events);
            Execute(h, l, i, now).Ok? <==>
              && i.address in l.mandates && i.leafCount > 0
              && i.gate == l.mandates[i.address].terms.gateAuthority
              && i.seqNo == l.mandates[i.address].nextRootSeq < U64 - 1
              && (i.AnchorRootV2? ==>
                    && i.batchHeader != Zeros(32) && i.batchFileHash != Zeros(32)
                    && i.batchHeader == h(BatchFile.HeaderText(i.address, i.seqNo, i.leafCount, i.merkleRoot, i.batchFileHash)))
  {
    RootsAreNumbered(h, events, i.address, i.seqNo);
  }

  /** Both authorised revokers succeed once, nobody else ever does, and no mandate is revoked any other way. */
  lemma RevokedOnlyByAuthority(h: Sha256, l: Ledger, e: Event, address: Pubkey)
    requires Inv(l) && address in l.mandates && !l.mandates[address].revoked
    ensures Apply(h, l, e).mandates[address].revoked <==>
              && e.instruction.RevokeMandate? && e.instruction.address == address
              && e.instruction.authority in {l.mandates[address].owner, l.mandates[address].approver}
  {
  }

  // ---------------------------------------------------------------- each instruction, field by field

  /** A create is accepted exactly at a free address by `MayCreate`, and each error is given only for its own reason. */
  lemma CreateAcceptedIff(h: Sha256, l: Ledger, address: Pubkey, t: Terms, owner: Pubkey, approver: Pubkey, agent: Pubkey, now: int)
    ensures var r := Execute(h, l, CreateMandate(address, t, owner, approver, agent), now);
            && (r.Ok? <==> address !in l.mandates && MayCreate(t, owner, approver, agent, now))
            && (r == Err(ApproverIsOwner) ==> owner == approver)
            && (r == Err(AgentNotIndependent) ==> agent == owner || agent == approver)
            && (r == Err(ZeroLimit) ==> t.maxPerPayment == 0 || t.maxPerWindow == 0 || t.maxTotal == 0)
            && (r == Err(PerPaymentAboveTotal) ==> t.maxPerPayment > t.maxTotal)
            && (r == Err(WindowAboveTotal) ==> t.maxPerWindow > t.maxTotal)
            && (r == Err(InvalidWindow) ==> t.windowSeconds < 60 || t.windowSeconds > 31_536_000)
            && (r == Err(InvalidValidity) ==> t.expiresAt <= t.notBefore)
            && (r == Err(AlreadyExpired) ==> t.expiresAt <= now)
  {
  }

  /** An accepted create adds this mandate, fresh and as named, and nothing else. */
  lemma CreateStores(h: Sha256, l: Ledger, address: Pubkey, t: Terms, owner: Pubkey, approver: Pubkey, agent: Pubkey, now: int)
    requires Execute(h, l, CreateMandate(address, t, owner, approver, agent), now).Ok?
    ensures var after := Execute(h, l, CreateMandate(address, t, owner, approver, agent), now).value;
            && after.roots == l.roots && after.mandates.Keys == l.mandates.Keys + {address}
            && (forall a :: a in l.mandates ==> after.mandates[a] == l.mandates[a])
            && Names(after.mandates[address], t, owner, approver, agent) && Fresh(after.mandates[address], now)
  {
  }

  /**
   * Who a mandate names, it names for good: after an accepted create and any further instructions the account says what
   * the instruction said; while it is live the named owner and the named approver can revoke it and the agent cannot.
   */
  lemma CreatedForGood(h: Sha256, l: Ledger, address: Pubkey, t: Terms, owner: Pubkey, approver: Pubkey, agent: Pubkey, now: int,
                       events: seq<Event>, later: int)
    requires Execute(h, l, CreateMandate(address, t, owner, approver, agent), now).Ok?
    ensures var end := ApplyAll(h, Execute(h, l, CreateMandate(address, t, owner, approver, agent), now).value, events);
            && address in end.mandates && Names(end.mandates[address], t, owner, approver, agent)
            && (!end.mandates[address].revoked ==>
                  && Execute(h, end, RevokeMandate(address, owner), later).Ok?
                  && Execute(h, end, RevokeMandate(address, approver), later).Ok?)
            && Execute(h, end, RevokeMandate(address, agent), later) == Err(NotAuthorizedToRevoke)
            && (end.mandates[address].revoked ==> Execute(h, end, RevokeMandate(address, owner), later) == Err(AlreadyRevoked))
  {
    CreateAcceptedIff(h, l, address, t, owner, approver, agent, now);
    CreateStores(h, l, address, t, owner, approver, agent, now);
    WrittenOnce(h, Execute(h, l, CreateMandate(address, t, owner, approver, agent), now).value, events, (address, 0), address);
  }

  /** An accepted revocation sets the three revocation fields of this mandate, and nothing else. */
  lemma RevokeStores(h: Sha256, l: Ledger, address: Pubkey, authority: Pubkey, now: int)
    requires Execute(h, l, RevokeMandate(address, authority), now).Ok?
    ensures var after := Execute(h, l, RevokeMandate(address, authority), now).value;
            && address in l.mandates && after.roots == l.roots && after.mandates.Keys == l.mandates.Keys
            && (forall a :: a in l.mandates && a != address ==> after.mandates[a] == l.mandates[a])
            && after.mandates[address] == l.mandates[address].(revoked := true, revokedAt := now, revokedBy := authority)
  {
  }

  /** An accepted anchor writes the instruction's own fields at its sequence number, counts it, and changes nothing else. */
  lemma AnchorStores(h: Sha256, l: Ledger, i: Instruction, now: int)
    requires (i.AnchorRoot? || i.AnchorRootV2?) && Execute(h, l, i, now).Ok?
    ensures var after := Execute(h, l, i, now).value;
            && i.address in l.mandates && after.mandates.Keys == l.mandates.Keys
            && (forall a :: a in l.mandates && a != i.address ==> after.mandates[a] == l.mandates[a])
            && after.mandates[i.address] == l.mandates[i.address].(nextRootSeq := i.seqNo + 1)
            && after.roots.Keys == l.roots.Keys + {(i.address, i.seqNo)}
            && (forall k :: k in l.roots && k != (i.address, i.seqNo) ==> after.roots[k] == l.roots[k])
            && var root := after.roots[(i.address, i.seqNo)];
               && root.merkleRoot == i.merkleRoot && root.leafCount == i.leafCount && root.anchoredAt == now
               && (root.RootV2? <==> i.AnchorRootV2?)
               && (i.AnchorRootV2? ==> root.batchHeader == i.batchHeader && root.batchFileHash == i.batchFileHash)
  {
  }
}
