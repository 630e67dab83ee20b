/**
 * A gate decision as a signed record: replayed by anyone, and checked by the wallet before it signs
 * (packages/mandate/src/decision.ts, packages/x402-client/src/gated-signer.ts).
 */
module Decision {
  import opened Prelude
  import opened Model
  import opened OwnerApproval
  import opened Gate
  import opened GateLaws
  import MandateChain

  datatype Snapshot = Snapshot(evaluatedAt: int, revoked: Option<Revocation>, window: nat, total: nat, simulation: Option<Simulation>,
                               requireSimulation: bool, approval: Option<Approval>, channelPayer: Option<string>, review: Option<Review>)

  datatype Record = Record(id: string, organizationId: string, mandateId: string, mandateHash: Digest, offer: Offer, offerHash: Digest,
                           decision: Gate.Decision, kind: Option<Kind>, rules: seq<Rule>, failedRule: Option<RuleId>, context: Snapshot)

  datatype InstanceSignature = InstanceSignature(publicKey: Key, signature: Name, scheme: Option<string>)

  datatype SignedDecision = SignedDecision(record: Record, decisionHash: Digest, instance: InstanceSignature)

  datatype AuthorizationBody = AuthorizationBody(decisionId: string, decisionHash: Digest, mandateHash: Digest, offerHash: Digest,
                                                 txMessageHash: Digest, agent: Key, notBefore: int, notAfter: int)

  datatype Authorization = Authorization(body: AuthorizationBody, instance: InstanceSignature)

  /** SHA-256 over the canonical text of a record and of an authorisation body. */
  datatype Hashes = Hashes(record: Record -> Digest, authorization: AuthorizationBody -> Digest)

  /** An empty string counts as no channel payer, as JavaScript truthiness has it. */
  function Present(payer: Option<string>): Option<string> {
    if payer.Some? && payer.value != "" then payer else None
  }

  function ContextToSnapshot(c: Context): Snapshot {
    Snapshot(c.now, c.revoked, c.window, c.total, c.simulation, c.requireSimulation, c.approval, Present(c.channelPayer), c.review)
  }

  function SnapshotToContext(s: Snapshot): Context {
    Context(s.evaluatedAt, s.revoked, Present(s.channelPayer), s.window, s.total, s.simulation, s.requireSimulation, s.approval, None)
  }

  function BuildRecord(w: World, id: string, m: Mandate, o: Offer, result: GateResult, c: Context): Record {
    Record(id, m.body.organizationId, m.body.id, w.bodyHash(m.body), o, w.offerHash(o),
           result.decision, result.kind, result.rules, result.failedRule, ContextToSnapshot(c))
  }

  function SignDecision(w: World, h: Hashes, record: Record, instance: Key): SignedDecision {
    var hash := h.record(record);
    SignedDecision(record, hash, InstanceSignature(instance, w.sign((instance, Hashed(DecisionRecord, hash))), Some(ED25519)))
  }

  predicate DecisionSignatureOk(w: World, h: Hashes, d: SignedDecision) {
    && h.record(d.record) == d.decisionHash
    && (d.instance.scheme.None? || d.instance.scheme.value == ED25519)
    && w.Verify(d.instance.publicKey, Hashed(DecisionRecord, d.decisionHash), d.instance.signature)
  }

  function Replay(w: World, m: Mandate, record: Record): GateResult {
    Evaluate(w, Some(m), Some(record.offer), SnapshotToContext(record.context))
  }

  predicate DecisionMatchesScope(w: World, m: Mandate, d: SignedDecision) {
    var record := d.record;
    if record.mandateHash != w.bodyHash(m.body) then false
    else if record.offerHash != w.offerHash(record.offer) then false
    else
      var replay := Replay(w, m, record);
      replay.decision == record.decision && replay.kind == record.kind && replay.rules == record.rules
  }

  lemma MatchingDecision(w: World, m: Mandate, d: SignedDecision)
    requires DecisionMatchesScope(w, m, d)
    ensures d.record.mandateHash == w.bodyHash(m.body) && d.record.offerHash == w.offerHash(d.record.offer)
    ensures Replay(w, m, d.record).decision == d.record.decision
  {
  }

  // ---------------------------------------------------------------- replay

  /** The one input a record does not keep: an empty channel payer that the gate compared with a fee payer. */
  predicate PayerLost(w: World, m: Mandate, o: Offer, c: Context) {
    && c.channelPayer == Some("")
    && o.feePayer.Some? && o.feePayer.value != ""
    && !Has(IntegrityRules(w, Some(m), Some(o), c), FAIL)
  }

  lemma LimitRulesAgree(w: World, m: Mandate, o: Offer, c: Context, d: Context)
    requires d == c.(channelPayer := d.channelPayer, review := d.review)
    requires PayToRule(m, o, c.channelPayer) == PayToRule(m, o, d.channelPayer)
    ensures LimitRules(w, m, o, c) == LimitRules(w, m, o, d)
  {
  }

  lemma ScopeRulesAgree(w: World, m: Mandate, o: Offer, c: Context, d: Context)
    requires d == c.(channelPayer := d.channelPayer, review := d.review)
    requires Has(IntegrityRules(w, Some(m), Some(o), c), FAIL) || PayToRule(m, o, c.channelPayer) == PayToRule(m, o, d.channelPayer)
    ensures ScopeRules(w, Some(m), Some(o), c) == ScopeRules(w, Some(m), Some(o), d)
  {
    assert IntegrityRules(w, Some(m), Some(o), c) == IntegrityRules(w, Some(m), Some(o), d);
    if !Has(IntegrityRules(w, Some(m), Some(o), c), FAIL) {
      LimitRulesAgree(w, m, o, c, d);
    }
  }

  /** The gate never reads the review, and reads the channel payer only in one rule. */
  lemma EvaluateAgrees(w: World, m: Mandate, o: Offer, c: Context, d: Context)
    requires d == c.(channelPayer := d.channelPayer, review := d.review)
    requires Has(IntegrityRules(w, Some(m), Some(o), c), FAIL) || PayToRule(m, o, c.channelPayer) == PayToRule(m, o, d.channelPayer)
    ensures Evaluate(w, Some(m), Some(o), c) == Evaluate(w, Some(m), Some(o), d)
  {
    ScopeRulesAgree(w, m, o, c, d);
    FinalRulesAgree(w, Some(m), Some(o), c, d);
  }

  lemma FinalRulesAgree(w: World, m: Option<Mandate>, o: Option<Offer>, c: Context, d: Context)
    requires c.approval == d.approval && c.now == d.now && c.revoked == d.revoked
    requires ScopeRules(w, m, o, c) == ScopeRules(w, m, o, d)
    ensures FinalRules(w, m, o, c) == FinalRules(w, m, o, d)
  {
    assert BaseRules(w, m, o, c) == BaseRules(w, m, o, d);
  }

  /** The eighth rule of a run that reached the scope rules is the payTo rule, overridden or not. */
  lemma PayToSlot(w: World, m: Mandate, o: Offer, c: Context)
    requires !Has(IntegrityRules(w, Some(m), Some(o), c), FAIL)
    ensures |FinalRules(w, Some(m), Some(o), c)| > 7 && FinalRules(w, Some(m), Some(o), c)[7] == PayToRule(m, o, c.channelPayer)
  {
    IntegrityStatus(w, Some(m), Some(o), c);
    var base := BaseRules(w, Some(m), Some(o), c);
    ScopeSlot(w, m, o, c);
    assert base[7] == ScopeRules(w, Some(m), Some(o), c)[3];
    FinalSlot(w, Some(m), Some(o), c, 7);
  }

  lemma ScopeSlot(w: World, m: Mandate, o: Offer, c: Context)
    requires !Has(IntegrityRules(w, Some(m), Some(o), c), FAIL) && MandateOk(w, Some(m)) && OfferOk(Some(o))
    ensures |ScopeRules(w, Some(m), Some(o), c)| == 10 && ScopeRules(w, Some(m), Some(o), c)[3] == PayToRule(m, o, c.channelPayer)
  {
    assert LimitRules(w, m, o, c)[3] == PayToRule(m, o, c.channelPayer);
  }

  lemma FinalSlot(w: World, m: Option<Mandate>, o: Option<Offer>, c: Context, i: nat)
    requires i < |BaseRules(w, m, o, c)|
    ensures i < |FinalRules(w, m, o, c)|
    ensures FinalRules(w, m, o, c)[i] in {BaseRules(w, m, o, c)[i], Overridden(BaseRules(w, m, o, c)[i])}
  {
  }

  /** Every record built from a gate run replays, exactly when no empty channel payer was lost on the way. */
  lemma ReplayIff(w: World, h: Hashes, id: string, m: Mandate, o: Offer, c: Context, instance: Key)
    ensures DecisionMatchesScope(w, m, SignDecision(w, h, BuildRecord(w, id, m, o, Evaluate(w, Some(m), Some(o), c), c), instance))
            <==> !PayerLost(w, m, o, c)
  {
    var d := SnapshotToContext(ContextToSnapshot(c));
    assert d == c.(channelPayer := Present(c.channelPayer), review := None);
    if PayerLost(w, m, o, c) {
      PayToSlot(w, m, o, c);
      PayToSlot(w, m, o, d);
      assert PayToRule(m, o, c.channelPayer).details[1] == Words("");
      assert |PayToRule(m, o, None).details| == 1 || PayToRule(m, o, None).details[1].Listed?;
    } else {
      EvaluateAgrees(w, m, o, c, d);
    }
  }

  // ---------------------------------------------------------------- the wallet

  datatype AuthorizationError =
    | UntrustedKey | OtherTransaction | OtherAgent | OutsideWindow | BadAuthorizationSignature | NotAllow | OtherDecision
    | OtherInstance | OtherMandate | OtherOfferHash | BadDecisionSignature | BadChain | ScopeMismatch

  datatype Expected = Expected(trusted: seq<Key>, now: int, txMessageHash: Digest, agent: Key, decision: SignedDecision, mandate: Mandate)

  /** Every check but the replay, in order. */
  function Guards(w: World, h: Hashes, a: Authorization, e: Expected): Option<AuthorizationError> {
    var b, d := a.body, e.decision;
    if a.instance.publicKey !in e.trusted then Some(UntrustedKey)
    else if b.txMessageHash != e.txMessageHash then Some(OtherTransaction)
    else if b.agent != e.agent then Some(OtherAgent)
    else if e.now < b.notBefore || e.now >= b.notAfter then Some(OutsideWindow)
    else if !w.Verify(a.instance.publicKey, Hashed(GateAuthorization, h.authorization(b)), a.instance.signature) then Some(BadAuthorizationSignature)
    else if d.record.decision != ALLOW then Some(NotAllow)
    else if d.record.id != b.decisionId || d.decisionHash != b.decisionHash then Some(OtherDecision)
    else if d.instance.publicKey != a.instance.publicKey then Some(OtherInstance)
    else if d.instance.publicKey !in e.trusted then Some(UntrustedKey)
    else if b.mandateHash != d.record.mandateHash || b.mandateHash != w.bodyHash(e.mandate.body) then Some(OtherMandate)
    else if b.offerHash != d.record.offerHash then Some(OtherOfferHash)
    else if !DecisionSignatureOk(w, h, d) then Some(BadDecisionSignature)
    else None
  }

  /** None when the wallet may sign. Fails closed on the first mismatch. */
  function VerifyGateAuthorization(w: World, h: Hashes, a: Authorization, e: Expected): Option<AuthorizationError> {
    var failed := Guards(w, h, a, e);
    if failed.Some? then failed
    else if !MandateChain.ChainValid(w, e.mandate) then Some(BadChain)
    else if !DecisionMatchesScope(w, e.mandate, e.decision) then Some(ScopeMismatch)
    else None
  }

  function CreateAuthorization(w: World, h: Hashes, d: SignedDecision, txMessageHash: Digest, agent: Key, now: int, ttl: int, instance: Key): Authorization {
    var body := AuthorizationBody(d.record.id, d.decisionHash, d.record.mandateHash, d.record.offerHash, txMessageHash, agent, now, now + ttl);
    Authorization(body, InstanceSignature(instance, w.sign((instance, Hashed(GateAuthorization, h.authorization(body)))), Some(ED25519)))
  }

  /**
   * Agreement: the authorisation issued for an ALLOW is accepted by the wallet exactly when the wallet
   * trusts the instance key, holds the named agent key and transaction, and looks inside the time window.
   */
  lemma WalletAcceptsAllow(w: World, h: Hashes, id: string, m: Mandate, o: Offer, c: Context, instance: Key,
                           txMessageHash: Digest, agent: Key, ttl: int, e: Expected)
    requires Evaluate(w, Some(m), Some(o), c).decision == ALLOW
    requires e.decision == SignDecision(w, h, BuildRecord(w, id, m, o, Evaluate(w, Some(m), Some(o), c), c), instance)
    requires e.mandate == m
    ensures VerifyGateAuthorization(w, h, CreateAuthorization(w, h, e.decision, txMessageHash, agent, c.now, ttl, instance), e).None? <==>
            && instance in e.trusted
            && e.txMessageHash == txMessageHash
            && e.agent == agent
            && c.now <= e.now < c.now + ttl
  {
    var a := CreateAuthorization(w, h, e.decision, txMessageHash, agent, c.now, ttl, instance);
    AllowReplays(w, h, id, m, o, c, instance);
    OwnGuards(w, h, e, txMessageHash, agent, c.now, ttl, instance);
    if Guards(w, h, a, e).None? {
      assert MandateChain.ChainValid(w, e.mandate) && DecisionMatchesScope(w, e.mandate, e.decision);
    }
  }

  /** An ALLOW rests on a valid chain and always replays: an empty channel payer would have been refused. */
  lemma AllowReplays(w: World, h: Hashes, id: string, m: Mandate, o: Offer, c: Context, instance: Key)
    requires Evaluate(w, Some(m), Some(o), c).decision == ALLOW
    ensures MandateChain.ChainValid(w, m)
    ensures DecisionMatchesScope(w, m, SignDecision(w, h, BuildRecord(w, id, m, o, Evaluate(w, Some(m), Some(o), c), c), instance))
  {
    AllowIff(w, Some(m), Some(o), c);
    ReplayIff(w, h, id, m, o, c, instance);
  }

  lemma OwnGuards(w: World, h: Hashes, e: Expected, txMessageHash: Digest, agent: Key, now: int, ttl: int, instance: Key)
    requires e.decision == SignDecision(w, h, e.decision.record, instance)
    requires e.decision.record.decision == ALLOW && e.decision.record.mandateHash == w.bodyHash(e.mandate.body)
    ensures Guards(w, h, CreateAuthorization(w, h, e.decision, txMessageHash, agent, now, ttl, instance), e).None? <==>
            instance in e.trusted && e.txMessageHash == txMessageHash && e.agent == agent && now <= e.now < now + ttl
  {
  }

  /** Every accepted authorisation rests on a decision that re-evaluates to ALLOW under this very mandate. */
  lemma WalletAcceptsOnlyAllow(w: World, h: Hashes, a: Authorization, e: Expected)
    requires VerifyGateAuthorization(w, h, a, e).None?
    ensures Replay(w, e.mandate, e.decision.record).decision == ALLOW
    ensures HardConditions(w, e.mandate, e.decision.record.offer, SnapshotToContext(e.decision.record.context))
    ensures a.body.txMessageHash == e.txMessageHash && a.body.agent == e.agent && a.body.notBefore <= e.now < a.body.notAfter
    ensures a.body.offerHash == w.offerHash(e.decision.record.offer) && a.body.mandateHash == w.bodyHash(e.mandate.body)
    ensures a.instance.publicKey in e.trusted && a.instance.signature == w.sign((a.instance.publicKey, Hashed(GateAuthorization, h.authorization(a.body))))
    ensures a.body.decisionId == e.decision.record.id && a.body.decisionHash == e.decision.decisionHash == h.record(e.decision.record)
    ensures e.decision.instance.publicKey == a.instance.publicKey
    ensures e.decision.instance.signature == w.sign((a.instance.publicKey, Hashed(DecisionRecord, e.decision.decisionHash)))
    ensures MandateChain.ChainValid(w, e.mandate)
    ensures e.decision.record.decision == ALLOW
    ensures e.decision.record.kind == Some(if AutonomousConditions(w, e.mandate, e.decision.record.offer, SnapshotToContext(e.decision.record.context))
                                           then AUTONOMOUS else APPROVED)
  {
    MatchingRecordIsTrue(w, e.mandate, e.decision);
    MatchingDecision(w, e.mandate, e.decision);
    ReplayedAllow(w, e.mandate, e.decision.record);
  }

  /**
   * What passing the replay says of a record: it is about this mandate and this offer, its decision and its kind are what
   * the mandate's conditions make of the recorded inputs, and its rule results are those of a fresh evaluation.
   */
  lemma MatchingRecordIsTrue(w: World, m: Mandate, d: SignedDecision)
    requires DecisionMatchesScope(w, m, d)
    ensures var record, o, c := d.record, d.record.offer, SnapshotToContext(d.record.context);
            && record.mandateHash == w.bodyHash(m.body) && record.offerHash == w.offerHash(o)
            && (record.decision == ALLOW <==>
                  && Intact(w, Some(m), Some(o)) && HardConditions(w, m, o, c)
                  && (if c.approval.None? then AutonomousConditions(w, m, o, c) else ApprovalCounts(w, m, o, c)))
            && (record.decision == ESCALATED <==>
                  Intact(w, Some(m), Some(o)) && HardConditions(w, m, o, c) && c.approval.None? && !AutonomousConditions(w, m, o, c))
            && record.kind == (if record.decision != ALLOW then None else if AutonomousConditions(w, m, o, c) then Some(AUTONOMOUS) else Some(APPROVED))
            && record.rules == Evaluate(w, Some(m), Some(o), c).rules
  {
    AllowIff(w, Some(m), Some(d.record.offer), SnapshotToContext(d.record.context));
    EscalateIff(w, Some(m), Some(d.record.offer), SnapshotToContext(d.record.context));
  }

  /** The snapshot keeps every input of the gate but an empty channel payer and the review. */
  lemma SnapshotKeeps(c: Context)
    ensures var back := SnapshotToContext(ContextToSnapshot(c));
            && back.now == c.now && back.revoked == c.revoked && back.window == c.window && back.total == c.total
            && back.simulation == c.simulation && back.requireSimulation == c.requireSimulation && back.approval == c.approval
            && back.channelPayer == (if c.channelPayer == Some("") then None else c.channelPayer) && back.review == None
  {
  }

  lemma ReplayedAllow(w: World, m: Mandate, record: Record)
    requires Replay(w, m, record).decision == ALLOW
    ensures HardConditions(w, m, record.offer, SnapshotToContext(record.context))
  {
    AllowIff(w, Some(m), Some(record.offer), SnapshotToContext(record.context));
  }

  // ---------------------------------------------------------------- the gated voucher signer

  datatype Refusal = NotAVoucher | NoAuthorization | NoDecision | Rejected(error: AuthorizationError)

  /** The wallet signs the 50 voucher bytes only under an authorisation that covers their SHA-256. */
  function SignVoucher(w: World, h: Hashes, sha: Sha256, message: Bytes, a: Option<Authorization>, d: Option<SignedDecision>,
                       m: Option<Mandate>, trusted: seq<Key>, now: int, key: Key): Result<Bytes, Refusal> {
    if |message| != 50 || message[0] != 0x56 || message[1] != 0x01 then Err(NotAVoucher)
    else if a.None? then Err(NoAuthorization)
    else if d.None? || m.None? then Err(NoDecision)
    else match VerifyGateAuthorization(w, h, a.value, Expected(trusted, now, sha(message), key, d.value, m.value))
      case Some(error) => Err(Rejected(error))
      case None => Ok(message)
  }

  /** A signed voucher was authorised for those bytes, or for other bytes with the same SHA-256. */
  lemma SignedVoucherWasAuthorised(w: World, h: Hashes, sha: Sha256, message: Bytes, authorised: Bytes, a: Authorization, d: SignedDecision,
                                   m: Mandate, trusted: seq<Key>, now: int, key: Key)
    requires SignVoucher(w, h, sha, message, Some(a), Some(d), Some(m), trusted, now, key).Ok?
    requires a.body.txMessageHash == sha(authorised)
    ensures |message| == 50 && message[0] == 0x56 && message[1] == 0x01
    ensures message == authorised || CollidesIn(sha, {message, authorised})
    ensures Replay(w, m, d.record).decision == ALLOW
  {
    WalletAcceptsOnlyAllow(w, h, a, Expected(trusted, now, sha(message), key, d, m));
    Collide(sha, {message, authorised}, message, authorised);
  }
}
