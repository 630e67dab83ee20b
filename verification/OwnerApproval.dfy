/** Who may approve one payment, and when a wallet's approval counts (packages/mandate/src/owner-approval.ts). */
module OwnerApproval {
  import opened Prelude
  import opened Model

  datatype Signer = Signer(publicKey: Key, role: Role)

  predicate MayApprove(m: Mandate, l: Link) {
    (l.role == OWNER || l.role == APPROVER) && l.role in m.body.escalation.approverRoles && l.publicKey != m.body.agent
  }

  function SignersFrom(m: Mandate, chain: seq<Link>): (s: seq<Signer>)
    ensures forall k, r :: Signer(k, r) in s <==> exists l :: l in chain && MayApprove(m, l) && l.publicKey == k && l.role == r
  {
    if chain == [] then []
    else
      assert chain == [chain[0]] + chain[1..];
      (if MayApprove(m, chain[0]) then [Signer(chain[0].publicKey, chain[0].role)] else []) + SignersFrom(m, chain[1..])
  }

  function ApprovalSigners(m: Mandate): seq<Signer> { SignersFrom(m, m.chain) }

  datatype Checked = Accepted(signer: Signer) | Refused(reason: Refusal)

  datatype Refusal = BadScheme | AgentCannotApprove | NotASigner | ApprovalExpired | BadSignature

  function FindSigner(signers: seq<Signer>, key: Key): (r: Option<Signer>)
    ensures r.Some? ==> r.value in signers && r.value.publicKey == key
    ensures r.None? ==> forall s :: s in signers ==> s.publicKey != key
  {
    if signers == [] then None
    else if signers[0].publicKey == key then Some(signers[0])
    else FindSigner(signers[1..], key)
  }

  function VerifyOwnerApproval(w: World, terms: Terms, signature: OwnerSignature, signers: seq<Signer>, agent: Key, now: int): Checked {
    if signature.scheme != ED25519 then Refused(BadScheme)
    else if signature.signer == agent then Refused(AgentCannotApprove)
    else match FindSigner(signers, signature.signer)
      case None => Refused(NotASigner)
      case Some(signer) =>
        if now >= terms.expiresAt then Refused(ApprovalExpired)
        else if !w.Verify(signature.signer, ApprovalText(terms), signature.signature) then Refused(BadSignature)
        else Accepted(signer)
  }

  /**
   * An accepted approval was signed over exactly these terms, in time, by an owner or approver key of the
   * mandate whose role may approve, and never by the agent; and every such signature is accepted.
   */
  lemma ApprovalAcceptedIff(w: World, m: Mandate, terms: Terms, signature: OwnerSignature, now: int)
    ensures VerifyOwnerApproval(w, terms, signature, ApprovalSigners(m), m.body.agent, now).Accepted? <==>
            && signature.scheme == ED25519
            && now < terms.expiresAt
            && signature.signature == w.sign((signature.signer, ApprovalText(terms)))
            && signature.signer != m.body.agent
            && (exists l :: l in m.chain && l.publicKey == signature.signer && l.role in {OWNER, APPROVER} && l.role in m.body.escalation.approverRoles)
  {
    var signers := ApprovalSigners(m);
    var found := FindSigner(signers, signature.signer);
    if found.Some? {
      assert Signer(found.value.publicKey, found.value.role) in signers;
    }
    if l :| l in m.chain && l.publicKey == signature.signer && MayApprove(m, l) {
      assert Signer(l.publicKey, l.role) in signers;
    }
  }

  /** Two different payments never share an accepted approval signature, unless signatures collide. */
  lemma ApprovalSignatureFixesTerms(w: World, a: Terms, b: Terms, signature: OwnerSignature, signers: seq<Signer>, agent: Key, now: int, later: int)
    requires VerifyOwnerApproval(w, a, signature, signers, agent, now).Accepted?
    requires VerifyOwnerApproval(w, b, signature, signers, agent, later).Accepted?
    ensures a == b || CollidesIn(w.sign, {(signature.signer, ApprovalText(a)), (signature.signer, ApprovalText(b))})
  {
    Collide(w.sign, {(signature.signer, ApprovalText(a)), (signature.signer, ApprovalText(b))},
            (signature.signer, ApprovalText(a)), (signature.signer, ApprovalText(b)));
  }
}
