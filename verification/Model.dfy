/** The signed documents of Atlas Rail as parsed values, and the outside world they are checked against. */
module Model {
  import opened Prelude
  import opened Jcs

  predicate IsAscii(t: Text) { forall i :: 0 <= i < |t| ==> t[i] < 0x80 }

  /** Base58 keys and signatures, ids and role names: plain ASCII text. */
  type Name = t: Text | IsAscii(t) witness []

  type Key = Name

  datatype Role = OWNER | APPROVER | AGENT | ADMIN | OtherRole(name: string)

  datatype Link = Link(role: Role, publicKey: Key, signature: Name, scheme: Option<string>)

  datatype Limits = Limits(mint: string, maxPerPayment: nat, maxPerWindow: nat, windowSeconds: nat, maxTotal: nat)

  /** `toleranceCenti` is the tolerance percentage times 100, truncated. */
  datatype PriceLimit = PriceLimit(resource: string, expected: nat, toleranceCenti: nat, hardMax: nat)

  datatype Scope = Scope(allowedNetworks: seq<string>, allowedAssets: seq<string>, allowedPayTo: seq<string>,
                         allowedResources: seq<string>, limits: Limits, priceLimits: seq<PriceLimit>)

  datatype Escalation = Escalation(threshold: nat, approverRoles: seq<Role>, resources: seq<string>, approvalTtlSeconds: nat)

  datatype Body = Body(id: string, organizationId: string, agent: Key, requiredApprovals: nat, scope: Scope,
                       escalation: Escalation, notBefore: int, expiresAt: int, nonce: string)

  datatype Mandate = Mandate(body: Body, chain: seq<Link>)

  datatype Offer = Offer(network: string, asset: string, payTo: string, amount: nat, resourceUrl: string,
                         feePayer: Option<string>, memo: Option<string>)

  /** What an owner's wallet signs for one payment. */
  datatype Terms = Terms(approvalId: string, mandateHash: Digest, kind: string, amount: nat, recipient: string,
                         requestHash: Digest, offerHash: Digest, expiresAt: int)

  datatype OwnerSignature = OwnerSignature(scheme: string, signer: Key, signature: Name)

  /** What one delegation link signs: a body, a position, a signer in a role, and the signature before it. */
  datatype LinkPayload = LinkPayload(mandateHash: Digest, index: nat, role: Role, publicKey: Key, previous: Option<Name>)

  datatype Domain = MandateLink | DecisionRecord | GateAuthorization

  /** Every signed content is a hash under its own domain, or the readable terms of one approval. */
  datatype Signed = Hashed(domain: Domain, hash: Digest) | ApprovalText(terms: Terms)

  const ED25519 := "ed25519"
  const MAX_BASE_UNITS: nat := 18446744073709551615
  const DEVNET := "solana:EtWTRABZaYq6iMfeYKouRu166VU2xqa1"

  /**
   * The outside world, all of it arbitrary: the hashes of mandate bodies, link payloads, offers and
   * decisions, the one signature a key makes for a content, and URL pattern matching.
   */
  datatype World = World(
    bodyHash: Body -> Digest,
    linkHash: LinkPayload -> Digest,
    offerHash: Offer -> Digest,
    sign: ((Key, Signed)) -> Name,
    matches: (string, string) -> bool)
  {
    predicate Verify(key: Key, content: Signed, signature: Name) { signature == sign((key, content)) }
  }

  /** The highest amount at or within tolerance of a price limit's reference price. */
  function ToleratedCeiling(limit: PriceLimit): nat {
    limit.expected + limit.expected * limit.toleranceCenti / 10_000
  }

  /** The relations between limits that make a mandate parse (packages/mandate/src/schema.ts). */
  predicate BodyOk(b: Body) {
    && b.expiresAt > b.notBefore
    && b.scope.limits.mint in b.scope.allowedAssets
    && b.scope.limits.maxPerPayment <= b.scope.limits.maxTotal <= MAX_BASE_UNITS
    && b.scope.limits.maxPerWindow <= MAX_BASE_UNITS
    && b.escalation.threshold <= b.scope.limits.maxPerPayment
    && 60 <= b.scope.limits.windowSeconds <= 31_536_000
    && 1 <= b.requiredApprovals <= 5
    && (forall n :: n in b.scope.allowedNetworks ==> n == DEVNET)
    && (forall p :: p in b.scope.priceLimits ==> p.hardMax >= p.expected && p.hardMax >= ToleratedCeiling(p))
  }

  predicate LinkOk(l: Link) {
    && (l.role == OWNER || l.role == APPROVER || l.role == AGENT)
    && (l.scheme.None? || l.scheme.value == ED25519)
  }

  predicate SchemaOk(m: Mandate) {
    BodyOk(m.body) && |m.chain| <= 8 && forall l :: l in m.chain ==> LinkOk(l)
  }
}
