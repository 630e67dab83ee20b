/** The delegation chain: signing it link by link, and checking it whole (packages/mandate/src/mandate.ts). */
module MandateChain {
  import opened Prelude
  import opened Jcs
  import opened Model

  datatype SigningError = WrongOrder | AlreadySigned | NotTheNamedAgent | NotEnoughApprovers

  /** Who may sign after whom: OWNER, then one or more APPROVERs, then the AGENT. */
  function NextRoles(previous: Option<Role>): set<Role> {
    match previous
    case None => {OWNER}
    case Some(OWNER) => {APPROVER}
    case Some(APPROVER) => {APPROVER, AGENT}
    case _ => {}
  }

  function Before(chain: seq<Link>, i: nat): Option<Link>
    requires i <= |chain|
  {
    if i == 0 then None else Some(chain[i - 1])
  }

  function RoleOf(l: Option<Link>): Option<Role> { if l.None? then None else Some(l.value.role) }

  function SignatureOf(l: Option<Link>): Option<Name> { if l.None? then None else Some(l.value.signature) }

  function Approvals(chain: seq<Link>): nat {
    if chain == [] then 0
    else Approvals(chain[..|chain| - 1]) + if chain[|chain| - 1].role == APPROVER then 1 else 0
  }

  /** What link `i` signs: it commits to the body, the position, the role, the key and the previous signature. */
  function PayloadOf(w: World, m: Mandate, i: nat): LinkPayload
    requires i < |m.chain|
  {
    LinkPayload(w.bodyHash(m.body), i, m.chain[i].role, m.chain[i].publicKey, SignatureOf(Before(m.chain, i)))
  }

  function ContentOf(w: World, m: Mandate, i: nat): Signed
    requires i < |m.chain|
  {
    Hashed(MandateLink, w.linkHash(PayloadOf(w, m, i)))
  }

  function SignMandate(w: World, m: Mandate, role: Role, signer: Key): Result<Mandate, SigningError> {
    var previous := Before(m.chain, |m.chain|);
    if role !in NextRoles(RoleOf(previous)) then Err(WrongOrder)
    else if exists l :: l in m.chain && l.publicKey == signer then Err(AlreadySigned)
    else if role == AGENT && signer != m.body.agent then Err(NotTheNamedAgent)
    else if role == AGENT && Approvals(m.chain) < m.body.requiredApprovals then Err(NotEnoughApprovers)
    else
      var payload := LinkPayload(w.bodyHash(m.body), |m.chain|, role, signer, SignatureOf(previous));
      var signature := w.sign((signer, Hashed(MandateLink, w.linkHash(payload))));
      Ok(m.(chain := m.chain + [Link(role, signer, signature, Some(ED25519))]))
  }

  // ---------------------------------------------------------------- verification

  predicate InOrderAt(chain: seq<Link>, i: nat)
    requires i < |chain|
  {
    chain[i].role in NextRoles(RoleOf(Before(chain, i)))
  }

  predicate SignedAt(w: World, m: Mandate, i: nat)
    requires i < |m.chain|
  {
    w.Verify(m.chain[i].publicKey, ContentOf(w, m, i), m.chain[i].signature)
  }

  predicate RolesInOrder(chain: seq<Link>) {
    && (forall i :: 0 <= i < |chain| ==> InOrderAt(chain, i))
    && chain != [] && chain[|chain| - 1].role == AGENT
  }

  predicate SignaturesOk(w: World, m: Mandate) {
    forall i :: 0 <= i < |m.chain| ==> SignedAt(w, m, i)
  }

  predicate DistinctSigners(chain: seq<Link>) {
    forall i, j :: 0 <= i < j < |chain| ==> chain[i].publicKey != chain[j].publicKey
  }

  predicate ChainValid(w: World, m: Mandate) {
    && SchemaOk(m)
    && RolesInOrder(m.chain)
    && SignaturesOk(w, m)
    && DistinctSigners(m.chain)
    && Approvals(m.chain) >= m.body.requiredApprovals
    && m.chain[|m.chain| - 1].publicKey == m.body.agent
  }

  // ---------------------------------------------------------------- what an accepted chain is

  /** An owner, one or more approvers, and the agent. */
  predicate Shape(chain: seq<Link>) {
    && |chain| >= 3 && chain[0].role == OWNER && chain[|chain| - 1].role == AGENT
    && forall i :: 0 < i < |chain| - 1 ==> chain[i].role == APPROVER
  }

  /** A link is its key's signature over the body hash, its own place, role and key, and the signature before it. */
  predicate SignsItsPlace(w: World, m: Mandate, i: nat)
    requires i < |m.chain|
  {
    var previous := if i == 0 then None else Some(m.chain[i - 1].signature);
    var payload := LinkPayload(w.bodyHash(m.body), i, m.chain[i].role, m.chain[i].publicKey, previous);
    m.chain[i].signature == w.sign((m.chain[i].publicKey, Hashed(MandateLink, w.linkHash(payload))))
  }

  predicate SignedThrough(w: World, m: Mandate) { forall i :: 0 <= i < |m.chain| ==> SignsItsPlace(w, m, i) }

  /** A parsed mandate whose chain has the shape, is signed through, by different keys, with enough approvers and the named agent. */
  predicate Acceptable(w: World, m: Mandate) {
    && SchemaOk(m) && Shape(m.chain) && SignedThrough(w, m)
    && (forall i, j :: 0 <= i < j < |m.chain| ==> m.chain[i].publicKey != m.chain[j].publicKey)
    && |m.chain| - 2 >= m.body.requiredApprovals
    && m.chain[|m.chain| - 1].publicKey == m.body.agent
  }

  lemma {:induction false} InnerIsApprover(chain: seq<Link>, i: nat)
    requires (forall j :: 0 <= j < |chain| ==> InOrderAt(chain, j)) && i + 1 < |chain|
    ensures chain[i].role == if i == 0 then OWNER else APPROVER
  {
    assert InOrderAt(chain, i) && InOrderAt(chain, i + 1);
    if i > 0 { InnerIsApprover(chain, i - 1); }
  }

  lemma ShapeIff(chain: seq<Link>)
    ensures RolesInOrder(chain) <==> Shape(chain)
  {
    if RolesInOrder(chain) {
      assert InOrderAt(chain, 0) && InOrderAt(chain, |chain| - 1);
      forall i | 0 <= i < |chain| - 1
        ensures chain[i].role == if i == 0 then OWNER else APPROVER
      {
        InnerIsApprover(chain, i);
      }
    }
    if Shape(chain) {
      forall i | 0 <= i < |chain|
        ensures InOrderAt(chain, i)
      {
        assert i == 0 || i - 1 == 0 || chain[i - 1].role == APPROVER;
      }
    }
  }

  lemma {:induction false} ApprovalsCount(chain: seq<Link>)
    requires chain != [] && chain[0].role == OWNER && forall i :: 0 < i < |chain| ==> chain[i].role == APPROVER
    ensures Approvals(chain) == |chain| - 1
  {
    var n := |chain| - 1;
    if n > 0 {
      ApprovalsCount(chain[..n]);
    } else {
      assert Approvals(chain[..0]) == 0;
    }
  }

  lemma SignedThroughIff(w: World, m: Mandate)
    ensures SignaturesOk(w, m) <==> SignedThrough(w, m)
  {
    forall i | 0 <= i < |m.chain|
      ensures SignedAt(w, m, i) <==> SignsItsPlace(w, m, i)
    {
    }
  }

  /** What verification accepts, link by link. */
  lemma AcceptedMeans(w: World, m: Mandate)
    ensures ChainValid(w, m) <==> Acceptable(w, m)
  {
    ShapeIff(m.chain);
    SignedThroughIff(w, m);
    if Shape(m.chain) {
      var n := |m.chain| - 1;
      ApprovalsCount(m.chain[..n]);
    }
  }

  datatype CheckId = SCHEMA | CHAIN_SHAPE | CHAIN_SIGNATURES | DISTINCT_SIGNERS | INDEPENDENT_APPROVERS | AGENT_ACCEPTANCE

  datatype Check = Check(id: CheckId, ok: bool)

  method ShapeOk(chain: seq<Link>) returns (ok: bool)
    ensures ok <==> Shape(chain)
    ensures ok <==> RolesInOrder(chain)
  {
    ShapeIff(chain);
    var expectedFrom: Option<Role> := None;
    for i := 0 to |chain|
      invariant expectedFrom == RoleOf(Before(chain, i))
      invariant forall j :: 0 <= j < i ==> InOrderAt(chain, j)
    {
      if chain[i].role !in NextRoles(expectedFrom) {
        assert !InOrderAt(chain, i);
        return false;
      }
      expectedFrom := Some(chain[i].role);
    }
    return expectedFrom == Some(AGENT);
  }

  method AllSignaturesVerify(w: World, m: Mandate) returns (ok: bool)
    ensures ok <==> SignedThrough(w, m)
    ensures ok <==> SignaturesOk(w, m)
  {
    SignedThroughIff(w, m);
    var previous: Option<Name> := None;
    for index := 0 to |m.chain|
      invariant previous == SignatureOf(Before(m.chain, index))
      invariant forall j :: 0 <= j < index ==> SignedAt(w, m, j)
    {
      var link := m.chain[index];
      var hash := w.linkHash(LinkPayload(w.bodyHash(m.body), index, link.role, link.publicKey, previous));
      if !w.Verify(link.publicKey, Hashed(MandateLink, hash), link.signature) {
        assert !SignedAt(w, m, index);
        return false;
      }
      previous := Some(link.signature);
    }
    return true;
  }

  method VerifyMandateChain(w: World, input: Option<Mandate>) returns (checks: seq<Check>, valid: bool)
    ensures valid <==> input.Some? && Acceptable(w, input.value)
    ensures valid <==> input.Some? && ChainValid(w, input.value)
    ensures valid <==> forall c :: c in checks ==> c.ok
  {
    checks := [];
    if input.None? || !SchemaOk(input.value) {
      checks := checks + [Check(SCHEMA, false)];
      assert checks[0] in checks;
      return checks, false;
    }
    checks := checks + [Check(SCHEMA, true)];
    var m := input.value;
    AcceptedMeans(w, m);
    var shape := ShapeOk(m.chain);
    checks := checks + [Check(CHAIN_SHAPE, shape)];
    if !shape {
      assert checks[1] in checks;
      return checks, false;
    }
    var signatures := AllSignaturesVerify(w, m);
    var distinct := DistinctSigners(m.chain);
    var enough := Approvals(m.chain) >= m.body.requiredApprovals;
    var agentMatches := m.chain[|m.chain| - 1].publicKey == m.body.agent;
    checks := checks + [Check(CHAIN_SIGNATURES, signatures), Check(DISTINCT_SIGNERS, distinct),
                        Check(INDEPENDENT_APPROVERS, enough && distinct), Check(AGENT_ACCEPTANCE, agentMatches)];
    assert checks[2].ok == signatures && checks[3].ok == distinct && checks[4].ok == (enough && distinct) && checks[5].ok == agentMatches;
    assert checks[2] in checks && checks[3] in checks && checks[4] in checks && checks[5] in checks;
    valid := signatures && distinct && enough && agentMatches;
  }

  // ---------------------------------------------------------------- signing and verifying agree

  function Prefix(m: Mandate, n: nat): Mandate
    requires n <= |m.chain|
  {
    m.(chain := m.chain[..n])
  }

  /** `m` is what signing produced, one link after another, from an empty chain. */
  ghost predicate Built(w: World, m: Mandate)
    decreases |m.chain|
  {
    if m.chain == [] then true
    else
      var n := |m.chain| - 1;
      && Built(w, Prefix(m, n))
      && SignMandate(w, Prefix(m, n), m.chain[n].role, m.chain[n].publicKey) == Ok(m)
  }

  /** What every signed chain keeps, complete or not. */
  ghost predicate Kept(w: World, m: Mandate) {
    && (forall l :: l in m.chain ==> LinkOk(l))
    && (forall i :: 0 <= i < |m.chain| ==> InOrderAt(m.chain, i))
    && SignaturesOk(w, m)
    && DistinctSigners(m.chain)
  }

  /** A link's place and content depend only on what comes before it. */
  lemma PrefixLinks(w: World, m: Mandate, n: nat, i: nat)
    requires i < n <= |m.chain|
    ensures InOrderAt(Prefix(m, n).chain, i) == InOrderAt(m.chain, i)
    ensures ContentOf(w, Prefix(m, n), i) == ContentOf(w, m, i)
    ensures SignedAt(w, Prefix(m, n), i) == SignedAt(w, m, i)
  {
    assert Before(Prefix(m, n).chain, i) == Before(m.chain, i);
  }

  lemma SigningAddsOneLink(w: World, m: Mandate, n: nat)
    requires n < |m.chain| && SignMandate(w, Prefix(m, n), m.chain[n].role, m.chain[n].publicKey) == Ok(Prefix(m, n + 1))
    ensures LinkOk(m.chain[n]) && InOrderAt(m.chain, n) && SignedAt(w, m, n)
    ensures forall i :: 0 <= i < n ==> m.chain[i].publicKey != m.chain[n].publicKey
  {
    var prior := Prefix(m, n);
    assert Before(prior.chain, n) == Before(m.chain, n);
    assert Prefix(m, n + 1).chain[n] == m.chain[n];
    forall i | 0 <= i < n
      ensures m.chain[i].publicKey != m.chain[n].publicKey
    {
      assert prior.chain[i] in prior.chain;
    }
  }

  lemma KeptGrows(w: World, m: Mandate, n: nat)
    requires |m.chain| == n + 1 && Kept(w, Prefix(m, n))
    requires LinkOk(m.chain[n]) && InOrderAt(m.chain, n) && SignedAt(w, m, n)
    requires forall i :: 0 <= i < n ==> m.chain[i].publicKey != m.chain[n].publicKey
    ensures Kept(w, m)
  {
    var prior := Prefix(m, n);
    assert m.chain == prior.chain + [m.chain[n]];
    forall i | 0 <= i < n
      ensures SignedAt(w, m, i) && InOrderAt(m.chain, i)
    {
      PrefixLinks(w, m, n, i);
      assert SignedAt(w, prior, i) && InOrderAt(prior.chain, i);
    }
  }

  lemma {:induction false} SigningKeeps(w: World, m: Mandate)
    requires Built(w, m)
    ensures Kept(w, m)
    decreases |m.chain|
  {
    if m.chain != [] {
      var n := |m.chain| - 1;
      var prior := Prefix(m, n);
      SigningKeeps(w, prior);
      assert Prefix(m, n + 1) == m;
      SigningAddsOneLink(w, m, n);
      KeptGrows(w, m, n);
    }
  }

  /** Every chain of at most 8 links that signing completes with the agent's link is accepted. */
  lemma SignedChainIsAccepted(w: World, m: Mandate)
    requires BodyOk(m.body) && |m.chain| <= 8 && Built(w, m)
    requires m.chain != [] && m.chain[|m.chain| - 1].role == AGENT
    ensures ChainValid(w, m)
  {
    SigningKeeps(w, m);
    var n := |m.chain| - 1;
    assert SignMandate(w, Prefix(m, n), m.chain[n].role, m.chain[n].publicKey) == Ok(m);
    assert m.chain[..n] == Prefix(m, n).chain;
  }

  /** The chain with every optional scheme field filled in. */
  function Schemed(m: Mandate): (r: Mandate)
    ensures r.body == m.body && |r.chain| == |m.chain|
    ensures forall i :: 0 <= i < |r.chain| ==> r.chain[i] == m.chain[i].(scheme := Some(ED25519))
  {
    m.(chain := seq(|m.chain|, i requires 0 <= i < |m.chain| => m.chain[i].(scheme := Some(ED25519))))
  }

  /** The link an accepted mandate holds at `n` is the one signing its prefix would add. */
  lemma AcceptedLinkIsSigned(w: World, m: Mandate, n: nat)
    requires ChainValid(w, m) && n < |m.chain|
    ensures SignMandate(w, Prefix(Schemed(m), n), m.chain[n].role, m.chain[n].publicKey) == Ok(Prefix(Schemed(m), n + 1))
  {
    var s := Schemed(m);
    var p := Prefix(s, n);
    assert m.chain[n] in m.chain;
    assert InOrderAt(m.chain, n) && SignedAt(w, m, n);
    assert RoleOf(Before(p.chain, n)) == RoleOf(Before(m.chain, n));
    assert SignatureOf(Before(p.chain, n)) == SignatureOf(Before(m.chain, n));
    forall l | l in p.chain
      ensures l.publicKey != m.chain[n].publicKey
    {
      var i :| 0 <= i < n && p.chain[i] == l;
      assert m.chain[i].publicKey != m.chain[n].publicKey;
    }
    if n + 1 < |m.chain| {
      NothingAfterAgent(m.chain, n);
    } else {
      SameApprovals(p.chain, m.chain[..n]);
    }
    assert Prefix(s, n + 1).chain == p.chain + [s.chain[n]];
  }

  lemma {:induction false} AcceptedPrefixIsSigned(w: World, m: Mandate, n: nat)
    requires ChainValid(w, m) && n <= |m.chain|
    ensures Built(w, Prefix(Schemed(m), n))
    decreases n
  {
    if n > 0 {
      AcceptedPrefixIsSigned(w, m, n - 1);
      AcceptedLinkIsSigned(w, m, n - 1);
      assert Prefix(Prefix(Schemed(m), n), n - 1) == Prefix(Schemed(m), n - 1);
    }
  }

  lemma NothingAfterAgent(chain: seq<Link>, i: nat)
    requires RolesInOrder(chain) && i + 1 < |chain|
    ensures chain[i].role != AGENT
  {
    assert InOrderAt(chain, i + 1);
  }

  lemma SchemesDoNotMatter(w: World, m: Mandate)
    requires SchemaOk(m) && ChainValid(w, Schemed(m))
    ensures ChainValid(w, m)
  {
    var s := Schemed(m);
    SameApprovals(m.chain, s.chain);
    forall i | 0 <= i < |m.chain|
      ensures SignedAt(w, m, i) && InOrderAt(m.chain, i)
    {
      assert SignedAt(w, s, i) && InOrderAt(s.chain, i);
      assert PayloadOf(w, s, i) == PayloadOf(w, m, i);
    }
  }

  /** Accepted is the same as signed: a mandate verifies exactly when signing could have produced it. */
  lemma AcceptedIffSigned(w: World, m: Mandate)
    requires SchemaOk(m)
    ensures ChainValid(w, m) <==> Built(w, Schemed(m)) && m.chain != [] && m.chain[|m.chain| - 1].role == AGENT
  {
    var s := Schemed(m);
    if ChainValid(w, m) {
      AcceptedPrefixIsSigned(w, m, |m.chain|);
      assert Prefix(s, |s.chain|) == s;
    }
    if Built(w, s) && m.chain != [] && m.chain[|m.chain| - 1].role == AGENT {
      SignedChainIsAccepted(w, s);
      SchemesDoNotMatter(w, m);
    }
  }

  lemma {:induction false} SameApprovals(a: seq<Link>, b: seq<Link>)
    requires |a| == |b| && forall i :: 0 <= i < |a| ==> a[i].role == b[i].role
    ensures Approvals(a) == Approvals(b)
  {
    if a != [] { SameApprovals(a[..|a| - 1], b[..|b| - 1]); }
  }

  // ---------------------------------------------------------------- the last signature fixes everything

  ghost function SignedPairs(w: World, m: Mandate): set<(Key, Signed)> {
    set i | 0 <= i < |m.chain| :: (m.chain[i].publicKey, ContentOf(w, m, i))
  }

  ghost function Payloads(w: World, m: Mandate): set<LinkPayload> {
    set i | 0 <= i < |m.chain| :: PayloadOf(w, m, i)
  }

  ghost predicate Broken(w: World, m: Mandate, n: Mandate) {
    || CollidesIn(w.sign, SignedPairs(w, m) + SignedPairs(w, n))
    || CollidesIn(w.linkHash, Payloads(w, m) + Payloads(w, n))
    || CollidesIn(w.bodyHash, {m.body, n.body})
  }

  ghost predicate SameUpToScheme(a: Link, b: Link) {
    a.role == b.role && a.publicKey == b.publicKey && a.signature == b.signature
  }

  /** One equal signature means one payload: the same body hash, position, role, key and signature before it. */
  lemma SignatureFixesPayload(w: World, m: Mandate, n: Mandate, i: nat, j: nat)
    requires SignaturesOk(w, m) && SignaturesOk(w, n) && i < |m.chain| && j < |n.chain|
    requires m.chain[i].signature == n.chain[j].signature
    ensures Broken(w, m, n) || PayloadOf(w, m, i) == PayloadOf(w, n, j)
  {
    var a, b := m.chain[i], n.chain[j];
    assert SignedAt(w, m, i) && SignedAt(w, n, j);
    PairsHold(w, m, i);
    PairsHold(w, n, j);
    Collide(w.sign, SignedPairs(w, m) + SignedPairs(w, n), (a.publicKey, ContentOf(w, m, i)), (b.publicKey, ContentOf(w, n, j)));
    if !Broken(w, m, n) {
      Collide(w.linkHash, Payloads(w, m) + Payloads(w, n), PayloadOf(w, m, i), PayloadOf(w, n, j));
    }
  }

  /** Backward along both chains: one equal signature makes everything before it equal. */
  lemma {:induction false} SignatureFixesPrefix(w: World, m: Mandate, n: Mandate, i: nat, j: nat)
    requires SignaturesOk(w, m) && SignaturesOk(w, n) && i < |m.chain| && j < |n.chain|
    requires m.chain[i].signature == n.chain[j].signature
    ensures Broken(w, m, n) || (i == j && m.body == n.body && forall k :: 0 <= k <= i ==> SameUpToScheme(m.chain[k], n.chain[k]))
    decreases i
  {
    SignatureFixesPayload(w, m, n, i, j);
    if !Broken(w, m, n) {
      assert PayloadOf(w, m, i) == PayloadOf(w, n, j);
      assert SameUpToScheme(m.chain[i], n.chain[j]);
      Collide(w.bodyHash, {m.body, n.body}, m.body, n.body);
      if i > 0 {
        assert SignatureOf(Before(m.chain, i)) == SignatureOf(Before(n.chain, j));
        SignatureFixesPrefix(w, m, n, i - 1, j - 1);
      }
    }
  }

  lemma PairsHold(w: World, m: Mandate, i: nat)
    requires i < |m.chain|
    ensures (m.chain[i].publicKey, ContentOf(w, m, i)) in SignedPairs(w, m) && PayloadOf(w, m, i) in Payloads(w, m)
  {
  }

  /** Two accepted mandates with one final signature are one mandate, up to the unsigned scheme field. */
  lemma FinalSignatureFixesMandate(w: World, m: Mandate, n: Mandate)
    requires ChainValid(w, m) && ChainValid(w, n)
    requires m.chain[|m.chain| - 1].signature == n.chain[|n.chain| - 1].signature
    ensures Broken(w, m, n) || (m.body == n.body && Schemed(m) == Schemed(n))
  {
    SignatureFixesPrefix(w, m, n, |m.chain| - 1, |n.chain| - 1);
    if !Broken(w, m, n) {
      assert Schemed(m).chain == Schemed(n).chain;
    }
  }
}
