/**
 * The policy gate (packages/mandate/src/gate.ts): fifteen rules, hard and approvable, evaluated in order
 * over a rule list that is pushed to and rewritten in place. GateLaws.dfy says what the gate means.
 */
module Gate {
  import opened Prelude
  import opened Model
  import opened OwnerApproval
  import MandateChain

  datatype RuleId =
    | OFFER_WELL_FORMED | MANDATE_SIGNATURES | MANDATE_VALIDITY | MANDATE_NOT_REVOKED
    | NETWORK_ALLOWED | ASSET_ALLOWED | RESOURCE_ALLOWED | PAYTO_ALLOWED | MAX_PER_PAYMENT | PRICE_LIMIT
    | WINDOW_BUDGET | MAX_TOTAL | TRANSACTION_SIMULATION | ESCALATION_THRESHOLD | ESCALATION_APPROVAL

  datatype Status = PASS | FAIL | ESCALATE | OVERRIDDEN | SKIPPED

  datatype Decision = ALLOW | DENY | ESCALATED

  datatype Kind = AUTONOMOUS | APPROVED

  /** The machine-readable values a rule result carries. */
  datatype Detail = Words(text: string) | Units(units: int) | Listed(items: seq<string>) | Nothing

  datatype Rule = Rule(id: RuleId, status: Status, details: seq<Detail>)

  datatype Revocation = Revocation(revokedAt: int, reason: Option<string>)

  datatype Simulation = Simulation(success: bool, unknownPrograms: seq<string>, transferCount: int, matchesOffer: bool)

  datatype ApprovalStatus = PENDING | GRANTED | DENIED | EXPIRED | CONSUMED

  datatype Approver = Approver(userId: string, role: Role)

  datatype Approval = Approval(id: string, offerHash: Digest, status: ApprovalStatus, expiresAt: int, approver: Option<Approver>,
                               terms: Option<Terms>, signature: Option<OwnerSignature>)

  datatype Review = Review(reason: string, approvalId: Option<string>, approvedBy: Option<string>)

  datatype Context = Context(now: int, revoked: Option<Revocation>, channelPayer: Option<string>, window: nat, total: nat,
                             simulation: Option<Simulation>, requireSimulation: bool, approval: Option<Approval>, review: Option<Review>)

  datatype GateResult = GateResult(decision: Decision, kind: Option<Kind>, rules: seq<Rule>, failedRule: Option<RuleId>,
                                   requiredRoles: seq<Role>, offerHash: Option<Digest>, mandateHash: Option<Digest>)

  // ---------------------------------------------------------------- what was parsed

  /** An offer the schema accepts. */
  predicate OfferParses(o: Option<Offer>) { o.Some? && o.value.amount <= MAX_BASE_UNITS }

  predicate MandateParses(m: Option<Mandate>) { m.Some? && SchemaOk(m.value) }

  predicate OfferOk(o: Option<Offer>) { OfferParses(o) && o.value.amount > 0 }

  predicate MandateOk(w: World, m: Option<Mandate>) { MandateParses(m) && MandateChain.ChainValid(w, m.value) }

  // ---------------------------------------------------------------- one rule at a time

  function OfferRule(o: Option<Offer>): Rule {
    if !OfferParses(o) then Rule(OFFER_WELL_FORMED, FAIL, [])
    else if o.value.amount <= 0 then Rule(OFFER_WELL_FORMED, FAIL, [Units(o.value.amount)])
    else Rule(OFFER_WELL_FORMED, PASS, [])
  }

  function SignaturesRule(w: World, m: Option<Mandate>): Rule {
    if !MandateParses(m) then Rule(MANDATE_SIGNATURES, FAIL, [])
    else if MandateChain.ChainValid(w, m.value) then Rule(MANDATE_SIGNATURES, PASS, [Units(|m.value.chain|)])
    else Rule(MANDATE_SIGNATURES, FAIL, [Nothing])
  }

  function ValidityRule(m: Option<Mandate>, now: int): Rule {
    if !MandateParses(m) then Rule(MANDATE_VALIDITY, SKIPPED, [])
    else
      var b := m.value.body;
      Rule(MANDATE_VALIDITY, if b.notBefore <= now < b.expiresAt then PASS else FAIL, [Units(b.notBefore), Units(b.expiresAt), Units(now)])
  }

  function RevokedRule(m: Option<Mandate>, revoked: Option<Revocation>): Rule {
    if !MandateParses(m) then Rule(MANDATE_NOT_REVOKED, SKIPPED, [])
    else match revoked
      case None => Rule(MANDATE_NOT_REVOKED, PASS, [])
      case Some(r) => Rule(MANDATE_NOT_REVOKED, FAIL, [Units(r.revokedAt), if r.reason.None? then Nothing else Words(r.reason.value)])
  }

  function NetworkRule(m: Mandate, o: Offer): Rule {
    if o.network in m.body.scope.allowedNetworks && o.network == DEVNET then Rule(NETWORK_ALLOWED, PASS, [Words(o.network)])
    else Rule(NETWORK_ALLOWED, FAIL, [Words(o.network), Listed(m.body.scope.allowedNetworks)])
  }

  function AssetRule(m: Mandate, o: Offer): Rule {
    if o.asset in m.body.scope.allowedAssets then Rule(ASSET_ALLOWED, PASS, [Words(o.asset)])
    else Rule(ASSET_ALLOWED, FAIL, [Words(o.asset), Listed(m.body.scope.allowedAssets)])
  }

  predicate MatchesAny(w: World, url: string, patterns: seq<string>) { exists p :: p in patterns && w.matches(url, p) }

  function ResourceRule(w: World, m: Mandate, o: Offer): Rule {
    if MatchesAny(w, o.resourceUrl, m.body.escalation.resources) then Rule(RESOURCE_ALLOWED, ESCALATE, [Words(o.resourceUrl)])
    else if MatchesAny(w, o.resourceUrl, m.body.scope.allowedResources) then Rule(RESOURCE_ALLOWED, PASS, [Words(o.resourceUrl)])
    else Rule(RESOURCE_ALLOWED, FAIL, [Words(o.resourceUrl), Listed(m.body.scope.allowedResources)])
  }

  predicate FeePayerDiffers(o: Offer, channelPayer: Option<string>) {
    o.feePayer.Some? && channelPayer.Some? && o.feePayer.value != channelPayer.value
  }

  function PayToRule(m: Mandate, o: Offer, channelPayer: Option<string>): Rule {
    if FeePayerDiffers(o, channelPayer) then Rule(PAYTO_ALLOWED, FAIL, [Words(o.feePayer.value), Words(channelPayer.value)])
    else if o.payTo in m.body.scope.allowedPayTo then Rule(PAYTO_ALLOWED, PASS, [Words(o.payTo)])
    else Rule(PAYTO_ALLOWED, FAIL, [Words(o.payTo), Listed(m.body.scope.allowedPayTo)])
  }

  function PerPaymentRule(m: Mandate, o: Offer): Rule {
    var limits := m.body.scope.limits;
    if o.asset != limits.mint then Rule(MAX_PER_PAYMENT, FAIL, [Words(o.asset), Words(limits.mint)])
    else Rule(MAX_PER_PAYMENT, if o.amount > limits.maxPerPayment then FAIL else PASS, [Units(o.amount), Units(limits.maxPerPayment)])
  }

  function FindLimit(w: World, limits: seq<PriceLimit>, url: string): (r: Option<PriceLimit>)
    ensures r.Some? ==> r.value in limits
  {
    if limits == [] then None
    else if w.matches(url, limits[0].resource) then Some(limits[0])
    else FindLimit(w, limits[1..], url)
  }

  function PriceRule(w: World, m: Mandate, o: Offer): Rule {
    match FindLimit(w, m.body.scope.priceLimits, o.resourceUrl)
    case None => Rule(PRICE_LIMIT, PASS, [Words(o.resourceUrl)])
    case Some(p) =>
      var ceiling := ToleratedCeiling(p);
      Rule(PRICE_LIMIT, if o.amount <= ceiling then PASS else if o.amount <= p.hardMax then ESCALATE else FAIL,
           [Words(o.resourceUrl), Units(o.amount), Units(p.expected), Units(p.toleranceCenti), Units(ceiling), Units(p.hardMax)])
  }

  function WindowRule(m: Mandate, o: Offer, window: nat): Rule {
    Rule(WINDOW_BUDGET, if window + o.amount <= m.body.scope.limits.maxPerWindow then PASS else ESCALATE,
         [Units(window), Units(window + o.amount), Units(m.body.scope.limits.maxPerWindow), Units(m.body.scope.limits.windowSeconds)])
  }

  function TotalRule(m: Mandate, o: Offer, total: nat): Rule {
    Rule(MAX_TOTAL, if total + o.amount <= m.body.scope.limits.maxTotal then PASS else FAIL,
         [Units(total), Units(total + o.amount), Units(m.body.scope.limits.maxTotal)])
  }

  predicate SimulationOk(s: Simulation) {
    s.success && s.unknownPrograms == [] && s.transferCount == 1 && s.matchesOffer
  }

  function SimulationRule(c: Context, doomed: bool): Rule {
    match c.simulation
    case None =>
      if doomed then Rule(TRANSACTION_SIMULATION, SKIPPED, [])
      else Rule(TRANSACTION_SIMULATION, if c.requireSimulation then FAIL else PASS, [])
    case Some(s) => Rule(TRANSACTION_SIMULATION, if SimulationOk(s) then PASS else FAIL, [Units(s.transferCount), Listed(s.unknownPrograms)])
  }

  function ThresholdRule(m: Mandate, o: Offer): Rule {
    Rule(ESCALATION_THRESHOLD, if o.amount > m.body.escalation.threshold then ESCALATE else PASS,
         [Units(o.amount), Units(m.body.escalation.threshold)])
  }

  // ---------------------------------------------------------------- the approval

  datatype Problem =
    | NotGranted | OtherOffer | Lapsed | RoleNotPermitted | IncompleteSignature
    | SignedOtherOffer | SignedOtherMandate | SignedOtherApproval | SignatureRefused | RoleMismatch

  function Unless(ok: bool, p: Problem): seq<Problem> { if ok then [] else [p] }

  function SignedProblems(w: World, m: Mandate, offerHash: Digest, now: int, a: Approval): seq<Problem> {
    if a.signature.None? && a.terms.None? then []
    else if a.signature.None? || a.terms.None? then [IncompleteSignature]
    else
      var t := a.terms.value;
      Unless(t.offerHash == offerHash, SignedOtherOffer) +
      Unless(t.mandateHash == w.bodyHash(m.body), SignedOtherMandate) +
      Unless(t.approvalId == a.id && t.expiresAt == a.expiresAt, SignedOtherApproval) +
      match VerifyOwnerApproval(w, t, a.signature.value, ApprovalSigners(m), m.body.agent, now)
      case Refused(_) => [SignatureRefused]
      case Accepted(s) => Unless(a.approver.Some? && a.approver.value.role == s.role, RoleMismatch)
  }

  function ApprovalProblems(w: World, m: Mandate, offerHash: Digest, now: int, a: Approval): seq<Problem> {
    Unless(a.status == GRANTED, NotGranted) +
    Unless(a.offerHash == offerHash, OtherOffer) +
    Unless(now < a.expiresAt, Lapsed) +
    Unless(a.approver.Some? && a.approver.value.role in m.body.escalation.approverRoles, RoleNotPermitted) +
    SignedProblems(w, m, offerHash, now, a)
  }

  // ---------------------------------------------------------------- the gate as a function

  predicate Has(rules: seq<Rule>, s: Status) { rules != [] && (rules[0].status == s || Has(rules[1..], s)) }

  function IntegrityRules(w: World, m: Option<Mandate>, o: Option<Offer>, c: Context): (r: seq<Rule>)
    ensures |r| == 4
  {
    [OfferRule(o), SignaturesRule(w, m), ValidityRule(m, c.now), RevokedRule(m, c.revoked)]
  }

  function LimitRules(w: World, m: Mandate, o: Offer, c: Context): (r: seq<Rule>)
    ensures |r| == 8
  {
    [NetworkRule(m, o), AssetRule(m, o), ResourceRule(w, m, o), PayToRule(m, o, c.channelPayer),
     PerPaymentRule(m, o), PriceRule(w, m, o), WindowRule(m, o, c.window), TotalRule(m, o, c.total)]
  }

  const SCOPE_RULES: seq<RuleId> := [NETWORK_ALLOWED, ASSET_ALLOWED, RESOURCE_ALLOWED, PAYTO_ALLOWED, MAX_PER_PAYMENT,
                                     PRICE_LIMIT, WINDOW_BUDGET, MAX_TOTAL, TRANSACTION_SIMULATION, ESCALATION_THRESHOLD]

  function SkippedRules(): (r: seq<Rule>)
    ensures |r| == |SCOPE_RULES| && forall i :: 0 <= i < |r| ==> r[i] == Rule(SCOPE_RULES[i], SKIPPED, [])
  {
    seq(|SCOPE_RULES|, i requires 0 <= i < |SCOPE_RULES| => Rule(SCOPE_RULES[i], SKIPPED, []))
  }

  /** The approval as the gate sees it: only beside an intact mandate and offer. */
  function ProblemsOf(w: World, m: Option<Mandate>, o: Option<Offer>, c: Context): seq<Problem> {
    if c.approval.Some? && MandateOk(w, m) && OfferOk(o) then
      ApprovalProblems(w, m.value, w.offerHash(o.value), c.now, c.approval.value)
    else []
  }

  function ScopeRules(w: World, m: Option<Mandate>, o: Option<Offer>, c: Context): seq<Rule> {
    var integrity := IntegrityRules(w, m, o, c);
    if Has(integrity, FAIL) || !MandateOk(w, m) || !OfferOk(o) then SkippedRules()
    else
      var limits := LimitRules(w, m.value, o.value, c);
      var doomed := Has(integrity + limits, FAIL) || ProblemsOf(w, m, o, c) != [];
      limits + [SimulationRule(c, doomed), ThresholdRule(m.value, o.value)]
  }

  /** The fourteen rules that do not depend on a human. */
  function BaseRules(w: World, m: Option<Mandate>, o: Option<Offer>, c: Context): seq<Rule> {
    IntegrityRules(w, m, o, c) + ScopeRules(w, m, o, c)
  }

  function Overridden(r: Rule): Rule { if r.status == ESCALATE then r.(status := OVERRIDDEN) else r }

  function OverrideAll(rules: seq<Rule>): (r: seq<Rule>)
    ensures |r| == |rules| && forall i :: 0 <= i < |r| ==> r[i] == Overridden(rules[i])
  {
    seq(|rules|, i requires 0 <= i < |rules| => Overridden(rules[i]))
  }

  function ApprovalRule(status: Status, a: Approval): Rule { Rule(ESCALATION_APPROVAL, status, [Words(a.id)]) }

  function FinalRules(w: World, m: Option<Mandate>, o: Option<Offer>, c: Context): seq<Rule> {
    var base := BaseRules(w, m, o, c);
    if !(c.approval.Some? && MandateOk(w, m) && OfferOk(o)) then base
    else if ProblemsOf(w, m, o, c) != [] then base + [ApprovalRule(FAIL, c.approval.value)]
    else if Has(base, ESCALATE) && !Has(base, FAIL) then OverrideAll(base) + [ApprovalRule(PASS, c.approval.value)]
    else base + [ApprovalRule(PASS, c.approval.value)]
  }

  function Verdict(rules: seq<Rule>): (Decision, Option<Kind>) {
    if Has(rules, FAIL) then (DENY, None)
    else if Has(rules, ESCALATE) then (ESCALATED, None)
    else (ALLOW, Some(if Has(rules, OVERRIDDEN) then APPROVED else AUTONOMOUS))
  }

  function FirstWith(rules: seq<Rule>, s: Status): Option<RuleId> {
    if rules == [] then None
    else if rules[0].status == s then Some(rules[0].id)
    else FirstWith(rules[1..], s)
  }

  function Evaluate(w: World, m: Option<Mandate>, o: Option<Offer>, c: Context): GateResult {
    var rules := FinalRules(w, m, o, c);
    var (decision, kind) := Verdict(rules);
    GateResult(decision, kind, rules,
               if FirstWith(rules, FAIL).Some? then FirstWith(rules, FAIL) else FirstWith(rules, ESCALATE),
               if decision == ESCALATED && MandateOk(w, m) then m.value.body.escalation.approverRoles else [],
               if OfferOk(o) then Some(w.offerHash(o.value)) else None,
               if MandateParses(m) then Some(w.bodyHash(m.value.body)) else None)
  }

  // ---------------------------------------------------------------- the gate as it runs

  method EvaluateGate(w: World, m: Option<Mandate>, o: Option<Offer>, c: Context) returns (r: GateResult)
    ensures r == Evaluate(w, m, o, c)
  {
    var rules := PushIntegrity(w, m, o, c);
    var approved := c.approval.Some? && MandateOk(w, m) && OfferOk(o);
    var problems := if approved then ApprovalProblems(w, m.value, w.offerHash(o.value), c.now, c.approval.value) else [];
    rules := PushScope(w, m, o, c, rules, problems);
    if approved {
      rules := PushApproval(rules, problems, c.approval.value);
    }
    r := Summarise(w, m, o, rules);
  }

  method PushIntegrity(w: World, m: Option<Mandate>, o: Option<Offer>, c: Context) returns (rules: seq<Rule>)
    ensures rules == IntegrityRules(w, m, o, c)
  {
    rules := [];
    rules := rules + [OfferRule(o)];
    rules := rules + [SignaturesRule(w, m)];
    rules := rules + [ValidityRule(m, c.now), RevokedRule(m, c.revoked)];
  }

  method PushScope(w: World, m: Option<Mandate>, o: Option<Offer>, c: Context, integrity: seq<Rule>, problems: seq<Problem>) returns (rules: seq<Rule>)
    requires integrity == IntegrityRules(w, m, o, c) && problems == ProblemsOf(w, m, o, c)
    ensures rules == BaseRules(w, m, o, c)
  {
    if Has(integrity, FAIL) || !MandateOk(w, m) || !OfferOk(o) {
      rules := PushSkipped(integrity);
    } else {
      var limits := LimitRules(w, m.value, o.value, c);
      rules := integrity + limits;
      var doomed := Has(rules, FAIL) || problems != [];
      rules := rules + [SimulationRule(c, doomed), ThresholdRule(m.value, o.value)];
      assert rules == integrity + (limits + [SimulationRule(c, doomed), ThresholdRule(m.value, o.value)]);
    }
  }

  method PushSkipped(before: seq<Rule>) returns (rules: seq<Rule>)
    ensures rules == before + SkippedRules()
  {
    rules := before;
    for i := 0 to |SCOPE_RULES|
      invariant rules == before + SkippedRules()[..i]
    {
      rules := rules + [Rule(SCOPE_RULES[i], SKIPPED, [])];
      assert SkippedRules()[i] == Rule(SCOPE_RULES[i], SKIPPED, []);
    }
  }

  method PushApproval(base: seq<Rule>, problems: seq<Problem>, a: Approval) returns (rules: seq<Rule>)
    ensures problems != [] ==> rules == base + [ApprovalRule(FAIL, a)]
    ensures problems == [] && Has(base, ESCALATE) && !Has(base, FAIL) ==> rules == OverrideAll(base) + [ApprovalRule(PASS, a)]
    ensures problems == [] && !(Has(base, ESCALATE) && !Has(base, FAIL)) ==> rules == base + [ApprovalRule(PASS, a)]
  {
    rules := base;
    if problems != [] {
      rules := rules + [ApprovalRule(FAIL, a)];
    } else if Has(base, ESCALATE) && !Has(base, FAIL) {
      for i := 0 to |rules|
        invariant |rules| == |base|
        invariant forall j :: 0 <= j < |base| ==> rules[j] == if j < i then Overridden(base[j]) else base[j]
      {
        if rules[i].status == ESCALATE {
          rules := rules[i := rules[i].(status := OVERRIDDEN)];
        }
      }
      assert rules == OverrideAll(base);
      rules := rules + [ApprovalRule(PASS, a)];
    } else {
      rules := rules + [ApprovalRule(PASS, a)];
    }
  }

  method Summarise(w: World, m: Option<Mandate>, o: Option<Offer>, rules: seq<Rule>) returns (r: GateResult)
    ensures r.rules == rules && (r.decision, r.kind) == Verdict(rules)
    ensures r.failedRule == if FirstWith(rules, FAIL).Some? then FirstWith(rules, FAIL) else FirstWith(rules, ESCALATE)
    ensures r.requiredRoles == if r.decision == ESCALATED && MandateOk(w, m) then m.value.body.escalation.approverRoles else []
    ensures r.offerHash == if OfferOk(o) then Some(w.offerHash(o.value)) else None
    ensures r.mandateHash == if MandateParses(m) then Some(w.bodyHash(m.value.body)) else None
  {
    var decision, kind := ALLOW, None;
    if Has(rules, FAIL) {
      decision := DENY;
    } else if Has(rules, ESCALATE) {
      decision := ESCALATED;
    } else {
      kind := Some(if Has(rules, OVERRIDDEN) then APPROVED else AUTONOMOUS);
    }
    var failed := FirstWith(rules, FAIL);
    var escalated := FirstWith(rules, ESCALATE);
    r := GateResult(decision, kind, rules, if failed.Some? then failed else escalated,
                    if decision == ESCALATED && MandateOk(w, m) then m.value.body.escalation.approverRoles else [],
                    if OfferOk(o) then Some(w.offerHash(o.value)) else None,
                    if MandateParses(m) then Some(w.bodyHash(m.value.body)) else None);
  }
}
