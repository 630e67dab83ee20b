/** What the gate means: an exact characterisation, the approval table, and two-run monotonicity. */
module GateLaws {
  import opened Prelude
  import opened Model
  import opened OwnerApproval
  import opened Gate
  import MandateChain

  // ---------------------------------------------------------------- conditions, without rules

  /** The price limit that governs a resource is the first that matches it. */
  predicate Governs(w: World, limits: seq<PriceLimit>, url: string, i: nat) {
    i < |limits| && w.matches(url, limits[i].resource) && forall j :: 0 <= j < i ==> !w.matches(url, limits[j].resource)
  }

  /** No more than the governing limit's hard maximum, if one governs. */
  predicate UnderHardMax(w: World, limits: seq<PriceLimit>, o: Offer) {
    forall i :: 0 <= i < |limits| && Governs(w, limits, o.resourceUrl, i) ==> o.amount <= limits[i].hardMax
  }

  /** No further above the governing limit's expected price than its tolerance, in hundredths of a percent. */
  predicate InTolerance(w: World, limits: seq<PriceLimit>, o: Offer) {
    forall i :: 0 <= i < |limits| && Governs(w, limits, o.resourceUrl, i) ==>
      10_000 * (o.amount - limits[i].expected) <= limits[i].expected * limits[i].toleranceCenti
  }

  predicate Listed(w: World, url: string, patterns: seq<string>) { exists i :: 0 <= i < |patterns| && w.matches(url, patterns[i]) }

  /** The hard limits of the mandate on this offer. */
  predicate HardLimits(w: World, m: Mandate, o: Offer, c: Context) {
    && o.network in m.body.scope.allowedNetworks && o.network == DEVNET
    && o.asset in m.body.scope.allowedAssets && o.asset == m.body.scope.limits.mint
    && (Listed(w, o.resourceUrl, m.body.escalation.resources) || Listed(w, o.resourceUrl, m.body.scope.allowedResources))
    && (o.feePayer.Some? && c.channelPayer.Some? ==> o.feePayer == c.channelPayer)
    && o.payTo in m.body.scope.allowedPayTo
    && o.amount <= m.body.scope.limits.maxPerPayment
    && UnderHardMax(w, m.body.scope.priceLimits, o)
    && c.total + o.amount <= m.body.scope.limits.maxTotal
  }

  /** Nothing a human can override. */
  predicate HardConditions(w: World, m: Mandate, o: Offer, c: Context) {
    && m.body.notBefore <= c.now < m.body.expiresAt
    && c.revoked.None?
    && HardLimits(w, m, o, c)
    && (match c.simulation
        case None => !c.requireSimulation
        case Some(s) => s.success && s.unknownPrograms == [] && s.transferCount == 1 && s.matchesOffer)
  }

  /** Within the agent's own authority. */
  predicate AutonomousConditions(w: World, m: Mandate, o: Offer, c: Context) {
    && !Listed(w, o.resourceUrl, m.body.escalation.resources)
    && InTolerance(w, m.body.scope.priceLimits, o)
    && c.window + o.amount <= m.body.scope.limits.maxPerWindow
    && o.amount <= m.body.escalation.threshold
  }

  // ---------------------------------------------------------------- how the gate computes them

  lemma {:induction false} FindsGoverning(w: World, limits: seq<PriceLimit>, url: string)
    ensures match FindLimit(w, limits, url)
            case None => forall i: nat :: !Governs(w, limits, url, i)
            case Some(p) => exists i: nat :: Governs(w, limits, url, i) && limits[i] == p
  {
    if limits != [] && !w.matches(url, limits[0].resource) {
      FindsGoverning(w, limits[1..], url);
      forall i: nat
        ensures Governs(w, limits, url, i) <==> i > 0 && Governs(w, limits[1..], url, i - 1)
      {
        GovernsTail(w, limits, url, i);
      }
      if FindLimit(w, limits, url).Some? {
        var i: nat :| Governs(w, limits[1..], url, i) && limits[1..][i] == FindLimit(w, limits, url).value;
        assert Governs(w, limits, url, i + 1) && limits[i + 1] == limits[1..][i];
      }
    } else if limits != [] {
      assert Governs(w, limits, url, 0);
    }
  }

  lemma GovernsTail(w: World, limits: seq<PriceLimit>, url: string, i: nat)
    requires limits != [] && !w.matches(url, limits[0].resource)
    ensures Governs(w, limits, url, i) <==> i > 0 && Governs(w, limits[1..], url, i - 1)
  {
    if i > 0 && i < |limits| && Governs(w, limits[1..], url, i - 1) {
      forall j | 0 <= j < i
        ensures !w.matches(url, limits[j].resource)
      {
        if j > 0 { assert limits[1..][j - 1] == limits[j]; }
      }
    }
    if Governs(w, limits, url, i) && i > 0 {
      forall j | 0 <= j < i - 1
        ensures !w.matches(url, limits[1..][j].resource)
      {
        assert limits[1..][j] == limits[j + 1];
      }
    }
  }

  lemma GovernsOnce(w: World, limits: seq<PriceLimit>, url: string, i: nat, j: nat)
    requires Governs(w, limits, url, i) && Governs(w, limits, url, j)
    ensures i == j
  {
  }

  /** The tolerated ceiling is the largest whole amount within tolerance. */
  lemma CeilingIsTolerance(p: PriceLimit, amount: nat)
    ensures amount <= ToleratedCeiling(p) <==> 10_000 * (amount - p.expected) <= p.expected * p.toleranceCenti
  {
    WholePart(amount - p.expected, p.expected * p.toleranceCenti);
  }

  lemma WholePart(n: int, d: nat)
    ensures n <= d / 10_000 <==> 10_000 * n <= d
  {
  }

  /** The price rule, in plain arithmetic over the governing limit. */
  lemma PriceRuleMeans(w: World, m: Mandate, o: Offer)
    requires SchemaOk(m)
    ensures PriceRule(w, m, o).status == PASS <==> InTolerance(w, m.body.scope.priceLimits, o)
    ensures PriceRule(w, m, o).status == FAIL <==> !UnderHardMax(w, m.body.scope.priceLimits, o)
    ensures PriceRule(w, m, o).status in {PASS, ESCALATE, FAIL}
  {
    var limits := m.body.scope.priceLimits;
    FindsGoverning(w, limits, o.resourceUrl);
    match FindLimit(w, limits, o.resourceUrl)
    case None =>
    case Some(p) =>
      var i: nat :| Governs(w, limits, o.resourceUrl, i) && limits[i] == p;
      forall j | 0 <= j < |limits| && Governs(w, limits, o.resourceUrl, j)
        ensures j == i
      {
        GovernsOnce(w, limits, o.resourceUrl, i, j);
      }
      CeilingIsTolerance(p, o.amount);
      assert p in limits;
  }

  lemma MatchesListed(w: World, url: string, patterns: seq<string>)
    ensures MatchesAny(w, url, patterns) <==> Listed(w, url, patterns)
  {
    if Listed(w, url, patterns) {
      var i :| 0 <= i < |patterns| && w.matches(url, patterns[i]);
      assert patterns[i] in patterns;
    }
  }

  /** A valid approval for this offer: granted, unexpired, by a permitted role, and if signed, signed over this offer. */
  predicate ApprovalCounts(w: World, m: Mandate, o: Offer, c: Context) {
    c.approval.Some? && ApprovalProblems(w, m, w.offerHash(o), c.now, c.approval.value) == []
  }

  /** What makes an approval count, spelled out. One without terms and signature counts by its role alone. */
  lemma ApprovalCountsIff(w: World, m: Mandate, o: Offer, c: Context)
    requires c.approval.Some?
    ensures ApprovalCounts(w, m, o, c) <==>
            var a := c.approval.value;
            && a.status == GRANTED && a.offerHash == w.offerHash(o) && c.now < a.expiresAt
            && a.approver.Some? && a.approver.value.role in m.body.escalation.approverRoles
            && (a.terms.Some? <==> a.signature.Some?)
            && (a.terms.Some? ==>
                  var t, checked := a.terms.value, VerifyOwnerApproval(w, a.terms.value, a.signature.value, ApprovalSigners(m), m.body.agent, c.now);
                  && t.offerHash == w.offerHash(o) && t.mandateHash == w.bodyHash(m.body)
                  && t.approvalId == a.id && t.expiresAt == a.expiresAt
                  && checked.Accepted? && a.approver.value.role == checked.signer.role)
  {
    var a := c.approval.value;
    var signed := SignedProblems(w, m, w.offerHash(o), c.now, a);
    assert ApprovalCounts(w, m, o, c) <==>
           a.status == GRANTED && a.offerHash == w.offerHash(o) && c.now < a.expiresAt &&
           a.approver.Some? && a.approver.value.role in m.body.escalation.approverRoles && signed == [];
  }

  // ---------------------------------------------------------------- reading the rule list

  lemma {:induction false} HasAt(rules: seq<Rule>, s: Status)
    ensures Has(rules, s) <==> exists i :: 0 <= i < |rules| && rules[i].status == s
  {
    if rules != [] {
      HasAt(rules[1..], s);
      assert forall i :: 0 < i < |rules| ==> rules[i] == rules[1..][i - 1];
    }
  }

  lemma {:induction false} HasConcat(a: seq<Rule>, b: seq<Rule>, s: Status)
    ensures Has(a + b, s) <==> Has(a, s) || Has(b, s)
  {
    if a == [] {
      assert a + b == b;
    } else {
      assert (a + b)[1..] == a[1..] + b;
      HasConcat(a[1..], b, s);
    }
  }

  lemma HasFour(a: Rule, b: Rule, c: Rule, d: Rule, s: Status)
    ensures Has([a, b, c, d], s) <==> a.status == s || b.status == s || c.status == s || d.status == s
  {
    var rules := [a, b, c, d];
    HasAt(rules, s);
    assert rules[0] == a && rules[1] == b && rules[2] == c && rules[3] == d;
  }

  /** A list of at most eight rules, read one by one. */
  lemma HasEight(a: Rule, b: Rule, c: Rule, d: Rule, e: Rule, f: Rule, g: Rule, h: Rule, s: Status)
    ensures Has([a, b, c, d, e, f, g, h], s) <==>
            a.status == s || b.status == s || c.status == s || d.status == s || e.status == s || f.status == s || g.status == s || h.status == s
  {
    assert [a, b, c, d, e, f, g, h] == [a, b, c, d] + [e, f, g, h];
    HasConcat([a, b, c, d], [e, f, g, h], s);
    HasFour(a, b, c, d, s);
    HasFour(e, f, g, h, s);
  }

  lemma HasTwo(a: Rule, b: Rule, s: Status)
    ensures Has([a, b], s) <==> a.status == s || b.status == s
  {
    HasAt([a, b], s);
    assert [a, b][0] == a && [a, b][1] == b;
  }

  lemma HasOne(a: Rule, s: Status)
    ensures Has([a], s) <==> a.status == s
  {
    HasAt([a], s);
    assert [a][0] == a;
  }

  // ---------------------------------------------------------------- the base rules

  /** A mandate that parses with a valid chain, and an offer of a positive amount that fits 64 bits. */
  predicate Intact(w: World, m: Option<Mandate>, o: Option<Offer>) {
    m.Some? && SchemaOk(m.value) && MandateChain.ChainValid(w, m.value) && o.Some? && 0 < o.value.amount <= 18446744073709551615
  }

  lemma IntegrityStatus(w: World, m: Option<Mandate>, o: Option<Offer>, c: Context)
    ensures Has(IntegrityRules(w, m, o, c), FAIL) <==>
            !(Intact(w, m, o) && m.value.body.notBefore <= c.now < m.value.body.expiresAt && c.revoked.None?)
    ensures !Has(IntegrityRules(w, m, o, c), ESCALATE) && !Has(IntegrityRules(w, m, o, c), OVERRIDDEN)
    ensures MandateParses(m) ==> !Has(IntegrityRules(w, m, o, c), SKIPPED)
  {
    var a, b, d, e := OfferRule(o), SignaturesRule(w, m), ValidityRule(m, c.now), RevokedRule(m, c.revoked);
    HasFour(a, b, d, e, FAIL);
    HasFour(a, b, d, e, ESCALATE);
    HasFour(a, b, d, e, OVERRIDDEN);
    HasFour(a, b, d, e, SKIPPED);
  }

  lemma LimitCount(w: World, m: Mandate, o: Offer, c: Context, s: Status)
    ensures Has(LimitRules(w, m, o, c), s) <==>
            || NetworkRule(m, o).status == s || AssetRule(m, o).status == s || ResourceRule(w, m, o).status == s
            || PayToRule(m, o, c.channelPayer).status == s || PerPaymentRule(m, o).status == s || PriceRule(w, m, o).status == s
            || WindowRule(m, o, c.window).status == s || TotalRule(m, o, c.total).status == s
  {
    HasEight(NetworkRule(m, o), AssetRule(m, o), ResourceRule(w, m, o), PayToRule(m, o, c.channelPayer),
             PerPaymentRule(m, o), PriceRule(w, m, o), WindowRule(m, o, c.window), TotalRule(m, o, c.total), s);
  }

  lemma LimitStatus(w: World, m: Mandate, o: Offer, c: Context)
    requires SchemaOk(m)
    ensures Has(LimitRules(w, m, o, c), FAIL) <==> !HardLimits(w, m, o, c)
    ensures !Has(LimitRules(w, m, o, c), SKIPPED) && !Has(LimitRules(w, m, o, c), OVERRIDDEN)
    ensures HardLimits(w, m, o, c) ==>
              (Has(LimitRules(w, m, o, c), ESCALATE) || o.amount > m.body.escalation.threshold <==> !AutonomousConditions(w, m, o, c))
  {
    PriceRuleMeans(w, m, o);
    MatchesListed(w, o.resourceUrl, m.body.escalation.resources);
    MatchesListed(w, o.resourceUrl, m.body.scope.allowedResources);
    LimitCount(w, m, o, c, FAIL);
    LimitCount(w, m, o, c, ESCALATE);
    LimitCount(w, m, o, c, SKIPPED);
    LimitCount(w, m, o, c, OVERRIDDEN);
  }

  lemma SkippedStatus(s: Status)
    ensures Has(SkippedRules(), s) ==> s == SKIPPED
  {
    HasAt(SkippedRules(), s);
  }

  /** The base rules fail exactly when a hard condition does, and otherwise escalate exactly when an approvable one does. */
  lemma BaseStatus(w: World, m: Option<Mandate>, o: Option<Offer>, c: Context)
    ensures !Has(BaseRules(w, m, o, c), OVERRIDDEN)
    ensures !Intact(w, m, o) ==> Has(BaseRules(w, m, o, c), FAIL)
    ensures Intact(w, m, o) && ProblemsOf(w, m, o, c) == [] ==>
              (Has(BaseRules(w, m, o, c), FAIL) <==> !HardConditions(w, m.value, o.value, c))
    ensures Intact(w, m, o) && ProblemsOf(w, m, o, c) == [] && HardConditions(w, m.value, o.value, c) ==>
              && !Has(BaseRules(w, m, o, c), SKIPPED)
              && (Has(BaseRules(w, m, o, c), ESCALATE) <==> !AutonomousConditions(w, m.value, o.value, c))
  {
    var integrity := IntegrityRules(w, m, o, c);
    var scope := ScopeRules(w, m, o, c);
    IntegrityStatus(w, m, o, c);
    HasConcat(integrity, scope, FAIL);
    HasConcat(integrity, scope, ESCALATE);
    HasConcat(integrity, scope, OVERRIDDEN);
    HasConcat(integrity, scope, SKIPPED);
    if Has(integrity, FAIL) {
      SkippedStatus(OVERRIDDEN);
    } else {
      ScopeStatus(w, m.value, o.value, c, ProblemsOf(w, m, o, c) != []);
      HasConcat(integrity, LimitRules(w, m.value, o.value, c), FAIL);
    }
  }

  lemma ScopeStatus(w: World, m: Mandate, o: Offer, c: Context, problems: bool)
    requires SchemaOk(m)
    ensures var limits := LimitRules(w, m, o, c);
            var scope := limits + [SimulationRule(c, Has(limits, FAIL) || problems), ThresholdRule(m, o)];
            var simulated := (c.simulation.Some? ==> SimulationOk(c.simulation.value)) && (c.simulation.None? ==> !c.requireSimulation);
            && !Has(scope, OVERRIDDEN)
            && (!problems ==> (Has(scope, FAIL) <==> !(HardLimits(w, m, o, c) && simulated)))
            && (!problems && HardLimits(w, m, o, c) && simulated ==>
                  !Has(scope, SKIPPED) && (Has(scope, ESCALATE) <==> !AutonomousConditions(w, m, o, c)))
  {
    var limits := LimitRules(w, m, o, c);
    var sim, threshold := SimulationRule(c, Has(limits, FAIL) || problems), ThresholdRule(m, o);
    LimitStatus(w, m, o, c);
    ScopeParts(limits, sim, threshold, FAIL);
    ScopeParts(limits, sim, threshold, ESCALATE);
    ScopeParts(limits, sim, threshold, OVERRIDDEN);
    ScopeParts(limits, sim, threshold, SKIPPED);
  }

  lemma ScopeParts(limits: seq<Rule>, sim: Rule, threshold: Rule, s: Status)
    ensures Has(limits + [sim, threshold], s) <==> Has(limits, s) || sim.status == s || threshold.status == s
  {
    HasConcat(limits, [sim, threshold], s);
    HasTwo(sim, threshold, s);
  }

  // ---------------------------------------------------------------- the characterisation

  lemma FinalStatus(w: World, m: Option<Mandate>, o: Option<Offer>, c: Context)
    ensures var base := BaseRules(w, m, o, c);
            var final := FinalRules(w, m, o, c);
            var presented := c.approval.Some? && Intact(w, m, o);
            && (Has(final, FAIL) <==> Has(base, FAIL) || (presented && ProblemsOf(w, m, o, c) != []))
            && (!Has(final, FAIL) ==> (Has(final, ESCALATE) <==> Has(base, ESCALATE) && !presented))
            && (!Has(final, FAIL) ==> (Has(final, OVERRIDDEN) <==> Has(base, ESCALATE) && presented))
            && (!Has(final, FAIL) ==> (Has(final, SKIPPED) <==> Has(base, SKIPPED)))
  {
    var base := BaseRules(w, m, o, c);
    BaseStatus(w, m, o, c);
    if c.approval.Some? && Intact(w, m, o) {
      var a := c.approval.value;
      forall s: Status, t: Status
        ensures Has(base + [ApprovalRule(t, a)], s) <==> Has(base, s) || t == s
        ensures Has(OverrideAll(base) + [ApprovalRule(t, a)], s) <==> Has(OverrideAll(base), s) || t == s
      {
        Appended(base, t, a, s);
        Appended(OverrideAll(base), t, a, s);
      }
      OverrideStatus(base);
    }
  }

  lemma Appended(rules: seq<Rule>, t: Status, a: Approval, s: Status)
    ensures Has(rules + [ApprovalRule(t, a)], s) <==> Has(rules, s) || t == s
  {
    HasConcat(rules, [ApprovalRule(t, a)], s);
    HasOne(ApprovalRule(t, a), s);
  }

  lemma OverrideStatus(rules: seq<Rule>)
    ensures !Has(OverrideAll(rules), ESCALATE)
    ensures Has(OverrideAll(rules), OVERRIDDEN) <==> Has(rules, ESCALATE) || Has(rules, OVERRIDDEN)
    ensures Has(OverrideAll(rules), FAIL) <==> Has(rules, FAIL)
    ensures Has(OverrideAll(rules), SKIPPED) <==> Has(rules, SKIPPED)
  {
    OverrideKeeps(rules, FAIL);
    OverrideKeeps(rules, SKIPPED);
    HasAt(OverrideAll(rules), ESCALATE);
    HasAt(OverrideAll(rules), OVERRIDDEN);
    HasAt(rules, ESCALATE);
    HasAt(rules, OVERRIDDEN);
    if i :| 0 <= i < |rules| && (rules[i].status == ESCALATE || rules[i].status == OVERRIDDEN) {
      assert OverrideAll(rules)[i].status == OVERRIDDEN;
    }
  }

  lemma OverrideKeeps(rules: seq<Rule>, s: Status)
    requires s != ESCALATE && s != OVERRIDDEN
    ensures Has(OverrideAll(rules), s) <==> Has(rules, s)
  {
    HasAt(OverrideAll(rules), s);
    HasAt(rules, s);
    if i :| 0 <= i < |rules| && rules[i].status == s {
      assert OverrideAll(rules)[i].status == s;
    }
  }

  /**
   * ALLOW, exactly: an intact mandate and offer, every hard condition, and either no approval was presented
   * and every approvable condition holds, or the approval presented counts. The kind says which.
   */
  lemma AllowIff(w: World, m: Option<Mandate>, o: Option<Offer>, c: Context)
    ensures Evaluate(w, m, o, c).decision == ALLOW <==>
            && Intact(w, m, o)
            && HardConditions(w, m.value, o.value, c)
            && (if c.approval.None? then AutonomousConditions(w, m.value, o.value, c) else ApprovalCounts(w, m.value, o.value, c))
    ensures Evaluate(w, m, o, c).decision == ALLOW ==>
            Evaluate(w, m, o, c).kind == Some(if AutonomousConditions(w, m.value, o.value, c) then AUTONOMOUS else APPROVED)
    ensures Evaluate(w, m, o, c).decision != ALLOW ==> Evaluate(w, m, o, c).kind == None
  {
    BaseStatus(w, m, o, c);
    FinalStatus(w, m, o, c);
  }

  /** ESCALATE, exactly: everything hard holds, something approvable does not, and nobody presented an approval. */
  lemma EscalateIff(w: World, m: Option<Mandate>, o: Option<Offer>, c: Context)
    ensures Evaluate(w, m, o, c).decision == ESCALATED <==>
            && Intact(w, m, o)
            && HardConditions(w, m.value, o.value, c)
            && c.approval.None? && !AutonomousConditions(w, m.value, o.value, c)
  {
    BaseStatus(w, m, o, c);
    FinalStatus(w, m, o, c);
  }

  lemma AllowStatus(w: World, m: Option<Mandate>, o: Option<Offer>, c: Context)
    requires Evaluate(w, m, o, c).decision == ALLOW
    ensures var rules := FinalRules(w, m, o, c);
            !Has(rules, FAIL) && !Has(rules, ESCALATE) && !Has(rules, SKIPPED) && (Has(rules, OVERRIDDEN) ==> c.approval.Some?)
  {
    AllowIff(w, m, o, c);
    BaseStatus(w, m, o, c);
    FinalStatus(w, m, o, c);
  }

  lemma OnlyPassed(rules: seq<Rule>, approved: bool)
    requires !Has(rules, FAIL) && !Has(rules, ESCALATE) && !Has(rules, SKIPPED) && (Has(rules, OVERRIDDEN) ==> approved)
    ensures forall r :: r in rules ==> r.status == PASS || (r.status == OVERRIDDEN && approved)
  {
    forall r | r in rules
      ensures r.status == PASS || (r.status == OVERRIDDEN && approved)
    {
      HasAt(rules, r.status);
    }
  }

  /** In an ALLOW every rule ran: each one passed, or was overridden by the approval. */
  lemma NothingSkippedInAllow(w: World, m: Option<Mandate>, o: Option<Offer>, c: Context)
    requires Evaluate(w, m, o, c).decision == ALLOW
    ensures forall r :: r in Evaluate(w, m, o, c).rules ==> r.status == PASS || (r.status == OVERRIDDEN && c.approval.Some?)
  {
    AllowStatus(w, m, o, c);
    OnlyPassed(FinalRules(w, m, o, c), c.approval.Some?);
  }

  /** The approval table: what presenting an approval can do to each answer, over all inputs. */
  lemma ApprovalTable(w: World, m: Option<Mandate>, o: Option<Offer>, c: Context, a: Approval)
    requires c.approval.None?
    ensures var without, with := Evaluate(w, m, o, c), Evaluate(w, m, o, c.(approval := Some(a)));
            var counts := Intact(w, m, o) && ApprovalCounts(w, m.value, o.value, c.(approval := Some(a)));
            match without.decision
            case DENY => with.decision == DENY
            case ESCALATED => if counts then with.decision == ALLOW && with.kind == Some(APPROVED) else with.decision == DENY
            case ALLOW => if counts then with.decision == ALLOW && with.kind == Some(AUTONOMOUS) else with.decision == DENY
  {
    var d := c.(approval := Some(a));
    AllowIff(w, m, o, c);
    EscalateIff(w, m, o, c);
    AllowIff(w, m, o, d);
    EscalateIff(w, m, o, d);
  }

  /**
   * The owner's price: without an approval an ALLOW is within tolerance of the governing expected price, and
   * with one it is still at most the hard maximum.
   */
  lemma AllowRespectsPrice(w: World, m: Mandate, o: Offer, c: Context, i: nat)
    requires Evaluate(w, Some(m), Some(o), c).decision == ALLOW && Governs(w, m.body.scope.priceLimits, o.resourceUrl, i)
    ensures var p := m.body.scope.priceLimits[i];
            && (c.approval.None? ==> 10_000 * (o.amount - p.expected) <= p.expected * p.toleranceCenti)
            && o.amount <= p.hardMax
  {
    AllowIff(w, Some(m), Some(o), c);
  }

  // ---------------------------------------------------------------- what is reported

  const RULE_ORDER: seq<RuleId> := [
    OFFER_WELL_FORMED, MANDATE_SIGNATURES, MANDATE_VALIDITY, MANDATE_NOT_REVOKED,
    NETWORK_ALLOWED, ASSET_ALLOWED, RESOURCE_ALLOWED, PAYTO_ALLOWED, MAX_PER_PAYMENT, PRICE_LIMIT, WINDOW_BUDGET, MAX_TOTAL,
    TRANSACTION_SIMULATION, ESCALATION_THRESHOLD]

  lemma BaseRuleIds(w: World, m: Option<Mandate>, o: Option<Offer>, c: Context)
    ensures |BaseRules(w, m, o, c)| == 14 && forall i :: 0 <= i < 14 ==> BaseRules(w, m, o, c)[i].id == RULE_ORDER[i]
  {
    var integrity, scope := IntegrityRules(w, m, o, c), ScopeRules(w, m, o, c);
    assert forall i :: 0 <= i < 4 ==> integrity[i].id == RULE_ORDER[i];
    ScopeRuleIds(w, m, o, c);
    forall i | 4 <= i < 14
      ensures (integrity + scope)[i].id == RULE_ORDER[i]
    {
      assert (integrity + scope)[i] == scope[i - 4];
    }
  }

  lemma ScopeRuleIds(w: World, m: Option<Mandate>, o: Option<Offer>, c: Context)
    ensures |ScopeRules(w, m, o, c)| == 10 && forall i :: 0 <= i < 10 ==> ScopeRules(w, m, o, c)[i].id == RULE_ORDER[i + 4]
  {
    if !(Has(IntegrityRules(w, m, o, c), FAIL) || !MandateOk(w, m) || !OfferOk(o)) {
      LimitRuleIds(w, m.value, o.value, c);
    }
  }

  lemma LimitRuleIds(w: World, m: Mandate, o: Offer, c: Context)
    ensures forall i :: 0 <= i < 8 ==> LimitRules(w, m, o, c)[i].id == RULE_ORDER[i + 4]
  {
  }

  /** Every evaluation reports the fourteen rules in their order, and the approval rule last when an approval was looked at. */
  lemma RulesReported(w: World, m: Option<Mandate>, o: Option<Offer>, c: Context)
    ensures var rules := Evaluate(w, m, o, c).rules;
            && |rules| == (if c.approval.Some? && Intact(w, m, o) then 15 else 14)
            && (forall i :: 0 <= i < 14 ==> rules[i].id == RULE_ORDER[i])
            && (|rules| == 15 ==> rules[14].id == ESCALATION_APPROVAL)
  {
    BaseRuleIds(w, m, o, c);
  }

  predicate FirstAt(rules: seq<Rule>, s: Status, i: nat) {
    i < |rules| && rules[i].status == s && forall j :: 0 <= j < i ==> rules[j].status != s
  }

  lemma {:induction false} FindsFirst(rules: seq<Rule>, s: Status)
    ensures FirstWith(rules, s).None? ==> forall i :: 0 <= i < |rules| ==> rules[i].status != s
    ensures FirstWith(rules, s).Some? ==> exists i :: 0 <= i < |rules| && FirstAt(rules, s, i) && rules[i].id == FirstWith(rules, s).value
  {
    if rules != [] && rules[0].status != s {
      FindsFirst(rules[1..], s);
      forall i | 0 < i < |rules|
        ensures rules[i] == rules[1..][i - 1]
      {
      }
      if FirstWith(rules, s).Some? {
        var i :| 0 <= i < |rules[1..]| && FirstAt(rules[1..], s, i) && rules[1..][i].id == FirstWith(rules[1..], s).value;
        assert FirstAt(rules, s, i + 1);
      }
    } else if rules != [] {
      assert FirstAt(rules, s, 0);
    }
  }

  /**
   * What comes with the answer: the first failed rule of a DENY, the first escalated one of an ESCALATE and none of an
   * ALLOW; the roles that may approve exactly when it escalates; and the hashes of an intact offer and a parsed mandate.
   */
  lemma AnswerReported(w: World, m: Option<Mandate>, o: Option<Offer>, c: Context)
    ensures var r := Evaluate(w, m, o, c);
            && (r.decision == DENY ==> exists i :: 0 <= i < |r.rules| && FirstAt(r.rules, FAIL, i) && r.failedRule == Some(r.rules[i].id))
            && (r.decision == ESCALATED ==> exists i :: 0 <= i < |r.rules| && FirstAt(r.rules, ESCALATE, i) && r.failedRule == Some(r.rules[i].id))
            && (r.decision == ALLOW ==> r.failedRule == None)
            && r.requiredRoles == (if r.decision == ESCALATED && m.Some? then m.value.body.escalation.approverRoles else [])
            && r.offerHash == (if o.Some? && 0 < o.value.amount <= 18446744073709551615 then Some(w.offerHash(o.value)) else None)
            && r.mandateHash == (if m.Some? && SchemaOk(m.value) then Some(w.bodyHash(m.value.body)) else None)
  {
    var r := Evaluate(w, m, o, c);
    FindsFirst(r.rules, FAIL);
    FindsFirst(r.rules, ESCALATE);
    HasAt(r.rules, FAIL);
    HasAt(r.rules, ESCALATE);
    EscalateIff(w, m, o, c);
  }

  // ---------------------------------------------------------------- two runs

  function Strictness(d: Decision): nat {
    match d case ALLOW => 0 case ESCALATED => 1 case DENY => 2
  }

  lemma ConditionsMonotone(w: World, m: Mandate, o: Offer, c: Context, o': Offer, c': Context)
    requires SchemaOk(m) && o.amount <= o'.amount && o' == o.(amount := o'.amount)
    requires c.window <= c'.window && c.total <= c'.total && c' == c.(window := c'.window, total := c'.total)
    ensures HardConditions(w, m, o', c') ==> HardConditions(w, m, o, c)
    ensures AutonomousConditions(w, m, o', c') ==> AutonomousConditions(w, m, o, c)
  {
  }

  /**
   * Asking for more, or having spent more, never moves the answer towards ALLOW. It rests on the tolerated
   * ceiling being at most the hard maximum, which the gate's own parse of the mandate guarantees.
   */
  lemma GateMonotone(w: World, m: Option<Mandate>, o: Offer, c: Context, o': Offer, c': Context)
    requires c.approval.None? && 0 < o.amount <= o'.amount && o' == o.(amount := o'.amount)
    requires c.window <= c'.window && c.total <= c'.total && c' == c.(window := c'.window, total := c'.total)
    ensures Strictness(Evaluate(w, m, Some(o), c).decision) <= Strictness(Evaluate(w, m, Some(o'), c').decision)
  {
    AllowIff(w, m, Some(o), c);
    EscalateIff(w, m, Some(o), c);
    AllowIff(w, m, Some(o'), c');
    EscalateIff(w, m, Some(o'), c');
    if Intact(w, m, Some(o')) { ConditionsMonotone(w, m.value, o, c, o', c'); }
  }

  /** The caps an ALLOW promises: what the spend protocol relies on. */
  lemma AllowKeepsCaps(w: World, m: Option<Mandate>, o: Option<Offer>, c: Context)
    requires Evaluate(w, m, o, c).decision == ALLOW
    ensures m.Some? && o.Some? && o.value.amount > 0
    ensures c.total + o.value.amount <= m.value.body.scope.limits.maxTotal
    ensures o.value.amount <= m.value.body.scope.limits.maxPerPayment
    ensures Evaluate(w, m, o, c).kind == Some(AUTONOMOUS) ==> c.window + o.value.amount <= m.value.body.scope.limits.maxPerWindow
  {
    AllowIff(w, m, o, c);
  }
}
