/**
 * The voucher ask as it runs (apps/api/src/agent/channel-voucher.ts), on the store object it reads and writes.
 * What the outside world answers comes in as arguments; SpendProtocol.dfy says what the interleaved asks keep.
 */
module ChannelVoucher {
  import opened Prelude
  import opened Model
  import opened SpendStore
  import Gate
  import GateLaws
  import MandateChain
  import Protocol = SpendProtocol
  import Voucher

  const MAX_VOUCHER_TTL_SECONDS := 3600

  datatype Request = Request(channel: string, address: Bytes, cumulative: nat, callerSettled: Option<nat>, expiresAt: nat,
                             recipient: string, resourceUrl: string, asset: string, network: string, feePayer: Option<string>)

  datatype ChannelAccount = ChannelAccount(payer: string, payee: string, mint: string, settled: nat)

  datatype OnChainMandate = OnChainMandate(agent: Key, revoked: bool, revokedAt: int)

  /** What the chain, the clock, the owner, the behaviour check and the signer answer during one ask. */
  datatype Answers = Answers(channel: Option<ChannelAccount>, onChain: Option<OnChainMandate>, callerRevoked: Option<Gate.Revocation>,
                            totalsAt: int, behaviourAt: int, gateAt: int, recordedAt: int,
                            approval: ApprovalAnswer, flagged: bool, signs: bool)

  /** No approval named, one that `consume` returned with its review, or one it refused. */
  datatype ApprovalAnswer = NotNamed | Used(approval: Gate.Approval, review: Gate.Review) | NotValid

  datatype Refusal =
    | ChannelNotFound | RecipientIsNotChannelPayee | AssetIsNotChannelMint | MandateNotOnChain | MandateAgentMismatch
    | OwnerApprovalNotValid | BehaviourFlagged | UnsupportedPayment | MandateDenied | EscalationRequired | NotSigned | NotRecorded

  datatype Answer = Signed(delta: nat, autonomous: bool) | Refused(why: Refusal)

  function VoucherOffer(r: Request, delta: nat): Offer {
    Offer(r.network, r.asset, r.recipient, delta, r.resourceUrl, r.feePayer, Some("channel:" + r.channel))
  }

  /** An on-chain revocation wins; the caller can only add one. */
  function Revoked(x: Answers): Option<Gate.Revocation> {
    if x.onChain.Some? && x.onChain.value.revoked then Some(Gate.Revocation(x.onChain.value.revokedAt, Some("revoked on-chain")))
    else x.callerRevoked
  }

  function ChannelPayer(r: Request, x: Answers): Option<string> {
    if r.feePayer.Some? && r.feePayer.value != "" && x.channel.Some? then Some(x.channel.value.payer) else None
  }

  function ContextAt(r: Request, x: Answers, now: int, window: nat, total: nat): Gate.Context {
    Gate.Context(now, Revoked(x), ChannelPayer(r, x), window, total, None, false,
                 if x.approval.Used? then Some(x.approval.approval) else None,
                 if x.approval.Used? then Some(x.approval.review) else None)
  }

  /** Refusals before the lock is taken. */
  function Precheck(m: Mandate, r: Request, x: Answers): Option<Refusal> {
    if x.channel.None? then Some(ChannelNotFound)
    else if x.channel.value.payee != r.recipient then Some(RecipientIsNotChannelPayee)
    else if x.channel.value.mint != r.asset then Some(AssetIsNotChannelMint)
    else if x.onChain.None? then Some(MandateNotOnChain)
    else if x.onChain.value.agent != m.body.agent then Some(MandateAgentMismatch)
    else if Voucher.Encode(Voucher.Terms(r.address, r.cumulative, r.expiresAt)).Err? then Some(UnsupportedPayment)
    else None
  }

  /** The authorizer's own refusals, before it asks the gate. */
  predicate VoucherOk(m: Mandate, r: Request, now: int, watermark: nat) {
    && now < r.expiresAt <= now + MAX_VOUCHER_TTL_SECONDS
    && r.expiresAt <= m.body.expiresAt
    && (r.callerSettled.Some? ==> r.callerSettled.value >= watermark)
    && r.cumulative > watermark
  }

  function MessageHash(sha: Sha256, r: Request): Digest {
    match Voucher.Encode(Voucher.Terms(r.address, r.cumulative, r.expiresAt))
    case Ok(bytes) => sha(bytes)
    case Err(_) => sha([])
  }

  function JobOf(sha: Sha256, m: Mandate, r: Request, seen: nat): Protocol.Job {
    Protocol.VoucherJob(m, r.channel, r.cumulative, seen, r.recipient, MessageHash(sha, r))
  }

  /** The protocol steps one signed ask is. */
  function Script(g: Protocol.Setting, m: Mandate, sha: Sha256, r: Request, x: Answers, rows: seq<Entry>, pid: nat, delta: nat): seq<Protocol.Action>
    requires x.channel.Some?
  {
    var job := JobOf(sha, m, r, x.channel.value.settled);
    [Protocol.Arrive(pid, job), Protocol.Enter(pid)] +
    ([Protocol.ReadTotals(pid, x.totalsAt), Protocol.ReadWatermark(pid)] +
    ([Protocol.Decide(pid, VoucherOffer(r, delta), ContextOver(g, m, rows, r, x, x.gateAt)), Protocol.Store(pid, x.recordedAt)] + []))
  }

  /** A free lock, the channel as it was read, and a fresh process: where an ask that runs alone starts. */
  predicate ReadyFor(s: Protocol.State, rows: seq<Entry>, pid: nat, r: Request, x: Answers) {
    && s.rows == rows && s.holder.None? && pid !in s.asks
    && x.channel.Some? && r.channel in s.settled && s.settled[r.channel] == x.channel.value.settled
  }

  function StartOf(g: Protocol.Setting, m: Mandate, rows: seq<Entry>, r: Request, settled: nat): nat {
    Protocol.Higher(Watermark(rows, g.bodyHash(m.body), Channel(r.channel)), settled)
  }

  /** What the gate is asked: the sums of the store as it stands. */
  function ContextOver(g: Protocol.Setting, m: Mandate, rows: seq<Entry>, r: Request, x: Answers, now: int): Gate.Context {
    var mandate := g.bodyHash(m.body);
    ContextAt(r, x, now, Window(rows, mandate, x.totalsAt - m.body.scope.limits.windowSeconds), Total(rows, mandate))
  }

  function RowOf(g: Protocol.Setting, m: Mandate, sha: Sha256, r: Request, x: Answers, delta: nat, autonomous: bool): Entry {
    Entry(g.bodyHash(m.body), Channel(r.channel), r.cumulative, delta, autonomous, r.recipient, MessageHash(sha, r), x.recordedAt)
  }

  predicate GateAllows(g: Protocol.Setting, m: Mandate, offer: Offer, context: Gate.Context, autonomous: bool) {
    var result := g.gate(m, offer, context);
    result.decision == Gate.ALLOW && autonomous == (result.kind == Some(Gate.AUTONOMOUS))
  }

  function Holding(s: Protocol.State, pid: nat, m: Mandate, ask: Protocol.Ask): Protocol.State {
    s.(asks := s.asks[pid := ask], holder := Some(pid), bodies := s.bodies + {m.body})
  }

  lemma EntersRun(g: Protocol.Setting, m: Mandate, s: Protocol.State, pid: nat, job: Protocol.Job, rest: seq<Protocol.Action>)
    requires s.holder.None? && pid !in s.asks && job.VoucherJob? && job.mandate == m
    requires job.channel in s.settled && s.settled[job.channel] == job.seen
    ensures Protocol.Run(g, g.bodyHash(m.body), s, [Protocol.Arrive(pid, job), Protocol.Enter(pid)] + rest) ==
            Protocol.Run(g, g.bodyHash(m.body), Holding(s, pid, m, Protocol.Inside(job)), rest)
  {
    Protocol.RunTwo(g, g.bodyHash(m.body), s, Protocol.Arrive(pid, job), Protocol.Enter(pid), rest);
    assert s.asks[pid := Protocol.Waiting(job)][pid := Protocol.Inside(job)] == s.asks[pid := Protocol.Inside(job)];
  }

  lemma ReadsRun(g: Protocol.Setting, m: Mandate, s: Protocol.State, pid: nat, job: Protocol.Job, at: int, rest: seq<Protocol.Action>)
    requires job.VoucherJob? && job.mandate == m
    ensures var mandate := g.bodyHash(m.body);
            var marked := Protocol.Marked(job, at, Window(s.rows, mandate, at - m.body.scope.limits.windowSeconds), Total(s.rows, mandate),
                                          Protocol.Higher(Watermark(s.rows, mandate, Channel(job.channel)), job.seen));
            Protocol.Run(g, mandate, Holding(s, pid, m, Protocol.Inside(job)), [Protocol.ReadTotals(pid, at), Protocol.ReadWatermark(pid)] + rest) ==
            Protocol.Run(g, mandate, Holding(s, pid, m, marked), rest)
  {
    var mandate := g.bodyHash(m.body);
    Protocol.RunTwo(g, mandate, Holding(s, pid, m, Protocol.Inside(job)), Protocol.ReadTotals(pid, at), Protocol.ReadWatermark(pid), rest);
    var totalled := Protocol.Step(g, mandate, Holding(s, pid, m, Protocol.Inside(job)), Protocol.ReadTotals(pid, at)).value;
    assert totalled == Holding(s, pid, m, totalled.asks[pid]);
    var marked := Protocol.Step(g, mandate, totalled, Protocol.ReadWatermark(pid)).value;
    assert marked == Holding(s, pid, m, marked.asks[pid]);
  }

  lemma ReachesGate(g: Protocol.Setting, m: Mandate, s: Protocol.State, pid: nat, job: Protocol.Job, at: int, rest: seq<Protocol.Action>)
    requires s.holder.None? && pid !in s.asks && job.VoucherJob? && job.mandate == m
    requires job.channel in s.settled && s.settled[job.channel] == job.seen
    ensures var mandate := g.bodyHash(m.body);
            var marked := Protocol.Marked(job, at, Window(s.rows, mandate, at - m.body.scope.limits.windowSeconds), Total(s.rows, mandate),
                                          Protocol.Higher(Watermark(s.rows, mandate, Channel(job.channel)), job.seen));
            Protocol.Run(g, mandate, s, [Protocol.Arrive(pid, job), Protocol.Enter(pid)] + ([Protocol.ReadTotals(pid, at), Protocol.ReadWatermark(pid)] + rest)) ==
            Protocol.Run(g, mandate, Holding(s, pid, m, marked), rest)
  {
    EntersRun(g, m, s, pid, job, [Protocol.ReadTotals(pid, at), Protocol.ReadWatermark(pid)] + rest);
    ReadsRun(g, m, s, pid, job, at, rest);
  }

  /** After the gate: the new row. */
  lemma StoreRuns(g: Protocol.Setting, mandate: Digest, s: Protocol.State, pid: nat, offer: Offer, context: Gate.Context, autonomous: bool, createdAt: int)
    requires pid in s.asks && s.asks[pid].Marked? && s.asks[pid].job.VoucherJob? && s.asks[pid].at <= createdAt
    requires offer.amount == Protocol.Slice(s.asks[pid]) && context.window == s.asks[pid].window && context.total == s.asks[pid].total
    requires GateAllows(g, s.asks[pid].job.mandate, offer, context, autonomous)
    requires !Recorded(s.rows, s.asks[pid].job.messageHash)
    ensures var ask := Protocol.Allowed(s.asks[pid].job, s.asks[pid].at, offer.amount, autonomous);
            var end := Protocol.Run(g, mandate, s, [Protocol.Decide(pid, offer, context), Protocol.Store(pid, createdAt)] + []);
            end.Some? && end.value.rows == s.rows + [Protocol.Row(mandate, ask, createdAt)]
  {
    Protocol.RunTwo(g, mandate, s, Protocol.Decide(pid, offer, context), Protocol.Store(pid, createdAt), []);
  }

  /** A signed ask that ran alone is one run of the protocol: it reads, asks the gate and stores as the protocol says. */
  lemma ScriptRuns(g: Protocol.Setting, m: Mandate, sha: Sha256, r: Request, x: Answers, s: Protocol.State, pid: nat, delta: nat, autonomous: bool)
    requires ReadyFor(s, s.rows, pid, r, x) && x.totalsAt <= x.recordedAt
    requires delta == r.cumulative - StartOf(g, m, s.rows, r, x.channel.value.settled)
    requires GateAllows(g, m, VoucherOffer(r, delta), ContextOver(g, m, s.rows, r, x, x.gateAt), autonomous)
    requires !Recorded(s.rows, MessageHash(sha, r))
    ensures var end := Protocol.Run(g, g.bodyHash(m.body), s, Script(g, m, sha, r, x, s.rows, pid, delta));
            end.Some? && end.value.rows == s.rows + [RowOf(g, m, sha, r, x, delta, autonomous)]
  {
    var mandate, settled := g.bodyHash(m.body), x.channel.value.settled;
    var job := JobOf(sha, m, r, settled);
    var offer, context := VoucherOffer(r, delta), ContextOver(g, m, s.rows, r, x, x.gateAt);
    var marked := Protocol.Marked(job, x.totalsAt, context.window, context.total, StartOf(g, m, s.rows, r, settled));
    var ready := Holding(s, pid, m, marked);
    var rest := [Protocol.Decide(pid, offer, context), Protocol.Store(pid, x.recordedAt)] + [];
    ReachesGate(g, m, s, pid, job, x.totalsAt, rest);
    StoreRuns(g, mandate, ready, pid, offer, context, autonomous, x.recordedAt);
  }

  /** What a signature means: the voucher passed the authorizer and the gate, and the slice is above everything signed or settled. */
  predicate SignedOver(g: Protocol.Setting, m: Mandate, r: Request, x: Answers, rows: seq<Entry>, delta: int, autonomous: bool)
    requires x.channel.Some?
  {
    var start := StartOf(g, m, rows, r, x.channel.value.settled);
    && VoucherOk(m, r, x.gateAt, start)
    && delta == r.cumulative - start > 0
    && !x.approval.NotValid?
    && GateAllows(g, m, VoucherOffer(r, delta), ContextOver(g, m, rows, r, x, x.gateAt), autonomous)
  }

  predicate Stopped(g: Protocol.Setting, m: Mandate, r: Request, x: Answers, watermark: nat, early: Gate.Context) {
    && x.approval.NotNamed? && r.cumulative > watermark && x.flagged
    && g.gate(m, VoucherOffer(r, r.cumulative - watermark), early).decision == Gate.ALLOW
  }

  /** The behaviour check: it can stop a payment the mandate would allow on its own, and nothing else. */
  method BehaviourStops(g: Protocol.Setting, m: Mandate, r: Request, x: Answers, watermark: nat, early: Gate.Context) returns (stops: bool)
    ensures stops <==> Stopped(g, m, r, x, watermark, early)
  {
    stops := false;
    if x.approval.NotNamed? && r.cumulative > watermark {
      var would := g.gate(m, VoucherOffer(r, r.cumulative - watermark), early);
      stops := would.decision == Gate.ALLOW && x.flagged;
    }
  }

  /** The authorizer: its own refusals, then the gate, then the signer. */
  method RequestVoucher(g: Protocol.Setting, m: Mandate, r: Request, x: Answers, watermark: nat, context: Gate.Context) returns (a: Answer)
    ensures a.Signed? <==> VoucherOk(m, r, x.gateAt, watermark) && x.signs &&
                           g.gate(m, VoucherOffer(r, r.cumulative - watermark), context).decision == Gate.ALLOW
    ensures a.Signed? ==> a.delta == r.cumulative - watermark && GateAllows(g, m, VoucherOffer(r, a.delta), context, a.autonomous)
    ensures a == Refused(UnsupportedPayment) <==> !VoucherOk(m, r, x.gateAt, watermark)
    ensures a == Refused(EscalationRequired) <==>
              VoucherOk(m, r, x.gateAt, watermark) && g.gate(m, VoucherOffer(r, r.cumulative - watermark), context).decision == Gate.ESCALATED
    ensures a.Refused? ==> a.why in {UnsupportedPayment, MandateDenied, EscalationRequired, NotSigned}
  {
    if !VoucherOk(m, r, x.gateAt, watermark) {
      return Refused(UnsupportedPayment);
    }
    var result := g.gate(m, VoucherOffer(r, r.cumulative - watermark), context);
    if result.decision == Gate.DENY {
      return Refused(MandateDenied);
    }
    if result.decision == Gate.ESCALATED {
      return Refused(EscalationRequired);
    }
    if !x.signs {
      return Refused(NotSigned);
    }
    return Signed(r.cumulative - watermark, result.kind == Some(Gate.AUTONOMOUS));
  }

  /** From a claimed approval to the signer: what happens between the reads of the store and the write to it. */
  method AskGate(g: Protocol.Setting, m: Mandate, r: Request, x: Answers, watermark: nat, early: Gate.Context, context: Gate.Context) returns (a: Answer)
    ensures a.Signed? <==>
              && !x.approval.NotValid? && !Stopped(g, m, r, x, watermark, early) && VoucherOk(m, r, x.gateAt, watermark) && x.signs
              && g.gate(m, VoucherOffer(r, r.cumulative - watermark), context).decision == Gate.ALLOW
    ensures a.Signed? ==> a.delta == r.cumulative - watermark && GateAllows(g, m, VoucherOffer(r, a.delta), context, a.autonomous)
    ensures a == Refused(EscalationRequired) <==>
              && !x.approval.NotValid? && !Stopped(g, m, r, x, watermark, early) && VoucherOk(m, r, x.gateAt, watermark)
              && g.gate(m, VoucherOffer(r, r.cumulative - watermark), context).decision == Gate.ESCALATED
  {
    if x.approval.NotValid? {
      return Refused(OwnerApprovalNotValid);
    }
    var stops := BehaviourStops(g, m, r, x, watermark, early);
    if stops {
      return Refused(BehaviourFlagged);
    }
    a := RequestVoucher(g, m, r, x, watermark, context);
  }

  /** When an ask is signed, as the code goes through it. */
  predicate Signs(g: Protocol.Setting, sha: Sha256, m: Mandate, r: Request, x: Answers, rows: seq<Entry>) {
    && Precheck(m, r, x).None?
    && var start := StartOf(g, m, rows, r, x.channel.value.settled);
       && !Stopped(g, m, r, x, start, ContextOver(g, m, rows, r, x, x.behaviourAt))
       && !x.approval.NotValid? && VoucherOk(m, r, x.gateAt, start)
       && g.gate(m, VoucherOffer(r, r.cumulative - start), ContextOver(g, m, rows, r, x, x.gateAt)).decision == Gate.ALLOW
       && x.signs && !Recorded(rows, MessageHash(sha, r))
  }

  predicate Escalates(g: Protocol.Setting, m: Mandate, r: Request, x: Answers, rows: seq<Entry>) {
    && Precheck(m, r, x).None?
    && var start := StartOf(g, m, rows, r, x.channel.value.settled);
       && !Stopped(g, m, r, x, start, ContextOver(g, m, rows, r, x, x.behaviourAt))
       && !x.approval.NotValid? && VoucherOk(m, r, x.gateAt, start)
       && g.gate(m, VoucherOffer(r, r.cumulative - start), ContextOver(g, m, rows, r, x, x.gateAt)).decision == Gate.ESCALATED
  }

  /**
   * One ask under any gate. A refusal leaves the store alone; a signature leaves exactly one new row, holding the
   * slice above the higher of the channel's last voucher and its settled amount, and is a run of the protocol.
   */
  method AskUnder(store: InMemoryVoucherSpendStore, g: Protocol.Setting, sha: Sha256, m: Mandate, r: Request, x: Answers,
                  ghost s: Protocol.State, ghost pid: nat)
    returns (a: Answer)
    requires x.channel.Some? ==> ReadyFor(s, store.rows, pid, r, x)
    requires x.totalsAt <= x.recordedAt
    modifies store
    ensures a.Refused? ==> store.rows == old(store.rows)
    ensures Precheck(m, r, x).Some? ==> a == Refused(Precheck(m, r, x).value)
    ensures a.Signed? <==> Signs(g, sha, m, r, x, old(store.rows))
    ensures a == Refused(EscalationRequired) <==> Escalates(g, m, r, x, old(store.rows))
    ensures a.Signed? ==>
              && SignedOver(g, m, r, x, old(store.rows), a.delta, a.autonomous)
              && store.rows == old(store.rows) + [RowOf(g, m, sha, r, x, a.delta, a.autonomous)]
              && Protocol.Run(g, g.bodyHash(m.body), s, Script(g, m, sha, r, x, old(store.rows), pid, a.delta)).Some?
  {
    var refusal := Precheck(m, r, x);
    if refusal.Some? {
      return Refused(refusal.value);
    }
    var mandate := g.bodyHash(m.body);
    var window, total := store.Totals(mandate, x.totalsAt, m.body.scope.limits.windowSeconds);
    var signed := store.ChannelWatermark(mandate, Channel(r.channel));
    var watermark := if signed.Some? && signed.value > x.channel.value.settled then signed.value else x.channel.value.settled;
    a := AskGate(g, m, r, x, watermark, ContextAt(r, x, x.behaviourAt, window, total), ContextAt(r, x, x.gateAt, window, total));
    if a.Signed? {
      var stored := store.Record(RowOf(g, m, sha, r, x, a.delta, a.autonomous));
      if stored.Err? {
        return Refused(NotRecorded);
      }
      ScriptRuns(g, m, sha, r, x, s, pid, a.delta, a.autonomous);
    }
  }

  // ---------------------------------------------------------------- under the policy gate, in the caller's own terms

  /** The channel pays this recipient in this asset, the mandate is on chain for this agent, the voucher has 50 bytes. */
  predicate Presented(m: Mandate, r: Request, x: Answers) {
    && x.channel.Some? && x.channel.value.payee == r.recipient && x.channel.value.mint == r.asset
    && x.onChain.Some? && x.onChain.value.agent == m.body.agent
    && |r.address| == 32 && r.cumulative < U64
  }

  /** No owner can lift any of these. */
  predicate Hard(w: World, m: Mandate, r: Request, x: Answers, rows: seq<Entry>, delta: nat, now: int)
    requires Presented(m, r, x)
  {
    var limits, scope := m.body.scope.limits, m.body.scope;
    && SchemaOk(m) && MandateChain.ChainValid(w, m)
    && m.body.notBefore <= now < m.body.expiresAt
    && !x.onChain.value.revoked && x.callerRevoked.None?
    && r.network in scope.allowedNetworks && r.network == DEVNET
    && r.asset in scope.allowedAssets && r.asset == limits.mint
    && (GateLaws.Listed(w, r.resourceUrl, m.body.escalation.resources) || GateLaws.Listed(w, r.resourceUrl, scope.allowedResources))
    && (r.feePayer.Some? && r.feePayer.value != "" ==> r.feePayer.value == x.channel.value.payer)
    && r.recipient in scope.allowedPayTo
    && 0 < delta <= limits.maxPerPayment
    && (forall i :: 0 <= i < |scope.priceLimits| && GateLaws.Governs(w, scope.priceLimits, r.resourceUrl, i) ==> delta <= scope.priceLimits[i].hardMax)
    && Total(rows, w.bodyHash(m.body)) + delta <= limits.maxTotal
  }

  /** Within the agent's own authority. */
  predicate Alone(w: World, m: Mandate, r: Request, x: Answers, rows: seq<Entry>, delta: nat) {
    var limits, prices := m.body.scope.limits, m.body.scope.priceLimits;
    && !GateLaws.Listed(w, r.resourceUrl, m.body.escalation.resources)
    && (forall i :: 0 <= i < |prices| && GateLaws.Governs(w, prices, r.resourceUrl, i) ==>
          10_000 * (delta - prices[i].expected) <= prices[i].expected * prices[i].toleranceCenti)
    && Window(rows, w.bodyHash(m.body), x.totalsAt - limits.windowSeconds) + delta <= limits.maxPerWindow
    && delta <= m.body.escalation.threshold
  }

  /** The owner approved this very offer, and the gate takes the approval at `now`. */
  predicate Approved(w: World, m: Mandate, r: Request, x: Answers, delta: nat, now: int) {
    && x.approval.Used?
    && var offer := Offer(r.network, r.asset, r.recipient, delta, r.resourceUrl, r.feePayer, Some("channel:" + r.channel));
       GateLaws.ApprovalCounts(w, m, offer, Gate.Context(now, None, None, 0, 0, None, false, Some(x.approval.approval), None))
  }

  /** When an ask is signed: nothing but the request, the mandate, the answers and the store. */
  predicate MaySign(w: World, sha: Sha256, m: Mandate, r: Request, x: Answers, rows: seq<Entry>) {
    && Presented(m, r, x)
    && var start := Protocol.Higher(Watermark(rows, w.bodyHash(m.body), Channel(r.channel)), x.channel.value.settled);
       && r.cumulative > start
       && var delta := r.cumulative - start;
          && x.gateAt < r.expiresAt <= x.gateAt + 3600 && r.expiresAt <= m.body.expiresAt
          && (r.callerSettled.Some? ==> r.callerSettled.value >= start)
          && Hard(w, m, r, x, rows, delta, x.gateAt)
          && ((x.approval.NotNamed? && Alone(w, m, r, x, rows, delta)) || Approved(w, m, r, x, delta, x.gateAt))
          && !(x.approval.NotNamed? && x.flagged && Hard(w, m, r, x, rows, delta, x.behaviourAt) && Alone(w, m, r, x, rows, delta))
          && x.signs
          && var voucher := Voucher.Encode(Voucher.Terms(r.address, r.cumulative, r.expiresAt));
             voucher.Ok? && forall e :: e in rows ==> e.messageHash != sha(voucher.value)
  }

  /** When the owner has to be asked: everything hard holds, something the owner may lift does not, and no approval was named. */
  predicate NeedsOwner(w: World, m: Mandate, r: Request, x: Answers, rows: seq<Entry>) {
    && Presented(m, r, x)
    && var start := Protocol.Higher(Watermark(rows, w.bodyHash(m.body), Channel(r.channel)), x.channel.value.settled);
       && r.cumulative > start
       && x.gateAt < r.expiresAt <= x.gateAt + 3600 && r.expiresAt <= m.body.expiresAt
       && (r.callerSettled.Some? ==> r.callerSettled.value >= start)
       && x.approval.NotNamed? && Hard(w, m, r, x, rows, r.cumulative - start, x.gateAt) && !Alone(w, m, r, x, rows, r.cumulative - start)
  }

  /** The start of a slice is the settled amount or a recorded voucher of the channel, and above all of them. */
  lemma StartIsHighest(rows: seq<Entry>, mandate: Digest, channel: string, settled: nat)
    ensures var start := Protocol.Higher(Watermark(rows, mandate, Channel(channel)), settled);
            && settled <= start
            && (forall e :: e in rows && e.mandateHash == mandate && e.account == Channel(channel) ==> e.cumulative <= start)
            && (start == settled || exists e :: e in rows && e.mandateHash == mandate && e.account == Channel(channel) && e.cumulative == start)
  {
    WatermarkIsHighest(rows, mandate, Channel(channel));
  }

  lemma HardIs(w: World, m: Mandate, r: Request, x: Answers, rows: seq<Entry>, delta: nat, now: int)
    requires Presented(m, r, x) && delta < U64
    ensures var o, c := VoucherOffer(r, delta), ContextOver(Protocol.Policy(w), m, rows, r, x, now);
            Hard(w, m, r, x, rows, delta, now) <==> GateLaws.Intact(w, Some(m), Some(o)) && GateLaws.HardConditions(w, m, o, c)
  {
  }

  lemma AloneIs(w: World, m: Mandate, r: Request, x: Answers, rows: seq<Entry>, delta: nat, now: int)
    ensures Alone(w, m, r, x, rows, delta) <==>
              GateLaws.AutonomousConditions(w, m, VoucherOffer(r, delta), ContextOver(Protocol.Policy(w), m, rows, r, x, now))
  {
  }

  /** What the policy gate answers an ask, in terms of the request and what the world answered. */
  lemma GateMeans(w: World, m: Mandate, r: Request, x: Answers, rows: seq<Entry>, delta: nat, now: int)
    requires Presented(m, r, x) && 0 < delta < U64 && !x.approval.NotValid?
    ensures var result := Gate.Evaluate(w, Some(m), Some(VoucherOffer(r, delta)), ContextOver(Protocol.Policy(w), m, rows, r, x, now));
            && (result.decision == Gate.ALLOW <==>
                  && Hard(w, m, r, x, rows, delta, now)
                  && (if x.approval.NotNamed? then Alone(w, m, r, x, rows, delta) else Approved(w, m, r, x, delta, now)))
            && (result.decision == Gate.ALLOW ==> (result.kind == Some(Gate.AUTONOMOUS) <==> Alone(w, m, r, x, rows, delta)))
  {
    HardIs(w, m, r, x, rows, delta, now);
    AloneIs(w, m, r, x, rows, delta, now);
    GateLaws.AllowIff(w, Some(m), Some(VoucherOffer(r, delta)), ContextOver(Protocol.Policy(w), m, rows, r, x, now));
  }

  lemma GateEscalates(w: World, m: Mandate, r: Request, x: Answers, rows: seq<Entry>, delta: nat, now: int)
    requires Presented(m, r, x) && 0 < delta < U64
    ensures Gate.Evaluate(w, Some(m), Some(VoucherOffer(r, delta)), ContextOver(Protocol.Policy(w), m, rows, r, x, now)).decision == Gate.ESCALATED <==>
              Hard(w, m, r, x, rows, delta, now) && !x.approval.Used? && !Alone(w, m, r, x, rows, delta)
  {
    HardIs(w, m, r, x, rows, delta, now);
    AloneIs(w, m, r, x, rows, delta, now);
    GateLaws.EscalateIff(w, Some(m), Some(VoucherOffer(r, delta)), ContextOver(Protocol.Policy(w), m, rows, r, x, now));
  }

  lemma PresentedIff(m: Mandate, r: Request, x: Answers)
    ensures Precheck(m, r, x).None? <==> Presented(m, r, x)
    ensures Presented(m, r, x) ==> Voucher.Encode(Voucher.Terms(r.address, r.cumulative, r.expiresAt)).Ok?
  {
  }

  /** At `now` this gate answers an ask as the policy gate should. */
  predicate AnswersAsShould(g: Protocol.Setting, w: World, m: Mandate, r: Request, x: Answers, rows: seq<Entry>, delta: nat, now: int)
    requires Presented(m, r, x)
  {
    var result := g.gate(m, VoucherOffer(r, delta), ContextOver(g, m, rows, r, x, now));
    && (result.decision == Gate.ALLOW <==>
          && Hard(w, m, r, x, rows, delta, now)
          && (if x.approval.NotNamed? then Alone(w, m, r, x, rows, delta) else Approved(w, m, r, x, delta, now)))
    && (result.decision == Gate.ALLOW ==> (result.kind == Some(Gate.AUTONOMOUS) <==> Alone(w, m, r, x, rows, delta)))
  }

  lemma PolicyAnswers(w: World, m: Mandate, r: Request, x: Answers, rows: seq<Entry>, delta: nat, now: int)
    requires Presented(m, r, x) && 0 < delta < U64 && !x.approval.NotValid?
    ensures AnswersAsShould(Protocol.Policy(w), w, m, r, x, rows, delta, now)
  {
    GateMeans(w, m, r, x, rows, delta, now);
  }

  lemma RowsDiffer(rows: seq<Entry>, hash: Digest)
    ensures Recorded(rows, hash) <==> !(forall e :: e in rows ==> e.messageHash != hash)
  {
  }

  lemma SignsWith(g: Protocol.Setting, w: World, sha: Sha256, m: Mandate, r: Request, x: Answers, rows: seq<Entry>)
    requires g.bodyHash == w.bodyHash && Presented(m, r, x) && !x.approval.NotValid?
    requires var start := StartOf(g, m, rows, r, x.channel.value.settled);
             r.cumulative > start ==>
               && AnswersAsShould(g, w, m, r, x, rows, r.cumulative - start, x.gateAt)
               && AnswersAsShould(g, w, m, r, x, rows, r.cumulative - start, x.behaviourAt)
    ensures Signs(g, sha, m, r, x, rows) <==> MaySign(w, sha, m, r, x, rows)
  {
    PresentedIff(m, r, x);
    RowsDiffer(rows, MessageHash(sha, r));
  }

  lemma EscalatesWith(g: Protocol.Setting, w: World, m: Mandate, r: Request, x: Answers, rows: seq<Entry>, start: nat)
    requires g.bodyHash == w.bodyHash && Presented(m, r, x) && !x.approval.NotValid?
    requires start == StartOf(g, m, rows, r, x.channel.value.settled) < r.cumulative
    requires AnswersAsShould(g, w, m, r, x, rows, r.cumulative - start, x.behaviourAt)
    requires g.gate(m, VoucherOffer(r, r.cumulative - start), ContextOver(g, m, rows, r, x, x.gateAt)).decision == Gate.ESCALATED <==>
               Hard(w, m, r, x, rows, r.cumulative - start, x.gateAt) && !x.approval.Used? && !Alone(w, m, r, x, rows, r.cumulative - start)
    ensures Escalates(g, m, r, x, rows) <==> NeedsOwner(w, m, r, x, rows)
  {
    PresentedIff(m, r, x);
  }

  /** The code escalates under the policy gate exactly when the owner has to be asked. */
  lemma EscalatesIff(g: Protocol.Setting, w: World, m: Mandate, r: Request, x: Answers, rows: seq<Entry>)
    requires g == Protocol.Policy(w)
    ensures Escalates(g, m, r, x, rows) <==> NeedsOwner(w, m, r, x, rows)
  {
    PresentedIff(m, r, x);
    if Presented(m, r, x) && !x.approval.NotValid? {
      var start := StartOf(g, m, rows, r, x.channel.value.settled);
      if r.cumulative > start {
        PolicyAnswers(w, m, r, x, rows, r.cumulative - start, x.behaviourAt);
        GateEscalates(w, m, r, x, rows, r.cumulative - start, x.gateAt);
        EscalatesWith(g, w, m, r, x, rows, start);
      }
    }
  }

  /** The code signs under the policy gate exactly when the ask may be signed. */
  lemma SignsIff(g: Protocol.Setting, w: World, sha: Sha256, m: Mandate, r: Request, x: Answers, rows: seq<Entry>)
    requires g == Protocol.Policy(w)
    ensures Signs(g, sha, m, r, x, rows) <==> MaySign(w, sha, m, r, x, rows)
    ensures Signs(g, sha, m, r, x, rows) ==>
              AnswersAsShould(g, w, m, r, x, rows, r.cumulative - StartOf(g, m, rows, r, x.channel.value.settled), x.gateAt)
  {
    PresentedIff(m, r, x);
    if Presented(m, r, x) && !x.approval.NotValid? {
      var start := StartOf(g, m, rows, r, x.channel.value.settled);
      if r.cumulative > start {
        PolicyAnswers(w, m, r, x, rows, r.cumulative - start, x.gateAt);
        PolicyAnswers(w, m, r, x, rows, r.cumulative - start, x.behaviourAt);
      }
      SignsWith(g, w, sha, m, r, x, rows);
    }
  }

  /**
   * One ask. It is signed exactly when `MaySign` says so, with the slice above everything signed or settled on the
   * channel; then the store gains exactly that row, and the ask was a run of the protocol. A refusal changes nothing.
   */
  method AskChannelVoucher(store: InMemoryVoucherSpendStore, w: World, sha: Sha256, m: Mandate, r: Request, x: Answers,
                           ghost s: Protocol.State, ghost pid: nat)
    returns (a: Answer)
    requires x.channel.Some? ==> ReadyFor(s, store.rows, pid, r, x)
    requires x.totalsAt <= x.recordedAt
    modifies store
    ensures a.Signed? <==> MaySign(w, sha, m, r, x, old(store.rows))
    ensures a.Refused? ==> store.rows == old(store.rows)
    ensures a.Signed? ==>
              && var mandate, voucher := w.bodyHash(m.body), Voucher.Encode(Voucher.Terms(r.address, r.cumulative, r.expiresAt));
                 && voucher.Ok?
                 && a.delta == r.cumulative - Protocol.Higher(Watermark(old(store.rows), mandate, Channel(r.channel)), x.channel.value.settled)
                 && (a.autonomous <==> Alone(w, m, r, x, old(store.rows), a.delta))
                 && store.rows == old(store.rows) + [Entry(mandate, Channel(r.channel), r.cumulative, a.delta, a.autonomous,
                                                           r.recipient, sha(voucher.value), x.recordedAt)]
                 && Protocol.Run(Protocol.Policy(w), mandate, s, Script(Protocol.Policy(w), m, sha, r, x, old(store.rows), pid, a.delta)).Some?
    ensures a == Refused(EscalationRequired) <==> NeedsOwner(w, m, r, x, old(store.rows))
    ensures x.channel.None? ==> a == Refused(ChannelNotFound)
    ensures x.channel.Some? && x.channel.value.payee != r.recipient ==> a == Refused(RecipientIsNotChannelPayee)
    ensures (x.onChain.Some? && x.onChain.value.revoked) || x.callerRevoked.Some? ==> !a.Signed?
  {
    ghost var rows := store.rows;
    a := AskUnder(store, Protocol.Policy(w), sha, m, r, x, s, pid);
    SignsIff(Protocol.Policy(w), w, sha, m, r, x, rows);
    EscalatesIff(Protocol.Policy(w), w, m, r, x, rows);
  }
}
