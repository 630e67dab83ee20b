/**
 * The spend protocol of one mandate as a transition system (apps/api/src/agent/channel-voucher.ts and
 * pay-authority.ts): voucher asks and pay.sh asks interleave at every await, any of them may stop anywhere,
 * other mandates write to the same store, and the chain settles vouchers in between.
 */
module SpendProtocol {
  import opened Prelude
  import opened Model
  import opened SpendStore
  import Gate
  import GateLaws

  /** What the protocol is run against: the body hash, and the gate as it answers. */
  datatype Setting = Setting(bodyHash: Body -> Digest, gate: (Mandate, Offer, Gate.Context) -> Gate.GateResult)

  /** The policy gate of Gate.dfy. */
  function Policy(w: World): Setting {
    Setting(w.bodyHash, (m: Mandate, o: Offer, c: Gate.Context) => Gate.Evaluate(w, Some(m), Some(o), c))
  }

  /** All the protocol needs of a gate: an ALLOW leaves room under both caps. */
  predicate LeavesRoom(g: Gate.GateResult, m: Mandate, o: Offer, c: Gate.Context) {
    g.decision == Gate.ALLOW ==>
      && o.amount > 0
      && c.total + o.amount <= m.body.scope.limits.maxTotal
      && (g.kind == Some(Gate.AUTONOMOUS) ==> c.window + o.amount <= m.body.scope.limits.maxPerWindow)
  }

  ghost predicate KeepsCaps(w: Setting) {
    forall m, o, c :: LeavesRoom(w.gate(m, o, c), m, o, c)
  }

  lemma PolicyKeepsCaps(w: World)
    ensures KeepsCaps(Policy(w))
  {
    forall m: Mandate, o: Offer, c: Gate.Context
      ensures LeavesRoom(Policy(w).gate(m, o, c), m, o, c)
    {
      if Gate.Evaluate(w, Some(m), Some(o), c).decision == Gate.ALLOW {
        GateLaws.AllowKeepsCaps(w, Some(m), Some(o), c);
      }
    }
  }

  /** One request, as it stands before the lock: `seen` is the settled amount read from the channel account. */
  datatype Job =
    | VoucherJob(mandate: Mandate, channel: string, cumulative: nat, seen: nat, recipient: string, messageHash: Digest)
    | PayJob(mandate: Mandate, caller: string, amount: nat, recipient: string, messageHash: Digest)

  /** What the locked body has read so far. */
  datatype Ask =
    | Waiting(job: Job)
    | Inside(job: Job)
    | Totalled(job: Job, at: int, window: nat, total: nat)
    | Marked(job: Job, at: int, window: nat, total: nat, watermark: nat)
    | Allowed(job: Job, at: int, delta: nat, autonomous: bool)

  datatype State = State(
    rows: seq<Entry>,
    start: map<string, nat>,     // settled amount of each channel when the mandate first meets it
    settled: map<string, nat>,   // settled amount on chain now
    asks: map<nat, Ask>,
    holder: Option<nat>,         // who is inside the lock of this mandate
    bodies: set<Body>)           // every body that asked under this mandate hash

  datatype Action =
    | Open(channel: string, settled: nat)
    | Settle(channel: string, amount: nat)
    | OtherMandate(entry: Entry)
    | Arrive(pid: nat, job: Job)
    | Enter(pid: nat)
    | ReadTotals(pid: nat, now: int)
    | ReadWatermark(pid: nat)
    | Decide(pid: nat, offer: Offer, context: Gate.Context)
    | Store(pid: nat, createdAt: int)
    | Stop(pid: nat)

  const INITIAL := State([], map[], map[], map[], None, {})

  function Account(job: Job): Account {
    match job
    case VoucherJob(_, channel, _, _, _, _) => Channel(channel)
    case PayJob(_, caller, _, _, _) => PayCaller(caller)
  }

  function Limits(job: Job): Limits { job.mandate.body.scope.limits }

  /** The highest voucher signed on a channel, or its settled amount when that is higher or nothing was signed. */
  function Higher(signed: Option<nat>, settled: nat): nat {
    if signed.Some? && signed.value > settled then signed.value else settled
  }

  /** The slice a request adds: what the gate is asked about. */
  function Slice(ask: Ask): int
    requires ask.Marked? || (ask.Totalled? && ask.job.PayJob?)
  {
    if ask.Marked? && ask.job.VoucherJob? then ask.job.cumulative - ask.watermark
    else if ask.job.PayJob? then ask.job.amount
    else 0
  }

  function Row(mandate: Digest, ask: Ask, createdAt: int): Entry
    requires ask.Allowed?
  {
    Entry(mandate, Account(ask.job), if ask.job.VoucherJob? then ask.job.cumulative else ask.job.amount, ask.delta,
          ask.autonomous, ask.job.recipient, ask.job.messageHash, createdAt)
  }

  /** The mandate's settled vouchers must come from its own records: nobody else signs for its channels. */
  predicate HasVoucher(rows: seq<Entry>, mandate: Digest, channel: string, amount: nat) {
    exists e :: e in rows && e.mandateHash == mandate && e.account == Channel(channel) && e.cumulative == amount
  }

  predicate MayDecide(w: Setting, ask: Ask, offer: Offer, c: Gate.Context) {
    && ((ask.Marked? && ask.job.VoucherJob?) || (ask.Totalled? && ask.job.PayJob?))
    && offer.amount == Slice(ask)
    && c.window == ask.window && c.total == ask.total
    && w.gate(ask.job.mandate, offer, c).decision == Gate.ALLOW
  }

  predicate ClockGoesOn(ask: Ask, createdAt: int)
    requires ask.Allowed?
  {
    if ask.job.VoucherJob? then ask.at <= createdAt else ask.at == createdAt
  }

  function Release(s: State, pid: nat): State {
    s.(asks := s.asks - {pid}, holder := if s.holder == Some(pid) then None else s.holder)
  }

  /** One step; None when it cannot happen. `Stop` is every refusal and every failed store, RPC or signer call. */
  function Step(w: Setting, mandate: Digest, s: State, a: Action): Option<State> {
    match a
    case Open(channel, settled) =>
      if channel in s.start then None
      else Some(s.(start := s.start[channel := settled], settled := s.settled[channel := settled]))
    case Settle(channel, amount) =>
      if channel in s.settled && amount > s.settled[channel] && HasVoucher(s.rows, mandate, channel, amount)
      then Some(s.(settled := s.settled[channel := amount])) else None
    case OtherMandate(entry) =>
      if entry.mandateHash == mandate || Recorded(s.rows, entry.messageHash) then None
      else Some(s.(rows := s.rows + [entry]))
    case Arrive(pid, job) =>
      if pid in s.asks || w.bodyHash(job.mandate.body) != mandate then None
      else if job.VoucherJob? && (job.channel !in s.settled || job.seen != s.settled[job.channel]) then None
      else Some(s.(asks := s.asks[pid := Waiting(job)], bodies := s.bodies + {job.mandate.body}))
    case Enter(pid) =>
      if pid in s.asks && s.asks[pid].Waiting? && s.holder.None?
      then Some(s.(asks := s.asks[pid := Inside(s.asks[pid].job)], holder := Some(pid))) else None
    case ReadTotals(pid, now) =>
      if pid in s.asks && s.asks[pid].Inside? then
        var job := s.asks[pid].job;
        Some(s.(asks := s.asks[pid := Totalled(job, now, Window(s.rows, mandate, now - Limits(job).windowSeconds), Total(s.rows, mandate))]))
      else None
    case ReadWatermark(pid) =>
      if pid in s.asks && s.asks[pid].Totalled? && s.asks[pid].job.VoucherJob? then
        var t := s.asks[pid];
        Some(s.(asks := s.asks[pid := Marked(t.job, t.at, t.window, t.total, Higher(Watermark(s.rows, mandate, Channel(t.job.channel)), t.job.seen))]))
      else None
    case Decide(pid, offer, context) =>
      if pid in s.asks && MayDecide(w, s.asks[pid], offer, context) then
        var t := s.asks[pid];
        var kind := w.gate(t.job.mandate, offer, context).kind;
        Some(s.(asks := s.asks[pid := Allowed(t.job, t.at, offer.amount, kind == Some(Gate.AUTONOMOUS))]))
      else None
    case Store(pid, createdAt) =>
      if pid in s.asks && s.asks[pid].Allowed? && ClockGoesOn(s.asks[pid], createdAt) then
        match RecordEntry(s.rows, Row(mandate, s.asks[pid], createdAt))
        case Ok(rows) => Some(Release(s, pid).(rows := rows))
        case Err(_) => None
      else None
    case Stop(pid) =>
      if pid in s.asks then Some(Release(s, pid)) else None
  }

  function Run(w: Setting, mandate: Digest, s: State, actions: seq<Action>): Option<State>
    decreases |actions|
  {
    if actions == [] then Some(s)
    else match Step(w, mandate, s, actions[0])
      case None => None
      case Some(next) => Run(w, mandate, next, actions[1..])
  }

  // ---------------------------------------------------------------- the invariant

  /** Highest amount the payee could ever settle on a channel with what was signed so far. */
  function High(s: State, mandate: Digest, channel: string): nat
    requires channel in s.start
  {
    Higher(Watermark(s.rows, mandate, Channel(channel)), s.start[channel])
  }

  /** The chain never runs ahead of the records, and the recorded slices telescope. */
  predicate ChannelOk(s: State, mandate: Digest, channel: string)
    requires channel in s.start
  {
    && channel in s.settled
    && s.start[channel] <= s.settled[channel] <= High(s, mandate, channel)
    && DeltaOn(s.rows, mandate, Channel(channel)) == High(s, mandate, channel) - s.start[channel]
    && (Watermark(s.rows, mandate, Channel(channel)).Some? ==> Watermark(s.rows, mandate, Channel(channel)).value > s.start[channel])
  }

  predicate KnownChannels(s: State, mandate: Digest) {
    forall e :: e in s.rows && e.mandateHash == mandate && e.account.Channel? ==> e.account.address in s.start
  }

  predicate JobOk(w: Setting, mandate: Digest, s: State, job: Job) {
    && w.bodyHash(job.mandate.body) == mandate
    && job.mandate.body in s.bodies
    && (job.VoucherJob? ==> job.channel in s.start && job.channel in s.settled && s.start[job.channel] <= job.seen <= s.settled[job.channel])
  }

  /** What the lock holder has read is still what the store says. */
  predicate ReadsCurrent(s: State, mandate: Digest, ask: Ask) {
    match ask
    case Waiting(_) => true
    case Inside(_) => true
    case Totalled(job, at, window, total) =>
      window == Window(s.rows, mandate, at - Limits(job).windowSeconds) && total == Total(s.rows, mandate)
    case Marked(job, at, window, total, watermark) =>
      && job.VoucherJob?
      && window == Window(s.rows, mandate, at - Limits(job).windowSeconds) && total == Total(s.rows, mandate)
      && watermark == Higher(Watermark(s.rows, mandate, Channel(job.channel)), job.seen)
    case Allowed(job, at, delta, autonomous) =>
      && Total(s.rows, mandate) + delta <= Limits(job).maxTotal
      && (autonomous ==> Window(s.rows, mandate, at - Limits(job).windowSeconds) + delta <= Limits(job).maxPerWindow)
      && (job.VoucherJob? ==> delta > 0 && delta == job.cumulative - Higher(Watermark(s.rows, mandate, Channel(job.channel)), job.seen))
  }

  predicate AskOk(w: Setting, mandate: Digest, s: State, pid: nat)
    requires pid in s.asks
  {
    && JobOk(w, mandate, s, s.asks[pid].job)
    && (!s.asks[pid].Waiting? ==> s.holder == Some(pid))
    && ReadsCurrent(s, mandate, s.asks[pid])
  }

  /** Every autonomous row fitted its own window when it was recorded. */
  predicate WindowSafe(rows: seq<Entry>, mandate: Digest, limits: Limits) {
    if rows == [] then true
    else
      var n := |rows| - 1;
      && WindowSafe(rows[..n], mandate, limits)
      && (rows[n].mandateHash == mandate && rows[n].autonomous ==>
            Window(rows[..n], mandate, rows[n].createdAt - limits.windowSeconds) + rows[n].delta <= limits.maxPerWindow)
  }

  predicate Sole(body: Body, s: State) { forall b :: b in s.bodies ==> b == body }

  predicate CapsOk(s: State, mandate: Digest, limits: Limits) {
    Total(s.rows, mandate) <= limits.maxTotal && WindowSafe(s.rows, mandate, limits)
  }

  predicate ChannelsOk(s: State, mandate: Digest) { forall c :: c in s.start ==> ChannelOk(s, mandate, c) }

  predicate AsksOk(w: Setting, mandate: Digest, s: State) { forall p :: p in s.asks ==> AskOk(w, mandate, s, p) }

  predicate Inv(w: Setting, body: Body, s: State) {
    var mandate := w.bodyHash(body);
    && s.start.Keys == s.settled.Keys
    && ChannelsOk(s, mandate)
    && KnownChannels(s, mandate)
    && AsksOk(w, mandate, s)
    && (forall b :: b in s.bodies ==> w.bodyHash(b) == mandate)
    && (Sole(body, s) ==> CapsOk(s, mandate, body.scope.limits))
  }

  // ---------------------------------------------------------------- every step keeps it

  /** What one more row does to every sum the protocol reads. */
  lemma Appended(rows: seq<Entry>, e: Entry, mandate: Digest, account: Account, after: int)
    ensures Total(rows + [e], mandate) == Total(rows, mandate) + if e.mandateHash == mandate then e.delta else 0
    ensures Window(rows + [e], mandate, after) ==
            Window(rows, mandate, after) + if e.mandateHash == mandate && e.autonomous && e.createdAt > after then e.delta else 0
    ensures DeltaOn(rows + [e], mandate, account) ==
            DeltaOn(rows, mandate, account) + if e.mandateHash == mandate && e.account == account then e.delta else 0
    ensures Watermark(rows + [e], mandate, account) ==
            if e.mandateHash == mandate && e.account == account
            then Some(Higher(Watermark(rows, mandate, account), e.cumulative)) else Watermark(rows, mandate, account)
  {
    assert (rows + [e])[..|rows|] == rows;
  }

  lemma AppendedWindowSafe(rows: seq<Entry>, e: Entry, mandate: Digest, limits: Limits)
    requires WindowSafe(rows, mandate, limits)
    requires e.mandateHash == mandate && e.autonomous ==> Window(rows, mandate, e.createdAt - limits.windowSeconds) + e.delta <= limits.maxPerWindow
    ensures WindowSafe(rows + [e], mandate, limits)
  {
    assert (rows + [e])[..|rows|] == rows;
  }

  /** A recorded voucher is at most the watermark. */
  lemma SettleBound(s: State, mandate: Digest, channel: string, amount: nat)
    requires channel in s.start && HasVoucher(s.rows, mandate, channel, amount)
    ensures amount <= High(s, mandate, channel)
  {
    WatermarkIsHighest(s.rows, mandate, Channel(channel));
  }

  lemma OtherMandateKeeps(w: Setting, body: Body, s: State, e: Entry)
    requires Inv(w, body, s) && e.mandateHash != w.bodyHash(body)
    ensures Inv(w, body, s.(rows := s.rows + [e]))
  {
    var mandate, t := w.bodyHash(body), s.(rows := s.rows + [e]);
    forall account, after
      ensures Window(t.rows, mandate, after) == Window(s.rows, mandate, after)
      ensures DeltaOn(t.rows, mandate, account) == DeltaOn(s.rows, mandate, account)
      ensures Watermark(t.rows, mandate, account) == Watermark(s.rows, mandate, account)
    {
      Appended(s.rows, e, mandate, account, after);
    }
    Appended(s.rows, e, mandate, PayCaller(""), 0);
    forall c | c in t.start
      ensures ChannelOk(t, mandate, c)
    {
      assert ChannelOk(s, mandate, c);
    }
    forall p | p in t.asks
      ensures AskOk(w, mandate, t, p)
    {
      assert AskOk(w, mandate, s, p);
    }
    if Sole(body, t) {
      assert Sole(body, s);
      AppendedWindowSafe(s.rows, e, mandate, body.scope.limits);
    }
  }

  lemma SettleKeeps(w: Setting, body: Body, s: State, channel: string, amount: nat)
    requires Inv(w, body, s) && Step(w, w.bodyHash(body), s, Settle(channel, amount)).Some?
    ensures Inv(w, body, Step(w, w.bodyHash(body), s, Settle(channel, amount)).value)
  {
    var mandate := w.bodyHash(body);
    var t := Step(w, mandate, s, Settle(channel, amount)).value;
    SettleBound(s, mandate, channel, amount);
    forall c | c in t.start
      ensures ChannelOk(t, mandate, c)
    {
      assert ChannelOk(s, mandate, c);
    }
    forall p | p in t.asks
      ensures AskOk(w, mandate, t, p)
    {
      assert AskOk(w, mandate, s, p);
    }
  }

  lemma OpenKeeps(w: Setting, body: Body, s: State, channel: string, amount: nat)
    requires Inv(w, body, s) && channel !in s.start
    ensures Inv(w, body, s.(start := s.start[channel := amount], settled := s.settled[channel := amount]))
  {
    var mandate, t := w.bodyHash(body), s.(start := s.start[channel := amount], settled := s.settled[channel := amount]);
    NothingRecorded(s.rows, mandate, Channel(channel));
    forall c | c in t.start
      ensures ChannelOk(t, mandate, c)
    {
      if c != channel { assert ChannelOk(s, mandate, c); }
    }
    forall p | p in t.asks
      ensures AskOk(w, mandate, t, p)
    {
      assert AskOk(w, mandate, s, p);
    }
  }

  lemma {:induction false} NothingRecorded(rows: seq<Entry>, mandate: Digest, account: Account)
    requires forall e :: e in rows && e.mandateHash == mandate ==> e.account != account
    ensures Watermark(rows, mandate, account).None? && DeltaOn(rows, mandate, account) == 0
  {
    if rows != [] {
      assert rows[|rows| - 1] in rows;
      NothingRecorded(rows[..|rows| - 1], mandate, account);
    }
  }

  /** A step that moves only one ask: the others keep what they have, as long as the lock allows. */
  lemma AskMoves(w: Setting, body: Body, s: State, t: State, pid: nat)
    requires Inv(w, body, s)
    requires t.rows == s.rows && t.start == s.start && t.settled == s.settled && s.bodies <= t.bodies
    requires forall b :: b in t.bodies ==> w.bodyHash(b) == w.bodyHash(body)
    requires t.asks - {pid} == s.asks - {pid}
    requires t.holder == s.holder || (s.holder.None? && t.holder == Some(pid)) || (s.holder == Some(pid) && t.holder.None?)
    requires pid in t.asks ==> AskOk(w, w.bodyHash(body), t, pid)
    ensures Inv(w, body, t)
  {
    var mandate := w.bodyHash(body);
    forall c | c in t.start
      ensures ChannelOk(t, mandate, c)
    {
      assert ChannelOk(s, mandate, c);
    }
    forall p | p in t.asks
      ensures AskOk(w, mandate, t, p)
    {
      if p != pid {
        assert p in t.asks - {pid} && (t.asks - {pid})[p] == (s.asks - {pid})[p];
        assert AskOk(w, mandate, s, p);
        assert JobOk(w, mandate, t, t.asks[p].job);
      }
    }
    assert Sole(body, t) ==> Sole(body, s);
  }

  lemma ArriveKeeps(w: Setting, body: Body, s: State, pid: nat, job: Job)
    requires Inv(w, body, s) && Step(w, w.bodyHash(body), s, Arrive(pid, job)).Some?
    ensures Inv(w, body, Step(w, w.bodyHash(body), s, Arrive(pid, job)).value)
  {
    var t := s.(asks := s.asks[pid := Waiting(job)], bodies := s.bodies + {job.mandate.body});
    if job.VoucherJob? { assert ChannelOk(s, w.bodyHash(body), job.channel); }
    AskMoves(w, body, s, t, pid);
  }

  /** The lock holder's own ask moves on; its job is what it was. */
  lemma InsideMoves(w: Setting, body: Body, s: State, t: State, pid: nat, ask: Ask)
    requires Inv(w, body, s) && pid in s.asks && ask.job == s.asks[pid].job && ReadsCurrent(s, w.bodyHash(body), ask)
    requires t == s.(asks := s.asks[pid := ask], holder := Some(pid))
    requires s.holder == Some(pid) || s.holder.None?
    ensures Inv(w, body, t)
  {
    assert AskOk(w, w.bodyHash(body), s, pid);
    assert JobOk(w, w.bodyHash(body), t, ask.job);
    AskMoves(w, body, s, t, pid);
  }

  lemma InsideKeeps(w: Setting, body: Body, s: State, a: Action)
    requires a.Enter? || a.ReadTotals? || a.ReadWatermark?
    requires Inv(w, body, s) && Step(w, w.bodyHash(body), s, a).Some?
    ensures Inv(w, body, Step(w, w.bodyHash(body), s, a).value)
  {
    var t := Step(w, w.bodyHash(body), s, a).value;
    assert AskOk(w, w.bodyHash(body), s, a.pid);
    InsideMoves(w, body, s, t, a.pid, t.asks[a.pid]);
  }

  lemma StopKeeps(w: Setting, body: Body, s: State, pid: nat)
    requires Inv(w, body, s) && pid in s.asks
    ensures Inv(w, body, Release(s, pid))
  {
    AskMoves(w, body, s, Release(s, pid), pid);
  }

  /** An ALLOW over sums that are still current leaves room for its slice under both caps. */
  lemma DecideKeeps(w: Setting, body: Body, s: State, pid: nat, offer: Offer, context: Gate.Context)
    requires KeepsCaps(w) && Inv(w, body, s) && pid in s.asks && MayDecide(w, s.asks[pid], offer, context)
    ensures var ask := s.asks[pid];
            var kind := w.gate(ask.job.mandate, offer, context).kind;
            Inv(w, body, s.(asks := s.asks[pid := Allowed(ask.job, ask.at, offer.amount, kind == Some(Gate.AUTONOMOUS))]))
  {
    var ask := s.asks[pid];
    var autonomous := w.gate(ask.job.mandate, offer, context).kind == Some(Gate.AUTONOMOUS);
    RoomLeft(w, ask, offer, context);
    var t := s.(asks := s.asks[pid := Allowed(ask.job, ask.at, offer.amount, autonomous)]);
    AllowedOk(w, w.bodyHash(body), s, t, pid, offer.amount, autonomous);
    AskMoves(w, body, s, t, pid);
  }

  lemma RoomLeft(w: Setting, ask: Ask, offer: Offer, context: Gate.Context)
    requires KeepsCaps(w) && MayDecide(w, ask, offer, context)
    ensures offer.amount == Slice(ask) > 0 && ask.total + offer.amount <= Limits(ask.job).maxTotal
    ensures w.gate(ask.job.mandate, offer, context).kind == Some(Gate.AUTONOMOUS) ==>
              ask.window + offer.amount <= Limits(ask.job).maxPerWindow
  {
    assert LeavesRoom(w.gate(ask.job.mandate, offer, context), ask.job.mandate, offer, context);
  }

  lemma AllowedOk(w: Setting, mandate: Digest, s: State, t: State, pid: nat, amount: nat, autonomous: bool)
    requires pid in s.asks && AskOk(w, mandate, s, pid)
    requires (s.asks[pid].Marked? && s.asks[pid].job.VoucherJob?) || (s.asks[pid].Totalled? && s.asks[pid].job.PayJob?)
    requires amount == Slice(s.asks[pid]) > 0 && s.asks[pid].total + amount <= Limits(s.asks[pid].job).maxTotal
    requires autonomous ==> s.asks[pid].window + amount <= Limits(s.asks[pid].job).maxPerWindow
    requires t == s.(asks := s.asks[pid := Allowed(s.asks[pid].job, s.asks[pid].at, amount, autonomous)])
    ensures AskOk(w, mandate, t, pid)
  {
    assert JobOk(w, mandate, t, s.asks[pid].job);
  }

  /** The new row telescopes: its slice starts where the channel's records ended, stale settled amount or not. */
  lemma StoredChannelOk(w: Setting, mandate: Digest, s: State, t: State, ask: Ask, createdAt: int, channel: string)
    requires ask.Allowed? && JobOk(w, mandate, s, ask.job) && ReadsCurrent(s, mandate, ask)
    requires t.rows == s.rows + [Row(mandate, ask, createdAt)] && t.start == s.start && t.settled == s.settled
    requires channel in s.start && ChannelOk(s, mandate, channel)
    ensures ChannelOk(t, mandate, channel)
  {
    Appended(s.rows, Row(mandate, ask, createdAt), mandate, Channel(channel), 0);
  }

  lemma StoreKeepsCaps(s: State, mandate: Digest, limits: Limits, ask: Ask, createdAt: int)
    requires CapsOk(s, mandate, limits)
    requires ask.Allowed? && ReadsCurrent(s, mandate, ask) && Limits(ask.job) == limits && ClockGoesOn(ask, createdAt)
    ensures CapsOk(s.(rows := s.rows + [Row(mandate, ask, createdAt)]), mandate, limits)
  {
    var e := Row(mandate, ask, createdAt);
    Appended(s.rows, e, mandate, e.account, 0);
    WindowAntitone(s.rows, mandate, ask.at - limits.windowSeconds, createdAt - limits.windowSeconds);
    AppendedWindowSafe(s.rows, e, mandate, limits);
  }

  lemma StoreKeeps(w: Setting, body: Body, s: State, pid: nat, createdAt: int)
    requires Inv(w, body, s) && pid in s.asks && s.asks[pid].Allowed? && ClockGoesOn(s.asks[pid], createdAt)
    ensures Inv(w, body, Release(s, pid).(rows := s.rows + [Row(w.bodyHash(body), s.asks[pid], createdAt)]))
  {
    var mandate, ask := w.bodyHash(body), s.asks[pid];
    var e := Row(mandate, ask, createdAt);
    var t := Release(s, pid).(rows := s.rows + [e]);
    assert AskOk(w, mandate, s, pid);
    forall c | c in t.start
      ensures ChannelOk(t, mandate, c)
    {
      StoredChannelOk(w, mandate, s, t, ask, createdAt, c);
    }
    forall p | p in t.asks
      ensures AskOk(w, mandate, t, p)
    {
      assert AskOk(w, mandate, s, p);
      assert JobOk(w, mandate, t, t.asks[p].job);
    }
    assert KnownChannels(t, mandate);
    if Sole(body, t) {
      StoreKeepsCaps(s, mandate, body.scope.limits, ask, createdAt);
    }
  }

  lemma StepKeeps(w: Setting, body: Body, s: State, a: Action)
    requires KeepsCaps(w) && Inv(w, body, s) && Step(w, w.bodyHash(body), s, a).Some?
    ensures Inv(w, body, Step(w, w.bodyHash(body), s, a).value)
  {
    match a
    case Open(channel, settled) => OpenKeeps(w, body, s, channel, settled);
    case Settle(channel, amount) => SettleKeeps(w, body, s, channel, amount);
    case OtherMandate(entry) => OtherMandateKeeps(w, body, s, entry);
    case Decide(pid, offer, context) => DecideKeeps(w, body, s, pid, offer, context);
    case Store(pid, createdAt) => StoreKeeps(w, body, s, pid, createdAt);
    case Arrive(pid, job) => ArriveKeeps(w, body, s, pid, job);
    case Stop(pid) => StopKeeps(w, body, s, pid);
    case _ => InsideKeeps(w, body, s, a);
  }

  lemma {:induction false} RunKeeps(w: Setting, body: Body, s: State, actions: seq<Action>)
    requires KeepsCaps(w) && Inv(w, body, s) && Run(w, w.bodyHash(body), s, actions).Some?
    ensures Inv(w, body, Run(w, w.bodyHash(body), s, actions).value)
    decreases |actions|
  {
    if actions != [] {
      StepKeeps(w, body, s, actions[0]);
      RunKeeps(w, body, Step(w, w.bodyHash(body), s, actions[0]).value, actions[1..]);
    }
  }

  // ---------------------------------------------------------------- the theorems

  /** What the chain has paid out above where each channel started. */
  function SettledAbove(s: State, channels: seq<string>): int
    requires forall c :: c in channels ==> c in s.start && c in s.settled
  {
    if channels == [] then 0
    else s.settled[channels[0]] - s.start[channels[0]] + SettledAbove(s, channels[1..])
  }

  lemma {:induction false} SettledWithinDeltas(s: State, mandate: Digest, channels: seq<string>)
    requires ChannelsOk(s, mandate)
    requires forall c :: c in channels ==> c in s.start && c in s.settled
    ensures SettledAbove(s, channels) <= DeltaOver(s.rows, mandate, channels)
  {
    if channels != [] {
      assert ChannelOk(s, mandate, channels[0]);
      SettledWithinDeltas(s, mandate, channels[1..]);
    }
  }

  /**
   * The lifetime cap. In every run, whatever is settled on chain above the starting amounts of any distinct
   * channels, plus every pay.sh allowance, stays within `maxTotal`, or two mandate bodies share a hash.
   */
  lemma LifetimeCap(world: World, w: Setting, body: Body, actions: seq<Action>, channels: seq<string>)
    requires w == Policy(world)
    requires Run(w, w.bodyHash(body), INITIAL, actions).Some?
    requires Distinct(channels)
    requires forall c :: c in channels ==> c in Run(w, w.bodyHash(body), INITIAL, actions).value.start
    ensures var s := Run(w, w.bodyHash(body), INITIAL, actions).value;
            && (forall c :: c in channels ==> c in s.settled)
            && (|| SettledAbove(s, channels) + PayTotal(s.rows, w.bodyHash(body)) <= body.scope.limits.maxTotal
                || CollidesIn(w.bodyHash, s.bodies + {body}))
  {
    var mandate := w.bodyHash(body);
    PolicyKeepsCaps(world);
    RunKeeps(w, body, INITIAL, actions);
    var s := Run(w, mandate, INITIAL, actions).value;
    SettledWithinDeltas(s, mandate, channels);
    PartsWithinTotal(s.rows, mandate, channels);
    SoleOrCollision(w, body, s);
  }

  lemma SoleOrCollision(w: Setting, body: Body, s: State)
    requires forall b :: b in s.bodies ==> w.bodyHash(b) == w.bodyHash(body)
    ensures Sole(body, s) || CollidesIn(w.bodyHash, s.bodies + {body})
  {
    if !Sole(body, s) {
      var b :| b in s.bodies && b != body;
      Collide(w.bodyHash, s.bodies + {body}, b, body);
    }
  }

  /**
   * Per channel the recorded slices telescope to the highest voucher minus the starting amount, and the chain
   * is never above that, although the settled amount is read before the lock and may be stale.
   */
  lemma SlicesTelescope(world: World, w: Setting, body: Body, actions: seq<Action>, channel: string)
    requires w == Policy(world)
    requires Run(w, w.bodyHash(body), INITIAL, actions).Some?
    requires channel in Run(w, w.bodyHash(body), INITIAL, actions).value.start
    ensures var s := Run(w, w.bodyHash(body), INITIAL, actions).value;
            && channel in s.settled
            && s.start[channel] + DeltaOn(s.rows, w.bodyHash(body), Channel(channel)) == High(s, w.bodyHash(body), channel)
            && s.settled[channel] <= High(s, w.bodyHash(body), channel)
  {
    PolicyKeepsCaps(world);
    RunKeeps(w, body, INITIAL, actions);
    assert ChannelOk(Run(w, w.bodyHash(body), INITIAL, actions).value, w.bodyHash(body), channel);
  }

  /** Autonomous spend recorded in (from, to]. */
  function Between(rows: seq<Entry>, mandate: Digest, from: int, to: int): nat {
    if rows == [] then 0
    else
      var last := rows[|rows| - 1];
      Between(rows[..|rows| - 1], mandate, from, to) +
      if last.mandateHash == mandate && last.autonomous && from < last.createdAt <= to then last.delta else 0
  }

  lemma {:induction false} BetweenWithinWindow(rows: seq<Entry>, mandate: Digest, from: int, to: int)
    ensures Between(rows, mandate, from, to) <= Window(rows, mandate, from)
  {
    if rows != [] { BetweenWithinWindow(rows[..|rows| - 1], mandate, from, to); }
  }

  /** Safe when recorded is safe at every instant: the last row inside a window already counted the others. */
  lemma {:induction false} SafeAtEveryInstant(rows: seq<Entry>, mandate: Digest, limits: Limits, t: int)
    requires WindowSafe(rows, mandate, limits)
    ensures Between(rows, mandate, t - limits.windowSeconds, t) <= limits.maxPerWindow
  {
    if rows != [] {
      var n := |rows| - 1;
      var last, from := rows[n], t - limits.windowSeconds;
      if last.mandateHash == mandate && last.autonomous && from < last.createdAt <= t {
        BetweenWithinWindow(rows[..n], mandate, from, t);
        WindowAntitone(rows[..n], mandate, last.createdAt - limits.windowSeconds, from);
      } else {
        SafeAtEveryInstant(rows[..n], mandate, limits, t);
      }
    }
  }

  /** The rolling window, at every instant `t` and not only when a decision is made. */
  lemma RollingWindow(world: World, w: Setting, body: Body, actions: seq<Action>, t: int)
    requires w == Policy(world)
    requires Run(w, w.bodyHash(body), INITIAL, actions).Some?
    ensures var s := Run(w, w.bodyHash(body), INITIAL, actions).value;
            || Between(s.rows, w.bodyHash(body), t - body.scope.limits.windowSeconds, t) <= body.scope.limits.maxPerWindow
            || CollidesIn(w.bodyHash, s.bodies + {body})
  {
    PolicyKeepsCaps(world);
    RunKeeps(w, body, INITIAL, actions);
    var s := Run(w, w.bodyHash(body), INITIAL, actions).value;
    SoleOrCollision(w, body, s);
    if Sole(body, s) { SafeAtEveryInstant(s.rows, w.bodyHash(body), body.scope.limits, t); }
  }

  // ---------------------------------------------------------------- a pay.sh ask on its own

  lemma RunTwo(w: Setting, mandate: Digest, s: State, a: Action, b: Action, rest: seq<Action>)
    ensures Run(w, mandate, s, [a, b] + rest) ==
            if Step(w, mandate, s, a).None? then None
            else if Step(w, mandate, Step(w, mandate, s, a).value, b).None? then None
            else Run(w, mandate, Step(w, mandate, Step(w, mandate, s, a).value, b).value, rest)
  {
    assert ([a, b] + rest)[1..] == [b] + rest;
    assert ([b] + rest)[1..] == rest;
  }

  function PayScript(pid: nat, job: Job, now: int, offer: Offer, context: Gate.Context): seq<Action> {
    [Arrive(pid, job), Enter(pid)] + ([ReadTotals(pid, now), Decide(pid, offer, context)] + ([Store(pid, now)] + []))
  }

  function PayInside(s: State, pid: nat, job: Job, ask: Ask): State {
    s.(asks := s.asks[pid := ask], holder := Some(pid), bodies := s.bodies + {job.mandate.body})
  }

  lemma PayReads(w: Setting, mandate: Digest, s: State, pid: nat, job: Job, now: int, offer: Offer, context: Gate.Context, rest: seq<Action>)
    requires job.PayJob?
    ensures var total, window := Total(s.rows, mandate), Window(s.rows, mandate, now - job.mandate.body.scope.limits.windowSeconds);
            var result := w.gate(job.mandate, offer, context);
            Run(w, mandate, PayInside(s, pid, job, Inside(job)), [ReadTotals(pid, now), Decide(pid, offer, context)] + rest) ==
            if offer.amount == job.amount && context.window == window && context.total == total && result.decision == Gate.ALLOW
            then Run(w, mandate, PayInside(s, pid, job, Allowed(job, now, job.amount, result.kind == Some(Gate.AUTONOMOUS))), rest) else None
  {
    RunTwo(w, mandate, PayInside(s, pid, job, Inside(job)), ReadTotals(pid, now), Decide(pid, offer, context), rest);
    var read := Step(w, mandate, PayInside(s, pid, job, Inside(job)), ReadTotals(pid, now)).value;
    assert read == PayInside(s, pid, job, read.asks[pid]);
    if offer.amount == job.amount && MayDecide(w, read.asks[pid], offer, context) {
      var decided := Step(w, mandate, read, Decide(pid, offer, context)).value;
      assert decided == PayInside(s, pid, job, decided.asks[pid]);
    }
  }

  /**
   * A pay.sh ask that finds the lock free is allowed exactly when the gate, asked about its whole amount over the sums of
   * the store at its own time, says ALLOW and its hash is new; and then leaves one row of that amount in its caller's name.
   */
  lemma PayAskAllowedIff(w: Setting, mandate: Digest, s: State, pid: nat, job: Job, now: int, offer: Offer, context: Gate.Context)
    requires job.PayJob? && s.holder.None? && pid !in s.asks && w.bodyHash(job.mandate.body) == mandate
    ensures var end, result := Run(w, mandate, s, PayScript(pid, job, now, offer, context)), w.gate(job.mandate, offer, context);
            && (end.Some? <==>
                  && offer.amount == job.amount && result.decision == Gate.ALLOW
                  && context.window == Window(s.rows, mandate, now - job.mandate.body.scope.limits.windowSeconds)
                  && context.total == Total(s.rows, mandate)
                  && forall e :: e in s.rows ==> e.messageHash != job.messageHash)
            && (end.Some? ==>
                  && end.value.holder.None?
                  && end.value.rows == s.rows + [Entry(mandate, PayCaller(job.caller), job.amount, job.amount,
                                                       result.kind == Some(Gate.AUTONOMOUS), job.recipient, job.messageHash, now)])
  {
    var rest := [Store(pid, now)] + [];
    var middle := [ReadTotals(pid, now), Decide(pid, offer, context)] + rest;
    RunTwo(w, mandate, s, Arrive(pid, job), Enter(pid), middle);
    assert s.asks[pid := Waiting(job)][pid := Inside(job)] == s.asks[pid := Inside(job)];
    PayReads(w, mandate, s, pid, job, now, offer, context, rest);
    var allowed := PayInside(s, pid, job, Allowed(job, now, job.amount, w.gate(job.mandate, offer, context).kind == Some(Gate.AUTONOMOUS)));
    PayStores(w, mandate, allowed, pid, now);
  }

  lemma PayStores(w: Setting, mandate: Digest, s: State, pid: nat, now: int)
    requires pid in s.asks && s.asks[pid].Allowed? && s.asks[pid].job.PayJob? && s.asks[pid].at == now && s.holder == Some(pid)
    ensures var end, ask := Run(w, mandate, s, [Store(pid, now)] + []), s.asks[pid];
            && (end.Some? <==> forall e :: e in s.rows ==> e.messageHash != ask.job.messageHash)
            && (end.Some? ==> end.value.holder.None? && end.value.rows == s.rows + [Row(mandate, ask, now)])
  {
    assert ([Store(pid, now)] + [])[1..] == [];
  }
}
