/**
 * The process-local budget of voucher authorizers (packages/x402-client/src/voucher.ts): reserve before signing,
 * commit or roll back after, on many channels at once. Requests on one channel run one at a time.
 */
module VoucherLedger {
  import opened Prelude
  import opened Model
  import Gate
  import Protocol = SpendProtocol
  import Voucher

  /** A channel id stands for its 32 bytes. */
  type ChannelId = Bytes

  datatype Ledger = Ledger(watermark: map<ChannelId, nat>, seen: set<Digest>, total: int, window: int, inFlight: int)

  datatype LedgerError = AlreadyPresented | WatermarkMismatch | NotAboveSettled

  function Reserved(l: Ledger, channel: ChannelId, hash: Digest, settled: nat, cumulative: nat, seenChannel: bool): Result<Ledger, LedgerError> {
    if hash in l.seen then Err(AlreadyPresented)
    else if seenChannel && (channel !in l.watermark || settled != l.watermark[channel]) then Err(WatermarkMismatch)
    else if cumulative <= settled then Err(NotAboveSettled)
    else
      var delta := cumulative - settled;
      Ok(l.(watermark := l.watermark[channel := cumulative], total := l.total + delta, window := l.window + delta, inFlight := l.inFlight + 1))
  }

  function Restore(watermark: map<ChannelId, nat>, channel: ChannelId, previous: Option<nat>): map<ChannelId, nat> {
    if previous.None? then watermark - {channel} else watermark[channel := previous.value]
  }

  function RolledBack(l: Ledger, channel: ChannelId, delta: nat, previous: Option<nat>): Ledger {
    l.(watermark := Restore(l.watermark, channel, previous), total := l.total - delta, window := l.window - delta, inFlight := l.inFlight - 1)
  }

  function Known(l: Ledger, channel: ChannelId): Option<nat> {
    if channel in l.watermark then Some(l.watermark[channel]) else None
  }

  class VoucherBudgetLedger {
    var watermark: map<ChannelId, nat>
    var seen: set<Digest>
    var spentTotal: int
    var spentWindow: int
    var inFlight: int

    constructor (window: nat, total: nat)
      ensures View() == Ledger(map[], {}, total, window, 0)
    {
      watermark, seen := map[], {};
      spentTotal, spentWindow, inFlight := total, window, 0;
    }

    function View(): Ledger
      reads this
    {
      Ledger(watermark, seen, spentTotal, spentWindow, inFlight)
    }

    method Reserve(channel: ChannelId, hash: Digest, settled: nat, cumulative: nat, seenChannel: bool)
      returns (r: Result<(nat, Option<nat>), LedgerError>)
      modifies this
      ensures match Reserved(old(View()), channel, hash, settled, cumulative, seenChannel)
              case Err(error) => r == Err(error) && View() == old(View())
              case Ok(after) => View() == after && r == Ok((cumulative - settled, Known(old(View()), channel)))
    {
      if hash in seen {
        return Err(AlreadyPresented);
      }
      if seenChannel && Known(View(), channel) != Some(settled) {
        return Err(WatermarkMismatch);
      }
      if cumulative <= settled {
        return Err(NotAboveSettled);
      }
      var delta := cumulative - settled;
      var previous := Known(View(), channel);
      spentWindow := spentWindow + delta;
      spentTotal := spentTotal + delta;
      watermark := watermark[channel := cumulative];
      inFlight := inFlight + 1;
      return Ok((delta, previous));
    }

    method Rollback(channel: ChannelId, delta: nat, previous: Option<nat>)
      modifies this
      ensures View() == RolledBack(old(View()), channel, delta, previous)
    {
      spentWindow := spentWindow - delta;
      spentTotal := spentTotal - delta;
      if previous.None? {
        watermark := watermark - {channel};
      } else {
        watermark := watermark[channel := previous.value];
      }
      inFlight := inFlight - 1;
    }

    method Commit()
      modifies this
      ensures View() == old(View()).(inFlight := old(inFlight) - 1)
    {
      inFlight := inFlight - 1;
    }

    method Remember(hash: Digest)
      modifies this
      ensures View() == old(View()).(seen := old(seen) + {hash})
    {
      seen := seen + {hash};
    }
  }

  // ---------------------------------------------------------------- many authorizers, many channels

  /** One reservation held through signing. */
  datatype Held = Held(delta: nat, previous: Option<nat>, voucher: Voucher.Terms)

  /** `base` is the settled amount a channel's first standing reservation started from; `order` lists those channels. */
  datatype State = State(ledger: Ledger, base: map<ChannelId, nat>, order: seq<ChannelId>, held: map<ChannelId, Held>, remembered: set<Voucher.Terms>)

  datatype Ask = Ask(voucher: Voucher.Terms, chainSettled: Option<nat>, callerSettled: Option<nat>, offer: Offer, context: Gate.Context)

  datatype Action = Request(ask: Ask) | SignatureArrives(channel: ChannelId) | SigningFails(channel: ChannelId)

  datatype Setting = Setting(protocol: Protocol.Setting, mandate: Mandate, sha: Sha256)

  function HashOf(w: Setting, v: Voucher.Terms): Digest {
    match Voucher.Encode(v)
    case Ok(bytes) => w.sha(bytes)
    case Err(_) => w.sha([])
  }

  /** The settled amount a request is scored from: the chain's for a new channel, else the caller's, else the ledger's. */
  function SettledFor(l: Ledger, a: Ask): nat {
    var known := Known(l, a.voucher.channel);
    if a.chainSettled.Some? && known.None? then a.chainSettled.value
    else if a.callerSettled.Some? then a.callerSettled.value
    else if known.Some? then known.value
    else 0
  }

  /** Everything the authorizer checks before it reserves, in one synchronous stretch. */
  predicate Passes(w: Setting, l: Ledger, a: Ask) {
    var known, settled := Known(l, a.voucher.channel), SettledFor(l, a);
    && Voucher.Encodable(a.voucher)
    && !(a.chainSettled.Some? && a.callerSettled.Some? && a.callerSettled.value < a.chainSettled.value)
    && (known.Some? ==> settled == known.value)
    && a.voucher.cumulative > settled
    && a.offer.amount == a.voucher.cumulative - settled
    && a.context.total == l.total && a.context.window == l.window
    && w.protocol.gate(w.mandate, a.offer, a.context).decision == Gate.ALLOW
  }

  function TryReserve(w: Setting, l: Ledger, a: Ask): Result<Ledger, LedgerError> {
    Reserved(l, a.voucher.channel, HashOf(w, a.voucher), SettledFor(l, a), a.voucher.cumulative, Known(l, a.voucher.channel).Some?)
  }

  function AfterReserve(s: State, a: Ask, ledger: Ledger): State {
    var channel, settled := a.voucher.channel, SettledFor(s.ledger, a);
    State(ledger,
          if channel in s.ledger.watermark then s.base else s.base[channel := settled],
          if channel in s.base then s.order else s.order + [channel],
          s.held[channel := Held(if a.voucher.cumulative > settled then a.voucher.cumulative - settled else 0, Known(s.ledger, channel), a.voucher)],
          s.remembered)
  }

  function AfterSignature(w: Setting, s: State, c: ChannelId): State
    requires c in s.held
  {
    var l := s.ledger.(inFlight := s.ledger.inFlight - 1, seen := s.ledger.seen + {HashOf(w, s.held[c].voucher)});
    s.(ledger := l, held := s.held - {c}, remembered := s.remembered + {s.held[c].voucher})
  }

  function AfterFailure(s: State, c: ChannelId): State
    requires c in s.held
  {
    s.(ledger := RolledBack(s.ledger, c, s.held[c].delta, s.held[c].previous), held := s.held - {c})
  }

  /** One synchronous stretch of one request. A refused request changes nothing. */
  function Step(w: Setting, s: State, action: Action): Option<State> {
    match action
    case Request(a) =>
      if a.voucher.channel in s.held then None
      else if !Passes(w, s.ledger, a) then Some(s)
      else (match TryReserve(w, s.ledger, a)
            case Err(_) => Some(s)
            case Ok(ledger) => Some(AfterReserve(s, a, ledger)))
    case SignatureArrives(c) => if c in s.held then Some(AfterSignature(w, s, c)) else None
    case SigningFails(c) => if c in s.held then Some(AfterFailure(s, c)) else None
  }

  function Initial(window: nat, total: nat): State { State(Ledger(map[], {}, total, window, 0), map[], [], map[], {}) }

  function Run(w: Setting, s: State, actions: seq<Action>): Option<State>
    decreases |actions|
  {
    if actions == [] then Some(s)
    else match Step(w, s, actions[0])
      case None => None
      case Some(next) => Run(w, next, actions[1..])
  }

  // ---------------------------------------------------------------- conservation

  /** What a channel's standing vouchers, signed or being signed, have charged. */
  function Charged(watermark: map<ChannelId, nat>, base: map<ChannelId, nat>, c: ChannelId): int {
    if c in watermark && c in base then watermark[c] as int - base[c] as int else 0
  }

  function Sum(order: seq<ChannelId>, watermark: map<ChannelId, nat>, base: map<ChannelId, nat>): int {
    if order == [] then 0 else Charged(watermark, base, order[0]) + Sum(order[1..], watermark, base)
  }

  predicate SameBut(c: ChannelId, a: map<ChannelId, nat>, b: map<ChannelId, nat>) { a - {c} == b - {c} }

  lemma {:induction false} SumMoves(order: seq<ChannelId>, c: ChannelId, was: map<ChannelId, nat>, wasBase: map<ChannelId, nat>,
                                    now: map<ChannelId, nat>, nowBase: map<ChannelId, nat>)
    requires Distinct(order) && SameBut(c, was, now) && SameBut(c, wasBase, nowBase)
    ensures Sum(order, now, nowBase) ==
            Sum(order, was, wasBase) + if c in order then Charged(now, nowBase, c) - Charged(was, wasBase, c) else 0
  {
    if order != [] {
      SumMoves(order[1..], c, was, wasBase, now, nowBase);
      assert order == [order[0]] + order[1..];
      if order[0] != c { ChargedElsewhere(c, order[0], was, wasBase, now, nowBase); }
    }
  }

  lemma ChargedElsewhere(c: ChannelId, d: ChannelId, was: map<ChannelId, nat>, wasBase: map<ChannelId, nat>, now: map<ChannelId, nat>, nowBase: map<ChannelId, nat>)
    requires c != d && SameBut(c, was, now) && SameBut(c, wasBase, nowBase)
    ensures Charged(now, nowBase, d) == Charged(was, wasBase, d)
  {
    assert d in was <==> d in was - {c};
    assert d in now <==> d in now - {c};
    assert d in wasBase <==> d in wasBase - {c};
    assert d in nowBase <==> d in nowBase - {c};
    assert d in was ==> (was - {c})[d] == was[d];
    assert d in now ==> (now - {c})[d] == now[d];
    assert d in wasBase ==> (wasBase - {c})[d] == wasBase[d];
    assert d in nowBase ==> (nowBase - {c})[d] == nowBase[d];
  }

  lemma {:induction false} SumAppends(order: seq<ChannelId>, c: ChannelId, watermark: map<ChannelId, nat>, base: map<ChannelId, nat>)
    ensures Sum(order + [c], watermark, base) == Sum(order, watermark, base) + Charged(watermark, base, c)
  {
    if order == [] {
      assert ([] + [c]) == [c];
    } else {
      assert (order + [c])[1..] == order[1..] + [c];
      SumAppends(order[1..], c, watermark, base);
    }
  }

  // ---------------------------------------------------------------- the invariant

  predicate HeldOk(s: State, c: ChannelId)
    requires c in s.held
  {
    var h := s.held[c];
    && c == h.voucher.channel && Voucher.Encodable(h.voucher)
    && c in s.ledger.watermark && c in s.base
    && s.ledger.watermark[c] == h.voucher.cumulative
    && h.delta > 0
    && h.voucher.cumulative - h.delta == (if h.previous.Some? then h.previous.value else s.base[c])
  }

  /** What a channel falls back to when the request being signed fails. */
  function Floor(s: State, c: ChannelId): Option<nat> {
    if c in s.held then s.held[c].previous else Known(s.ledger, c)
  }

  predicate RememberedOk(w: Setting, s: State, v: Voucher.Terms) {
    && Voucher.Encodable(v)
    && HashOf(w, v) in s.ledger.seen
    && Floor(s, v.channel).Some? && v.cumulative <= Floor(s, v.channel).value
  }

  predicate SeenOk(w: Setting, s: State, hash: Digest) { exists v :: v in s.remembered && HashOf(w, v) == hash }

  predicate HeldAllOk(s: State) { forall c :: c in s.held ==> HeldOk(s, c) }

  predicate RememberedAllOk(w: Setting, s: State) { forall v :: v in s.remembered ==> RememberedOk(w, s, v) }

  predicate SeenAllOk(w: Setting, s: State) { forall h :: h in s.ledger.seen ==> SeenOk(w, s, h) }

  predicate Conserved(s: State, window: nat, total: nat) {
    && Distinct(s.order)
    && (forall c :: c in s.order ==> c in s.base) && (forall c :: c in s.base ==> c in s.order)
    && s.ledger.watermark.Keys <= s.base.Keys
    && s.ledger.total == total + Sum(s.order, s.ledger.watermark, s.base)
    && s.ledger.window == window + Sum(s.order, s.ledger.watermark, s.base)
    && s.ledger.inFlight == |s.held|
  }

  function Max(a: nat, b: nat): nat { if a < b then b else a }

  predicate Inv(w: Setting, s: State, window: nat, total: nat) {
    && Conserved(s, window, total)
    && HeldAllOk(s) && RememberedAllOk(w, s) && SeenAllOk(w, s)
    && s.ledger.total <= Max(total, w.mandate.body.scope.limits.maxTotal)
  }

  lemma ReserveSum(w: Setting, s: State, a: Ask)
    requires Distinct(s.order) && (forall c :: c in s.order ==> c in s.base) && (forall c :: c in s.base ==> c in s.order)
    requires s.ledger.watermark.Keys <= s.base.Keys
    requires Passes(w, s.ledger, a) && TryReserve(w, s.ledger, a).Ok?
    ensures var t := AfterReserve(s, a, TryReserve(w, s.ledger, a).value);
            Sum(t.order, t.ledger.watermark, t.base) == Sum(s.order, s.ledger.watermark, s.base) + (a.voucher.cumulative - SettledFor(s.ledger, a))
  {
    var c, t := a.voucher.channel, AfterReserve(s, a, TryReserve(w, s.ledger, a).value);
    assert SameBut(c, s.ledger.watermark, t.ledger.watermark);
    assert SameBut(c, s.base, t.base);
    assert c in s.ledger.watermark ==> c in s.base;
    SumMoves(s.order, c, s.ledger.watermark, s.base, t.ledger.watermark, t.base);
    if c !in s.base { SumAppends(s.order, c, t.ledger.watermark, t.base); }
  }

  lemma ReserveConserves(w: Setting, s: State, a: Ask, window: nat, total: nat)
    requires Conserved(s, window, total) && a.voucher.channel !in s.held
    requires Passes(w, s.ledger, a) && TryReserve(w, s.ledger, a).Ok?
    ensures Conserved(AfterReserve(s, a, TryReserve(w, s.ledger, a).value), window, total)
  {
    ReserveSum(w, s, a);
    assert |AfterReserve(s, a, TryReserve(w, s.ledger, a).value).held| == |s.held| + 1;
  }

  lemma RollbackSum(s: State, c: ChannelId)
    requires Distinct(s.order) && c in s.order && c in s.held && HeldOk(s, c)
    ensures Sum(s.order, AfterFailure(s, c).ledger.watermark, s.base) == Sum(s.order, s.ledger.watermark, s.base) - s.held[c].delta
  {
    var restored := Restore(s.ledger.watermark, c, s.held[c].previous);
    assert SameBut(c, s.ledger.watermark, restored);
    SumMoves(s.order, c, s.ledger.watermark, s.base, restored, s.base);
  }

  lemma RollbackConserves(s: State, c: ChannelId, window: nat, total: nat)
    requires Conserved(s, window, total) && c in s.held && HeldOk(s, c)
    ensures Conserved(AfterFailure(s, c), window, total)
  {
    RollbackSum(s, c);
    OneFewerHeld(s, c);
  }

  /** What a step on channel `c` must leave alone for the other channels and the remembered vouchers to stay as they are. */
  predicate Elsewhere(s: State, t: State, c: ChannelId) {
    && SameBut(c, s.ledger.watermark, t.ledger.watermark) && SameBut(c, s.base, t.base)
    && s.held - {c} == t.held - {c}
  }

  lemma ElsewhereAgrees(s: State, t: State, c: ChannelId, d: ChannelId)
    requires Elsewhere(s, t, c) && d != c
    ensures Known(s.ledger, d) == Known(t.ledger, d)
    ensures (d in s.base <==> d in t.base) && (d in s.base ==> s.base[d] == t.base[d])
    ensures (d in s.held <==> d in t.held) && (d in s.held ==> s.held[d] == t.held[d])
    ensures Floor(s, d) == Floor(t, d)
  {
    assert d in s.ledger.watermark - {c} <==> d in s.ledger.watermark;
    assert d in t.ledger.watermark - {c} <==> d in t.ledger.watermark;
    assert d in s.ledger.watermark ==> (s.ledger.watermark - {c})[d] == s.ledger.watermark[d];
    assert d in t.ledger.watermark ==> (t.ledger.watermark - {c})[d] == t.ledger.watermark[d];
    assert d in s.base - {c} <==> d in s.base;
    assert d in t.base - {c} <==> d in t.base;
    assert d in s.base ==> (s.base - {c})[d] == s.base[d];
    assert d in t.base ==> (t.base - {c})[d] == t.base[d];
    assert d in s.held - {c} <==> d in s.held;
    assert d in t.held - {c} <==> d in t.held;
    assert d in s.held ==> (s.held - {c})[d] == s.held[d];
    assert d in t.held ==> (t.held - {c})[d] == t.held[d];
  }

  lemma HeldAllKeeps(s: State, t: State, c: ChannelId)
    requires HeldAllOk(s) && Elsewhere(s, t, c) && (c in t.held ==> HeldOk(t, c))
    ensures HeldAllOk(t)
  {
    forall d | d in t.held
      ensures HeldOk(t, d)
    {
      if d != c {
        ElsewhereAgrees(s, t, c, d);
        assert HeldOk(s, d);
      }
    }
  }

  /** A channel's floor never falls, so what was remembered on it stays below. */
  lemma RememberedAllKeeps(w: Setting, s: State, t: State, c: ChannelId)
    requires RememberedAllOk(w, s) && Elsewhere(s, t, c) && s.ledger.seen <= t.ledger.seen
    requires Floor(s, c).Some? ==> Floor(t, c).Some? && Floor(s, c).value <= Floor(t, c).value
    requires forall v :: v in t.remembered && v !in s.remembered ==> RememberedOk(w, t, v)
    ensures RememberedAllOk(w, t)
  {
    forall v | v in t.remembered
      ensures RememberedOk(w, t, v)
    {
      if v in s.remembered {
        assert RememberedOk(w, s, v);
        if v.channel != c { ElsewhereAgrees(s, t, c, v.channel); }
      }
    }
  }

  lemma SeenAllKeeps(w: Setting, s: State, t: State, added: set<Voucher.Terms>)
    requires SeenAllOk(w, s) && t.remembered == s.remembered + added
    requires forall h :: h in t.ledger.seen && h !in s.ledger.seen ==> exists v :: v in added && HashOf(w, v) == h
    ensures SeenAllOk(w, t)
  {
    forall h | h in t.ledger.seen
      ensures SeenOk(w, t, h)
    {
      if h in s.ledger.seen {
        assert SeenOk(w, s, h);
        var v :| v in s.remembered && HashOf(w, v) == h;
        assert v in t.remembered;
      } else {
        var v :| v in added && HashOf(w, v) == h;
        assert v in t.remembered;
      }
    }
  }

  lemma ReserveTouchesOne(w: Setting, s: State, a: Ask)
    requires a.voucher.channel !in s.held && HeldAllOk(s)
    requires s.ledger.watermark.Keys <= s.base.Keys
    requires Passes(w, s.ledger, a) && TryReserve(w, s.ledger, a).Ok?
    ensures var t := AfterReserve(s, a, TryReserve(w, s.ledger, a).value);
            Elsewhere(s, t, a.voucher.channel) && HeldOk(t, a.voucher.channel) && Floor(t, a.voucher.channel) == Floor(s, a.voucher.channel)
  {
    var t := AfterReserve(s, a, TryReserve(w, s.ledger, a).value);
    assert a.voucher.channel in s.ledger.watermark ==> a.voucher.channel in s.base;
    assert t.held[a.voucher.channel].voucher == a.voucher;
  }

  lemma RequestKeeps(w: Setting, s: State, a: Ask, window: nat, total: nat)
    requires Protocol.KeepsCaps(w.protocol)
    requires Inv(w, s, window, total) && a.voucher.channel !in s.held
    requires Passes(w, s.ledger, a) && TryReserve(w, s.ledger, a).Ok?
    ensures Inv(w, AfterReserve(s, a, TryReserve(w, s.ledger, a).value), window, total)
  {
    var t := AfterReserve(s, a, TryReserve(w, s.ledger, a).value);
    ReserveConserves(w, s, a, window, total);
    ReserveTouchesOne(w, s, a);
    HeldAllKeeps(s, t, a.voucher.channel);
    RememberedAllKeeps(w, s, t, a.voucher.channel);
    SeenAllKeeps(w, s, t, {});
    assert Protocol.LeavesRoom(w.protocol.gate(w.mandate, a.offer, a.context), w.mandate, a.offer, a.context);
  }

  lemma OneFewerHeld(s: State, c: ChannelId)
    requires c in s.held
    ensures |s.held - {c}| == |s.held| - 1
  {
    assert s.held.Keys == (s.held - {c}).Keys + {c};
    assert |s.held.Keys| == |s.held| && |(s.held - {c}).Keys| == |s.held - {c}|;
  }

  lemma SignatureTouchesOne(w: Setting, s: State, c: ChannelId)
    requires c in s.held && HeldOk(s, c)
    ensures var t := AfterSignature(w, s, c);
            && Elsewhere(s, t, c) && c !in t.held && RememberedOk(w, t, s.held[c].voucher)
            && (Floor(s, c).Some? ==> Floor(t, c).Some? && Floor(s, c).value <= Floor(t, c).value)
  {
    assert (s.held - {c}) - {c} == s.held - {c};
  }

  lemma FailureTouchesOne(s: State, c: ChannelId)
    requires c in s.held && HeldOk(s, c)
    ensures var t := AfterFailure(s, c);
            Elsewhere(s, t, c) && c !in t.held && Floor(t, c) == Floor(s, c)
  {
    assert (s.held - {c}) - {c} == s.held - {c};
    assert SameBut(c, s.ledger.watermark, Restore(s.ledger.watermark, c, s.held[c].previous));
  }

  lemma SignedKeeps(w: Setting, s: State, c: ChannelId, window: nat, total: nat)
    requires Inv(w, s, window, total) && c in s.held
    ensures Inv(w, AfterSignature(w, s, c), window, total)
  {
    var t := AfterSignature(w, s, c);
    OneFewerHeld(s, c);
    SignatureTouchesOne(w, s, c);
    HeldAllKeeps(s, t, c);
    RememberedAllKeeps(w, s, t, c);
    SeenAllKeeps(w, s, t, {s.held[c].voucher});
  }

  lemma FailedKeeps(w: Setting, s: State, c: ChannelId, window: nat, total: nat)
    requires Inv(w, s, window, total) && c in s.held
    ensures Inv(w, AfterFailure(s, c), window, total)
  {
    var t := AfterFailure(s, c);
    assert HeldOk(s, c);
    RollbackConserves(s, c, window, total);
    FailureTouchesOne(s, c);
    HeldAllKeeps(s, t, c);
    RememberedAllKeeps(w, s, t, c);
    SeenAllKeeps(w, s, t, {});
  }

  lemma {:induction false} RunKeeps(w: Setting, s: State, actions: seq<Action>, window: nat, total: nat)
    requires Protocol.KeepsCaps(w.protocol) && Inv(w, s, window, total) && Run(w, s, actions).Some?
    ensures Inv(w, Run(w, s, actions).value, window, total)
    decreases |actions|
  {
    if actions != [] {
      var a := actions[0];
      if a.SignatureArrives? {
        SignedKeeps(w, s, a.channel, window, total);
      } else if a.SigningFails? {
        FailedKeeps(w, s, a.channel, window, total);
      } else if Passes(w, s.ledger, a.ask) && TryReserve(w, s.ledger, a.ask).Ok? {
        RequestKeeps(w, s, a.ask, window, total);
      }
      RunKeeps(w, Step(w, s, a).value, actions[1..], window, total);
    }
  }

  // ---------------------------------------------------------------- the theorems

  /**
   * Conservation, in every interleaving: the ledger's total is where it started plus what each channel's standing
   * vouchers charged, `inFlight` counts the reservations being signed, and the lifetime cap is kept.
   * It holds for any gate whose ALLOW respects the caps (SpendProtocol.PolicyKeepsCaps: the policy gate does).
   */
  lemma LedgerConserves(w: Setting, actions: seq<Action>, window: nat, total: nat)
    requires Protocol.KeepsCaps(w.protocol) && Run(w, Initial(window, total), actions).Some?
    ensures var s := Run(w, Initial(window, total), actions).value;
            && s.ledger.total == total + Sum(s.order, s.ledger.watermark, s.base)
            && s.ledger.window == window + Sum(s.order, s.ledger.watermark, s.base)
            && Distinct(s.order) && (forall c :: c in s.ledger.watermark ==> c in s.order)
            && s.ledger.inFlight == |s.held|
            && s.ledger.total <= Max(total, w.mandate.body.scope.limits.maxTotal)
  {
    RunKeeps(w, Initial(window, total), actions, window, total);
  }

  /**
   * When a request reserves, and what: its voucher must be above the channel's watermark, or on a channel without one
   * above what the chain says, else what the caller says, else zero; a caller who names another amount on a known channel,
   * or one below the chain, is refused; the gate must allow just that slice over the ledger's own sums. Then exactly
   * that slice is charged and the watermark moves; a refused request changes nothing.
   */
  lemma RequestReserves(w: Setting, s: State, a: Ask)
    requires a.voucher.channel !in s.held
    ensures var c, l := a.voucher.channel, s.ledger;
            var start := if c in l.watermark then l.watermark[c] else if a.chainSettled.Some? then a.chainSettled.value
                         else if a.callerSettled.Some? then a.callerSettled.value else 0;
            var reserves :=
              && Voucher.Encodable(a.voucher) && a.voucher.cumulative > start
              && (a.chainSettled.Some? && a.callerSettled.Some? ==> a.callerSettled.value >= a.chainSettled.value)
              && (c in l.watermark && a.callerSettled.Some? ==> a.callerSettled.value == l.watermark[c])
              && a.offer.amount == a.voucher.cumulative - start && a.context.total == l.total && a.context.window == l.window
              && w.protocol.gate(w.mandate, a.offer, a.context).decision == Gate.ALLOW
              && HashOf(w, a.voucher) !in l.seen;
            var after := Step(w, s, Request(a));
            && after.Some?
            && (!reserves ==> after.value == s)
            && (reserves ==>
                  && c in after.value.held && after.value.held[c].voucher == a.voucher
                  && after.value.ledger == Ledger(l.watermark[c := a.voucher.cumulative], l.seen, l.total + (a.voucher.cumulative - start),
                                                  l.window + (a.voucher.cumulative - start), l.inFlight + 1))
  {
  }

  predicate LeavesAlone(actions: seq<Action>, c: ChannelId) {
    forall a :: a in actions ==> (if a.Request? then a.ask.voucher.channel else a.channel) != c
  }

  lemma {:induction false} OthersLeaveAlone(w: Setting, s: State, actions: seq<Action>, c: ChannelId)
    requires LeavesAlone(actions, c) && Run(w, s, actions).Some?
    ensures var t := Run(w, s, actions).value;
            Known(t.ledger, c) == Known(s.ledger, c) && (c in t.held <==> c in s.held) && (c in s.held ==> t.held[c] == s.held[c])
    decreases |actions|
  {
    if actions != [] {
      assert actions[0] in actions;
      OthersLeaveAlone(w, Step(w, s, actions[0]).value, actions[1..], c);
    }
  }

  /**
   * A failed signature gives back exactly its own channel: whatever the other channels did in between, this
   * one's watermark is what it was before the reservation, and the total drops by what was reserved.
   */
  lemma RollbackRestores(w: Setting, s: State, ask: Ask, others: seq<Action>)
    requires Passes(w, s.ledger, ask) && TryReserve(w, s.ledger, ask).Ok? && ask.voucher.channel !in s.held
    requires LeavesAlone(others, ask.voucher.channel)
    requires Run(w, AfterReserve(s, ask, TryReserve(w, s.ledger, ask).value), others).Some?
    ensures var c := ask.voucher.channel;
            var before := Run(w, AfterReserve(s, ask, TryReserve(w, s.ledger, ask).value), others).value;
            var after := Step(w, before, SigningFails(c));
            && after.Some?
            && Known(after.value.ledger, c) == Known(s.ledger, c)
            && SameBut(c, before.ledger.watermark, after.value.ledger.watermark)
            && before.ledger.total - after.value.ledger.total == ask.voucher.cumulative - SettledFor(s.ledger, ask)
            && after.value.ledger.seen == before.ledger.seen
  {
    OthersLeaveAlone(w, AfterReserve(s, ask, TryReserve(w, s.ledger, ask).value), others, ask.voucher.channel);
  }

  function MessageOf(v: Voucher.Terms): Bytes {
    match Voucher.Encode(v)
    case Ok(bytes) => bytes
    case Err(_) => []
  }

  /** A voucher that was signed is at or below its channel's watermark; one that passes is above it. */
  lemma RememberedDiffers(w: Setting, s: State, v: Voucher.Terms, ask: Ask)
    requires RememberedOk(w, s, v) && ask.voucher.channel !in s.held && Passes(w, s.ledger, ask)
    ensures v != ask.voucher
  {
  }

  lemma MessagesCollide(w: Setting, v: Voucher.Terms, u: Voucher.Terms)
    requires Voucher.Encodable(v) && Voucher.Encodable(u) && v != u && HashOf(w, v) == HashOf(w, u)
    ensures CollidesIn(w.sha, {MessageOf(v), MessageOf(u)})
  {
    if Voucher.Encode(v) == Voucher.Encode(u) { Voucher.EncodeInjective(v, u); }
    Collide(w.sha, {MessageOf(v), MessageOf(u)}, MessageOf(v), MessageOf(u));
  }

  /** Some voucher signed before is a different message with the same hash as this one. */
  ghost predicate HashRepeats(w: Setting, s: State, u: Voucher.Terms) {
    exists v :: v in s.remembered && CollidesIn(w.sha, {MessageOf(v), MessageOf(u)})
  }

  lemma ReserveTakes(w: Setting, s: State, ask: Ask)
    requires RememberedAllOk(w, s) && SeenAllOk(w, s) && ask.voucher.channel !in s.held && Passes(w, s.ledger, ask)
    ensures TryReserve(w, s.ledger, ask).Ok? || HashRepeats(w, s, ask.voucher)
  {
    if HashOf(w, ask.voucher) in s.ledger.seen {
      assert SeenOk(w, s, HashOf(w, ask.voucher));
      var v :| v in s.remembered && HashOf(w, v) == HashOf(w, ask.voucher);
      assert RememberedOk(w, s, v);
      RememberedDiffers(w, s, v, ask);
      MessagesCollide(w, v, ask.voucher);
    }
  }

  /**
   * Once a request has passed the authorizer's checks, `reserve` never refuses it. In particular "already presented"
   * is unreachable: a repeated voucher is not above the watermark, so it was refused before. Otherwise two
   * different voucher messages share a SHA-256. It holds for any gate whose ALLOW respects the caps, the policy gate among them.
   */
  lemma ReserveNeverRefuses(w: Setting, actions: seq<Action>, window: nat, total: nat, ask: Ask)
    requires Protocol.KeepsCaps(w.protocol) && Run(w, Initial(window, total), actions).Some?
    requires var s := Run(w, Initial(window, total), actions).value;
             ask.voucher.channel !in s.held && Passes(w, s.ledger, ask)
    ensures var s := Run(w, Initial(window, total), actions).value;
            TryReserve(w, s.ledger, ask).Ok? || HashRepeats(w, s, ask.voucher)
  {
    RunKeeps(w, Initial(window, total), actions, window, total);
    var s := Run(w, Initial(window, total), actions).value;
    ReserveTakes(w, s, ask);
  }
}
