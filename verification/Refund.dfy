/**
 * Getting a channel's remainder back (packages/atlasrails/src/channel-flow.ts, sdk-client.ts): the planner reads the
 * account and lists steps, the client sends them one by one and may stop after any of them. The channel program's
 * own transitions are taken from the comments beside the planner.
 */
module Refund {
  import opened Prelude

  const OPEN: nat := 0
  const SEALED: nat := 1
  const CLOSING: nat := 2
  const DISTRIBUTED: nat := 3
  const OPEN_SLOT_WINDOW: nat := 1500

  datatype RefundStep = SettleAndSeal | RequestClose | Seal | Withdraw | CloseEscrow | Reclaim

  /** The account; `payerWithdrawnAt` is 0 until the payer was paid. */
  datatype CloseState = CloseState(status: nat, deposit: nat, settled: nat, closureStartedAt: int, payerWithdrawnAt: int,
                                   gracePeriod: nat, openSlot: nat)

  datatype Plan = Plan(steps: seq<RefundStep>, graceEndsAt: Option<int>, reclaimAfterSlot: Option<nat>, ready: bool)

  datatype PlanError = CannotBeRefunded(status: nat)

  function RefundPlan(s: CloseState, now: int, payeePresent: bool, slot: nat): Result<Plan, PlanError> {
    var unlock := s.openSlot + OPEN_SLOT_WINDOW;
    if s.status == DISTRIBUTED then
      if slot <= unlock then Ok(Plan([], None, Some(unlock), false)) else Ok(Plan([Reclaim], None, None, true))
    else if s.payerWithdrawnAt != 0 then
      if s.status == SEALED then Ok(Plan([CloseEscrow], None, None, true)) else Ok(Plan([], None, None, true))
    else if s.status == OPEN && payeePresent then Ok(Plan([SettleAndSeal, Withdraw, CloseEscrow], None, None, true))
    else if s.status == OPEN then Ok(Plan([RequestClose], None, None, true))
    else
      var graceEndsAt := s.closureStartedAt + s.gracePeriod;
      if s.status == CLOSING && now < graceEndsAt then Ok(Plan([], Some(graceEndsAt), None, false))
      else if s.status == CLOSING then Ok(Plan([Seal, Withdraw, CloseEscrow], Some(graceEndsAt), None, true))
      else if s.status == SEALED then Ok(Plan([Withdraw, CloseEscrow], Some(graceEndsAt), None, true))
      else Err(CannotBeRefunded(s.status))
  }

  // ---------------------------------------------------------------- the channel program

  /** The channel on chain: its account, the last one once it was reclaimed, and what the payer was paid from it. */
  datatype Channel = Live(account: CloseState, paid: nat) | Gone(account: CloseState, paid: nat)

  /** What the program does with one instruction; None when it rejects it. */
  function Execute(c: Channel, step: RefundStep, now: int, slot: nat, payeeSigns: bool): Option<Channel> {
    if c.Gone? then None
    else
      var s := c.account;
      match step
      case SettleAndSeal => if (s.status == OPEN || s.status == CLOSING) && payeeSigns then Some(c.(account := s.(status := SEALED))) else None
      case RequestClose => if s.status == OPEN then Some(c.(account := s.(status := CLOSING, closureStartedAt := now))) else None
      case Seal => if s.status == CLOSING && now >= s.closureStartedAt + s.gracePeriod then Some(c.(account := s.(status := SEALED))) else None
      case Withdraw =>
        if s.status == SEALED && s.payerWithdrawnAt == 0 && s.settled <= s.deposit && now > 0
        then Some(Live(s.(payerWithdrawnAt := now), c.paid + (s.deposit - s.settled))) else None
      case CloseEscrow => if s.status == SEALED && s.payerWithdrawnAt != 0 then Some(c.(account := s.(status := DISTRIBUTED))) else None
      case Reclaim => if s.status == DISTRIBUTED && slot > s.openSlot + OPEN_SLOT_WINDOW then Some(Gone(s, c.paid)) else None
  }

  /** What anyone else may do to the channel: settle a voucher while it is open, or seal it with one as the payee. */
  datatype Other = Settles(amount: nat) | SealsWith(amount: nat)

  function Meanwhile(c: Channel, other: Other): Channel {
    if c.Gone? then c
    else
      var s := c.account;
      match other
      case Settles(amount) => if s.status == OPEN && s.settled < amount <= s.deposit then c.(account := s.(settled := amount)) else c
      case SealsWith(amount) =>
        if (s.status == OPEN || s.status == CLOSING) && s.settled <= amount <= s.deposit
        then c.(account := s.(settled := amount, status := SEALED)) else c
  }

  function AllMeanwhile(c: Channel, others: seq<Other>): Channel
    decreases |others|
  {
    if others == [] then c else AllMeanwhile(Meanwhile(c, others[0]), others[1..])
  }

  function ExecuteAll(c: Channel, steps: seq<RefundStep>, now: int, slot: nat, payeeSigns: bool): Option<Channel>
    decreases |steps|
  {
    if steps == [] then Some(c)
    else match Execute(c, steps[0], now, slot, payeeSigns)
      case None => None
      case Some(next) => ExecuteAll(next, steps[1..], now, slot, payeeSigns)
  }

  // ---------------------------------------------------------------- reachable channels

  /** Nothing is withdrawn before it is sealed, and the payer has got the remainder exactly when the account says so. */
  predicate Inv(c: Channel) {
    var s := c.account;
    && (c.Gone? ==> s.status == DISTRIBUTED)
    && s.status <= DISTRIBUTED && s.settled <= s.deposit && s.payerWithdrawnAt >= 0
    && (s.status == OPEN || s.status == CLOSING ==> s.payerWithdrawnAt == 0)
    && (s.status == DISTRIBUTED ==> s.payerWithdrawnAt != 0)
    && c.paid == (if s.payerWithdrawnAt != 0 then s.deposit - s.settled else 0)
  }

  function Rank(c: Channel): nat {
    if c.Gone? then 0
    else if c.account.status == OPEN then 5
    else if c.account.status == CLOSING then 4
    else if c.account.status == SEALED then if c.account.payerWithdrawnAt == 0 then 3 else 2
    else 1
  }

  /** Every accepted instruction moves the channel strictly forward; nobody else ever moves it back. */
  lemma InstructionsAdvance(c: Channel, step: RefundStep, now: int, slot: nat, payeeSigns: bool)
    requires Inv(c) && Execute(c, step, now, slot, payeeSigns).Some?
    ensures var d := Execute(c, step, now, slot, payeeSigns).value;
            && Inv(d) && Rank(d) < Rank(c)
            && (d.account.deposit == c.account.deposit && d.account.settled == c.account.settled
                            && d.account.gracePeriod == c.account.gracePeriod && d.account.openSlot == c.account.openSlot)
            && d.paid == c.paid + (if step == Withdraw then c.account.deposit - c.account.settled else 0)
            && (step == Withdraw ==> c.paid == 0)
  {
  }

  lemma {:induction false} OthersNeverUndo(c: Channel, others: seq<Other>)
    requires Inv(c)
    ensures var d := AllMeanwhile(c, others);
            && Inv(d) && Rank(d) <= Rank(c) && d.paid == c.paid && d.Gone? == c.Gone?
            && (c.Live? ==> d.account == c.account.(settled := d.account.settled, status := d.account.status) && c.account.settled <= d.account.settled
                            && (d.account.status == c.account.status || d.account.status == SEALED)
                            && (Rank(c) <= 3 ==> d == c))
    decreases |others|
  {
    if others != [] { OthersNeverUndo(Meanwhile(c, others[0]), others[1..]); }
  }

  // ---------------------------------------------------------------- plan, stop anywhere, plan again

  lemma ExecutePrefix(c: Channel, steps: seq<RefundStep>, k: nat, now: int, slot: nat, payeeSigns: bool)
    requires k <= |steps|
    ensures ExecuteAll(c, steps, now, slot, payeeSigns) ==
            match ExecuteAll(c, steps[..k], now, slot, payeeSigns)
            case None => None
            case Some(d) => ExecuteAll(d, steps[k..], now, slot, payeeSigns)
    decreases k
  {
    if k > 0 {
      assert steps[..k][1..] == steps[1..][..k - 1] && steps[1..][k - 1..] == steps[k..];
      if Execute(c, steps[0], now, slot, payeeSigns).Some? {
        ExecutePrefix(Execute(c, steps[0], now, slot, payeeSigns).value, steps[1..], k - 1, now, slot, payeeSigns);
      }
    } else {
      assert steps[..k] == [] && steps[k..] == steps;
    }
  }

  function PlanOf(c: Channel, now: int, payee: bool, slot: nat): seq<RefundStep> {
    if c.Gone? then []
    else match RefundPlan(c.account, now, payee, slot) case Ok(plan) => plan.steps case Err(_) => []
  }

  /** Planning again, whenever, lists exactly these steps. */
  ghost predicate Continues(c: Channel, payee: bool, rest: seq<RefundStep>) {
    forall now: int, slot: nat :: PlanOf(c, now, payee, slot) == rest
  }

  /** The first step of a plan is accepted, and planning again after it lists exactly the steps that are left. */
  lemma FirstStepRuns(c: Channel, now: int, payee: bool, slot: nat)
    requires Inv(c) && now > 0 && PlanOf(c, now, payee, slot) != []
    ensures var steps := PlanOf(c, now, payee, slot);
            var d := Execute(c, steps[0], now, slot, payee);
            && d.Some? && Inv(d.value) && Rank(d.value) < Rank(c)
            && (|steps| > 1 ==> Continues(d.value, payee, steps[1..]))
  {
    InstructionsAdvance(c, PlanOf(c, now, payee, slot)[0], now, slot, payee);
  }

  /**
   * Resumption. Whatever the plan is, any number of its steps can be sent; stopping there and planning again, at any
   * later time, lists exactly the steps that were left, every one of them still accepted, and the rank has dropped
   * by at least one per step.
   */
  lemma {:induction false} PlanResumes(c: Channel, now: int, payee: bool, slot: nat, k: nat)
    requires Inv(c) && now > 0 && k <= |PlanOf(c, now, payee, slot)|
    ensures var steps := PlanOf(c, now, payee, slot);
            var d := ExecuteAll(c, steps[..k], now, slot, payee);
            && d.Some? && Inv(d.value) && Rank(d.value) + k <= Rank(c)
            && (0 < k < |steps| ==> Continues(d.value, payee, steps[k..]))
    decreases k
  {
    var steps := PlanOf(c, now, payee, slot);
    if k > 0 {
      FirstStepRuns(c, now, payee, slot);
      ExecuteFirst(c, steps, k, now, slot, payee);
      var next := Execute(c, steps[0], now, slot, payee).value;
      if |steps| > 1 {
        assert PlanOf(next, now, payee, slot) == steps[1..];
        PlanResumes(next, now, payee, slot, k - 1);
        assert steps[1..][k - 1..] == steps[k..];
      }
    }
  }

  lemma ExecuteFirst(c: Channel, steps: seq<RefundStep>, k: nat, now: int, slot: nat, payeeSigns: bool)
    requires 0 < k <= |steps| && Execute(c, steps[0], now, slot, payeeSigns).Some?
    ensures ExecuteAll(c, steps[..k], now, slot, payeeSigns) ==
            ExecuteAll(Execute(c, steps[0], now, slot, payeeSigns).value, steps[1..][..k - 1], now, slot, payeeSigns)
    ensures k == 1 ==> ExecuteAll(c, steps[..k], now, slot, payeeSigns) == Execute(c, steps[0], now, slot, payeeSigns)
  {
    assert steps[..k][1..] == steps[1..][..k - 1];
  }

  /** The planner never refuses a reachable channel, and says "nothing to do" only while a wait is running. */
  lemma EmptyOnlyWhileWaiting(c: Channel, now: int, payee: bool, slot: nat)
    requires Inv(c) && c.Live?
    ensures RefundPlan(c.account, now, payee, slot).Ok?
    ensures var plan := RefundPlan(c.account, now, payee, slot).value;
            plan.steps == [] <==> !plan.ready
    ensures var plan := RefundPlan(c.account, now, payee, slot).value;
            !plan.ready <==>
              || (c.account.status == CLOSING && now < c.account.closureStartedAt + c.account.gracePeriod)
              || (c.account.status == DISTRIBUTED && slot <= c.account.openSlot + OPEN_SLOT_WINDOW)
    ensures var plan := RefundPlan(c.account, now, payee, slot).value;
            && (!plan.ready && c.account.status == CLOSING ==>
                  plan.graceEndsAt == Some(c.account.closureStartedAt + c.account.gracePeriod) && plan.reclaimAfterSlot == None)
            && (!plan.ready && c.account.status == DISTRIBUTED ==> plan.reclaimAfterSlot == Some(c.account.openSlot + 1500))
  {
  }

  /**
   * What each situation plans. With the payee's key an open channel is sealed, paid out and closed at once; without it
   * the payer asks to close, and after the grace does the rest; the payee's own instruction is never planned without the key.
   */
  lemma PlansBySituation(c: Channel, now: int, payee: bool, slot: nat)
    requires Inv(c) && c.Live?
    ensures var s, steps := c.account, PlanOf(c, now, payee, slot);
            && (s.status == OPEN && payee ==> steps == [SettleAndSeal, Withdraw, CloseEscrow])
            && (s.status == OPEN && !payee ==> steps == [RequestClose])
            && (s.status == CLOSING && now >= s.closureStartedAt + s.gracePeriod ==> steps == [Seal, Withdraw, CloseEscrow])
            && (s.status == SEALED ==> steps == if s.payerWithdrawnAt == 0 then [Withdraw, CloseEscrow] else [CloseEscrow])
            && (s.status == DISTRIBUTED && slot > s.openSlot + 1500 ==> steps == [Reclaim])
  {
  }

  /** With the payee's key the whole remainder is back after one call, from an open channel. */
  lemma PayeeRefundsAtOnce(c: Channel, now: int, slot: nat)
    requires Inv(c) && c.Live? && c.account.status == OPEN && now > 0
    ensures var steps := PlanOf(c, now, true, slot);
            var end := ExecuteAll(c, steps, now, slot, true);
            && end.Some? && end.value.Live? && end.value.account.status == DISTRIBUTED
            && end.value.paid == c.account.deposit - c.account.settled
  {
    var steps := PlanOf(c, now, true, slot);
    PlanResumes(c, now, true, slot, 3);
    assert steps[..3] == steps;
    PlansBySituation(c, now, true, slot);
    var sealed := Execute(c, SettleAndSeal, now, slot, true).value;
    var paid := Execute(sealed, Withdraw, now, slot, true).value;
    assert steps[1..] == [Withdraw, CloseEscrow] && steps[1..][1..] == [CloseEscrow] && steps[1..][1..][1..] == [];
    assert ExecuteAll(paid, [CloseEscrow], now, slot, true) == Execute(paid, CloseEscrow, now, slot, true);
    assert ExecuteAll(sealed, [Withdraw, CloseEscrow], now, slot, true) == Execute(paid, CloseEscrow, now, slot, true);
  }

  // ---------------------------------------------------------------- whole runs

  /** One call of the client: what others did first, then a plan, of which at least its first step and at most `cut` more are sent. */
  datatype Attempt = Attempt(meanwhile: seq<Other>, now: int, slot: nat, payee: bool, cut: nat)

  function AfterAttempt(c: Channel, a: Attempt): Channel {
    var seen := AllMeanwhile(c, a.meanwhile);
    var steps := PlanOf(seen, a.now, a.payee, a.slot);
    var sent := if a.cut + 1 < |steps| then a.cut + 1 else |steps|;
    match ExecuteAll(seen, steps[..sent], a.now, a.slot, a.payee)
    case Some(after) => after
    case None => seen
  }

  function AfterAttempts(c: Channel, attempts: seq<Attempt>): Channel
    decreases |attempts|
  {
    if attempts == [] then c else AfterAttempts(AfterAttempt(c, attempts[0]), attempts[1..])
  }

  lemma AttemptAdvances(c: Channel, a: Attempt)
    requires Inv(c) && a.now > 0
    ensures var d, seen := AfterAttempt(c, a), AllMeanwhile(c, a.meanwhile);
            && Inv(d) && Rank(d) <= Rank(c)
            && (Rank(d) == Rank(c) ==> d == seen && PlanOf(seen, a.now, a.payee, a.slot) == [])
            && (d.Live? ==> c.Live? && d.account.gracePeriod == c.account.gracePeriod && d.account.openSlot == c.account.openSlot
                            && d.account.deposit == c.account.deposit)
            && (d.Live? && d.account.status == CLOSING ==> d.account.closureStartedAt == a.now || (c.account.status == CLOSING && d.account.closureStartedAt == c.account.closureStartedAt))
  {
    OthersNeverUndo(c, a.meanwhile);
    var seen := AllMeanwhile(c, a.meanwhile);
    var steps := PlanOf(seen, a.now, a.payee, a.slot);
    var sent := if a.cut + 1 < |steps| then a.cut + 1 else |steps|;
    PlanResumes(seen, a.now, a.payee, a.slot, sent);
    ExecuteKeepsTerms(seen, steps[..sent], a.now, a.slot, a.payee);
  }

  lemma {:induction false} ExecuteKeepsTerms(c: Channel, steps: seq<RefundStep>, now: int, slot: nat, payee: bool)
    requires Inv(c) && ExecuteAll(c, steps, now, slot, payee).Some?
    ensures var d := ExecuteAll(c, steps, now, slot, payee).value;
            d.Live? ==>
              && c.Live? && d.account.gracePeriod == c.account.gracePeriod && d.account.openSlot == c.account.openSlot
              && d.account.deposit == c.account.deposit
              && (d.account.status == CLOSING ==> d.account.closureStartedAt == now || (c.account.status == CLOSING && d.account.closureStartedAt == c.account.closureStartedAt))
    decreases |steps|
  {
    if steps != [] {
      InstructionsAdvance(c, steps[0], now, slot, payee);
      ExecuteKeepsTerms(Execute(c, steps[0], now, slot, payee).value, steps[1..], now, slot, payee);
    }
  }

  /** Attempts a grace period apart, once the slot window is over; `since` is when the last one was. */
  predicate Spaced(attempts: seq<Attempt>, grace: nat, unlock: nat, since: int) {
    attempts == [] ||
    (attempts[0].now > 0 && attempts[0].now >= since && attempts[0].slot > unlock && SpacedFrom(attempts[1..], grace, unlock, attempts[0].now))
  }

  predicate SpacedFrom(attempts: seq<Attempt>, grace: nat, unlock: nat, since: int) {
    attempts == [] ||
    (attempts[0].now > 0 && attempts[0].now >= since + grace && attempts[0].slot > unlock && SpacedFrom(attempts[1..], grace, unlock, attempts[0].now))
  }

  /** With every wait already over, each attempt moves the channel, so it is gone after as many attempts as its rank. */
  lemma {:induction false} GoneWithinRank(c: Channel, attempts: seq<Attempt>, since: int, grace: nat, unlock: nat)
    requires Inv(c) && since > 0 && SpacedFrom(attempts, grace, unlock, since)
    requires c.Live? ==> c.account.gracePeriod == grace && c.account.openSlot + OPEN_SLOT_WINDOW == unlock
    requires c.Live? && c.account.status == CLOSING ==> c.account.closureStartedAt <= since
    requires |attempts| >= Rank(c)
    ensures AfterAttempts(c, attempts).Gone?
    decreases |attempts|
  {
    if attempts != [] {
      var a := attempts[0];
      var d := AfterAttempt(c, a);
      AttemptAdvances(c, a);
      if c.Live? {
        OthersNeverUndo(c, a.meanwhile);
        EmptyOnlyWhileWaiting(AllMeanwhile(c, a.meanwhile), a.now, a.payee, a.slot);
      }
      GoneWithinRank(d, attempts[1..], a.now, grace, unlock);
    }
  }

  /**
   * Whatever state the channel is in, whatever the payee does meanwhile and wherever each call is cut off after its
   * first step: six calls, a grace period apart and past the slot window, end in `reclaim`.
   */
  lemma ReachesReclaim(c: Channel, attempts: seq<Attempt>)
    requires Inv(c) && c.Live? && |attempts| >= 6
    requires Spaced(attempts, c.account.gracePeriod, c.account.openSlot + OPEN_SLOT_WINDOW, c.account.closureStartedAt)
    ensures AfterAttempts(c, attempts).Gone?
  {
    AttemptAdvances(c, attempts[0]);
    GoneWithinRank(AfterAttempt(c, attempts[0]), attempts[1..], attempts[0].now, c.account.gracePeriod, c.account.openSlot + OPEN_SLOT_WINDOW);
  }

  datatype Event = Instruction(step: RefundStep, now: int, slot: nat, payeeSigns: bool) | Elsewhere(other: Other)

  function AfterEvents(c: Channel, events: seq<Event>): Channel
    decreases |events|
  {
    if events == [] then c
    else match events[0]
      case Instruction(step, now, slot, payeeSigns) =>
        AfterEvents(match Execute(c, step, now, slot, payeeSigns) case Some(d) => d case None => c, events[1..])
      case Elsewhere(other) => AfterEvents(Meanwhile(c, other), events[1..])
  }

  /**
   * Paid exactly once. From a fresh channel, over any instructions by anyone in any order: the payer has nothing, or
   * exactly the deposit minus what was settled; and has it by the time the escrow is closed.
   */
  lemma {:induction false} PaidExactlyOnce(c: Channel, events: seq<Event>, deposit: nat)
    requires Inv(c) && c.account.deposit == deposit
    ensures var d := AfterEvents(c, events);
            && Inv(d)
            && d.account.deposit == deposit
            && (d.paid == 0 || d.paid == deposit - d.account.settled)
            && (d.Gone? || d.account.status == DISTRIBUTED ==> d.paid == deposit - d.account.settled)
            && c.account.settled <= d.account.settled
    decreases |events|
  {
    if events != [] {
      match events[0]
      case Instruction(step, now, slot, payeeSigns) =>
        var next := match Execute(c, step, now, slot, payeeSigns) case Some(d) => d case None => c;
        if Execute(c, step, now, slot, payeeSigns).Some? { InstructionsAdvance(c, step, now, slot, payeeSigns); }
        PaidExactlyOnce(next, events[1..], deposit);
      case Elsewhere(other) =>
        assert AllMeanwhile(c, [other]) == Meanwhile(c, other);
        OthersNeverUndo(c, [other]);
        PaidExactlyOnce(Meanwhile(c, other), events[1..], deposit);
    }
  }

  // ---------------------------------------------------------------- the client's loop

  /** The channel as the client reaches it: each submitted step is executed by the program or fails. */
  class ChannelProgram {
    var channel: Channel

    constructor (initial: Channel)
      ensures channel == initial
    {
      channel := initial;
    }

    method Submit(step: RefundStep, now: int, slot: nat, payeeSigns: bool, arrives: bool) returns (ok: bool)
      modifies this
      ensures ok <==> arrives && Execute(old(channel), step, now, slot, payeeSigns).Some?
      ensures channel == if ok then Execute(old(channel), step, now, slot, payeeSigns).value else old(channel)
    {
      var next := Execute(channel, step, now, slot, payeeSigns);
      ok := arrives && next.Some?;
      if ok {
        channel := next.value;
      }
    }
  }

  /** Sends the planned steps in order and stops at the first one that fails; `network` says which submissions arrive. */
  method RefundRemainder(program: ChannelProgram, now: int, slot: nat, payee: bool, network: seq<bool>) returns (sent: nat)
    requires Inv(program.channel) && now > 0
    requires |network| >= |PlanOf(program.channel, now, payee, slot)|
    modifies program
    ensures sent <= |PlanOf(old(program.channel), now, payee, slot)|
    ensures ExecuteAll(old(program.channel), PlanOf(old(program.channel), now, payee, slot)[..sent], now, slot, payee) == Some(program.channel)
    ensures forall i :: 0 <= i < sent ==> network[i]
    ensures sent < |PlanOf(old(program.channel), now, payee, slot)| ==> !network[sent]
  {
    ghost var start := program.channel;
    var steps := PlanOf(program.channel, now, payee, slot);
    sent := 0;
    while sent < |steps|
      invariant sent <= |steps|
      invariant ExecuteAll(start, steps[..sent], now, slot, payee) == Some(program.channel)
      invariant forall i :: 0 <= i < sent ==> network[i]
    {
      PlanResumes(start, now, payee, slot, sent + 1);
      ExecutePrefix(start, steps[..sent + 1], sent, now, slot, payee);
      assert steps[..sent + 1][..sent] == steps[..sent] && steps[..sent + 1][sent..] == [steps[sent]];
      var ok := program.Submit(steps[sent], now, slot, payee, network[sent]);
      if !ok {
        return;
      }
      sent := sent + 1;
    }
  }
}
