/**
 * What became of one authorised transaction (packages/solana/src/payment-outcome.ts): two scans of an
 * append-only ledger that keeps moving between any two reads.
 */
module PaymentOutcome {
  import opened Prelude

  const SCAN_LIMIT: nat := 100
  const CLOCK_SLACK_SECONDS: int := 120

  /** A transaction message names the blockhash that lets it land. */
  datatype Message = Message(blockhash: string, rest: string)

  datatype Entry = Entry(signature: string, message: Message, failed: bool, blockTime: int)

  /**
   * The payer's transactions, oldest first. The first `finalized` of them are visible to every read;
   * a blockhash in `dead` is invalid at finalized commitment.
   */
  datatype Ledger = Ledger(txs: seq<Entry>, finalized: nat, dead: set<string>)

  /** What the cluster guarantees of any one ledger. */
  ghost predicate Sane(l: Ledger) {
    && l.finalized <= |l.txs|
    && (forall i, j :: 0 <= i < j < |l.txs| ==> l.txs[i].signature != l.txs[j].signature)
    && (forall i, j :: 0 <= i < j < |l.txs| ==> l.txs[i].blockTime <= l.txs[j].blockTime)
    && (forall i :: l.finalized <= i < |l.txs| ==> l.txs[i].message.blockhash !in l.dead)
  }

  /** How a ledger may move: it only grows, and a dead blockhash lands nothing more. */
  ghost predicate Future(l: Ledger, m: Ledger) {
    && Sane(m)
    && l.txs <= m.txs && l.finalized <= m.finalized && l.dead <= m.dead
    && (forall i :: |l.txs| <= i < |m.txs| ==> m.txs[i].message.blockhash !in l.dead)
  }

  lemma FutureTransitive(a: Ledger, b: Ledger, c: Ledger)
    requires Future(a, b) && Future(b, c)
    ensures Future(a, c)
  {
    forall i | |a.txs| <= i < |c.txs|
      ensures c.txs[i].message.blockhash !in a.dead
    {
      if i < |b.txs| { assert c.txs[i] == b.txs[i]; }
    }
  }

  /** The transaction did not land before it was authorised, give or take the clock slack. */
  ghost predicate NotEarly(l: Ledger, message: Message, notBefore: int) {
    forall i :: 0 <= i < |l.txs| && l.txs[i].message == message ==> l.txs[i].blockTime >= notBefore - CLOCK_SLACK_SECONDS
  }

  ghost predicate Absent(l: Ledger, message: Message) {
    forall i :: 0 <= i < |l.txs| ==> l.txs[i].message != message
  }

  datatype Listed = Listed(signature: string, blockTime: Option<int>)

  datatype Reply = Reply(messageHash: Digest, failed: bool)

  /** Everything one scan reads: a listing, and the reply for each listed transaction, if it came. */
  datatype Reads = Reads(recent: seq<Listed>, replies: seq<Option<Reply>>)

  datatype Outcome = Landed(signature: string) | Failed(signature: string) | Pending | Expired | Mismatch

  datatype ScanResult = Found(outcome: Outcome) | NotFound | Incomplete

  datatype Input = Input(transaction: Option<Message>, expectedMessageHash: Digest, notBefore: int)

  type MessageHash = Message -> Digest

  /** A listing shows the newest `SCAN_LIMIT` of some visible prefix, newest first, some without a time. */
  ghost predicate Lists(recent: seq<Listed>, visible: seq<Entry>) {
    && |recent| == (if |visible| < SCAN_LIMIT then |visible| else SCAN_LIMIT)
    && forall i :: 0 <= i < |recent| ==>
         && recent[i].signature == visible[|visible| - 1 - i].signature
         && (recent[i].blockTime.Some? ==> recent[i].blockTime.value == visible[|visible| - 1 - i].blockTime)
  }

  ghost predicate Replies(h: MessageHash, seen: Reads, l: Ledger) {
    && |seen.replies| == |seen.recent|
    && forall i, j :: 0 <= i < |seen.recent| && seen.replies[i].Some? && 0 <= j < |l.txs| && l.txs[j].signature == seen.recent[i].signature
         ==> seen.replies[i].value == Reply(h(l.txs[j].message), l.txs[j].failed)
  }

  /** What one scan reads is true of a ledger that moves from `before` to `after` while they are made. */
  ghost predicate TrueReads(h: MessageHash, seen: Reads, before: Ledger, listed: Ledger, visible: nat, after: Ledger) {
    && Future(before, listed) && Future(listed, after)
    && listed.finalized <= visible <= |listed.txs|
    && Lists(seen.recent, listed.txs[..visible])
    && Replies(h, seen, after)
  }

  /** The ledger at the moments that matter: two listings, the blockhash check, and the end of each scan. */
  datatype Run = Run(start: Ledger, listed1: Ledger, visible1: nat, after1: Ledger, checked: Ledger,
                     listed2: Ledger, visible2: nat, after2: Ledger)

  ghost predicate Honest(h: MessageHash, message: Message, notBefore: int, first: Reads, stillValid: bool, second: Reads, run: Run) {
    && Sane(run.start)
    && TrueReads(h, first, run.start, run.listed1, run.visible1, run.after1)
    && Future(run.after1, run.checked)
    && (!stillValid ==> message.blockhash in run.checked.dead)
    && TrueReads(h, second, run.checked, run.listed2, run.visible2, run.after2)
    && NotEarly(run.after2, message, notBefore)
  }

  /** What a scan answers, as a function of what it read. */
  function ScanFrom(seen: Reads, expected: Digest, notBefore: int, i: nat): ScanResult
    requires i <= |seen.recent| == |seen.replies|
    decreases |seen.recent| - i
  {
    if i == |seen.recent| then (if |seen.recent| >= SCAN_LIMIT then Incomplete else NotFound)
    else
      var item := seen.recent[i];
      if item.blockTime.Some? && item.blockTime.value < notBefore - CLOCK_SLACK_SECONDS then NotFound
      else match seen.replies[i]
        case None => Incomplete
        case Some(found) =>
          if found.messageHash == expected then
            Found(if found.failed then Failed(item.signature) else Landed(item.signature))
          else ScanFrom(seen, expected, notBefore, i + 1)
  }

  // ---------------------------------------------------------------- the same answers, read off the listing

  /** The first `i` listed transactions were recent enough, were fetched, and are other transactions. */
  predicate Passed(seen: Reads, expected: Digest, notBefore: int, i: nat)
    requires i <= |seen.recent| == |seen.replies|
  {
    forall k :: 0 <= k < i ==>
      && (seen.recent[k].blockTime.None? || seen.recent[k].blockTime.value >= notBefore - 120)
      && seen.replies[k].Some? && seen.replies[k].value.messageHash != expected
  }

  /** The listing gets as far as `i` without an answer, and `i` is recent enough to be asked about. */
  predicate AsksFor(seen: Reads, expected: Digest, notBefore: int, i: nat)
    requires |seen.recent| == |seen.replies|
  {
    && i < |seen.recent| && Passed(seen, expected, notBefore, i)
    && (seen.recent[i].blockTime.None? || seen.recent[i].blockTime.value >= notBefore - 120)
  }

  predicate Hit(seen: Reads, expected: Digest, notBefore: int, i: nat)
    requires |seen.recent| == |seen.replies|
  {
    AsksFor(seen, expected, notBefore, i) && seen.replies[i].Some? && seen.replies[i].value.messageHash == expected
  }

  predicate Gap(seen: Reads, expected: Digest, notBefore: int, i: nat)
    requires |seen.recent| == |seen.replies|
  {
    AsksFor(seen, expected, notBefore, i) && seen.replies[i].None?
  }

  predicate TooOld(seen: Reads, expected: Digest, notBefore: int, i: nat)
    requires |seen.recent| == |seen.replies|
  {
    && i < |seen.recent| && Passed(seen, expected, notBefore, i)
    && seen.recent[i].blockTime.Some? && seen.recent[i].blockTime.value < notBefore - 120
  }

  /** A reply was missing, or a full listing held only other transactions: older ones were not seen. */
  predicate CannotTell(seen: Reads, expected: Digest, notBefore: int)
    requires |seen.recent| == |seen.replies|
  {
    || (exists i :: 0 <= i < |seen.recent| && Gap(seen, expected, notBefore, i))
    || (|seen.recent| >= 100 && Passed(seen, expected, notBefore, |seen.recent|))
  }

  /** Only other transactions, back to one older than the authorisation or to the end of a listing that is not full. */
  predicate RuledOut(seen: Reads, expected: Digest, notBefore: int)
    requires |seen.recent| == |seen.replies|
  {
    || (exists i :: 0 <= i < |seen.recent| && TooOld(seen, expected, notBefore, i))
    || (|seen.recent| < 100 && Passed(seen, expected, notBefore, |seen.recent|))
  }

  /** What a scan result means, in terms of what was read. */
  predicate Means(seen: Reads, expected: Digest, notBefore: int, r: ScanResult)
    requires |seen.recent| == |seen.replies|
  {
    && (forall i :: 0 <= i < |seen.recent| && Hit(seen, expected, notBefore, i) ==>
          r == Found(if seen.replies[i].value.failed then Failed(seen.recent[i].signature) else Landed(seen.recent[i].signature)))
    && (r.Found? ==> exists i :: 0 <= i < |seen.recent| && Hit(seen, expected, notBefore, i))
    && (r.Incomplete? <==> CannotTell(seen, expected, notBefore))
    && (r.NotFound? <==> RuledOut(seen, expected, notBefore))
  }

  /** Where the listing stops being passed over is one place only. */
  lemma StopsOnce(seen: Reads, expected: Digest, notBefore: int, i: nat, j: nat)
    requires |seen.recent| == |seen.replies| && i < |seen.recent| && j <= |seen.recent|
    requires Passed(seen, expected, notBefore, i) && !Passed(seen, expected, notBefore, i + 1)
    requires Passed(seen, expected, notBefore, j) && (j < |seen.recent| ==> !Passed(seen, expected, notBefore, j + 1))
    ensures i == j
  {
  }

  lemma {:induction false} ScanMeans(seen: Reads, expected: Digest, notBefore: int, i: nat)
    requires i <= |seen.recent| == |seen.replies| && Passed(seen, expected, notBefore, i)
    ensures Means(seen, expected, notBefore, ScanFrom(seen, expected, notBefore, i))
    decreases |seen.recent| - i
  {
    if i < |seen.recent| && Passed(seen, expected, notBefore, i + 1) {
      ScanMeans(seen, expected, notBefore, i + 1);
    } else {
      forall k | 0 <= k < |seen.recent| &&
                 (Hit(seen, expected, notBefore, k) || Gap(seen, expected, notBefore, k) || TooOld(seen, expected, notBefore, k))
        ensures k == i
      {
        assert !Passed(seen, expected, notBefore, k + 1);
        StopsOnce(seen, expected, notBefore, k, i);
      }
      assert i < |seen.recent| ==>
               Hit(seen, expected, notBefore, i) || Gap(seen, expected, notBefore, i) || TooOld(seen, expected, notBefore, i);
    }
  }

  method Scan(seen: Reads, expected: Digest, notBefore: int) returns (r: ScanResult)
    requires |seen.recent| == |seen.replies|
    ensures Means(seen, expected, notBefore, r)
    ensures r == ScanFrom(seen, expected, notBefore, 0)
  {
    ScanMeans(seen, expected, notBefore, 0);
    for i := 0 to |seen.recent|
      invariant ScanFrom(seen, expected, notBefore, 0) == ScanFrom(seen, expected, notBefore, i)
    {
      var item := seen.recent[i];
      if item.blockTime.Some? && item.blockTime.value < notBefore - CLOCK_SLACK_SECONDS {
        return NotFound;
      }
      var found := seen.replies[i];
      if found.None? {
        return Incomplete;
      }
      if found.value.messageHash == expected {
        return Found(if found.value.failed then Failed(item.signature) else Landed(item.signature));
      }
    }
    return if |seen.recent| >= SCAN_LIMIT then Incomplete else NotFound;
  }

  /**
   * The lookup. What it claims is true of the ledger and its future; and read off the two scans: the first hit
   * decides, in the second scan only if the first ruled the transaction out and its blockhash is dead.
   */
  method FindPaymentOutcome(h: MessageHash, input: Input, first: Reads, stillValid: bool, second: Reads, ghost run: Run)
    returns (r: Outcome)
    requires |first.recent| == |first.replies| && |second.recent| == |second.replies|
    requires input.transaction.Some? ==> Honest(h, input.transaction.value, input.notBefore, first, stillValid, second, run)
    ensures r.Mismatch? <==> input.transaction.None? || h(input.transaction.value) != input.expectedMessageHash
    ensures r.Expired? ==> forall l :: Future(run.after2, l) ==> Absent(l, input.transaction.value)
    ensures r.Landed? ==> OnLedger(h, input.expectedMessageHash, r.signature, false, run.after2)
    ensures r.Failed? ==> OnLedger(h, input.expectedMessageHash, r.signature, true, run.after2)
    ensures !r.Mismatch? ==>
              forall i :: 0 <= i < |first.recent| && Hit(first, input.expectedMessageHash, input.notBefore, i) ==>
                r == if first.replies[i].value.failed then Failed(first.recent[i].signature) else Landed(first.recent[i].signature)
    ensures !r.Mismatch? && RuledOut(first, input.expectedMessageHash, input.notBefore) && !stillValid ==>
              forall i :: 0 <= i < |second.recent| && Hit(second, input.expectedMessageHash, input.notBefore, i) ==>
                r == if second.replies[i].value.failed then Failed(second.recent[i].signature) else Landed(second.recent[i].signature)
    ensures r.Pending? <==>
              && !r.Mismatch?
              && (|| CannotTell(first, input.expectedMessageHash, input.notBefore)
                  || (RuledOut(first, input.expectedMessageHash, input.notBefore) &&
                      (stillValid || CannotTell(second, input.expectedMessageHash, input.notBefore))))
    ensures r.Expired? <==>
              && !r.Mismatch?
              && RuledOut(first, input.expectedMessageHash, input.notBefore)
              && !stillValid
              && RuledOut(second, input.expectedMessageHash, input.notBefore)
  {
    if input.transaction.None? || h(input.transaction.value) != input.expectedMessageHash {
      return Mismatch;
    }
    var one := Scan(first, input.expectedMessageHash, input.notBefore);
    if one.Found? {
      ScanFinds(h, first, input.expectedMessageHash, input.notBefore, run.start, run.listed1, run.visible1, run.after1, 0);
      OnLedgerStays(h, input.expectedMessageHash, one.outcome.signature, one.outcome.Failed?, run.after1, run.after2);
      return one.outcome;
    }
    if one.Incomplete? || stillValid {
      return Pending;
    }
    var two := Scan(second, input.expectedMessageHash, input.notBefore);
    if two.Found? {
      ScanFinds(h, second, input.expectedMessageHash, input.notBefore, run.checked, run.listed2, run.visible2, run.after2, 0);
      return two.outcome;
    }
    if two.NotFound? {
      DeadAndUnseen(h, input.transaction.value, input.notBefore, second, run);
    }
    return if two.Incomplete? then Pending else Expired;
  }

  /** `signature` is on the ledger, with a message that hashes to `expected` and that result. */
  ghost predicate OnLedger(h: MessageHash, expected: Digest, signature: string, failed: bool, l: Ledger) {
    exists i :: 0 <= i < |l.txs| && l.txs[i].signature == signature && l.txs[i].failed == failed && h(l.txs[i].message) == expected
  }

  lemma OnLedgerStays(h: MessageHash, expected: Digest, signature: string, failed: bool, l: Ledger, m: Ledger)
    requires OnLedger(h, expected, signature, failed, l) && l.txs <= m.txs
    ensures OnLedger(h, expected, signature, failed, m)
  {
    var i :| 0 <= i < |l.txs| && l.txs[i].signature == signature && l.txs[i].failed == failed && h(l.txs[i].message) == expected;
    assert m.txs[i] == l.txs[i];
  }

  /** What is on the ledger under that hash is the authorised transaction itself, or two messages collide. */
  lemma OnLedgerIsOurs(h: MessageHash, message: Message, signature: string, failed: bool, l: Ledger)
    requires OnLedger(h, h(message), signature, failed, l)
    ensures (exists i :: 0 <= i < |l.txs| && l.txs[i].signature == signature && l.txs[i].failed == failed && l.txs[i].message == message)
         || CollidesIn(h, {message} + set e | e in l.txs :: e.message)
  {
    var i :| 0 <= i < |l.txs| && l.txs[i].signature == signature && l.txs[i].failed == failed && h(l.txs[i].message) == h(message);
    assert l.txs[i] in l.txs;
    Collide(h, {message} + set e | e in l.txs :: e.message, message, l.txs[i].message);
  }

  lemma {:induction false} ScanFinds(h: MessageHash, seen: Reads, expected: Digest, notBefore: int,
                                     before: Ledger, listed: Ledger, visible: nat, after: Ledger, i: nat)
    requires TrueReads(h, seen, before, listed, visible, after) && i <= |seen.recent|
    requires ScanFrom(seen, expected, notBefore, i).Found?
    ensures var o := ScanFrom(seen, expected, notBefore, i).outcome;
            (o.Landed? || o.Failed?) && OnLedger(h, expected, o.signature, o.Failed?, after)
    decreases |seen.recent| - i
  {
    var j := visible - 1 - i;
    assert listed.txs[..visible][j] == listed.txs[j] == after.txs[j];
    if seen.replies[i].value.messageHash != expected {
      ScanFinds(h, seen, expected, notBefore, before, listed, visible, after, i + 1);
    }
  }

  /** A scan that says NOT_FOUND has ruled out the whole visible prefix, even where it stopped early. */
  lemma {:induction false} ScanRulesOut(h: MessageHash, message: Message, seen: Reads, notBefore: int,
                                        before: Ledger, listed: Ledger, visible: nat, after: Ledger, i: nat)
    requires TrueReads(h, seen, before, listed, visible, after) && i <= |seen.recent|
    requires NotEarly(after, message, notBefore)
    requires ScanFrom(seen, h(message), notBefore, i).NotFound?
    ensures forall k :: 0 <= k < visible - i ==> listed.txs[k].message != message
    decreases |seen.recent| - i
  {
    if i < |seen.recent| {
      var j := visible - 1 - i;
      assert listed.txs[..visible][j] == listed.txs[j] == after.txs[j];
      if seen.recent[i].blockTime.Some? && seen.recent[i].blockTime.value < notBefore - CLOCK_SLACK_SECONDS {
        forall k | 0 <= k <= j
          ensures listed.txs[k].message != message
        {
          assert after.txs[k] == listed.txs[k];
        }
      } else {
        ScanRulesOut(h, message, seen, notBefore, before, listed, visible, after, i + 1);
      }
    }
  }

  /** Unseen by a scan that began after its blockhash died: it is on no ledger there will ever be. */
  lemma DeadAndUnseen(h: MessageHash, message: Message, notBefore: int, second: Reads, run: Run)
    requires TrueReads(h, second, run.checked, run.listed2, run.visible2, run.after2)
    requires NotEarly(run.after2, message, notBefore)
    requires message.blockhash in run.checked.dead
    requires ScanFrom(second, h(message), notBefore, 0).NotFound?
    ensures forall l :: Future(run.after2, l) ==> Absent(l, message)
  {
    ScanRulesOut(h, message, second, notBefore, run.checked, run.listed2, run.visible2, run.after2, 0);
    forall l | Future(run.after2, l)
      ensures Absent(l, message)
    {
      FutureTransitive(run.listed2, run.after2, l);
      forall i | 0 <= i < |l.txs|
        ensures l.txs[i].message != message
      {
        if i < |run.listed2.txs| { assert l.txs[i] == run.listed2.txs[i]; }
      }
    }
  }

  /**
   * Why there is a second scan: an honest run in which the first scan finds nothing and the blockhash
   * is then dead, with the transaction on the ledger all the same.
   */
  lemma OneScanIsNotEnough(h: MessageHash, message: Message, notBefore: int)
    returns (first: Reads, second: Reads, run: Run)
    ensures Honest(h, message, notBefore, first, false, second, run)
    ensures ScanFrom(first, h(message), notBefore, 0).NotFound?
    ensures !Absent(run.checked, message)
  {
    var entry := Entry("signature", message, false, notBefore);
    var empty := Ledger([], 0, {});
    var settled := Ledger([entry], 1, {message.blockhash});
    first := Reads([], []);
    second := Reads([Listed("signature", None)], [Some(Reply(h(message), false))]);
    run := Run(empty, empty, 0, empty, settled, settled, 1, settled);
    assert settled.txs[0].message == message;
  }
}
