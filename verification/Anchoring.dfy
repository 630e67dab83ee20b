/**
 * From receipts to roots (packages/receipt/src/service.ts, packages/atlasrails/src/sdk-client.ts, anchor-batch.ts):
 * several anchorers read a mandate's sequence number, send a root and stamp receipts, while anyone else uses the registry.
 */
module Anchoring {
  import opened Prelude
  import opened BatchFile
  import Registry = MandateRegistry
  import Merkle

  type Pubkey = Digest

  datatype Anchor = Anchor(merkleRoot: Digest, leafCount: nat, leafIndex: nat, proof: seq<Merkle.Step>, seqNo: nat, leafSalt: Digest,
                           batchHeader: Digest, batchFileHash: Digest)

  datatype Receipt = Receipt(hash: Digest, mandate: Pubkey, anchor: Option<Anchor>)

  /** The service reads the sequence once, and may still use the first instruction; the SDK reads it twice. */
  datatype Route = Service(legacy: bool) | Client

  datatype Item = Item(id: string, leaf: Leaf)

  /** One batch of one mandate's receipts, salted. */
  datatype Job = Job(route: Route, mandate: Pubkey, gate: Pubkey, items: seq<Item>)

  function Leaves(items: seq<Item>): (l: seq<Leaf>)
    ensures |l| == |items| && forall i :: 0 <= i < |items| ==> l[i] == items[i].leaf
  {
    seq(|items|, i requires 0 <= i < |items| => items[i].leaf)
  }

  function BatchOf(j: Job, seqNo: nat): Batch { Batch(j.mandate, seqNo, Leaves(j.items)) }

  // ---------------------------------------------------------------- grouping and stamping

  datatype Pending = Pending(id: string, receipt: Receipt)

  function Of(pending: seq<Pending>, mandate: Pubkey): seq<Pending> {
    if pending == [] then []
    else Of(pending[..|pending| - 1], mandate) + if pending[|pending| - 1].receipt.mandate == mandate then [pending[|pending| - 1]] else []
  }

  lemma OfStep(pending: seq<Pending>, i: nat, mandate: Pubkey)
    requires i < |pending|
    ensures Of(pending[..i + 1], mandate) == Of(pending[..i], mandate) + if pending[i].receipt.mandate == mandate then [pending[i]] else []
  {
    assert pending[..i + 1][..i] == pending[..i];
  }

  lemma {:induction false} OfFinds(pending: seq<Pending>, i: nat)
    requires i < |pending|
    ensures pending[i] in Of(pending, pending[i].receipt.mandate)
  {
    if i < |pending| - 1 { OfFinds(pending[..|pending| - 1], i); }
  }

  predicate Groups(groups: map<Pubkey, seq<Pending>>, pending: seq<Pending>, mandate: Pubkey) {
    if mandate in groups then groups[mandate] == Of(pending, mandate) != [] else Of(pending, mandate) == []
  }

  /** One group per mandate with pending receipts, holding exactly those, in their order. */
  method GroupByMandate(pending: seq<Pending>) returns (groups: map<Pubkey, seq<Pending>>)
    ensures forall m :: Groups(groups, pending, m)
  {
    groups := map[];
    for i := 0 to |pending|
      invariant forall m :: Groups(groups, pending[..i], m)
    {
      var item := pending[i];
      var mandate := item.receipt.mandate;
      ghost var before := groups;
      assert Groups(groups, pending[..i], mandate);
      if mandate in groups {
        groups := groups[mandate := groups[mandate] + [item]];
      } else {
        groups := groups[mandate := [item]];
      }
      ghost var next := pending[..i + 1];
      forall m
        ensures Groups(groups, next, m)
      {
        assert Groups(before, pending[..i], m);
        OfStep(pending, i, m);
      }
    }
    assert pending[..|pending|] == pending;
  }

  /** Nothing pending is left out, and nothing is put under another mandate. */
  lemma GroupsPartition(groups: map<Pubkey, seq<Pending>>, pending: seq<Pending>, i: nat)
    requires forall m :: Groups(groups, pending, m)
    requires i < |pending|
    ensures forall m :: (m in groups && pending[i] in groups[m]) <==> m == pending[i].receipt.mandate
  {
    OfFinds(pending, i);
    assert Groups(groups, pending, pending[i].receipt.mandate);
    forall m | m in groups && pending[i] in groups[m]
      ensures m == pending[i].receipt.mandate
    {
      assert Groups(groups, pending, m);
      OfOnly(pending, m, pending[i]);
    }
  }

  lemma {:induction false} OfOnly(pending: seq<Pending>, mandate: Pubkey, p: Pending)
    requires p in Of(pending, mandate)
    ensures p.receipt.mandate == mandate && p in pending
  {
    var n := |pending| - 1;
    if p in Of(pending[..n], mandate) { OfOnly(pending[..n], mandate, p); }
  }

  function AnchorOf(h: Sha256, b: Batch, i: nat): Anchor
    requires i < |b.leaves|
  {
    Anchor(RootOf(h, b), |b.leaves|, i, Merkle.Path(h, LeafList(b.leaves), i), b.seqNo, b.leaves[i].salt, h(HeaderOf(h, b)), FileHash(h, b))
  }

  function Stamped(h: Sha256, receipts: map<string, Receipt>, items: seq<Item>, b: Batch, n: nat): map<string, Receipt>
    requires n <= |items| == |b.leaves|
  {
    if n == 0 then receipts
    else
      var before := Stamped(h, receipts, items, b, n - 1);
      var id := items[n - 1].id;
      if id in before then before[id := before[id].(anchor := Some(AnchorOf(h, b, n - 1)))] else before
  }

  class ReceiptStore {
    var receipts: map<string, Receipt>

    constructor ()
      ensures receipts == map[]
    {
      receipts := map[];
    }

    /** Writes each receipt's own inclusion proof, in batch order; a receipt that is gone is skipped. */
    method SaveBatch(h: Sha256, items: seq<Item>, b: Batch)
      requires 0 < |items| == |b.leaves|
      modifies this
      ensures receipts == Stamped(h, old(receipts), items, b, |items|)
    {
      for i := 0 to |items|
        invariant receipts == Stamped(h, old(receipts), items, b, i)
      {
        var id := items[i].id;
        if id in receipts {
          receipts := receipts[id := receipts[id].(anchor := Some(AnchorOf(h, b, i)))];
        }
      }
    }
  }

  /** After stamping, every receipt is as it was, or carries the proof of one of its own positions in the batch. */
  lemma {:induction false} StampedAt(h: Sha256, receipts: map<string, Receipt>, items: seq<Item>, b: Batch, n: nat, id: string)
    requires n <= |items| == |b.leaves|
    ensures var after := Stamped(h, receipts, items, b, n);
            && after.Keys == receipts.Keys
            && (id in receipts ==>
                  && after[id].hash == receipts[id].hash && after[id].mandate == receipts[id].mandate
                  && (after[id].anchor == receipts[id].anchor ||
                      exists i :: 0 <= i < n && items[i].id == id && after[id].anchor == Some(AnchorOf(h, b, i))))
  {
    if n > 0 {
      StampedAt(h, receipts, items, b, n - 1, id);
      var last := items[n - 1].id;
      if id == last && id in receipts {
        assert Stamped(h, receipts, items, b, n)[id].anchor == Some(AnchorOf(h, b, n - 1));
      }
    }
  }

  predicate DifferentIds(items: seq<Item>) { forall i, j :: 0 <= i < j < |items| ==> items[i].id != items[j].id }

  /** Every receipt of the batch gets its own position, proof and salt, beside the batch's root, count, sequence and hashes. */
  lemma {:induction false} StampsOwnPosition(h: Sha256, receipts: map<string, Receipt>, items: seq<Item>, b: Batch, n: nat, i: nat)
    requires i < n <= |items| == |b.leaves| && DifferentIds(items) && items[i].id in receipts
    ensures var after := Stamped(h, receipts, items, b, n);
            && items[i].id in after
            && after[items[i].id] ==
               Receipt(receipts[items[i].id].hash, receipts[items[i].id].mandate,
                       Some(Anchor(Merkle.Mth(h, LeafList(b.leaves)), |b.leaves|, i, Merkle.Path(h, LeafList(b.leaves), i), b.seqNo, b.leaves[i].salt,
                                   h(HeaderText(b.mandate, b.seqNo, |b.leaves|, Merkle.Mth(h, LeafList(b.leaves)), h(FileText(b)))), h(FileText(b)))))
    decreases n
  {
    StampedAt(h, receipts, items, b, n - 1, items[i].id);
    if i < n - 1 { StampsOwnPosition(h, receipts, items, b, n - 1, i); }
  }

  // ---------------------------------------------------------------- many anchorers

  datatype Stage = Begun(job: Job) | Read(job: Job, seqNo: nat) | Prepared(job: Job, seqNo: nat, sentSeq: nat) | Confirmed(job: Job, seqNo: nat)

  /** `headers` collects every header text an anchorer or the program hashed. */
  datatype State = State(ledger: Registry.Ledger, receipts: map<string, Receipt>, jobs: map<nat, Stage>, headers: set<Bytes>)

  datatype Action =
    | Elsewhere(event: Registry.Event)
    | Issue(id: string, hash: Digest, mandate: Pubkey)
    | Begin(pid: nat, job: Job)
    | ReadSequence(pid: nat)
    | Prepare(pid: nat)
    | Send(pid: nat, now: int)
    | Stamp(pid: nat)
    | Stop(pid: nat)

  const INITIAL := State(Registry.Ledger(map[], map[]), map[], map[], {})

  /** The batch is made of receipts that are there, with their own hashes, under the job's mandate. */
  predicate Matches(receipts: map<string, Receipt>, j: Job, i: nat)
    requires i < |j.items|
  {
    && j.items[i].id in receipts
    && receipts[j.items[i].id].hash == j.items[i].leaf.receiptHash
    && receipts[j.items[i].id].mandate == j.mandate
  }

  predicate JobOk(receipts: map<string, Receipt>, j: Job) {
    && 0 < |j.items| < U32
    && forall i :: 0 <= i < |j.items| ==> Matches(receipts, j, i)
  }

  /** What an anchorer sends: the batch was built for `seqNo`, the instruction names `sentSeq`. */
  function Instruction(h: Sha256, j: Job, seqNo: nat, sentSeq: nat): Registry.Instruction
    requires |j.items| > 0
  {
    var b := BatchOf(j, seqNo);
    if j.route == Service(true) then Registry.AnchorRoot(j.mandate, j.gate, sentSeq, RootOf(h, b), |b.leaves|)
    else Registry.AnchorRootV2(j.mandate, j.gate, sentSeq, RootOf(h, b), |b.leaves|, h(HeaderOf(h, b)), FileHash(h, b))
  }

  function HeadersOf(h: Sha256, j: Job, seqNo: nat, sentSeq: nat): set<Bytes>
    requires |j.items| > 0
  {
    var i, b := Instruction(h, j, seqNo, sentSeq), BatchOf(j, seqNo);
    if i.AnchorRootV2? then {HeaderOf(h, b), Registry.Header(i)} else {}
  }

  function Step(h: Sha256, s: State, a: Action): Option<State> {
    match a
    case Elsewhere(event) => Some(s.(ledger := Registry.Apply(h, s.ledger, event)))
    case Issue(id, hash, mandate) => if id in s.receipts then None else Some(s.(receipts := s.receipts[id := Receipt(hash, mandate, None)]))
    case Begin(pid, job) => if pid in s.jobs || !JobOk(s.receipts, job) then None else Some(s.(jobs := s.jobs[pid := Begun(job)]))
    case ReadSequence(pid) =>
      if pid in s.jobs && s.jobs[pid].Begun? && s.jobs[pid].job.mandate in s.ledger.mandates
      then Some(s.(jobs := s.jobs[pid := Read(s.jobs[pid].job, s.ledger.mandates[s.jobs[pid].job.mandate].nextRootSeq)])) else None
    case Prepare(pid) =>
      if pid in s.jobs && s.jobs[pid].Read? && s.jobs[pid].job.mandate in s.ledger.mandates then
        var job, seqNo := s.jobs[pid].job, s.jobs[pid].seqNo;
        Some(s.(jobs := s.jobs[pid := Prepared(job, seqNo, if job.route.Client? then s.ledger.mandates[job.mandate].nextRootSeq else seqNo)]))
      else None
    case Send(pid, now) =>
      if pid in s.jobs && s.jobs[pid].Prepared? && |s.jobs[pid].job.items| > 0 then
        var job, seqNo, sentSeq := s.jobs[pid].job, s.jobs[pid].seqNo, s.jobs[pid].sentSeq;
        (match Registry.Execute(h, s.ledger, Instruction(h, job, seqNo, sentSeq), now)
         case Err(_) => None
         case Ok(ledger) => Some(s.(ledger := ledger, jobs := s.jobs[pid := Confirmed(job, seqNo)], headers := s.headers + HeadersOf(h, job, seqNo, sentSeq))))
      else None
    case Stamp(pid) =>
      if pid in s.jobs && s.jobs[pid].Confirmed? then
        var job := s.jobs[pid].job;
        Some(s.(receipts := Stamped(h, s.receipts, job.items, BatchOf(job, s.jobs[pid].seqNo), |job.items|), jobs := s.jobs - {pid}))
      else None
    case Stop(pid) => if pid in s.jobs then Some(s.(jobs := s.jobs - {pid})) else None
  }

  function Run(h: Sha256, s: State, actions: seq<Action>): Option<State>
    decreases |actions|
  {
    if actions == [] then Some(s)
    else match Step(h, s, actions[0])
      case None => None
      case Some(next) => Run(h, next, actions[1..])
  }

  /** What an anchorer is about to name: the client the counter as it reads it now, the service the one its batch was built for. */
  lemma SequenceNamed(h: Sha256, s: State, pid: nat)
    requires Step(h, s, Prepare(pid)).Some?
    ensures var t := Step(h, s, Prepare(pid)).value;
            && pid in s.jobs && pid in t.jobs && t.jobs[pid].Prepared? && t.jobs[pid].job == s.jobs[pid].job
            && t.ledger == s.ledger && t.receipts == s.receipts
            && s.jobs[pid].Read? && t.jobs[pid].seqNo == s.jobs[pid].seqNo
            && s.jobs[pid].job.mandate in s.ledger.mandates
            && t.jobs[pid].sentSeq == if s.jobs[pid].job.route == Client then s.ledger.mandates[s.jobs[pid].job.mandate].nextRootSeq else s.jobs[pid].seqNo
  {
  }

  // ---------------------------------------------------------------- the invariant

  /** The chain holds this batch's root at its own mandate and sequence. */
  predicate OnChain(h: Sha256, l: Registry.Ledger, b: Batch)
    requires |b.leaves| > 0
  {
    && (b.mandate, b.seqNo) in l.roots
    && var root := l.roots[(b.mandate, b.seqNo)];
       && root.merkleRoot == RootOf(h, b) && root.leafCount == |b.leaves|
       && (root.RootV2? ==> root.batchHeader == h(HeaderOf(h, b)) && root.batchFileHash == FileHash(h, b))
  }

  /** What a stamped receipt promises whoever checks it against the chain. */
  predicate Verifies(h: Sha256, l: Registry.Ledger, r: Receipt, a: Anchor) {
    && (r.mandate, a.seqNo) in l.roots
    && var root := l.roots[(r.mandate, a.seqNo)];
       && root.merkleRoot == a.merkleRoot && root.leafCount == a.leafCount && a.leafIndex < a.leafCount
       && Merkle.Accepts(h, a.leafSalt + r.hash, a.proof, root.merkleRoot)
       && (root.RootV2? ==> root.batchHeader == a.batchHeader && root.batchFileHash == a.batchFileHash)
  }

  predicate ReceiptOk(h: Sha256, l: Registry.Ledger, r: Receipt) { r.anchor.Some? ==> Verifies(h, l, r, r.anchor.value) }

  predicate StageOk(h: Sha256, s: State, stage: Stage) {
    && JobOk(s.receipts, stage.job)
    && (stage.Read? ==> stage.seqNo < U64)
    && (stage.Prepared? ==> stage.seqNo < U64 && stage.sentSeq < U64 && (stage.job.route.Client? || stage.sentSeq == stage.seqNo))
    && (stage.Confirmed? ==> OnChain(h, s.ledger, BatchOf(stage.job, stage.seqNo)))
  }

  predicate AllOk(h: Sha256, s: State) {
    && (forall p :: p in s.jobs ==> StageOk(h, s, s.jobs[p]))
    && (forall id :: id in s.receipts ==> ReceiptOk(h, s.ledger, s.receipts[id]))
  }

  ghost predicate Inv(h: Sha256, s: State) { Registry.Inv(s.ledger) && (CollidesIn(h, s.headers) || AllOk(h, s)) }

  /** A batch built for one sequence number and sent under another is rejected, or SHA-256 collides. */
  lemma MixedSequenceRejected(h: Sha256, l: Registry.Ledger, j: Job, seqNo: nat, sentSeq: nat, now: int)
    requires 0 < |j.items| < U32 && seqNo < U64 && sentSeq < U64 && j.route.Client?
    requires Registry.Execute(h, l, Instruction(h, j, seqNo, sentSeq), now).Ok?
    ensures seqNo == sentSeq || CollidesIn(h, HeadersOf(h, j, seqNo, sentSeq))
  {
    var b, i := BatchOf(j, seqNo), Instruction(h, j, seqNo, sentSeq);
    Collide(h, HeadersOf(h, j, seqNo, sentSeq), HeaderOf(h, b), Registry.Header(i));
    if HeaderOf(h, b) == Registry.Header(i) {
      HeaderTextInjective(j.mandate, seqNo, |b.leaves|, RootOf(h, b), FileHash(h, b), j.mandate, sentSeq, |b.leaves|, RootOf(h, b), FileHash(h, b));
    }
  }

  /** Roots on chain stay, so everything that rests on them does. */
  predicate KeepsRoots(l: Registry.Ledger, t: Registry.Ledger) {
    forall k :: k in l.roots ==> k in t.roots && t.roots[k] == l.roots[k]
  }

  lemma Settles(h: Sha256, s: State, t: State)
    requires Inv(h, s) && Registry.Inv(t.ledger) && KeepsRoots(s.ledger, t.ledger) && s.headers <= t.headers
    requires !CollidesIn(h, t.headers) ==>
               && (forall p :: p in t.jobs ==> JobOk(t.receipts, t.jobs[p].job))
               && (forall p :: p in t.jobs ==> (p in s.jobs && t.jobs[p] == s.jobs[p]) || StageOk(h, t, t.jobs[p]))
               && (forall id :: id in t.receipts ==> (id in s.receipts && t.receipts[id] == s.receipts[id]) || ReceiptOk(h, t.ledger, t.receipts[id]))
    ensures Inv(h, t)
  {
    if CollidesIn(h, s.headers) {
      CollidesInMore(h, s.headers, t.headers);
    } else if !CollidesIn(h, t.headers) {
      forall p | p in t.jobs
        ensures StageOk(h, t, t.jobs[p])
      {
        assert p in s.jobs && t.jobs[p] == s.jobs[p] ==> StageOk(h, s, s.jobs[p]);
      }
      forall id | id in t.receipts
        ensures ReceiptOk(h, t.ledger, t.receipts[id])
      {
        assert id in s.receipts && t.receipts[id] == s.receipts[id] ==> ReceiptOk(h, s.ledger, s.receipts[id]);
      }
    }
  }

  lemma JobsStay(receipts: map<string, Receipt>, more: map<string, Receipt>, j: Job)
    requires JobOk(receipts, j)
    requires forall id :: id in receipts ==> id in more && more[id].hash == receipts[id].hash && more[id].mandate == receipts[id].mandate
    ensures JobOk(more, j)
  {
    forall i | 0 <= i < |j.items|
      ensures Matches(more, j, i)
    {
      assert Matches(receipts, j, i);
    }
  }

  lemma ElsewhereKeeps(h: Sha256, s: State, event: Registry.Event)
    requires Inv(h, s)
    ensures Inv(h, s.(ledger := Registry.Apply(h, s.ledger, event)))
  {
    var t := s.(ledger := Registry.Apply(h, s.ledger, event));
    Registry.ApplyKeeps(h, s.ledger, event);
    forall k | k in s.ledger.roots
      ensures k in t.ledger.roots && t.ledger.roots[k] == s.ledger.roots[k]
    {
      assert Registry.ApplyAll(h, s.ledger, [event]) == t.ledger;
      Registry.WrittenOnce(h, s.ledger, [event], k, k.0);
    }
    if !CollidesIn(h, s.headers) {
      forall p | p in t.jobs
        ensures JobOk(t.receipts, t.jobs[p].job)
      {
        assert StageOk(h, s, s.jobs[p]);
      }
    }
    Settles(h, s, t);
  }

  /** The instruction that was accepted put exactly this batch on chain, at exactly the sequence it was built for. */
  lemma SendLands(h: Sha256, l: Registry.Ledger, j: Job, seqNo: nat, sentSeq: nat, now: int)
    requires 0 < |j.items| < U32 && seqNo < U64 && sentSeq < U64 && (j.route.Client? || sentSeq == seqNo)
    requires Registry.Execute(h, l, Instruction(h, j, seqNo, sentSeq), now).Ok?
    ensures OnChain(h, Registry.Execute(h, l, Instruction(h, j, seqNo, sentSeq), now).value, BatchOf(j, seqNo)) || CollidesIn(h, HeadersOf(h, j, seqNo, sentSeq))
  {
    if j.route.Client? { MixedSequenceRejected(h, l, j, seqNo, sentSeq, now); }
  }

  lemma SendKeeps(h: Sha256, s: State, pid: nat, now: int)
    requires Inv(h, s) && Step(h, s, Send(pid, now)).Some?
    ensures Inv(h, Step(h, s, Send(pid, now)).value)
  {
    var job, seqNo, sentSeq := s.jobs[pid].job, s.jobs[pid].seqNo, s.jobs[pid].sentSeq;
    var i := Instruction(h, job, seqNo, sentSeq);
    var ledger := Registry.Execute(h, s.ledger, i, now).value;
    ElsewhereKeeps(h, s, Registry.Event(i, now));
    var moved := s.(ledger := ledger);
    var headers := HeadersOf(h, job, seqNo, sentSeq);
    if CollidesIn(h, s.headers) {
      CollidesInMore(h, s.headers, s.headers + headers);
    } else if CollidesIn(h, headers) {
      CollidesInMore(h, headers, s.headers + headers);
    } else {
      assert StageOk(h, s, s.jobs[pid]);
      SendLands(h, s.ledger, job, seqNo, sentSeq, now);
      ConfirmKeeps(h, moved, pid, Confirmed(job, seqNo), s.headers + headers);
    }
  }

  lemma ConfirmKeeps(h: Sha256, s: State, pid: nat, stage: Stage, headers: set<Bytes>)
    requires Inv(h, s) && s.headers <= headers && StageOk(h, s, stage)
    ensures Inv(h, s.(jobs := s.jobs[pid := stage], headers := headers))
  {
    var t := s.(jobs := s.jobs[pid := stage], headers := headers);
    if !CollidesIn(h, headers) && CollidesIn(h, s.headers) { CollidesInMore(h, s.headers, headers); }
    if !CollidesIn(h, headers) {
      forall p | p in t.jobs
        ensures JobOk(t.receipts, t.jobs[p].job)
      {
        if p != pid { assert StageOk(h, s, s.jobs[p]); }
      }
      assert StageOk(h, t, stage);
    }
    Settles(h, s, t);
  }

  /** A receipt in a batch on chain, stamped with its own position, verifies against the chain. */
  lemma StampVerifies(h: Sha256, l: Registry.Ledger, j: Job, seqNo: nat, i: nat, r: Receipt)
    requires |j.items| > 0 && i < |j.items| && OnChain(h, l, BatchOf(j, seqNo))
    requires r.hash == j.items[i].leaf.receiptHash && r.mandate == j.mandate
    ensures Verifies(h, l, r, AnchorOf(h, BatchOf(j, seqNo), i))
  {
    var b := BatchOf(j, seqNo);
    Merkle.ProofVerifies(h, LeafList(b.leaves), i);
    assert LeafList(b.leaves)[i] == b.leaves[i].salt + r.hash;
  }

  lemma StampKeeps(h: Sha256, s: State, pid: nat)
    requires Inv(h, s) && Step(h, s, Stamp(pid)).Some?
    ensures Inv(h, Step(h, s, Stamp(pid)).value)
  {
    var t := Step(h, s, Stamp(pid)).value;
    var job, seqNo := s.jobs[pid].job, s.jobs[pid].seqNo;
    var b := BatchOf(job, seqNo);
    if !CollidesIn(h, s.headers) {
      assert StageOk(h, s, s.jobs[pid]);
      forall id | id in s.receipts
        ensures id in t.receipts && t.receipts[id].hash == s.receipts[id].hash && t.receipts[id].mandate == s.receipts[id].mandate
        ensures t.receipts[id] == s.receipts[id] || ReceiptOk(h, t.ledger, t.receipts[id])
      {
        StampedAt(h, s.receipts, job.items, b, |job.items|, id);
        if t.receipts[id].anchor != s.receipts[id].anchor {
          var i :| 0 <= i < |job.items| && job.items[i].id == id && t.receipts[id].anchor == Some(AnchorOf(h, b, i));
          assert Matches(s.receipts, job, i);
          StampVerifies(h, s.ledger, job, seqNo, i, t.receipts[id]);
        }
      }
      StampedAt(h, s.receipts, job.items, b, |job.items|, "");
      forall p | p in t.jobs
        ensures JobOk(t.receipts, t.jobs[p].job)
      {
        assert StageOk(h, s, s.jobs[p]);
        JobsStay(s.receipts, t.receipts, s.jobs[p].job);
      }
    }
    Settles(h, s, t);
  }

  lemma JobStepKeeps(h: Sha256, s: State, a: Action)
    requires a.Begin? || a.ReadSequence? || a.Prepare?
    requires Inv(h, s) && Step(h, s, a).Some?
    ensures Inv(h, Step(h, s, a).value)
  {
    var t := Step(h, s, a).value;
    if !CollidesIn(h, s.headers) {
      if a.pid in s.jobs { assert StageOk(h, s, s.jobs[a.pid]); }
      if !a.Begin? { assert Registry.Numbered(s.ledger, s.jobs[a.pid].job.mandate); }
      assert StageOk(h, s, t.jobs[a.pid]);
      ConfirmKeeps(h, s, a.pid, t.jobs[a.pid], s.headers);
    }
  }

  lemma StepKeeps(h: Sha256, s: State, a: Action)
    requires Inv(h, s) && Step(h, s, a).Some?
    ensures Inv(h, Step(h, s, a).value)
  {
    match a
    case Elsewhere(event) => ElsewhereKeeps(h, s, event);
    case Send(pid, now) => SendKeeps(h, s, pid, now);
    case Stamp(pid) => StampKeeps(h, s, pid);
    case Issue(_, _, _) => IssueOrStopKeeps(h, s, a);
    case Stop(_) => IssueOrStopKeeps(h, s, a);
    case _ => JobStepKeeps(h, s, a);
  }

  lemma IssueOrStopKeeps(h: Sha256, s: State, a: Action)
    requires a.Issue? || a.Stop?
    requires Inv(h, s) && Step(h, s, a).Some?
    ensures Inv(h, Step(h, s, a).value)
  {
    var t := Step(h, s, a).value;
    if !CollidesIn(h, s.headers) {
      forall p | p in t.jobs
        ensures JobOk(t.receipts, t.jobs[p].job)
      {
        assert StageOk(h, s, s.jobs[p]);
        JobsStay(s.receipts, t.receipts, s.jobs[p].job);
      }
    }
    Settles(h, s, t);
  }

  lemma {:induction false} RunKeeps(h: Sha256, s: State, actions: seq<Action>)
    requires Inv(h, s) && Run(h, s, actions).Some?
    ensures Inv(h, Run(h, s, actions).value)
    decreases |actions|
  {
    if actions != [] {
      StepKeeps(h, s, actions[0]);
      RunKeeps(h, Step(h, s, actions[0]).value, actions[1..]);
    }
  }

  // ---------------------------------------------------------------- the theorem

  /**
   * Every stamped receipt matches the chain, in every interleaving of anchorers, other registry users and revocations:
   * the root account at the receipt's own mandate and sequence has its root and leaf count, and its proof is accepted
   * against it; or two header texts share a SHA-256.
   */
  lemma StampedReceiptsVerify(h: Sha256, actions: seq<Action>, id: string)
    requires Run(h, INITIAL, actions).Some?
    requires id in Run(h, INITIAL, actions).value.receipts && Run(h, INITIAL, actions).value.receipts[id].anchor.Some?
    ensures var s := Run(h, INITIAL, actions).value;
            Verifies(h, s.ledger, s.receipts[id], s.receipts[id].anchor.value) || CollidesIn(h, s.headers)
  {
    RunKeeps(h, INITIAL, actions);
    var s := Run(h, INITIAL, actions).value;
    assert CollidesIn(h, s.headers) || ReceiptOk(h, s.ledger, s.receipts[id]);
  }
}
