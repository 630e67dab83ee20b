# Atlas Rail: the spending-authority core in Dafny

This project models the path on which Atlas Rail lets an agent spend money, and proves what that path promises:
a signed mandate, the policy gate, a channel voucher or a pay.sh `allow`, an owner's approval, the settled payment's
outcome, the receipt anchored on chain, and the refund of what is left. `dafny verify dfyconfig.toml` checks all of it.

## How to read it

One module per source file or component.

| file | what it models |
|---|---|
| `Prelude.dfy`, `Model.dfy` | results, bytes, hashes and collisions; mandates, offers and the outside world |
| `SpendStore.dfy`, `SpendProtocol.dfy`, `ChannelVoucher.dfy` | spend memory, the interleaved voucher and pay.sh asks, one ask as it runs |
| `PayOperations.dfy` | one pay.sh operation, its frozen row and its spend row |
| `VoucherLedger.dfy`, `Voucher.dfy` | the process-local voucher budget, the 50 voucher bytes |
| `Gate.dfy`, `GateLaws.dfy`, `Decision.dfy` | the fifteen-rule gate, what it means, replay and the wallet's checks |
| `LinkPayload.dfy`, `MandateChain.dfy` | what a delegation link signs, signing and verifying a chain |
| `OwnerApproval.dfy`, `OwnerApprovals.dfy` | one wallet approval, and approvals under concurrent requests, signatures and uses |
| `RunExclusive.dfy` | the per-key promise queue and advisory lock |
| `Merkle.dfy`, `Jcs.dfy`, `JcsFaithful.dfy`, `JcsText.dfy`, `BatchFile.dfy` | RFC 6962 trees, RFC 8785 text and what it looks like, salted batches |
| `MandateRegistry.dfy`, `Anchoring.dfy` | the on-chain registry, several anchorers and their stamps |
| `PaymentOutcome.dfy`, `Refund.dfy`, `Base58.dfy` | the double scan, the resumable refund planner, key decoding |

Conventions:

- Hash functions are arbitrary function parameters. No result assumes they are injective: each reads "the property holds,
  or the hash collides inside this finite set of preimages", and the set is computed from the values at hand.
- Signatures are ideal: `World.sign` gives the one signature a key makes for a content, and it is itself an arbitrary
  function, so even "one signature, two contents" is a stated alternative and not excluded.
- Clocks, RPC answers, signer answers, owners and the behaviour check are inputs. Every call into the outside world may
  fail; in the transition systems a failure is a step (`Stop`, `TransactionFails`, `SigningFails`, `BreaksAfterCharge`, ...).
- Concurrent code is a step function over a state, one step per stretch between two awaits, and the theorems speak about
  every sequence of steps. The same bodies are also written as methods over store objects (`AskChannelVoucher`, `Decide`,
  `SubmitSignature`, `Consume`, `SaveBatch`, `RefundRemainder`), and tied to the same functions.
- Where a method is tied to a specification function, a lemma (or further clauses of the method) says what that function
  means without naming it: in the fields of the request, the stored rows and the answers, or byte by byte.
- `SpendProtocol.Setting` carries the gate as a function value; `PolicyKeepsCaps` says the policy gate is one of those
  whose ALLOW leaves room under the caps, and that is all the protocol needs of it.

## What came out differently from the prose in the source

- A pay.sh operation that was charged but whose answer was never stored is safe only for the same payment: a different
  payment under the same operation id can then be charged and allowed too. `PayOperations.OneOperationChargedTwice` gives
  the run, `AllowedIff` the exact condition, `LostChargeIsFinal` what does hold.
- A decision record replays exactly when no empty-string channel payer was lost on the way: the snapshot drops `""` but the
  gate compares it (`Decision.ReplayIff`). An ALLOW is never affected.
- The funder's base-58 decoder keeps the initial zero byte when the value is zero, so `"1"` decodes to two zero bytes
  (`Base58.OneDecodesToTwoBytes`). It is still injective.
- An approval without terms and without signature counts at the gate by its approver's role alone
  (`GateLaws.ApprovalCountsIff`); approvals that come from `consume` always carry both.
- Gate monotonicity needs no separate assumption about the mandate: the gate parses it, and parsing already bounds the
  tolerated ceiling by the hard maximum.
- `anchor_root` (the deprecated instruction) has no header check. It is safe for the service, which reads the sequence
  once; the SDK, which reads it twice, only sends `anchor_root_v2`.
- On chain `max_per_window` may not exceed `max_total`; the off-chain schema has no such rule, and off chain the escalation
  threshold may not exceed `max_per_payment`, which the program does not check.

## Model

| member | source | states |
|---|---|---|
| SpendProtocol.LifetimeCap | apps/api/src/agent/channel-voucher.ts:214-293 | In every interleaving of voucher asks, pay.sh asks, other mandates, failures and settlements: the amount settled above each channel's start plus every pay.sh allowance is at most `maxTotal`, or two mandate bodies share a hash |
| SpendProtocol.SlicesTelescope | apps/api/src/agent/channel-voucher.ts:215-219 | Per channel the recorded slices add up to the highest voucher minus the starting settled amount, and the chain is never above it, although the settled amount is read before the lock |
| SpendProtocol.RollingWindow | packages/database/src/voucher-spend-store.ts:73-81 | At every instant, not only at decisions, autonomous entries of the last `windowSeconds` sum to at most `maxPerWindow`, or two bodies share a hash |
| SpendProtocol.SafeAtEveryInstant | packages/database/src/voucher-spend-store.ts:77-79 | If each autonomous row fitted its own window when it was recorded, every window ending at any time fits |
| SpendProtocol.StepKeeps | apps/api/src/agent/pay-authority.ts:205-294 | Every single step of either ask, of the chain or of another mandate keeps the protocol's invariant: current reads under the lock, telescoping slices, both caps |
| SpendProtocol.PolicyKeepsCaps | packages/mandate/src/gate.ts:421-453 | Every ALLOW of the policy gate has a positive amount and leaves room under the lifetime cap, and under the window when it is autonomous |
| SpendProtocol.PayAskAllowedIff | apps/api/src/agent/pay-authority.ts:216-290 | A pay.sh ask that finds the lock free records its spend exactly when the gate allows its amount against the sums of the store and its hash is unused; then its row is the only change |
| ChannelVoucher.AskChannelVoucher | apps/api/src/agent/channel-voucher.ts:164-294 | Under the policy gate one ask is signed exactly when: the channel pays this recipient in this asset, the on-chain mandate names this agent and neither it nor the caller says revoked, the voucher is above everything signed or settled and lapses in time, every hard limit holds, and the rest is within the agent's own authority and unflagged, or covered by an approval. Then the store gains exactly that row, field by field, and the ask is a run of the protocol; a refusal leaves the store alone; the owner is asked exactly when only approvable limits fail |
| ChannelVoucher.SignsIff | apps/api/src/agent/channel-voucher.ts:164-294 | What the code goes through (precheck, sums, behaviour check, authorizer, gate, signer, store) signs exactly in the situations spelled out for the caller |
| ChannelVoucher.EscalatesIff | apps/api/src/agent/channel-voucher.ts:268-284 | The code escalates exactly when everything hard holds, something approvable does not, and no approval was named |
| ChannelVoucher.GateMeans | apps/api/src/agent/channel-voucher.ts:220-266 | What the gate answers one ask, in terms of the request, the channel account, the revocations and the stored sums |
| ChannelVoucher.StartIsHighest | apps/api/src/agent/channel-voucher.ts:215-219 | The slice starts at the settled amount or at a recorded voucher of the channel, and above all of them |
| ChannelVoucher.AskUnder | apps/api/src/agent/channel-voucher.ts:164-294 | The same body under any gate: one new row exactly when all its checks pass, and it is the run `Script` of the protocol |
| ChannelVoucher.RequestVoucher | packages/x402-client/src/voucher.ts:265-343 | The authorizer signs exactly when expiry, settled amount and watermark checks pass, the gate says ALLOW and the signer answers |
| ChannelVoucher.BehaviourStops | apps/api/src/agent/channel-voucher.ts:238-258 | The behaviour check stops a payment exactly when no approval was named, the slice is positive, it is flagged, and the mandate alone would allow it |
| ChannelVoucher.ScriptRuns | apps/api/src/agent/channel-voucher.ts:214-293 | An ask that signs is the protocol run arrive, lock, read totals, read watermark, decide, store, and ends with that one new row |
| SpendStore.InMemoryVoucherSpendStore.Totals | packages/database/src/voucher-spend-store.ts:73-81 | The loop returns the mandate's lifetime sum and its autonomous sum after the window start |
| SpendStore.InMemoryVoucherSpendStore.ChannelWatermark | packages/database/src/voucher-spend-store.ts:83-87 | The loop returns the account's watermark |
| SpendStore.InMemoryVoucherSpendStore.Record | packages/database/src/voucher-spend-store.ts:89-92 | A repeated message hash is refused and changes nothing; otherwise exactly this entry is appended |
| SpendStore.WatermarkIsHighest | packages/database/src/voucher-spend-store.ts:83-87 | The watermark is absent exactly when nothing was recorded for the account; otherwise it bounds every recorded cumulative amount and is one of them |
| SpendStore.PartsWithinTotal | packages/database/src/voucher-spend-store.ts:73-81 | Slices over any distinct channels plus all pay.sh slices never exceed the lifetime sum |
| PayOperations.OneAllowPerOperation | apps/api/src/agent/pay-authority.ts:205-345 | In every run, without relying on the lock: each delivered `allow` is the stored answer to the same attempt and binding, and exactly one spend row of that amount stands for it, or two payments share a binding hash |
| PayOperations.DecidedStays | packages/database/src/pay-operation-store.ts:37-41 | A decided operation row never changes again, in any run |
| PayOperations.LostChargeIsFinal | apps/api/src/agent/pay-authority.ts:279-293 | Charged but not stored: the same payment under that operation is never charged again and never allowed |
| PayOperations.AllowedIff | apps/api/src/agent/pay-authority.ts:206-215 | A request alone gets a new charge and an `allow` exactly when its operation has no row, or one waiting for the same binding, and its spend hash is unused |
| PayOperations.UsedOperation | apps/api/src/agent/pay-authority.ts:206-215 | A request under an id that has a row: another binding is denied, a decided row gives the same attempt its stored answer, a new attempt is denied after an ALLOW and gets the stored answer after a DENY, a waiting row is decided anew; operations and spends stay as they were |
| PayOperations.OneOperationChargedTwice | apps/api/src/agent/pay-authority.ts:281-293 | The stronger promise fails: after a lost charge, a different payment under the same operation id is charged and allowed |
| PayOperations.Decide | apps/api/src/agent/pay-authority.ts:188-345 | One request decided on the two stores: a used operation id is answered from its row as `UsedOperation` says and changes nothing; otherwise charge, row and answer are given field by field; and the stores and the answer are those of one run of the machine |
| PayOperations.InMemoryPayOperationStore.Save | packages/database/src/pay-operation-store.ts:37-41 | Creates the row, replaces one still waiting, and otherwise throws and changes nothing |
| VoucherLedger.LedgerConserves | packages/x402-client/src/voucher.ts:156-189 | In every interleaving over channels, for any gate whose ALLOW respects the caps: total and window are where they started plus what each channel's standing vouchers charged, `inFlight` counts open reservations, the total is at most the larger of start and `maxTotal` |
| VoucherLedger.RollbackRestores | packages/x402-client/src/voucher.ts:171-177 | Whatever other channels did meanwhile, a failed signature gives this channel its old watermark, touches no other, and takes back exactly what was reserved |
| VoucherLedger.ReserveNeverRefuses | packages/x402-client/src/voucher.ts:156-169 | After the authorizer's checks `reserve` never throws; "already presented" is unreachable, or two voucher messages share a SHA-256 |
| VoucherLedger.RequestReserves | packages/x402-client/src/voucher.ts:156-169 | A request that passes charges total and window by its slice above the settled amount, moves this channel's watermark to the voucher's amount and holds the reservation; other channels stay |
| VoucherLedger.VoucherBudgetLedger.Reserve | packages/x402-client/src/voucher.ts:156-169 | Three refusals in order, each leaving the ledger alone; otherwise the slice is charged, the watermark moves, and the old watermark is handed back |
| VoucherLedger.VoucherBudgetLedger.Rollback | packages/x402-client/src/voucher.ts:171-177 | Takes back the slice and restores or deletes the channel's watermark |
| Voucher.EncodeInjective | packages/x402-client/src/voucher.ts:60-73 | The 50 bytes give back channel, cumulative amount and expiry |
| Voucher.EncodeLayout | packages/x402-client/src/voucher.ts:60-73 | Magic at 0, channel at 2, amount at 34 and expiry at 42, both least significant byte first |
| RunExclusive.OneBodyPerKey | packages/database/src/run-exclusive.ts:17-29 | Across all processes at most one body per key runs |
| RunExclusive.FirstComeFirstServed | packages/database/src/run-exclusive.ts:18-31 | In one process a task leaves the queue only when every earlier one on its key has settled, thrown or not |
| RunExclusive.EntryExactlyWhileNeeded | packages/database/src/run-exclusive.ts:30-34 | The map entry is gone only when nothing on the key waits or runs, and is gone once everything on it was cleaned up |
| RunExclusive.NobodyIsStuck | packages/database/src/run-exclusive.ts:18-29 | While a task is unsettled some task of its key can move, whatever threw before |
| RunExclusive.StepsUseUpWork | packages/database/src/run-exclusive.ts:17-36 | Every step but an arrival strictly decreases the work left |
| RunExclusive.InProcess.Enqueue | packages/database/src/run-exclusive.ts:18-31 | Hands out the tail found in the map and becomes the tail |
| RunExclusive.InProcess.AfterTail | packages/database/src/run-exclusive.ts:32-34 | Deletes the entry only if it is still this task's |
| Gate.EvaluateGate | packages/mandate/src/gate.ts:176-558 | The evaluator that pushes rules and rewrites statuses in place computes the specification function `Evaluate`; `AllowIff`, `EscalateIff`, `RulesReported` and `AnswerReported` say what that is in plain conditions |
| Gate.PushApproval | packages/mandate/src/gate.ts:508-523 | A refused approval adds a failed rule; a good one overrides exactly the escalated rules, only when nothing failed; the rest is untouched |
| Gate.PushScope | packages/mandate/src/gate.ts:293-501 | After an integrity failure ten skipped rules, otherwise the ten scope rules, with the simulation rule aware of earlier failures |
| GateLaws.AllowIff | packages/mandate/src/gate.ts:249-545 | ALLOW exactly when mandate and offer are intact, every hard condition holds, and either nobody approved and every approvable condition holds, or the approval shown counts; AUTONOMOUS exactly when the approvable conditions hold. The conditions are in the fields of mandate, offer and context, the price in whole-number arithmetic |
| GateLaws.EscalateIff | packages/mandate/src/gate.ts:525-537 | ESCALATE exactly when everything hard holds, something approvable does not, and no approval was shown |
| GateLaws.PriceRuleMeans | packages/mandate/src/gate.ts:390-419 | The price rule passes exactly when, for the first limit matching the resource, `10000 * (amount - expected) <= expected * toleranceCenti`, and fails exactly above that limit's hard maximum |
| GateLaws.AllowRespectsPrice | packages/mandate/src/gate.ts:14-17 | Without an approval an ALLOW is within that tolerance; with one it is still at most the hard maximum |
| GateLaws.RulesReported | packages/mandate/src/gate.ts:176-523 | Every evaluation reports the fourteen rules in their order, then the approval rule exactly when an approval was looked at |
| GateLaws.AnswerReported | packages/mandate/src/gate.ts:525-557 | The first failed rule of a DENY, the first escalated rule of an ESCALATE, none of an ALLOW; approver roles only when it escalates; the hashes of an intact offer and a parsed mandate |
| GateLaws.NothingSkippedInAllow | packages/mandate/src/gate.ts:293-545 | In an ALLOW every rule passed, or was overridden by an approval; none was skipped |
| GateLaws.ApprovalCountsIff | packages/mandate/src/gate.ts:263-291 | What makes an approval count, spelled out, signed or not |
| GateLaws.ApprovalTable | packages/mandate/src/gate.ts:508-545 | Showing an approval maps DENY to DENY, ESCALATE to ALLOW/APPROVED or DENY, ALLOW to ALLOW/AUTONOMOUS or DENY |
| GateLaws.GateMonotone | packages/mandate/src/gate.ts:365-500 | Raising the amount, the window spend or the lifetime spend never moves the answer towards ALLOW |
| GateLaws.AllowKeepsCaps | packages/mandate/src/gate.ts:421-453 | An ALLOW fits the lifetime cap and the per-payment ceiling, and the window when autonomous |
| Decision.ReplayIff | packages/mandate/src/decision.ts:116-234 | Every record built from a gate evaluation passes `verifyDecisionMatchesScope`, exactly when no empty channel payer facing a fee payer was lost in the snapshot |
| Decision.MatchingRecordIsTrue | packages/mandate/src/decision.ts:212-234 | A record that passes the replay is about this mandate and offer, and its decision, kind and rules are what the conditions make of the recorded inputs |
| Decision.SnapshotKeeps | packages/mandate/src/decision.ts:116-139 | The snapshot gives back every gate input but an empty channel payer and the review |
| Decision.WalletAcceptsAllow | packages/mandate/src/decision.ts:262-337 | The authorisation issued for an ALLOW is accepted exactly when the wallet trusts the key, holds the named agent and transaction, and looks inside the time window |
| Decision.WalletAcceptsOnlyAllow | packages/mandate/src/decision.ts:276-337 | Every accepted authorisation rests on a decision that re-evaluates to ALLOW under this mandate and names its true kind; the authorisation is about that decision's id and hash, this mandate, offer, transaction and agent, and both signatures are by one trusted key |
| Decision.SignedVoucherWasAuthorised | packages/x402-client/src/gated-signer.ts:169-192 | A voucher is signed only if it is 50 bytes behind the magic and was authorised for those bytes, or for other bytes with the same SHA-256, under an ALLOW that replays |
| LinkPayloads.LinkTextInjective | packages/mandate/src/mandate.ts:110-127 | The canonical text of a link payload gives back every field of it |
| LinkPayloads.LinkFields | packages/mandate/src/mandate.ts:105-127 | The signed text is the canonical text of the object with type, version, mandate hash, index, role, public key and previous signature under their own names |
| LinkPayloads.LinkCollisionIsTextCollision | packages/mandate/src/mandate.ts:110-127 | Two payloads with one link hash are two texts with one SHA-256 |
| MandateChain.VerifyMandateChain | packages/mandate/src/mandate.ts:217-313 | Valid exactly when the document parses, its chain is an owner, one or more approvers and the agent, each link is its key's signature over body hash, place, role, key and the signature before it, all keys differ, there are enough approvers, and the agent is the named one |
| MandateChain.AcceptedMeans | packages/mandate/src/mandate.ts:217-313 | The checks of the code are that plain description, link by link |
| MandateChain.ShapeIff | packages/mandate/src/mandate.ts:129-134 | "Each role may follow the one before it, and the last is AGENT" is the shape owner, approvers, agent |
| MandateChain.ShapeOk | packages/mandate/src/mandate.ts:236-247 | The role loop accepts exactly OWNER, one or more APPROVERs, AGENT |
| MandateChain.AllSignaturesVerify | packages/mandate/src/mandate.ts:256-264 | The signature loop succeeds exactly when every link signs its own payload |
| MandateChain.SigningKeeps | packages/mandate/src/mandate.ts:148-183 | Every chain that signing can produce is in order, signed link by link and by distinct keys |
| MandateChain.SignedChainIsAccepted | packages/mandate/src/mandate.ts:148-313 | A chain of at most 8 links that signing completes with an AGENT link is accepted |
| MandateChain.AcceptedIffSigned | packages/mandate/src/mandate.ts:148-313 | A parsed mandate is accepted exactly when signing could have produced its chain, up to the unsigned `scheme`, and it ends with the agent |
| MandateChain.FinalSignatureFixesMandate | packages/mandate/src/mandate.ts:105-127 | Two accepted mandates with the same final signature have the same body and the same chain up to `scheme`, or a hash or signature collision exists |
| OwnerApproval.ApprovalAcceptedIff | packages/mandate/src/owner-approval.ts:71-97 | Accepted exactly when signed over these terms, in time, by an owner or approver key of the chain whose role may approve, never by the agent |
| OwnerApproval.ApprovalSignatureFixesTerms | packages/mandate/src/owner-approval.ts:47-97 | Two different payments never share an accepted signature, unless signatures collide |
| OwnerApprovals.StatusOnlyForward | packages/database/src/owner-approval-store.ts:56-61 | Under concurrent calls a stored approval only moves PENDING, APPROVED, CONSUMED; its payment never changes and its signature is never replaced |
| OwnerApprovals.SingleUse | apps/api/src/agent/owner-approvals.ts:176-184 | Of all concurrent uses of one approval at most one ever returns it |
| OwnerApprovals.UsedApprovalIsSigned | apps/api/src/agent/owner-approvals.ts:158-184 | A returned approval carries an unexpired signature over its own terms by an owner or approver key that may approve, never the agent's, and is for exactly the payment expected |
| OwnerApprovals.RequestStores | apps/api/src/agent/owner-approvals.ts:103-134 | A request stores the hashes, amount, recipient, agent, expiry and permitted signers of the very payment asked about, pending and unsigned |
| OwnerApprovals.VerifiesIff | packages/mandate/src/owner-approval.ts:83-97 | A wallet signature counts for a stored payment exactly when one of its signers, not the agent, signed exactly its terms and it has not lapsed |
| OwnerApprovals.AdmittedPaymentIsTheSignedOne | apps/api/src/agent/channel-voucher.ts:220-237 | A payment the gate lets through on a used approval has the bytes and the amount the owner signed, or a hash collides |
| OwnerApprovals.UsedApprovalCounts | packages/mandate/src/gate.ts:266-291 | Under the mandate that asked, a used approval counts at the gate exactly for its own offer hash and until it expires |
| OwnerApprovals.SubmitSignature | apps/api/src/agent/owner-approvals.ts:158-170 | Approves exactly a pending row whose own terms one of its signers signed in time, and records that signature and the time |
| OwnerApprovals.Consume | apps/api/src/agent/owner-approvals.ts:176-184 | Returns the row exactly when it is approved, for this kind, mandate and subject, and still covered by its signature, and marks it consumed |
| OwnerApprovals.InMemoryOwnerApprovalStore.Transition | packages/database/src/owner-approval-store.ts:56-61 | Moves and patches the row only if it still has the expected status |
| Merkle.SplitPoint | packages/receipt/src/merkle.ts:44-48 | The loop returns the largest power of two below n |
| Merkle.Rfc6962 | packages/receipt/src/merkle.ts:36-65 | Root and proof obey the recursion of RFC 6962, sections 2.1 and 2.1.1, with the prefix bytes 0 and 1 and the split at the largest power of two below n |
| Merkle.VerifyMerkleProof | packages/receipt/src/merkle.ts:86-99 | The loop accepts exactly when, from the leaf hashed behind a zero byte, each 32-byte sibling hashed on its side behind a one byte leads to the root |
| Merkle.ProofVerifies | packages/receipt/src/merkle.ts:50-83 | For every non-empty list and index the built proof verifies against the root |
| Merkle.ProofLength | packages/receipt/src/merkle.ts:57-65 | A proof in a list of at most 2^d leaves has at most d steps |
| Merkle.AcceptedProofIsHonest | packages/receipt/src/merkle.ts:86-99 | An accepted proof is the built proof of a leaf of the list, or SHA-256 collides among the preimages of tree and proof |
| Merkle.RootDeterminesLeaves | packages/receipt/src/merkle.ts:50-76 | Equal roots mean equal lists, of any lengths, or SHA-256 collides among the two trees' preimages |
| Jcs.AssertWellFormedString | packages/mandate/src/jcs.ts:25-38 | The index loop reports nothing exactly when every surrogate is paired, and otherwise what the specification function reports |
| Jcs.LoneFromFindsAll | packages/mandate/src/jcs.ts:25-38 | Nothing is reported exactly when every surrogate is paired |
| JcsText.ReportsALoneOne | packages/mandate/src/jcs.ts:25-38 | A reported surrogate is there and alone, high or low as reported |
| JcsText.CanonicalizesIff | packages/mandate/src/jcs.ts:46-88 | A value has canonical text exactly when it nests at most 64 deep, holds no lone surrogate and nothing JSON cannot say |
| JcsText.LessIsCodeUnitOrder | packages/mandate/src/jcs.ts:78-79 | The sort order: at the first differing UTF-16 code unit the smaller comes first, and a prefix before what extends it |
| JcsText.KeysAscend | packages/mandate/src/jcs.ts:78-87 | Reading an object's text back gives its members in ascending code unit order of their keys |
| JcsText.EscapesExactly | packages/mandate/src/jcs.ts:54-57 | Which characters are escaped and how (RFC 8785, section 3.2.2.2) |
| JcsText.KnownText | packages/mandate/src/jcs.ts:46-93 | One object with nested values, byte for byte |
| JcsFaithful.ParsePrinted | packages/mandate/src/jcs.ts:46-88 | A parser inverts the printer on any text that may follow, giving the value with members in printing order |
| JcsFaithful.SamePrintsAlike | packages/mandate/src/jcs.ts:78-87 | Values equal up to member order print the same text, or fail with the same error |
| JcsFaithful.CanonicalTextIsFaithful | packages/mandate/src/jcs.ts:46-93 | Two values that can be canonicalised have equal text exactly when they are equal up to object member order |
| BatchFile.HeaderHashFixesBatch | packages/receipt/src/batch-file.ts:51-126 | One header hash stands for one batch: mandate, sequence, every receipt and salt in order, or SHA-256 collides among four texts |
| BatchFile.FileTextInjective | packages/receipt/src/batch-file.ts:51-65 | The batch file gives back the batch |
| BatchFile.HeaderTextInjective | packages/receipt/src/batch-file.ts:67-78 | The header gives back every field |
| BatchFile.HeaderLayout | packages/receipt/src/batch-file.ts:67-78 | The 133 header bytes: tag, mandate, sequence, leaf count, root and file hash at their offsets |
| BatchFile.FileLayout | packages/receipt/src/batch-file.ts:51-65 | The file bytes: tag, mandate, sequence, leaf count, then each leaf's salt and receipt hash in order |
| MandateRegistry.RootsAreNumbered | programs/atlas-mandate/src/lib.rs:122-204 | In every reachable ledger a mandate's roots are exactly sequence 0 to `next_root_seq - 1` |
| MandateRegistry.WrittenOnce | programs/atlas-mandate/src/lib.rs:54-204 | A root once written never changes, a mandate's terms and signers never change, revocation is final |
| MandateRegistry.AnchorAcceptedIff | programs/atlas-mandate/src/lib.rs:122-204 | In every reachable ledger either anchor instruction is accepted exactly on its own conditions, for `anchor_root_v2` including the header text: the root account is never in the way and a revoked mandate still takes evidence |
| MandateRegistry.AnchorStores | programs/atlas-mandate/src/lib.rs:122-204 | An accepted anchor writes the instruction's own fields at its sequence number, counts it and changes nothing else |
| MandateRegistry.CreateAcceptedIff | programs/atlas-mandate/src/lib.rs:468-490 | A create is accepted exactly at a free address by independent signers, sound limits and a validity that has not passed; each error only for its own reason |
| MandateRegistry.CreateStores | programs/atlas-mandate/src/lib.rs:54-92 | An accepted create stores the instruction's terms, owner, approver and agent in a live mandate and leaves every other account alone |
| MandateRegistry.CreatedForGood | programs/atlas-mandate/src/lib.rs:54-117 | For the rest of any run the mandate has the terms and signers of its create; while it is live the named owner's and approver's revocations succeed and the named agent's is refused |
| MandateRegistry.RevokeStores | programs/atlas-mandate/src/lib.rs:95-117 | An accepted revocation sets the three revocation fields of this mandate and nothing else |
| MandateRegistry.RevokedOnlyByAuthority | programs/atlas-mandate/src/lib.rs:95-117 | A live mandate becomes revoked exactly by its owner's or approver's instruction |
| MandateRegistry.MandateProgram.Create | programs/atlas-mandate/src/lib.rs:54-92 | Accepted exactly at a free address when signers, limits and validity are sound; then the named owner, approver and agent hold a live mandate with counter 0 and every other account stays; a refusal changes nothing |
| MandateRegistry.MandateProgram.Revoke | programs/atlas-mandate/src/lib.rs:95-117 | Unknown account, wrong authority, already revoked, in this order; else the three revocation fields are set and nothing else |
| MandateRegistry.MandateProgram.Anchor | programs/atlas-mandate/src/lib.rs:122-204 | Error cases in order, else one new root account and the next sequence number |
| Anchoring.StampedReceiptsVerify | packages/receipt/src/service.ts:217-314 | In every interleaving of anchorers, other registry users and revocations each stamped receipt matches the root account at its own mandate and sequence and its proof is accepted, or two header texts share a hash |
| Anchoring.MixedSequenceRejected | packages/atlasrails/src/sdk-client.ts:751-782 | A batch built for one sequence number and sent under another is rejected, or SHA-256 collides on the two headers |
| Anchoring.SequenceNamed | packages/atlasrails/src/sdk-client.ts:751-782 | The client names the counter as it reads it the second time, the service the one its batch was built for |
| Anchoring.SendLands | packages/atlasrails/src/mandate-program.ts:216-237 | An accepted instruction put exactly this batch on chain at the sequence it was built for, or a collision exists |
| Anchoring.StampedAt | packages/atlasrails/src/anchor-batch.ts:61-95 | After stamping a receipt is unchanged or carries the proof of one of its own positions |
| Anchoring.StampsOwnPosition | packages/atlasrails/src/anchor-batch.ts:61-95 | With distinct ids each receipt of a batch gets its own index, proof and salt beside the batch's root, count, sequence, header hash and file hash |
| Anchoring.ReceiptStore.SaveBatch | packages/receipt/src/service.ts:352-361 | The loop writes each receipt's own inclusion proof and skips receipts that are gone |
| Anchoring.GroupByMandate | packages/receipt/src/service.ts:224-230 | One group per mandate with pending receipts, holding exactly those in their order |
| Anchoring.GroupsPartition | packages/receipt/src/service.ts:224-230 | Each pending receipt is in its own mandate's group and in no other |
| PaymentOutcome.Scan | packages/solana/src/payment-outcome.ts:59-71 | Read off the listing: the first hit decides LANDED or FAILED with its signature; INCOMPLETE exactly at a missing reply or a full page without an answer; NOT_FOUND exactly at an entry older than the slack or the end of a short page |
| PaymentOutcome.ScanMeans | packages/solana/src/payment-outcome.ts:59-71 | The same reading of the specification function, from any point passed over so far |
| PaymentOutcome.FindPaymentOutcome | packages/solana/src/payment-outcome.ts:50-80 | EXPIRED means the transaction is on no present or future ledger; LANDED and FAILED mean it is there with that result; the first hit of the first scan, or of the second when the first ruled it out and the blockhash is dead, is the answer; PENDING, EXPIRED and MISMATCH exactly when |
| PaymentOutcome.ScanRulesOut | packages/solana/src/payment-outcome.ts:60-70 | A scan that says NOT_FOUND rules out the whole visible history, also where it stopped early |
| PaymentOutcome.DeadAndUnseen | packages/solana/src/payment-outcome.ts:76-79 | Unseen by a scan that began after its blockhash died: on no ledger there will ever be |
| PaymentOutcome.OnLedgerIsOurs | packages/solana/src/payment-outcome.ts:66-68 | What is on the ledger under the authorised hash is the authorised transaction, or two messages collide |
| PaymentOutcome.OneScanIsNotEnough | packages/solana/src/payment-outcome.ts:73-79 | Without the second scan an honest run exists that would report a landed transaction as expired |
| Refund.PlanResumes | packages/atlasrails/src/channel-flow.ts:110-127 | Any number of planned steps is accepted in order; stopping there and planning again, whenever, lists exactly the steps left; the rank drops at least once per step |
| Refund.EmptyOnlyWhileWaiting | packages/atlasrails/src/channel-flow.ts:110-127 | The planner never refuses a reachable channel, lists nothing exactly while the grace or the slot window still runs, and then says until when |
| Refund.PlansBySituation | packages/atlasrails/src/channel-flow.ts:110-127 | The steps planned in each situation; the payee's own instruction only with the payee's key |
| Refund.PayeeRefundsAtOnce | packages/atlasrails/src/channel-flow.ts:110-127 | With the payee's key one call brings back the whole remainder of an open channel |
| Refund.PaidExactlyOnce | packages/atlasrails/src/channel-flow.ts:95-127 | Over any instructions by anyone the payer has nothing or exactly deposit minus settled, and has it once the escrow is closed |
| Refund.InstructionsAdvance | packages/atlasrails/src/channel-flow.ts:106-127 | Every accepted instruction strictly lowers the rank, and only `withdraw` pays, once |
| Refund.ReachesReclaim | packages/atlasrails/src/sdk-client.ts:1092-1149 | Six calls a grace period apart and past the slot window end in `reclaim`, wherever each is cut off after its first step and whatever the payee does meanwhile |
| Refund.RefundRemainder | packages/atlasrails/src/sdk-client.ts:1115-1149 | The step loop sends a prefix of the plan, each step executed, and stops only at a submission that did not arrive |
| Base58.Decode | packages/atlasrails/src/funder.ts:29-50 | Refuses exactly strings outside the alphabet; the bytes read big-endian are the base-58 value behind one zero byte per leading '1', with none to spare |
| Base58.DigitIsIndex | packages/atlasrails/src/funder.ts:29-33 | A character's digit is its place in the 58-character alphabet, and only those have one |
| Base58.MultiplyAdd | packages/atlasrails/src/funder.ts:34-43 | The carry loops turn little-endian digits into those of value times 58 plus digit, with no needless top byte |
| Base58.LeadingZeroCount | packages/atlasrails/src/funder.ts:45-49 | A nonzero value has exactly as many leading zero bytes as the string has leading '1's; zero has one more |
| Base58.DecodingUnique | packages/atlasrails/src/funder.ts:29-50 | The specification admits one decoding per string |
| Base58.DecodingInjective | packages/atlasrails/src/funder.ts:29-50 | No two strings decode to the same bytes |
| Base58.OneDecodesToTwoBytes | packages/atlasrails/src/funder.ts:29-50 | The string "1" decodes to two zero bytes |

## Left out

- `checkBehaviour`: only its flagged bit is an input; it can only make an answer stricter.
- HTTP, controllers, RPC transport, Telegram, Prisma queries, keyrings: only as answers or failures of a step.
- SHA-256, Ed25519, program-derived addresses, transaction encoding, URL matching and zod parsing: arbitrary functions or already parsed values. Hex text around digests is not modelled; digests are 32 bytes.
- Postgres transaction timeouts: a locked body is taken to end before its transaction does.
- SpendProtocol.LifetimeCap: only vouchers recorded under the mandate settle its channels, and a channel is opened once; a channel id that is closed and opened again is not modelled.
- SpendProtocol.RollingWindow: the clock may jump between asks, but not back between the totals and the record of one locked body.
- ChannelVoucher.AskChannelVoucher: the owner request that follows an escalation or a flag is the subject of OwnerApprovals; the answer here is only the refusal.
- PayOperations.Decide: receipts and the signature over an answer are part of the answer's tag.
- OwnerApprovals.VerifiesIff: the text the wallet shows is taken as its terms; how the words of that text are put together is not modelled.
- OwnerApprovals: reusing a live pending request for the same subject (it changes nothing), the Telegram message id, and rows shown as rejected after their deadline.
- Gate.EvaluateGate: rule messages are left out; the values in a rule's details that the gate computes are kept, except a simulation's own report fields. Malformed context numbers, for which the code throws, are excluded by the types.
- Decision.ReplayIff: `failedRules`, `escalationRules`, `reason` and `request` of a record are not compared by the replay and are not modelled.
- MandateChain.VerifyMandateChain: without the `trustedKeys` option.
- Jcs: number printing beyond tokens that start with a digit or a minus sign; UTF-8 encoding of the final text.
- PaymentOutcome.FindPaymentOutcome: an RPC call that throws makes the lookup throw, which claims nothing.
- Anchoring.StampedReceiptsVerify: stored receipts have distinct ids, as the database key demands; the selection and sorting of pending receipts, batch rows for failed anchors and the salts' randomness are inputs.
- Refund: lamport balances, rent and the treasury share; the channel program itself is not in the repository, so its transitions follow the comments beside the planner.
- Treasury payouts, roles, webhooks, payment history, money formatting, CLI, UI and site: easy or finite members outside this path.
