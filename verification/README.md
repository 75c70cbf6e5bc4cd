# A verified model of the QA kit's core algorithms and ledgers

This project models the parts of the QA kit in which a mistake would be hard to see from one
function alone, and proves what they are for. It holds one Dafny module for each component:

- **Clustering** groups findings by an in-place union-find with path compression and no ranks. The
  clusters are the connected components of the same-risk pairs whose score reaches the threshold.
- **Shrinking** is the greedy minimiser of JSON counterexamples. Its candidates shrink under one
  measure, and a complete result is locally minimal at every nesting level. **ShrinkingBytes** relates
  its byte limit to the printed text and says which inputs can run into it. **ShrinkingTurns** and
  **ShrinkingOrder** say what is tried in which order, and that the order of an object's keys does not
  matter.
- **JsonPrinter** and **JsonReader** are the JSON printer and a reader by sections 2 to 7 of RFC 8259
  that is written without regard to the printer and reads back whatever it prints.
- **CanonicalJson**, **AuditChain** and **AuditCheckpoint** are the canonical printers of the verifier
  and of the writer, the hash chain, its writer and its verifier, and signed checkpoints. The canonical
  text is JSON of the same value and injective up to the order of keys, and a head hash determines the
  whole log.
- **Base32** and **Totp** are the secret's encoder, whose register wraps at 32 bits, its decoder, and
  the verification of time-based codes.
- **Commerce**, **CommerceReference**, **CommerceIntegrity**, **CommerceInvariant**,
  **CommerceDecisions**, **CommerceRuns**, **CommerceRetries**, **CommerceRefunds**,
  **CommerceResults**, **CommerceAcceptance** and **CommerceSamples** are the in-memory merchant: a
  state machine on values, the object that runs it in place, the repository's own integrity
  checkers, the invariant, when each operation succeeds and what it books, what holds over whole
  runs, what no run takes back, part refunds, the repository's validators of results, which results
  they accept, and runs that end where a caller might not expect.
- **WebhookLease** is the effect-once ledger with leases, as an object and as interleaved deliveries
  with crashes and a clock; **WebhookPromise** tells which late deliveries can break effect-once.
- **BudgetLedger**, **BudgetTracker**, **BudgetedCalls**, **BudgetedRuns**, **BudgetedLimits** and
  **BudgetedSamples** are the reservation ledger, the per-run tracker and the adapter, as objects and
  as interleaved calls split at every await, with what that means for late charges and for limits.
- **StateGraph** and **Journey** are the graph validator with its breadth-first search, the path
  evaluator, the journey compiler and the journey executor with all its exits.
- **Calibration** is the binning of judge samples with the Brier score and the calibration error.
- **ShellReplay** is the quoting of replay commands, read back by the shell's rules.
- **RateLimiter** is the sliding-window limiter; **TraceFederation** is the merge of trace sources.
- **Results**, **Strings**, **Sorting** and **Json** hold what several modules share.

Operations that the program runs in place are methods of classes or methods over arrays. Each is
proved against a function of the old state, and the long-run properties are proved of that function.
Money, time and scores are integers or reals; clocks, scores, digests and callbacks are parameters.

Assumptions. A hash function gives 64 characters and does not collide on the texts that are actually
hashed; nothing is assumed of other texts. A public key accepts what its private key signs.
Upper-casing leaves upper-case letters alone. The event schema accepts the records built from drafts
and leaves them as they are, but for a key `__proto__` of the payload itself, which it drops.

Where the code does less than its documentation or its shape suggests, the code is kept, and it is
proved exactly when it does what was expected; where it takes a run to see that it does not, one is
given:

- The writer rebuilds objects by assigning sorted keys, so JavaScript moves array-index keys to the
  front and drops the key `__proto__`, while the verifier sorts lexically. Their texts agree exactly
  on orderly documents (`CanonicalJson.WriterAgreesWithVerifier`), and so a written log verifies
  exactly when its payloads, as the event schema records them, are orderly
  (`AuditChain.WrittenLogVerifies`); the keys 9 and 10 are not (`AuditChain.IndexKeysBreakAgreement`).
- The shrinker checks every candidate against the byte limit, and a candidate can print longer than
  the value it came from, so a call on an accepted input can fail
  (`Shrinking.CandidateMayOutgrowByteLimit`, `ShrinkingBytes.SurrogatePairGrows`). It can exactly when
  the longest print that candidate steps can reach exceeds the limit
  (`ShrinkingBytes.NeverExceedsBytesIff`).
- Seeding a SKU again resets its committed quantity (`CommerceSamples.ReseedingForgetsOrders`) and can
  change the price under an open cart. The committed quantity stays right exactly when no order took
  the SKU (`CommerceInvariant.SeededStocks`); `CommerceInvariant.SeedKeepsInvariantIff` gives exactly
  the seedings that keep the whole invariant.
- A cancellation refunds the full amount, so with unused keys it succeeds exactly when nothing was
  refunded (`CommerceRuns.CancelsIffNothingRefunded`), and after a part refund it is refused for good
  (`CommerceRefunds.PartRefundRulesOutCancelling`, `CommerceSamples.PartRefundedSaleStays`).
- The merchant takes empty names of tenants, customers, SKUs and locations, which its validators of
  results refuse (`CommerceSamples.NamelessCheckoutIsRefused`). A success is accepted exactly when none
  is empty, which can be told before the call (`CommerceAcceptance.ReachableResultsAcceptedIff`).
- Scoped keys join tenant and name with a colon, so two tenants can share a key
  (`CommerceRuns.ScopedKeysCanCollide`), exactly when one's name with a colon begins the other's
  (`CommerceRuns.ScopedKeysCollideIff`). A customer can come to observe another's loyalty account
  exactly when there is a colon in the customer's tenant or name
  (`CommerceSamples.ObservedAccountIsOwnIff`).
- A delivery that finishes after its lease can break effect-once (`WebhookLease.LateRunAppliesTwice`).
  It can exactly when another's claim is in its way (`WebhookPromise.FinishIsSafeIffHarmless`).
- A halt of the budget tracker blocks for good, but its exhausted flag is recomputed by the next
  charge (`BudgetTracker.HaltedCanStopBeingExhausted`, `BudgetTracker.ExhaustedAfterLateChargeIff`).
- A settlement that arrives after the reaper is ignored, so charges can exceed what the ledger counts,
  by exactly those (`BudgetedSamples.LateSettlementIsLost`, `BudgetedCalls.ChargesAreConserved`,
  `BudgetedRuns.UncountedWereReaped`).
- Admission to a tracker looks at the money spent, not at calls in flight, so calls that overlap can
  pass its limit (`BudgetedSamples.OverlapOvershoots`). A run stays below it exactly when every
  admitted call fits beside the estimates in flight (`BudgetedLimits.StaysBelowIffAdmitsWhatFits`), and
  an admission makes passing possible exactly when the call does not
  (`BudgetedLimits.AdmissionIsSafeIffItFits`).
- Evicting a tenant from the limiter forgets its grants (`RateLimiter.EvictionForgets`). A set of
  tenants is limited in every run exactly when the map holds them all (`RateLimiter.LimitsAllIffRoom`).
- An abort noticed right after an ok step leaves that step recorded and the reached state behind it,
  and one that comes while the last observers run is not noticed (`Journey.LagsBehindOkStepIff`,
  `Journey.SucceedsIff`).

`dafny verify dfyconfig.toml` verifies the whole project.

## Model

| member | source | states |
|---|---|---|
| Clustering.Find | packages/clustering/src/cluster.ts:216-226 | returns the root of the node's class; compressing the path changes no class and the search ends, because every node is strictly deeper than its parent |
| Clustering.CompressedForest | packages/clustering/src/cluster.ts:220-224 | pointing a node straight at its root leaves a forest with the same classes |
| Clustering.Union | packages/clustering/src/cluster.ts:227-231 | merges exactly the two classes and leaves a forest, with no ranks kept at run time |
| Clustering.JoinedForest | packages/clustering/src/cluster.ts:227-231 | hanging one root under another leaves a forest whose classes are the merged ones |
| Clustering.MergeKeepsComponents | packages/clustering/src/cluster.ts:257-263 | recording one more link and merging its two classes keeps classes equal to the connected components of the links |
| Clustering.JoinSimilar | packages/clustering/src/cluster.ts:247-265 | the double loop stops exactly at a same-risk pair whose vectors differ in dimension; otherwise two findings have one root exactly when a chain of same-risk, above-threshold pairs joins them, and the recorded edges are exactly those pairs |
| Clustering.GroupByRoot | packages/clustering/src/cluster.ts:266-271 | each root met gets one bucket that lists its class in input order |
| Clustering.ClusterBySimilarity | packages/clustering/src/cluster.ts:206-296 | fails exactly on a bad threshold, more than 10000 findings, an empty or over-long vector, or two vectors of one risk that differ in dimension, in this order; else the clusters partition the findings into the connected components, each reports its ordered members, representative, worst severity, top priority, edges with scores rounded to six digits, and the fingerprint and root cause of its first finding, and the list is in order of urgency |
| Clustering.CheckVectors | packages/clustering/src/cluster.ts:237-245 | the check ahead of all comparisons passes exactly when every vector has between 1 and 4096 components |
| Clustering.EdgesExplainTheirCluster | packages/clustering/src/cluster.ts:290 | with unique ids, every edge a cluster reports is a link between two of its own members |
| Clustering.ClusterSeverity | packages/clustering/src/cluster.ts:80-86 | a cluster with a critical member is critical, else one with a high member is high, and so on down: its severity is a member's, and no member is worse |
| Clustering.UrgentFirst | packages/clustering/src/cluster.ts:293-295 | worse clusters come first, and of equally bad ones those of higher priority |
| Shrinking.RemovalChunks | packages/methodology/src/shrinking.ts:157-163 | yields the whole array, then halves, down to single elements |
| Shrinking.MeasureDepth | packages/methodology/src/shrinking.ts:103-122 | the worklist computes the recursive nesting depth |
| Shrinking.CandidatesShrink | packages/methodology/src/shrinking.ts:124-155 | every candidate is strictly smaller under one measure and never deeper |
| Shrinking.DepthCutHidesNothing | packages/methodology/src/shrinking.ts:136-153 | for a value within the depth limit the generator yields what any larger limit would yield |
| Shrinking.EveryDeletionIsCandidate | packages/methodology/src/shrinking.ts:133-154 | deleting any one element or key at any nesting level is among the candidates |
| ShrinkingTurns.NumberCandidates | packages/methodology/src/shrinking.ts:128-130 | a number other than zero gives zero and then the integer next to its half towards zero |
| ShrinkingTurns.TextCandidates | packages/methodology/src/shrinking.ts:125-127 | a string that is not empty gives the empty string and, if it is longer than one code unit, its first half rounded up |
| ShrinkingTurns.OtherCandidates | packages/methodology/src/shrinking.ts:131-132 | true gives false, and false, null, zero and the empty string give nothing |
| ShrinkingTurns.ChunksAre | packages/methodology/src/shrinking.ts:157-163 | a block is tried exactly if its length is the array's halved some times and it starts at a multiple of that and fits |
| ShrinkingTurns.ChunksInTurn | packages/methodology/src/shrinking.ts:157-163 | longer blocks come before shorter ones, and of one length those further to the front |
| ShrinkingTurns.DeletionsComeFirst | packages/methodology/src/shrinking.ts:133-154 | every candidate that loses an element or a key comes before every candidate that edits one |
| ShrinkingTurns.EditsInTurn | packages/methodology/src/shrinking.ts:138-153 | edits go child by child, in the order of the positions, and within a child in the order of its own candidates |
| ShrinkingOrder.ChildrenInTurn | packages/methodology/src/shrinking.ts:138-144 | the keys of an object are tried in their lexical order, the items of an array from front to back, each once |
| ShrinkingOrder.CandidatesAreSame | packages/methodology/src/shrinking.ts:124-155 | two values that are the same JSON up to the order of keys have as many candidates, and each is the same JSON as its counterpart |
| ShrinkingOrder.KeyOrderDoesNotMatter | packages/methodology/src/shrinking.ts:44-77 | with a predicate and a size that do not see the order of keys, two inputs that are the same JSON shrink to the same JSON with the same attempts, reductions and flag, or fail alike |
| ShrinkingOrder.PrintingIsBlind | packages/methodology/src/shrinking.ts:95-98 | the printed size never sees the order of keys, so only the predicate can |
| Shrinking.AssertJsonBoundary | packages/methodology/src/shrinking.ts:95-101 | names the byte limit first, then the depth limit |
| Shrinking.ShrinkJsonCounterexample | packages/methodology/src/shrinking.ts:44-77 | the greedy loop with both budgets computes the recursive specification, whose termination rests on the measure alone |
| Shrinking.ShrinkFromFacts | packages/methodology/src/shrinking.ts:55-76 | from any point of the loop: budgets are kept, the complete flag is exact, each reduction costs at least one unit of size, and a complete result has no failing candidate |
| Shrinking.FirstFailingIsKept | packages/methodology/src/shrinking.ts:55-76 | of the candidates in their order the loop goes on with the first that fails, ends on one that is too large before that, and with neither keeps the value, having tried them all |
| Shrinking.ResultIsAReduction | packages/methodology/src/shrinking.ts:44-77 | the result is the input or still fails, is not deeper, and needed at most as many reductions as the size it lost |
| Shrinking.CompleteIsLocallyMinimal | packages/methodology/src/shrinking.ts:71-76 | a complete result has no failing candidate, so no single element or key, however deep, can be dropped |
| Shrinking.OnlyAttemptsCutShort | packages/methodology/src/shrinking.ts:55-75 | with more reductions allowed than the input's size, a run is incomplete exactly when the attempts ran out |
| Shrinking.CandidateMayOutgrowByteLimit | packages/methodology/src/shrinking.ts:60 | a candidate can print longer than its parent: true within four bytes makes the whole call fail on false |
| ShrinkingBytes.PrintedIsLength | packages/methodology/src/shrinking.ts:95-98 | the bytes of the printed text are the sum of scalars, quoted keys, brackets, commas and colons |
| ShrinkingBytes.PeakFalls | packages/methodology/src/shrinking.ts:124-155 | no candidate can reach a longer print than the value it comes from |
| ShrinkingBytes.SomeCandidateKeepsPeak | packages/methodology/src/shrinking.ts:124-155 | a value that prints shorter than the longest print it can reach has a candidate that can still reach it |
| ShrinkingBytes.NeverExceedsBytesIff | packages/methodology/src/shrinking.ts:44-77 | no predicate and no budgets make a call fail on the bytes exactly when the longest print that candidate steps can reach, computed from the input alone, fits the limit |
| ShrinkingBytes.ShortPeakNeverFails | packages/methodology/src/shrinking.ts:44-77 | under any options, defaults included, a call whose longest reachable print fits never fails on the bytes |
| ShrinkingBytes.LongPeakFails | packages/methodology/src/shrinking.ts:44-77 | if it does not fit, one predicate makes the call fail under all budgets from some point on |
| ShrinkingBytes.TrueGrows | packages/methodology/src/shrinking.ts:131-132 | true prints in four bytes and can reach five |
| ShrinkingBytes.SurrogatePairGrows | packages/methodology/src/shrinking.ts:125-127 | a surrogate pair prints in six bytes and its first half, which is escaped, in eight |
| JsonReader.QuoteReadsBack | packages/compliance/src/audit-canonical.ts:9 | a reader of strings by section 7 of RFC 8259, which knows nothing of the printer, reads every quoted string back, with control characters, quotes, backslashes and lone surrogates |
| JsonReader.EscapeIsShortest | packages/compliance/src/audit-canonical.ts:9 | no escape that reads as the same code unit is shorter than the printer's, and another of its length only differs in the case of hexadecimal digits, so JSON.stringify's choice of escapes is pinned |
| JsonReader.ValueReadsBack | packages/compliance/src/audit-canonical.ts:3-10 | a reader of whole documents reads back what the printer prints, at every nesting and whatever follows |
| JsonReader.PrintParses | packages/compliance/src/audit-canonical.ts:2-10 | the printed text parses as exactly the value that was printed, so it determines the value |
| Json.TextLeqIff | packages/compliance/src/audit-canonical.ts:5-7 | the order of keys is that of the first code unit in which they differ, a front part first |
| CanonicalJson.CanonicalPrintsSorted | packages/compliance/src/audit-canonical.ts:2-10 | the canonical printer prints the value with the keys of every object sorted |
| CanonicalJson.CanonicalParses | packages/compliance/src/audit-canonical.ts:2-10 | parsing the canonical text gives the same JSON as the value, with the keys of every object in order |
| CanonicalJson.CanonicalIsInjective | packages/compliance/src/audit-canonical.ts:2-10 | two values have one canonical text exactly when they are the same JSON up to the order of keys at every level |
| CanonicalJson.WriterAgreesWithVerifier | packages/runner/src/events.ts:8-20 | the event writer's text equals the verifier's exactly when no object has the key __proto__ or two keys, one an array index, that lexical order and property order arrange differently |
| AuditChain.VerifyEventChain | packages/compliance/src/audit-verify.ts:44-73 | accepts exactly the valid chains; otherwise names the first bad record and tells a wrong back reference from a wrong hash |
| AuditChain.ValidateRun | packages/compliance/src/audit-checkpoint.ts:48-61 | accepts exactly the non-empty logs of one run with contiguous positions and a valid chain |
| AuditChain.EqualHashStepsBack | packages/compliance/src/audit-verify.ts:40-43 | equal hashes of two records give equal contents, equal positions and equal hashes before them |
| AuditChain.HeadHashDeterminesLog | packages/compliance/src/audit-checkpoint.ts:48-61 | two validated logs with the same head hash are the same log, length included |
| AuditChain.EventChainWriter.constructor | packages/runner/src/events.ts:48-62 | starts at position 0 with the zero hash and no events |
| AuditChain.EventChainWriter.Append | packages/runner/src/events.ts:65-101 | adds exactly one record for the draft, linked to the hash before it, and keeps the log equal to the one its drafts determine |
| AuditChain.RecordIsOrderlyIffPayloadIs | packages/runner/src/events.ts:66-79 | only the payload can bring in keys on which the writer and the verifier differ |
| AuditChain.WrittenLogVerifies | packages/runner/src/events.ts:65-101 | a log built by any appends passes verification exactly when every payload, as the event schema records it, is orderly, and its head is the writer's hash |
| AuditChain.DraftFields | packages/runner/src/events.ts:66-79 | each part of a draft stands in its record under its own name, with the position and the run |
| AuditChain.DraftOptions | packages/runner/src/events.ts:66-79 | scenario and finding stand there exactly if the draft has them |
| AuditChain.ActorFields | packages/runner/src/events.ts:66-79 | kind, id and model of the actor stand under their own names |
| AuditChain.WrittenLogIsRun | packages/runner/src/events.ts:65-101 | a written log is a valid run exactly when it is not empty, all drafts name the one run and all recorded payloads are orderly; positions come out right by themselves |
| CanonicalJson.ProtoIsNotWritten | packages/runner/src/events.ts:8-20 | a key __proto__ of an object itself makes no difference to the writer's text of it |
| AuditChain.IndexKeysBreakAgreement | packages/runner/src/events.ts:10-16 | a payload with the keys 9 and 10 is one that breaks the agreement |
| AuditCheckpoint.EventDigest | packages/compliance/src/audit-checkpoint.ts:43-46 | the digest of the canonical lines of all records |
| AuditCheckpoint.LinesDetermineRecords | packages/compliance/src/audit-checkpoint.ts:43-46 | the digested text determines how many records there are and each of them, link and hash included |
| AuditCheckpoint.CreateAuditCheckpoint | packages/compliance/src/audit-checkpoint.ts:63-91 | refuses exactly logs that are not valid and blank key ids; else it describes the log and, for a signer, carries the trimmed key id and the signature of the canonical text of everything but the signature |
| AuditCheckpoint.VerifyAuditCheckpoint | packages/compliance/src/audit-checkpoint.ts:93-130 | accepts exactly the checkpoints that describe the log and whose signature, if there is one, is Ed25519 and verifies under a given key; it looks at the signature only when all else is right |
| AuditCheckpoint.CreatedIsAccepted | packages/compliance/src/audit-checkpoint.ts:63-130 | what was created verifies: unsigned with any key or none, signed with the signer's public key |
| AuditCheckpoint.CheckpointDeterminesLog | packages/compliance/src/audit-checkpoint.ts:93-130 | a checkpoint describes one log only |
| AuditCheckpoint.PayloadDetermines | packages/compliance/src/audit-checkpoint.ts:39-41 | the signed text determines run, head hash, digest and time |
| AuditCheckpoint.SignatureDeterminesCheckpointAndLog | packages/compliance/src/audit-checkpoint.ts:110-121 | a signature that is accepted on two checkpoints belongs to one checkpoint of one log, if it does not verify two different texts |
| Base32.EncodeBase32 | packages/auth/src/mfa-lifecycle.ts:152-167 | although the register is never masked and wraps at 32 bits, the letters write the bytes' bit string padded with zeros to groups of five (section 6 of RFC 4648) |
| Base32.ShiftIn | packages/auth/src/mfa-lifecycle.ts:157-159 | what the wrap-around of a shift drops lies above the pending bits |
| Base32.DecodeBase32 | packages/auth/src/mfa.ts:70-88 | skips blanks, equal signs and dashes, refuses bad, over-long and too short secrets, and else returns the whole bytes of the bit string |
| Base32.DecodeUndoesEncode | packages/auth/src/mfa.ts:70-88 | decoding an encoding gives the bytes back |
| Base32.RoundTrip | packages/auth/src/mfa.ts:72-87 | the round trip succeeds exactly for 10 to 80 bytes |
| Totp.MessageIsCounter | packages/auth/src/mfa.ts:57-58 | the digested message writes the step as an unsigned 64-bit number in eight bytes |
| Totp.TruncatesToBits | packages/auth/src/mfa.ts:60-66 | truncation takes the 31 low bits of the four bytes at the offset that the last four bits of the digest name (section 5.3 of RFC 4226) |
| Totp.PublishedExample | packages/auth/src/mfa.ts:60-66 | the example of section 5.4 of RFC 4226 comes out as published |
| Totp.GeneratedCode | packages/auth/src/mfa.ts:56-68 | the code has the asked-for digits and writes the truncated digest modulo their power of ten, leading zeros included |
| Totp.SearchWindow | packages/auth/src/mfa.ts:46-53 | finds the code exactly when a step of the window, not before the epoch, generates it |
| Totp.VerifyTotp | packages/auth/src/mfa.ts:33-54 | each bad option gives its error, a malformed code is refused before the secret is read, and else the answer is whether the code lies in the window |
| Commerce.SeedProduct | packages/commerce/src/index.ts:1714-1730 | a failed seeding changes nothing |
| Commerce.AddLine | packages/commerce/src/index.ts:1746-1782 | a failed call changes nothing |
| Commerce.Checkout | packages/commerce/src/index.ts:1784-1921 | a failed call changes nothing |
| Commerce.RefundOrder | packages/commerce/src/index.ts:1937-1986 | a failed call changes nothing |
| Commerce.Cancel | packages/commerce/src/index.ts:1988-2026 | a failed call changes nothing |
| CommerceReference.InMemoryCommerceReference.constructor | packages/commerce/src/index.ts:1681-1712 | starts empty |
| CommerceReference.InMemoryCommerceReference.DoSeedProduct | packages/commerce/src/index.ts:1714-1730 | the maps afterwards and the answer are those of the specification |
| CommerceReference.InMemoryCommerceReference.DoCreateCart | packages/commerce/src/index.ts:1732-1744 | the maps afterwards and the cart are those of the specification |
| CommerceReference.InMemoryCommerceReference.DoAddLine | packages/commerce/src/index.ts:1746-1782 | the maps afterwards and the answer are those of the specification |
| CommerceReference.InMemoryCommerceReference.DoCheckout | packages/commerce/src/index.ts:1784-1921 | the maps afterwards and the answer are those of the specification, on every path |
| CommerceReference.InMemoryCommerceReference.CommitStock | packages/commerce/src/index.ts:1839-1849 | commits every line to its stock record in order and returns each record as it stood right then |
| CommerceReference.InMemoryCommerceReference.EarnLoyalty | packages/commerce/src/index.ts:1852-1887 | opens the account if need be and books one earning for the order |
| CommerceReference.InMemoryCommerceReference.DoRefund | packages/commerce/src/index.ts:1937-1986 | the maps afterwards and the answer are those of the specification, on every path |
| CommerceReference.InMemoryCommerceReference.DoCancel | packages/commerce/src/index.ts:1988-2026 | the maps afterwards and the answer are those of the specification, on every path |
| CommerceReference.InMemoryCommerceReference.DoObserveSettlement | packages/commerce/src/index.ts:2034-2064 | filters the order's refunds and sums them as the specification says |
| CommerceReference.CheckStock | packages/commerce/src/index.ts:1802-1806 | names the first line that the stock cannot serve |
| CommerceInvariant.SeedKeepsInvariantIff | packages/commerce/src/index.ts:1714-1730 | seeding keeps the invariant exactly when the price is positive, no order took the SKU, and open cart lines of it already have the price |
| CommerceInvariant.SeededStocks | packages/commerce/src/index.ts:1714-1730 | of that, committed stays the quantity over all orders exactly when no order took the SKU |
| CommerceSamples.PartRefundedSaleStays | packages/commerce/src/index.ts:1988-2026 | after two of five are refunded the sale cannot be cancelled, whatever happens next |
| CommerceSamples.ReseedingForgetsOrders | packages/commerce/src/index.ts:1714-1730 | a SKU that is sold and seeded again has nothing committed although a piece was ordered |
| CommerceInvariant.CreateCartKeeps | packages/commerce/src/index.ts:1732-1744 | keeps the invariant of all tables |
| CommerceInvariant.AddLineKeeps | packages/commerce/src/index.ts:1746-1782 | keeps it; a cart never holds two lines of one SKU and its line totals stay price times quantity |
| CommerceInvariant.CommitLinesEffect | packages/commerce/src/index.ts:1839-1849 | committing lines raises the committed quantity of each SKU by what the lines take of it and changes only that and revisions |
| CommerceInvariant.NoneShort | packages/commerce/src/index.ts:1802-1806 | the stock check passes exactly when every line is served by what is free |
| CommerceInvariant.CheckoutKeepsStocks | packages/commerce/src/index.ts:1802-1851 | committed stays the quantity over all orders and never exceeds what is there |
| CommerceInvariant.CheckoutKeepsOrders | packages/commerce/src/index.ts:1815-1851 | orders, payments and refunds stay consistent |
| CommerceInvariant.CheckoutKeepsEntries | packages/commerce/src/index.ts:1888-1890 | idempotency keys, checked-out carts and orders stay in one-to-one correspondence |
| CommerceInvariant.CheckoutKeepsLoyalty | packages/commerce/src/index.ts:1852-1887 | every account keeps reconciling with its transactions |
| CommerceInvariant.CheckoutKeeps | packages/commerce/src/index.ts:1784-1921 | keeps the invariant of all tables |
| CommerceInvariant.RefundKeeps | packages/commerce/src/index.ts:1937-1986 | keeps it; refunds of an order sum to the payment's refunded amount, never above what was captured, and its status follows |
| CommerceInvariant.RefundResultIsCurrent | packages/commerce/src/index.ts:1937-1986 | fresh or repeated, a refund's result names the order as it stands, and for the full amount the payment too |
| CommerceInvariant.CancelKeeps | packages/commerce/src/index.ts:1988-2026 | keeps the invariant of all tables, also when the refund inside it is a repeated one |
| CommerceDecisions.SeedSucceedsIff | packages/commerce/src/index.ts:1714-1730 | seeding succeeds exactly with a safe quantity that is not negative, a currency of three capitals and no negative price, and then stocks this product and no other |
| CommerceDecisions.CreateCartBooks | packages/commerce/src/index.ts:1732-1744 | a new cart is the caller's own, empty and open, and takes no other's place |
| CommerceDecisions.AddLineSucceedsIff | packages/commerce/src/index.ts:1746-1752 | a line is added exactly to the caller's own open cart, of a seeded SKU, in a positive safe quantity |
| CommerceDecisions.AddLineBooks | packages/commerce/src/index.ts:1753-1781 | then the SKU's line is raised, or made at the end, to the summed quantity at the price, and nothing else changes |
| CommerceDecisions.CheckoutSucceedsIff | packages/commerce/src/index.ts:1784-1809 | with an unused key a checkout succeeds exactly on the caller's own open cart with lines in one currency that what all orders leave serves; with a used one exactly when it repeats that checkout |
| CommerceDecisions.CheckoutBooks | packages/commerce/src/index.ts:1810-1920 | then the order holds the cart's lines for their total and is captured in full, the account earns its points in one transaction, the cart is checked out, and each stock record shown is the one in the state after |
| CommerceDecisions.RefundSucceedsIff | packages/commerce/src/index.ts:1937-1959 | with an unused key a refund succeeds exactly on the caller's own order, in its currency, for a positive amount that with all earlier refunds of the order is at most its total; with a used one exactly when it repeats that refund |
| CommerceDecisions.RefundBooks | packages/commerce/src/index.ts:1960-1985 | then one refund of the amount is booked on the order and its payment, whose statuses say whether all is refunded, and nothing else changes |
| CommerceDecisions.CancelSucceedsIff | packages/commerce/src/index.ts:1988-2005 | with unused keys a cancellation succeeds exactly on the caller's own order of which nothing was refunded |
| CommerceDecisions.UsedCancelSucceedsIff | packages/commerce/src/index.ts:1997-2004 | a used key repeats exactly its own cancellation |
| CommerceDecisions.CancelBooks | packages/commerce/src/index.ts:2005-2025 | then the order is cancelled and refunded in full by one refund that the cancellation names |
| CommerceDecisions.SettlementShows | packages/commerce/src/index.ts:2034-2064 | just the owner observes a settlement: the order's payment, all its own refunds and no other, and what they leave of its total |
| CommerceDecisions.AddRefusalIsTrue | packages/commerce/src/index.ts:1746-1752 | what the error of an addition says is the case |
| CommerceDecisions.CheckoutRefusalIsTrue | packages/commerce/src/index.ts:1784-1809 | what the error of a checkout says is the case; a short SKU is that of the first line that what all orders leave does not serve |
| CommerceDecisions.RefundRefusalIsTrue | packages/commerce/src/index.ts:1937-1959 | what the error of a refund says is the case |
| CommerceDecisions.CancelRefusalIsTrue | packages/commerce/src/index.ts:1988-2025 | what the error of a cancellation says is the case |
| CommerceRuns.RunKeeps | packages/commerce/src/index.ts:1681-2064 | the invariant holds after every run whose seedings keep it |
| CommerceRuns.ReachableStatesAreOk | packages/commerce/src/index.ts:1714-2064 | from the empty merchant, seeding each SKU once at a positive price suffices for every run |
| CommerceRuns.CommittedIsOrdered | packages/commerce/src/index.ts:1839-1849 | over every such run, the committed quantity of a SKU is the total over all orders and never more than on hand |
| CommerceRetries.EveryRunKeepsTables | packages/commerce/src/index.ts:1681-2064 | whatever is seeded and sold, after every run ids equal their keys, orders and payments pair up, entries and checked-out carts correspond, and stored refund results name orders as sold |
| CommerceRetries.RunIsLater | packages/commerce/src/index.ts:1784-2026 | after any run, no further run takes back an idempotency entry, a checked-out cart, an order's sale, a payment's amount or a refunded amount |
| CommerceRetries.CheckoutRetries | packages/commerce/src/index.ts:1793-1799 | a checkout that succeeded after any run gives the identical result and changes nothing when retried after any further run |
| CommerceRetries.RefundRetries | packages/commerce/src/index.ts:1948-1955 | a refund that succeeded after any run gives the identical result and changes nothing when retried after any further run |
| CommerceRetries.CancelRetries | packages/commerce/src/index.ts:1997-2004 | a cancellation that succeeded after any run gives the identical result and changes nothing when retried after any further run |
| CommerceRetries.OneOrderPerCart | packages/commerce/src/index.ts:1784-1921 | after any run, whoever checks a cart out whenever and with whatever keys, all successes give one and the same result |
| CommerceRuns.CancelRefundsInFull | packages/commerce/src/index.ts:2005-2025 | a cancellation leaves the order cancelled and the whole payment refunded |
| CommerceRuns.CancelsIffNothingRefunded | packages/commerce/src/index.ts:2005 | with unused keys an order can be cancelled exactly when nothing of it was refunded |
| CommerceRefunds.EveryRunKeepsBooked | packages/commerce/src/index.ts:1937-2026 | after every run a payment shows at least as much refunded as any of its refunds, and all of it once its order was cancelled |
| CommerceRefunds.PartRefundRulesOutCancelling | packages/commerce/src/index.ts:1988-2026 | once part of a payment is refunded, no cancellation of its order ever succeeds, by anyone, with any key, whatever happens next |
| CommerceRuns.CartCheckerAcceptsIff | packages/commerce/src/index.ts:2340-2356 | the cart checker accepts a reachable cart exactly when it is empty or in one currency |
| CommerceRuns.OrderCheckerAccepts | packages/commerce/src/index.ts:2358-2381 | the order checker accepts every reachable order |
| CommerceRuns.PaymentCheckerAccepts | packages/commerce/src/index.ts:2383-2404 | the payment checker accepts every reachable payment |
| CommerceRuns.StockCheckerAccepts | packages/commerce/src/index.ts:2406-2411 | the inventory checker accepts every reachable stock record |
| CommerceRuns.SettlementCheckerAccepts | packages/commerce/src/index.ts:480-539 | the settlement checker accepts what the owner observes of every reachable order |
| CommerceRuns.AccountsAlwaysReconcile | packages/commerce/src/index.ts:1852-1887 | after every run each account is the sum of its transactions |
| CommerceRuns.LoyaltyCheckerAcceptsIff | packages/commerce/src/index.ts:554-578 | after every run the loyalty checker accepts an observed account exactly when its owner's names are not empty |
| CommerceRuns.ScopedKeysCollideIff | packages/commerce/src/index.ts:1793 | two tenants have a scoped key in common exactly when one's name with a colon appended begins the other's |
| CommerceRuns.ScopedKeysCanCollide | packages/commerce/src/index.ts:1852 | with a colon in a tenant's name two customers can share one loyalty account's key |
| CommerceSamples.ObservesIffSameKey | packages/commerce/src/index.ts:2270-2275 | in some run a customer observes an account that another one owns exactly when tenant and name of both make one key |
| CommerceSamples.ObservedAccountIsOwnIff | packages/commerce/src/index.ts:2270-2275 | a customer observes no account but the own one in any run exactly when there is no colon in tenant and name |
| CommerceIntegrity.AssertSettlementIntegrity | packages/commerce/src/index.ts:480-539 | the loops accept exactly the totals that reconcile |
| CommerceIntegrity.AssertLoyaltyLedgerIntegrity | packages/commerce/src/index.ts:554-578 | the loop accepts exactly the ledgers without foreign, repeated or wrong-signed transactions whose balance never goes below zero and ends at the account's |
| CommerceInvariant.AddLineAddsQuantity | packages/commerce/src/index.ts:1753-1779 | adding a line raises the quantity of its SKU in the cart by just that much, and of no other |
| CommerceInvariant.PointsForSubtotal | packages/commerce/src/index.ts:1861-1869 | a point for every full hundred of the subtotal, at least one, at most a safe integer |
| CommerceResults.CheckoutsStaySound | packages/commerce/src/index.ts:2413-2424 | every checkout result, fresh or repeated, passes all of its validator but the rules that names are not empty |
| CommerceResults.RefundsStaySound | packages/commerce/src/index.ts:2426-2442 | every refund result, fresh or repeated, is for the order asked for and passes all of its validator but the rules on names |
| CommerceResults.CancellationsStaySound | packages/commerce/src/index.ts:2444-2461 | every cancellation result, fresh or repeated, passes all of its validator but the rules on names |
| CommerceAcceptance.CheckoutAcceptedIff | packages/commerce/src/index.ts:2413-2424 | a checkout's result, fresh or repeated, is accepted exactly when the caller, the SKUs of the stored cart and the locations of their stock have names |
| CommerceAcceptance.RefundAcceptedIff | packages/commerce/src/index.ts:2426-2442 | a refund's result is accepted exactly when the caller and the SKUs of the stored order have names |
| CommerceAcceptance.CancellationAcceptedIff | packages/commerce/src/index.ts:2444-2461 | a cancellation's result is accepted exactly when the caller and the SKUs of the stored order have names |
| CommerceAcceptance.ReachableResultsAcceptedIff | packages/commerce/src/index.ts:2413-2461 | all three hold after every run that seeds each SKU once, so acceptance can be told before the call |
| CommerceSamples.NamelessCheckoutIsRefused | packages/commerce/src/index.ts:2413-2418 | the checkout of a product without a name by a customer without a name succeeds, and its validator refuses the result |
| WebhookLease.InMemoryWebhookEffectLedger.TryClaim | packages/commerce/src/webhook-ledger.ts:37-54 | grants a free key, or one whose own event's open lease has run out, and else tells a duplicate from a conflict; only a grant changes the claims |
| WebhookLease.InMemoryWebhookEffectLedger.Complete | packages/commerce/src/webhook-ledger.ts:56-59 | completes the claim of this event only |
| WebhookLease.InMemoryWebhookEffectLedger.Release | packages/commerce/src/webhook-ledger.ts:61-64 | removes an open claim of this event only |
| WebhookLease.CompletedForGood | packages/commerce/src/webhook-ledger.ts:37-64 | once completed, a key stays so and cannot be claimed, whatever is called in whatever order |
| WebhookLease.StepKeeps | packages/commerce/src/webhook-ledger.ts:149-167 | a step of interleaved deliveries, crashes and the clock keeps the invariant exactly when it is no finish or a harmless one; timely ones are harmless |
| WebhookLease.FinishKeepsIffHarmless | packages/commerce/src/webhook-ledger.ts:158-165 | a completion or release, on time or late, keeps the invariant exactly when no other live delivery's claim is in its way |
| WebhookLease.RunKeepsIffHarmless | packages/commerce/src/webhook-ledger.ts:149-167 | a run keeps the invariant of the interleavings throughout exactly when every completion and release in it is harmless |
| WebhookPromise.FinishIsSafeIffHarmless | packages/commerce/src/webhook-ledger.ts:158-165 | after any harmless run, a completion or release, on time or late, is harmless exactly when no harmless continuation ever breaks effect-once |
| WebhookPromise.RunIsSafeIffHarmless | packages/commerce/src/webhook-ledger.ts:149-167 | at no point of a run can a harmless continuation break effect-once exactly when every completion and release in the run is harmless |
| WebhookPromise.TakenKeyIsTold | packages/commerce/src/webhook-ledger.ts:40-51 | after any harmless run, while a key is held or once it is applied, its own event is told of a duplicate and any other of a conflict |
| WebhookPromise.OvertakenIffNotHeld | packages/commerce/src/webhook-ledger.ts:44-50 | a delivery whose claim still stands can be overtaken by its own event exactly when its lease has run out |
| WebhookPromise.ReleasedKeyIsFree | packages/commerce/src/webhook-ledger.ts:61-64 | a delivery that gives up in time leaves its key to any event |
| WebhookLease.TimelyRunIsHarmless | packages/commerce/src/webhook-ledger.ts:149-167 | a run in which every delivery finishes within its lease is harmless |
| WebhookLease.EffectsAreAppliedOnce | packages/commerce/src/webhook-ledger.ts:149-167 | over every harmless run no two deliveries hold one key, at most one has applied it, and then nobody can claim it again |
| WebhookLease.AppliedIffCompleted | packages/commerce/src/webhook-ledger.ts:149-167 | over every harmless run a key has been applied exactly when its claim is completed |
| WebhookLease.LateRunAppliesTwice | packages/commerce/src/webhook-ledger.ts:44-51 | a delivery that overruns its lease and completes late lets the effect be applied twice |
| BudgetLedger.Reserve | packages/cost/src/ledger.ts:48-70 | a refused reservation changes nothing |
| BudgetLedger.ReserveSucceedsIff | packages/cost/src/ledger.ts:48-70 | a reservation is granted exactly for a valid key that is not halted, an estimate that is not negative, a lasting time, the limit the key has had, and if spend, open estimates and this one stay below it; it is then recorded as the next |
| BudgetLedger.ClampNeverFires | packages/cost/src/ledger.ts:77 | the clamp at zero never changes what a settlement subtracts |
| BudgetLedger.SettleStaysBelowIff | packages/cost/src/ledger.ts:72-83 | a settlement keeps its key below the limit exactly when the overrun of its estimate still fits |
| BudgetLedger.SettleSucceedsIff | packages/cost/src/ledger.ts:72-83 | an amount can be settled exactly if it is not negative and an open reservation's key has a budget; it changes that reservation and no other, and nothing if there is no open one |
| BudgetLedger.ReapClosesExpired | packages/cost/src/ledger.ts:95-104 | the reaper closes for nothing exactly the open reservations whose time has come, leaves every other one, and changes no spend, limit or halt |
| BudgetLedger.BooksAlwaysBalance | packages/cost/src/ledger.ts:48-104 | after any calls, reserved is the sum of open estimates and spent the sum of settled amounts; with no overruns every limited key stays below its limit |
| BudgetLedger.SettledForGood | packages/cost/src/ledger.ts:72-83 | a settled reservation keeps its amount, a key its limit and a halt its effect through any later calls |
| BudgetLedger.MemoryBudgetLedger.DoReserve | packages/cost/src/ledger.ts:48-70 | the ledger afterwards and the answer are those of the specification |
| BudgetLedger.MemoryBudgetLedger.DoSettle | packages/cost/src/ledger.ts:72-83 | the ledger afterwards and the answer are those of the specification |
| BudgetLedger.MemoryBudgetLedger.DoReapExpired | packages/cost/src/ledger.ts:95-104 | settles for nothing, and counts, exactly the open reservations that have expired, and leaves none |
| BudgetLedger.MemoryBudgetLedger.DoHalt | packages/cost/src/ledger.ts:85-88 | stores the trimmed, shortened reason, which is never empty |
| BudgetTracker.BudgetTracker.Charge | packages/cost/src/budget.ts:74-102 | the state afterwards is the charged one; an unpriced model exhausts the tracker |
| BudgetTracker.BudgetTracker.Halt | packages/cost/src/budget.ts:115-120 | sets the halt and the exhausted flag, or refuses a blank reason |
| BudgetTracker.BudgetTracker.AssertCanDispatch | packages/cost/src/budget.ts:108-112 | refuses an invalid call, any call once halted, an unpriced model, and a call that would reach the limit |
| BudgetTracker.BudgetTracker.WouldExhaust | packages/cost/src/budget.ts:128-135 | unpriced, or the cost would reach the limit |
| BudgetTracker.SpentIsCharged | packages/cost/src/budget.ts:92-99 | over every run the spend is the sum of the priced charges |
| BudgetTracker.TokensAreCounted | packages/cost/src/budget.ts:86-91 | over every run the calls and both token counts are those of the valid charges, priced or not |
| BudgetTracker.CostIsProportional | packages/cost/src/budget.ts:92-96 | a million tokens in cost the one price, a million out the other, and the rest in proportion |
| BudgetTracker.HaltIsPermanent | packages/cost/src/budget.ts:114-120 | once halted, no later charge or halt lets any call be dispatched |
| BudgetTracker.ExhaustedAfterLateChargeIff | packages/cost/src/budget.ts:92-101 | a charge after a halt leaves the exhausted flag set exactly when the model is unpriced or the limit is reached |
| BudgetTracker.HaltedCanStopBeingExhausted | packages/cost/src/budget.ts:92-101 | an instance: halted and then charged for nothing, the tracker no longer says exhausted |
| BudgetTracker.AdmittedRunStaysBelow | packages/cost/src/budget.ts:74-135 | calls made one at a time, each admitted and costing no more than its estimate, never reach the limit |
| BudgetedCalls.Call | packages/llm-adapters/src/budgeted.ts:58-135 | one call by itself, with a ledger or without, does to tracker and ledger what the specification says on every exit, and its outcome is told from the tracker and the ledger before it: refused exactly when not admissible or not grantable, failed by the provider or by a charge that is not well-formed and priced, past the limit exactly when old spend plus the answer's cost is at least the limit, completed exactly when it stays below; an answer is counted exactly in the last two |
| BudgetedCalls.UnreservedGets | packages/llm-adapters/src/budgeted.ts:64-135 | without a ledger, which of the outcomes a call has and what is counted, from prices, limit and spend alone |
| BudgetedCalls.AloneGets | packages/llm-adapters/src/budgeted.ts:64-135 | the same with a ledger, which adds when the reservation is granted and that the cost settled is not negative |
| BudgetedCalls.AloneBooks | packages/llm-adapters/src/budgeted.ts:64-107 | such a call leaves in the ledger nothing when refused; else its key has the answer's cost more spent, or nothing when the provider failed, and nothing more reserved, but its estimate while an answer cannot be charged; no other key and no halt changes |
| BudgetedCalls.LedgerOnlyRefuses | packages/llm-adapters/src/budgeted.ts:64-112 | a call that its ledger does not refuse does to the tracker, and gives, what it would without a ledger |
| BudgetedCalls.LoneCallIsARun | packages/llm-adapters/src/budgeted.ts:58-135 | a lone call is one of the interleaved machine's runs |
| BudgetedCalls.StepKeeps | packages/llm-adapters/src/budgeted.ts:58-135 | every step of interleaved calls, reapers and halts keeps trackers, ledger and calls in agreement |
| BudgetedCalls.ChargesAreConserved | packages/llm-adapters/src/budgeted.ts:58-112 | over every interleaving a key's charges are its ledger spend plus those still owed or settled after reaping, and each tracker's spend is its calls' charges |
| BudgetedRuns.UncountedWereReaped | packages/cost/src/ledger.ts:72-104 | a settlement is ignored only if at an earlier turn the reaper found its reservation open and expired and closed it for nothing |
| BudgetedRuns.WhoSettles | packages/cost/src/ledger.ts:72-104 | a reservation is settled by its own call or by a turn of the reaper that finds it expired, by nothing else |
| BudgetedCalls.ChargesStayBelowLimit | packages/llm-adapters/src/budgeted.ts:58-112 | when answers cost at most their estimates a key's spent plus reserved stays below its limit, and so do its charges once all are counted |
| BudgetedLimits.StepCommits | packages/llm-adapters/src/budgeted.ts:58-112 | of all steps only an admission raises a tracker's spend plus its estimates in flight, and by its own estimate |
| BudgetedLimits.OvershootIsWhatOverlapped | packages/llm-adapters/src/budgeted.ts:58-112 | over every interleaving whose answers cost at most their estimates, a tracker's spend plus its estimates in flight stays below its limit plus what was in flight at one of its admissions |
| BudgetedLimits.StaysBelowIffAdmitsWhatFits | packages/llm-adapters/src/budgeted.ts:58-112 | over every such interleaving it stays below the limit at every point exactly when the limit is positive and every call that the tracker admits fits beside the estimates in flight |
| BudgetedLimits.LimitCanBeReachedIff | packages/llm-adapters/src/budgeted.ts:58-112 | after any run in which all calls in flight hold reservations, answers within their estimates can make the spend reach the limit exactly when spend plus estimates in flight do |
| BudgetedLimits.AdmissionIsSafeIffItFits | packages/cost/src/budget.ts:108-112 | once a call is admitted and reserved, such answers can make the spend reach the limit exactly when the call did not fit beside the estimates in flight, which can be told before the call |
| BudgetedSamples.OverlapOvershoots | packages/cost/src/budget.ts:108-112 | two calls of 0.6, the second admitted before the first is charged, carry a limit of 1 to 1.2 |
| BudgetedSamples.LateSettlementIsLost | packages/cost/src/ledger.ts:72-104 | a call that settles after the reaper is not counted: a key with a limit of 1 has spent 0.6 when its calls were charged 1.2 |
| StateGraph.Search | packages/methodology/src/state-graph.ts:87-96 | the breadth-first search lists, each once, exactly the states reachable from the start |
| StateGraph.ValidateStateGraph | packages/methodology/src/state-graph.ts:50-114 | accepts exactly the graphs without structural defect whose states are all reachable and whose only ends are terminal; else names the first defect, all unreachable states or all dead ends |
| StateGraph.NoDefectIff | packages/methodology/src/state-graph.ts:51-86 | there is no structural defect exactly when sizes, ids, texts, distinctness and endpoints are right and nothing leaves a terminal state |
| Strings.TrimCuts | packages/methodology/src/state-graph.ts:42-45 | trimming cuts off white space at both ends and nothing else |
| StateGraph.StateDefectIsFirst | packages/methodology/src/state-graph.ts:61-66 | a defect among the states is of the first state that is invalid or repeated, and says which |
| StateGraph.TransitionDefectIsFirst | packages/methodology/src/state-graph.ts:72-86 | a defect among the transitions is of the first unsound one, and what it says is wrong with it is |
| StateGraph.ComplaintIsTrue | packages/methodology/src/state-graph.ts:97-106 | the states listed as unreachable are all those that are, and those listed as dead ends, once all are reachable, all non-terminal ones that nothing leaves |
| StateGraph.EvaluateStatePath | packages/methodology/src/state-graph.ts:117-142 | validates the graph and the length, and else replays the path |
| StateGraph.ReplayIsAWalk | packages/methodology/src/state-graph.ts:126-141 | whatever the ids, the traversed ones are a connected walk to the reached state and every other id is a violation |
| StateGraph.ValidIffWalk | packages/methodology/src/state-graph.ts:126-141 | a path is valid exactly when its ids are those of a connected walk from the initial state |
| StateGraph.ReplayComposes | packages/methodology/src/state-graph.ts:129-140 | a path is replayed from where the replay of its first part ended, violations or not |
| StateGraph.RefusalIsTrue | packages/methodology/src/state-graph.ts:130-137 | one id is refused exactly when its transition does not start here, and the violation says whether it is unknown or starts elsewhere |
| Journey.CompileStatefulJourney | packages/methodology/src/stateful-journey.ts:167-234 | accepts exactly the well-formed definitions whose path is a connected walk with bound actors to a terminal state, unless waived |
| Journey.CompiledPlanIsAWalk | packages/methodology/src/stateful-journey.ts:194-208 | a compiled plan is a walk of the graph along its path, by declared actors, to the announced state |
| Journey.ExecuteStatefulJourney | packages/methodology/src/stateful-journey.ts:241-394 | a missing context fails before anything runs and without cleanup; else the plan runs as specified and cleanup is called exactly once |
| Journey.SucceedsIff | packages/methodology/src/stateful-journey.ts:269-394 | an execution succeeds exactly when every step passes unaborted with all its observers and cleanup is not refused |
| Journey.SuccessRunsThePlan | packages/methodology/src/stateful-journey.ts:269-394 | success means the whole plan ran, each step ok, to its last state |
| Journey.StepsArePrefix | packages/methodology/src/stateful-journey.ts:269-353 | recorded steps are a prefix of the plan, all but possibly the last ok, and the reached state is the one after them or one earlier |
| Journey.LagsBehindOkStepIff | packages/methodology/src/stateful-journey.ts:301-319 | the reached state lags behind an ok last step exactly when an abort was noticed right after it, and then the journey is aborted |
| Journey.ObserveRecords | packages/methodology/src/stateful-journey.ts:320-350 | the observations recorded are those of the first bound observers, all of them when none failed |
| Journey.ObservationsAreComplete | packages/methodology/src/stateful-journey.ts:259-264 | in every execution the observations are, step by step and in the order of the plan, those of exactly the observers whose step it is; only the last can be cut short, by an observer that failed and is the last recorded |
| Journey.SuccessIsObserved | packages/methodology/src/stateful-journey.ts:320-350 | a success records an ok observation for every step and every observer of the plan that comes after it |
| Journey.FirstTroubleIsNamed | packages/methodology/src/stateful-journey.ts:269-353 | a journey that does not pass all steps names the trouble of the first that did not pass: the abort, the action or the first observer that refused |
| Journey.CleanupTrouble | packages/methodology/src/stateful-journey.ts:355-394 | refused cleanup fails a journey whose steps all passed and is then the failure named |
| Journey.SuccessReachesCompiledState | packages/methodology/src/stateful-journey.ts:223-234 | compiled and executed successfully, a journey ends in the state the compiler announced |
| Calibration.CalibrateAgentJudges | packages/runner/src/agent-evaluation.ts:189-235 | bad bin counts and predictions are refused, no samples give an empty report, and else bins and both metrics are those of the samples |
| Calibration.InBinIff | packages/runner/src/agent-evaluation.ts:208 | a prediction is put in the bin whose bounds contain it, the last bin including its upper bound |
| Calibration.BinsPartition | packages/runner/src/agent-evaluation.ts:203-210 | every sample falls in exactly one bin |
| Calibration.BinTells | packages/runner/src/agent-evaluation.ts:211-223 | a bin that is not empty reports a mean prediction within its bounds, and an observed rate that is 1 exactly when all its labels are positive and 0 exactly when none is |
| Calibration.NoErrorIff | packages/runner/src/agent-evaluation.ts:207 | the squared errors vanish exactly when every prediction is its label |
| Calibration.NoGapIff | packages/runner/src/agent-evaluation.ts:224-230 | the calibration error vanishes exactly when in every bin that is not empty the mean prediction is the observed rate |
| Calibration.CauchySchwarz | packages/runner/src/agent-evaluation.ts:207 | the squared sum of absolute errors is at most the count times the sum of squares |
| Calibration.CalibrationBounds | packages/runner/src/agent-evaluation.ts:224-234 | both metrics lie between 0 and 1 and the squared calibration error never exceeds the Brier score |
| ShellReplay.CurlFor | packages/reporter/src/replay.ts:51-66 | a shell reads from the line exactly the intended arguments, or nothing if a value contains a NUL |
| ShellReplay.RequestIsCarried | packages/reporter/src/replay.ts:60-64 | those arguments name method and url, then each header under its own option in order, then the body if there is one |
| ShellReplay.EscapedReads | packages/reporter/src/replay.ts:47-49 | inside quotes an escaped value reads back as the value, by sections 2.2.1 and 2.2.2 of the POSIX.1-2017 Shell Command Language |
| ShellReplay.JoinReads | packages/reporter/src/replay.ts:65 | joined words are recognised one by one, by section 2.3 of the same |
| ShellReplay.SqlLiteralReads | packages/reporter/src/replay.ts:108 | a string literal reads back as its value exactly when no quote follows it directly |
| RateLimiter.ScimRateLimiter.Allow | packages/auth/src/scim-rate-limit.ts:31-49 | the windows afterwards and the answer are those of the specification |
| RateLimiter.TenantsAreBounded | packages/auth/src/scim-rate-limit.ts:44-48 | over every run the map holds at most the allowed tenants |
| RateLimiter.AtMostMaxInEveryWindow | packages/auth/src/scim-rate-limit.ts:31-49 | whatever other tenants do, a tenant that was not evicted has at most the maximum of grants in every window |
| RateLimiter.AcceptedIffRoom | packages/auth/src/scim-rate-limit.ts:35-43 | its next call is accepted exactly when fewer than the maximum were granted in the window that ends now |
| RateLimiter.FewTenantsAreKept | packages/auth/src/scim-rate-limit.ts:44-47 | if no more tenants call than the map holds, none is ever evicted |
| RateLimiter.LongestHeldIsEvicted | packages/auth/src/scim-rate-limit.ts:43-47 | a tenant leaves the map only when it is full and a new one comes, and then it is the one that has been in it longest |
| RateLimiter.LimitsAllIffRoom | packages/auth/src/scim-rate-limit.ts:31-49 | every tenant of a set has at most the maximum of grants in every window of every run of their calls exactly when the map holds them all |
| RateLimiter.EvictionForgets | packages/auth/src/scim-rate-limit.ts:44-47 | an evicted tenant starts afresh, so its grants in one window can exceed the maximum |
| TraceFederation.FederateTraceSources | packages/ingest/src/trace-federation.ts:208-229 | the loops keep the first span of each id and mark an id as conflicting exactly when a later one differs from it |
| TraceFederation.KeptIsFirst | packages/ingest/src/trace-federation.ts:208-229 | the span kept of an id is the first in the order of the sources |
| TraceFederation.ConflictIffDisputed | packages/ingest/src/trace-federation.ts:193-206 | an id is conflicting exactly when two of its spans differ, in any position |
| TraceFederation.OrderDoesNotMatter | packages/ingest/src/trace-federation.ts:208-229 | any two orders of the same spans give the same traces, span ids and conflicts, and the same content of ids without conflict |
| TraceFederation.OrphansAgreeUnlessConflicting | packages/ingest/src/trace-federation.ts:237-240 | whether a span is an orphan depends on the order at most when its id is conflicting |

## Left out

- The PostgreSQL, S3, Vault, HTTP and Playwright twins of the modelled objects: their logic lives in services that are not part of this model.
- SHA-256, HMAC and Ed25519: digests, signing and verifying are parameters. A checkpoint has no properties beyond its schema's.
- Schema parsing of events, snapshots and findings, beyond the money, name and id rules that the proofs use.
- Wall-clock time strings and random ids: times are integers, ids are numbered.
- Clustering by exact fingerprint.
- Clustering.ClusterBySimilarity: fingerprints, priorities, token similarity and the cosine are parameters, and vectors hold finite numbers.
- Numbers that are not finite, and the choice of decimal digits by the JSON printer: a number is its printed text in the canonical form and a real in the shrinker.
- The browser verifier, the parsing of event lines, persistence of the log, redaction of payloads and the telemetry hook.
- AuditChain.WrittenLogVerifies: logs are read back from their lines; the writer's in-memory snapshot keeps scenario and finding ids that are undefined, which its lines do not have.
- Recovery codes, enrolment and the credential store around the time-based codes.
- The merchant's subscriptions, dunning, disputes, returns, fulfilments, webhooks and quotes: checkout only takes the ids that it numbers for them. The prefixes of ids are left out, as one sequence numbers all of them.
- The fingerprints of idempotency entries: the model keeps the payload itself, without the property order of its JSON text.
- Commerce.Checkout: quantities and prices are unbounded integers, so rounding of quantities above 2^53 is not modelled.
- WebhookLease.EffectsAreAppliedOnce: asks that no delivery finishes with another's claim in its way; the source does not enforce it, and FinishIsSafeIffHarmless says that effect-once can break otherwise.
- WebhookLease.Step: a ledger whose complete or release itself throws is not modelled, since the in-memory one never does.
- The audit events that the budgeted adapter emits, and an estimator that answers differently when it is asked twice.
- BudgetedCalls.Step: adapters without a ledger take no part in the interleavings; for calls by themselves LedgerOnlyRefuses compares the two.
- BudgetedCalls.ChargesStayBelowLimit: asks that answers cost at most their estimates, which the adapter cannot enforce; ChargesAreConserved holds without that.
- The plan digest and time stamps of journeys; an action's context value; the timer itself, since the abort signal may be set at any place where it is read.
- The multi-judge trial policy: a reading of its branches settles it.
- The Playwright script, scenario file and URL resolution of replay artifacts; upper-casing of the method and serialisation of bodies are the caller's.
- RateLimiter.AtMostMaxInEveryWindow: asks for a clock that does not go back and a tenant that was not evicted; LimitsAllIffRoom says for which sets of tenants the second holds of itself.
- BudgetedLimits.StaysBelowIffAdmitsWhatFits: asks for prices that are not negative and answers that cost at most their estimates, which the adapter cannot enforce.
- Parsing of OTLP documents, redaction of attributes and the locale order of the merged lists.
- The gift-card ledger, the webhook retry queue, the metrics registry, the span exporter and the mutation holdout: they would add easier members of the same kinds.
