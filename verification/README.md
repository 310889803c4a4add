# The spend control of signerd, modelled and proved in Dafny

signerd is a daemon that holds a Cardano wallet's key and signs x402 payments for agents, each within a
policy. It counts what an agent has spent in a ledger of the last 24 hours, holds budget for requests a
human has still to approve, writes every decision to a hash-chained audit log and its ledger to a checkpoint
file, and gives budget back for payments the chain shows can never land. This project models that control and
proves what it is for. Verify it with `dafny verify dfyconfig.toml`.

## How the model is laid out

**The daemon as a state machine** (`Daemon`). A step is what runs between two awaits. A task holds its
agent's lock from one step to the next, so steps of different agents interleave freely, and so do human
answers, timeouts, withdrawals, release passes and notes in the log. A crash may cut any step short: before
its first write, inside an append, between two appends, or between the last append and the replacement of the
checkpoint. A start then repairs and replays the files, and may itself be cut short. The clock never runs
back, and within a step each reading of it is no earlier than the one before. Where the code judges a request
and queues it in one step the model takes two, and an answer other than an approval may come at any time: both
only add interleavings.

- `Journal`, `LogView`, `CheckpointIndependence`, `AuditChain`, `AuditFile`: the files, and what replay makes of them.
- `History`, `Caps`, `Budget`: the ledger beside the history it is the end of, and the caps over whole runs.
- `Recovery`, `CrashRecovery`: what every step keeps true of the disk, and what a restart finds.
- `Queue`: the approval queue against the log.
- `PolicyRules`, `Access`: what the policy's decisions come to rule by rule, and what only permitted requests get
  to over whole runs.
- `ReplayReads`, `OpenApprovals`, `Tampering`: what replay reads and reports for any lines and any checkpoint at all, and what a
  start does with a log that is not the daemon's own.
- `ReleaseSafety`, `Expiry`: giving budget back.
- `Spending`, `Refinement`: the daemon's shared fields as a class, and its operations as methods that take the
  machine's steps: what each leaves is what the machine's action does to what it found.

**The components around it**: `Policy` (the decisions), `Replay` (the replay loop and its specification),
`VerifyTx`, `ChannelTx` and `Accounting` (reading transactions back), `Tidy`, `TidyRules` and `TidyProofs`
(tidying the wallet), `Ada` and `Decimal` (printing and reading amounts), `Serialize` and `Locks` (the
promise-chain lock and the two locks together), `InFlight` (inputs on hold), `ChannelStore` and `Vouchers`
(what is signed on a channel), `Channels` (the channel index beside the daemon, a crash between the two
included). `Wrappers`, `Text` and `Arithmetic` are helpers.

Each decision the source makes on a value is a function that follows the source's branches, and beside it stands
what it decides, said without it: the rules of the policy one by one (`PolicyRules`), what a record must say to be
read (`ReplayReads`), what a tidy wallet and an accepted tidy are (`TidyRules`), what a signed payment and a signed
channel step may look like (`VerifyTx`, `ChannelTx`). A lemma joins the two in both directions for all inputs.

## What is assumed

- SHA-256 is a function; where tampering is concerned it is injective and never answers `""`.
- A record the daemon writes prints as one line, not blank, shorter than `AUDIT_TAIL_BYTES`, and parses back.
- Approval ids are new to the log, and a transaction just signed is not one the log has signed or released.
- The policy stays as it is during a run.
- The chain: no block past a transaction's TTL holds it. A provider's "no" is true of every block up to the
  configured margin before the tip it reported.
- The hash and the TTL recorded with a payment are what `landing` makes of the signed transaction's own.

## What the proofs turned up

- `RepairIsExact`, `AFragmentCanStay`: the repair of a torn append is exact if and only if the fragment is
  shorter than `AUDIT_TAIL_BYTES` or the file is no longer than that; a longer fragment is left in place.
- `CrashOrphansOneIncrement`, `OrphanGoesOutUnspent`: src/signerd.ts:1353-1354 says a crash between the channel
  index and the audit record counts a spend that did not happen. The index counts it, the ledger does not; asked
  for again, the voucher is a re-sign and goes out unspent. In an opening that is the whole first voucher.
- `FallsExactlyWhenWrittenForLess`, `FallNeedsOverwrite`: a step lowers a channel's signed amount exactly when it
  writes less than the index holds by then: an opening or a recovery that starts from less, or a voucher, a lift
  or an entry written back from a read that another writer has overtaken. In a run that takes an opening or a
  recovery of a channel the index has already, at that step or before. Two agents' recoveries that overlap do it
  (`RecoveriesCanLower`): ownership is read before an await, and the entry written after it. The overwriting may
  even be for more, and a voucher or a lift afterwards lower it (`StaleVoucherCanLower`, `StaleLiftCanLower`).
- `FreesAdaExactlyWhen`, `AutoTidyCanFallShort`: a tidy is sure to free ADA if and only if the UTxOs with tokens
  hold more than the token output's minimum, its slack and the highest fee. The automatic decision leaves the
  slack out, and so starts tidies for which an accepted transaction frees none.
- `TokensMayBeOverpaid`: tokens paid are bounded from below only.

## Model

| member | source | states |
|---|---|---|
| Budget.CapsAlwaysHold | src/signerd.ts:534-890 | in every interleaving of requests, approvals, refusals, vouchers, releases, crashes and starts, an agent's ledger over the last day is within each daily cap and over the last hour within each rate, at every instant; with the queue's reservations counted too, but for the one whose spend is already recorded |
| Budget.AnyDayIsCapped | src/policy.ts:415-440 | in any 24 hours of the whole history, pruned spends included, an agent's spends of an asset are within its daily cap |
| Budget.PruningNeverShows | src/signerd.ts:526-545 | at every point of every run the pruned ledger, with whatever is reserved, gets each decision the never-pruned history would get, now and later; the history stays in time order |
| Budget.EveryRunKeeps | src/signerd.ts:792-890 | the invariant behind the caps: every spend fitted its caps when dated, the reservations fit beside the ledger, and there is room for what each agent's own task was promised |
| Budget.SpendKeeps | src/signerd.ts:880-887 | recording what there is room for keeps every agent within its caps, the approved reservation left out from then on |
| Budget.RestedFits | src/signerd.ts:521-524 | after a restart, with nothing queued, the recovered ledger is within every cap |
| Caps.AdmittedHasRoom | src/policy.ts:415-440 | what decide does not refuse leaves every cap and rate of the agent intact once it is recorded |
| Caps.OverheadHasRoom | src/policy.ts:489-501 | what decideOverhead allows fits the lovelace caps on top of the payment itself, even recorded later than it was judged |
| Caps.RoomIsFitted | src/policy.ts:418-432 | room in the bounded ledger is room in the full history |
| PolicyRules.DecidesExactly | src/policy.ts:359-450 | decide is no refusal if and only if the request keeps every rule (agent, amount, a reason two of whose characters stand three apart, scheme, transfer method, asset, lovelace cap on mainnet, payee, provider key, resource, size) and the day and the hour have room for it; it asks a human exactly when, besides, the amount is above the threshold |
| PolicyRules.RefusedForFirstBroken | src/policy.ts:359-441 | it is refused for a rule exactly when that is the first, in this order, that the request breaks |
| PolicyRules.OverheadExactly | src/policy.ts:466-501 | what is built is allowed if and only if the lovelace that leaves, the amount of a lovelace payment included, is within the caps on one payment and on the day; with no lovelace cap, unless it is a token payment on mainnet |
| PolicyRules.OverheadRefusedFor | src/policy.ts:466-501 | and a refusal is for no agent, no lovelace cap, too much at once or too much in the day, exactly |
| PolicyRules.WindowsAreSums | src/policy.ts:418-432 | what decide sums and counts is, of an agent, its amounts of the asset in the last 86400000 ms, and its payments or its vouchers, overhead aside, in the last 3600000 |
| Text.TrimmedToThree | src/policy.ts:364-365 | a reason is long enough once trimmed exactly when two of its characters that are no spaces stand three apart |
| Access.OnlyThePermitted | src/signerd.ts:1576-1617 | in every state of every run, what is being built for an agent is permitted, to a payee on its list, and not above the threshold unless a human approved it; what waits for a human is permitted, and above it |
| Access.OnlyPermittedVouchers | src/signerd.ts:1376-1386 | every voucher increment a run records is permitted, for a provider key on the list, and above the threshold only where a human was shown its payee, asset and amount |
| Access.NoSpendAboveItsCap | src/signerd.ts:828-890 | of every spend any run ever records, none is above the cap on one payment of its asset |
| Access.OnePaymentIsCapped | src/signerd.ts:828-890 | the lovelace that leaves with any one payment a run commits, fee and ride included, is within the agent's cap on one payment in lovelace, and on mainnet there is one |
| History.PrunedDecidesAlike | src/policy.ts:418-501 | decide and decideOverhead give the same verdict on the ledger and on the history it is the end of |
| History.PrunedIsWindow | src/signerd.ts:526-532 | in time order what has expired is a prefix: pruning is what replay's window filter does |
| History.NoSpanExceeds | src/policy.ts:418-424 | spends each within the cap when made are within it in every 24 hours |
| History.DayNeverExceeds | src/policy.ts:418-424 | and within it at every later instant |
| History.HourNeverExceeds | src/policy.ts:426-440 | and never more often than the hourly rate |
| ReleaseSafety.LandableIsCapped | src/signerd.ts:923-957 | nothing ever given back lands, and of all spends ever recorded those of any 24 hours that landed or still can are within the cap, across crashes and restarts |
| ReleaseSafety.PassIsSafe | src/expiry.ts:169-189 | every spend a pass calls absent is of a transaction that never lands |
| ReleaseSafety.PaymentComesBackWhole | src/expiry.ts:183-188 | every record of a payment in the ledger, its overhead too, comes back exactly when the chain is past its slot and its transaction was asked about and denied |
| Expiry.AbsentNeverLands | src/expiry.ts:43-50 | past its TTL and honestly denied, a transaction is in no block, now or later |
| Expiry.Landing | src/expiry.ts:32-36 | a hash is kept exactly when folded it is 64 hex digits, and then folded; a slot exactly when it is a whole number a JSON number holds, and unchanged |
| Expiry.RotationReachesAll | src/expiry.ts:174-182 | while n spends are due, any ceil(n/max) consecutive passes ask about each of them, at most max transactions a pass |
| Expiry.ComesBackExactly | src/expiry.ts:169-189 | a pass gives back a spend, as often as the ledger has it, exactly when it is no voucher, its hash and slot are well formed, the tip is past slot and margin, it is not settled, and its transaction was asked about and denied; a transaction is on chain exactly when it was asked about and found |
| Expiry.AsksAbout | src/expiry.ts:174-184 | a pass asks only about such spends' transactions, about max at most, and about all of them when no more are due |
| Expiry.EachIsReached | src/expiry.ts:174-184 | and when more are due, about each within ceil(n/max) passes over the same ledger |
| Expiry.PairsAreNotSplit | src/expiry.ts:183-188 | of two payments' spends in the ledger with one transaction and one slot, whatever their assets, a pass gives back both or neither |
| CrashRecovery.CrashRecovers | src/signerd.ts:446-524 | wherever a step of any run is cut short, a restart finds inside the window the ledger from before it or the one it was recording, record for record, new spends dated only later |
| CrashRecovery.FinishedIsRecovered | src/signerd.ts:880-887 | a step that ended is recovered exactly as it stood in memory |
| CrashRecovery.LoggedIsOnlyLater | src/signerd.ts:556-565 | the log's times are those of the ledger or later, for the same spends in the same order |
| CrashRecovery.CutLearns | src/signerd.ts:945-949 | the records a cut step left say nothing of it or all of it |
| Recovery.NeverLockedOut | src/signerd.ts:494-524 | after any run and any crash, at any time, startup accepts the log and the checkpoint, and goes on from the last number, hash and ledger |
| Recovery.EveryRunAgrees | src/signerd.ts:446-572 | at every state the disk stands for the ledger, and the next record goes where the chain ends |
| Recovery.SpentIsSavable | src/signerd.ts:880-887 | a ledger with new spends can be checkpointed: sorted, sound, each transaction's spends at one time and in the log |
| Journal.StartFinds | src/replay.ts:117-227 | replay of any disk the daemon keeps reports no fault and gives, in order, the ledger the disk stands for less what left the window, and the log's open requests |
| Journal.RebuiltIsStanding | src/replay.ts:196-225 | replay's removals at the end, after its window filter, give what removing in log order and then filtering gives |
| Journal.ChainReplays | src/replay.ts:138-158 | a log of audit's records has no break and no malformed line, and the checkpoint's record is found in it |
| Journal.AppendKeeps | src/signerd.ts:556-565 | a record appended as audit does keeps the files such that all this holds |
| Queue.QueueAndLogAgree | src/signerd.ts:981-1047 | reserved ids are exactly the queued ones and those being signed, which are apart; replay finds open exactly those asked inside the window |
| Queue.AnsweredAtMostOnce | src/signerd.ts:987-994 | in every state of every run each request has at most one terminal record, after the one that asks |
| Queue.StartLeavesNoneOpen | src/signerd.ts:567-572 | after a start, a replay at any later time finds nothing open |
| Queue.ReplayFindsOpen | src/replay.ts:107-167 | openApprovals holds, once each, exactly what the log asked inside the window and never answered |
| OpenApprovals.OpenExactly | src/replay.ts:160-226 | for any lines: an approval is found open exactly when a record inside the window asks for it and none there answers it, once, with the agent and the reason of the last that asks |
| Queue.MatchesAfter | src/signerd.ts:1826-1869 | each step keeps the reserved ids those of the queue and of the approvals under way |
| CheckpointIndependence.SameWindowWithCheckpoint | src/replay.ts:168-225 | replaying a log with the checkpoint taken after any prefix of it gives the spends that replaying it with none gives |
| CheckpointIndependence.SameWindowWithEarlierCheckpoint | src/replay.ts:168-225 | the same when the checkpoint was taken with an earlier window |
| CheckpointIndependence.RemovalsStayInFirst | src/replay.ts:209-223 | first-match removals done at the end agree with removals done in order |
| LogView.CheckpointHoldsWindow | src/signerd.ts:446-470 | a checkpoint read back is the ledger it was written from, less what left the window |
| LogView.ContentIsOfEntries | src/replay.ts:138-195 | what the replay loop accumulates is what the records say, one by one |
| AuditChain.TamperEvidence | src/replay.ts:138-158 | two logs that replay without fault against one checkpoint agree record for record up to the record it names |
| AuditChain.SameHashSameRecords | src/replay.ts:138-158 | two unbroken logs that end on one hash hold the same records |
| AuditChain.AgreeUpTo | src/signerd.ts:504-515 | wherever each log names the checkpoint's record, they agree up to there |
| Tampering.TamperedStartIsCaught | src/signerd.ts:494-524 | put any file in place of the audit log: a start refuses it, or it holds up to some place exactly the records the daemon had written up to its checkpoint, in order and unchanged |
| Tampering.AcceptsExactly | src/signerd.ts:494-524 | for any file and checkpoint, a start goes on if and only if every stored spend reads, no line is malformed or out of place, and the checkpoint's record is there |
| AuditFile.TornAppendIsCut | src/signerd.ts:470-492 | however an append was cut short, the repair leaves the lines before it whole, and nothing of it |
| AuditFile.RepairIsExact | src/signerd.ts:476-492 | the repair leaves the longest newline-terminated prefix if and only if the fragment fits the tail it reads, or the tail is the file |
| AuditFile.LongFragmentStays | src/signerd.ts:486-488 | a fragment as long as the tail the repair reads is left in place |
| AuditFile.AFragmentCanStay | src/signerd.ts:486-488 | a file it is left in |
| Replay.ReplayAudit | src/replay.ts:117-227 | the loop over the lines, and what is made of it, against the fold over them, which ReplayReads says the meaning of |
| ReplayReads.MalformedIsTheFirst | src/replay.ts:138-195 | for any lines: replay names a malformed line exactly when there is one (neither blank nor a record, or a spend to count that does not name agent and asset and give its amount, and any overhead, in digits), and then the first |
| ReplayReads.NothingIsPassedOver | src/replay.ts:138-227 | for any lines and any checkpoint: where replay answers and reports nothing malformed, every spend to count can be read, and what the window is made from comes, for each agent and asset, to what the records and the checkpoint say |
| ReplayReads.SpendsComeTo | src/replay.ts:168-195 | what the log adds is, for each agent and asset, the sum of what the records to count say, overhead as lovelace |
| ReplayReads.LoggedSpends | src/replay.ts:61-93 | a record is read as one spend, or a payment's as two: at its time, of its agent, a voucher by its event alone, overhead where it says so, its transaction and slot where well formed |
| ReplayReads.RefusesExactly | src/replay.ts:206-213 | replay throws exactly on a checkpoint with a spend that lacks a number for ts, a name, or an amount in digits |
| ReplayReads.StoredIsRefused | src/replay.ts:206-211 | which the loop over the checkpoint finds, wherever it stands |
| ReplayReads.StoredComesTo | src/replay.ts:206-214 | and otherwise takes those of the window, for each agent and asset what they say |
| ReplayReads.StoredIsRead | src/replay.ts:61-80 | a stored spend is read as what it says of itself: voucher, overhead, transaction and slot |
| ReplayReads.ReleasedAsOften | src/replay.ts:196-204 | a transaction is taken off as often as a release of it is inside the window, after the checkpoint and well formed |
| ReplayReads.BrokenIsTheFirst | src/replay.ts:151-158 | the chain is called broken exactly at the first numbered record that names another hash than that of the record before it |
| ReplayReads.SeenExactly | src/replay.ts:135-158 | the checkpoint's record is seen exactly when a record has its number and its hash, or there is none to see |
| ReplayReads.NumberedOn | src/replay.ts:152-213 | numbering goes on from the last number in the log or the checkpoint's, whichever is higher |
| ReplayReads.SkippedAreOlder | src/replay.ts:149-169 | skipped counts the spends from before the window |
| Replay.ReadCheckpoint | src/replay.ts:206-214 | the loop over the checkpoint's spends against what it comes to (ReplayReads.StoredIsRefused, StoredComesTo) |
| Replay.ApplyReleases | src/replay.ts:215-223 | each release removes the first spend of its transaction |
| Replay.SortSorts | src/replay.ts:224-224 | the window comes out in time order |
| Spending.Signerd.Audit | src/signerd.ts:556-565 | the record is numbered after the last, carries its hash and is appended |
| Spending.Signerd.WriteCheckpoint | src/signerd.ts:446-470 | the checkpoint is replaced whole by the ledger and the place in the chain |
| Spending.Signerd.CheckpointBody | src/signerd.ts:448-466 | the body built spend by spend is the checkpoint of the ledger |
| Spending.Signerd.RepairTornAppend | src/signerd.ts:476-492 | the search for the last newline from the end of the tail is the repair |
| Spending.Signerd.PruneLedger | src/signerd.ts:527-532 | exactly the expired prefix goes |
| Spending.Signerd.RecordPayment | src/signerd.ts:832-888 | the overhead is judged without the request's own reservation; refused, only the denial is written; allowed, payment and overhead are recorded, pruned, logged and checkpointed |
| Spending.Signerd.RecordVoucher | src/signerd.ts:1376-1414 | an increment is recorded, logged and checkpointed where the policy allows it, or asks and a human was shown this voucher; otherwise nothing changes |
| Spending.Signerd.GiveBack | src/signerd.ts:939-951 | the first spend of the transaction goes, after its record and before the checkpoint; nothing when it has aged out |
| Spending.Signerd.QueueUp | src/signerd.ts:1009-1047 | the budget is held, the record written and the request queued |
| Spending.Signerd.ClosePending | src/signerd.ts:987-995 | only the first to take a request out of the queue answers it, and its budget comes back |
| Spending.Signerd.ApproveExact | src/signerd.ts:1835-1857 | judged again without its own reservation: stale and closed, or off the queue with the reservation kept |
| Spending.Signerd.FinishApproval | src/signerd.ts:1857-1869 | the reservation goes and the terminal record is written, however the signing ended |
| Spending.Signerd.Judge | src/signerd.ts:1576-1617 | /sign allows, turns to a human or refuses, on the ledger with the reservations |
| Spending.Signerd.Check | src/signerd.ts:494-518 | whatever the file holds: repair, replay and the checks give the replay to go on from, or a refusal, as the specification of a start says |
| Spending.Signerd.Start | src/signerd.ts:494-577 | repair, replay, checks, closing of what was left open and the checkpoint, from any disk the daemon leaves |
| Refinement.SignStep | src/signerd.ts:1576-1617 | /sign takes the machine's beginning, its turn to a human or its note of a denial, as it decides |
| Refinement.PaymentStep | src/signerd.ts:832-888 | the end of sign takes the machine's commit, or its note of a denial |
| Refinement.VoucherStep | src/signerd.ts:1376-1414 | commitVoucher takes the machine's draw where the voucher goes out, and otherwise changes nothing |
| Refinement.ReleaseStep | src/signerd.ts:939-951 | a release takes the machine's |
| Refinement.EnqueueStep | src/signerd.ts:1009-1047 | enqueue takes the machine's |
| Refinement.CloseStep | src/signerd.ts:987-995 | closePending takes the machine's answer, or changes nothing when the request was answered already |
| Refinement.ApproveStep | src/signerd.ts:1835-1857 | /approve takes the machine's approval, or its answer that the request is stale |
| Refinement.FinishStep | src/signerd.ts:1857-1869 | the end of an approval takes the machine's |
| Refinement.StartStep | src/signerd.ts:494-577 | a start takes the machine's from any disk a run leaves, and goes through |
| Refinement.FirstStartRuns | src/signerd.ts:494-577 | the first start, with no log and no checkpoint, is always possible and counts nothing spent |
| Accounting.RecordedIsWhatLeaves | src/signerd.ts:828-884 | for a payment to someone else, in any asset a parsed policy gives its agent, the lovelace recorded is exactly the lovelace that leaves |
| Accounting.EveryPaymentIsExact | src/signerd.ts:792-884 | so it is for every payment that any run is building |
| Accounting.PaymentAddsUp | src/signerd.ts:880-884 | what a payment records adds, in its own asset, its amount, in lovelace its overhead besides, and in any other asset nothing |
| Policy.OnlyLovelaceFolds | src/policy.ts:222-231 | of the asset ids a policy may name only lovelace reads as lovelace when its case is folded |
| Policy.AllowedDepositStaysWithin | src/policy.ts:508-538 | a deposit is allowed if and only if the agent may pay over channels, the delay and the amount are within their caps, and what is locked of each asset afterwards, a reserve included, is within its cap |
| Accounting.SelfPaymentOverCounts | src/verifyTx.ts:64-79 | a payment to the wallet itself costs its fee, and the record counts that and at most the amount more |
| VerifyTx.AccountingIsExact | src/verifyTx.ts:55-110 | the ADA that leaves with an accepted transaction is its overhead, and the amount besides for lovelace |
| VerifyTx.TokensMayBeOverpaid | src/verifyTx.ts:92-100 | an accepted transaction may hand the payee any more tokens |
| VerifyTx.MatchesExactly | src/verifyTx.ts:81-110 | a transaction is handed over if and only if it spends the nonce, moves value by its outputs alone, and fee, payment, ride and payees are what they may be; otherwise the first of these that fails is named |
| VerifyTx.PaidMore | src/verifyTx.ts:92-96 | an output counts towards what is paid when it is at the payee's address: its lovelace, or its quantity of the token |
| ChannelTx.SummaryProblem | src/channelTx.ts:84-132 | the loop over the outputs against the walk that specifies it |
| ChannelTx.SignedExactly | src/channelTx.ts:84-132 | a step is signed if and only if it carries no extras, the fee is within its ceiling, collateral, offer and channel are as the step needs, everything else goes in ADA to the seller it may go to, and the amounts balance |
| ChannelTx.SponsoredPassesThrough | src/channelTx.ts:84-132 | an accepted sponsored step returns to the wallet at least what the wallet put in |
| ChannelTx.UnsponsoredLossIsBounded | src/channelTx.ts:84-132 | an accepted unsponsored step costs the wallet at most the fee, the channel's growth and maxPayout |
| Tidy.MakePlan | src/tidy.ts:98-152 | the plan made in one survey of the wallet is the specified one, which TidyRules says the meaning of |
| Tidy.FindProblem | src/tidy.ts:169-207 | the read-back of a tidy, loop by loop, is the specified one, which TidyRules says the meaning of |
| TidyRules.PlansExactly | src/tidy.ts:98-152 | within its options and for a wallet that is not empty, the plan is that it is tidy if and only if one UTxO at most has tokens, holding no more than their minimum and 1000000, and one without holds the collateral; if not, a refusal exactly for too many UTxOs or too little lovelace, and work otherwise |
| TidyRules.WorkIs | src/tidy.ts:98-152 | work planned is to spend every UTxO, in order, with all the lovelace and, asset by asset, all the tokens the wallet holds |
| TidyRules.AcceptedExactly | src/tidy.ts:169-207 | the read-back accepts a transaction if and only if it spends exactly the plan's inputs, each once, pays only this wallet, runs nothing, and puts every token in one output within its limit and the collateral in one, and its outputs and fee add up to what it spends |
| TidyRules.TidiesItselfExactly | src/tidy.ts:283-298 | signerd tidies by itself if and only if that is on, no tidy runs, the last is an interval ago, nothing is unsettled, there is work, and what it leaves in ADA-only UTxOs is more than they hold |
| TidyRules.TokensAreSums | src/tidy.ts:84-90 | the tokens gathered are, asset by asset, the sums of what the records hold, the case of a name folded |
| TidyRules.AdaOnlyIs | src/tidy.ts:238-240 | ADA-only lovelace is what the UTxOs without tokens hold |
| TidyProofs.AcceptedKeepsEverything | src/tidy.ts:169-207 | an accepted tidy spends exactly the wallet and keeps every token and all ADA but the fee at its address |
| TidyProofs.OutputsAreTidy | src/tidy.ts:98-152 | the plan for an accepted tidy's outputs is that there is nothing to do |
| TidyProofs.EveryPlanCanBeBuilt | src/tidy.ts:98-207 | every plan over distinct UTxOs admits a transaction the read-back accepts, at any fee up to the ceiling, with change at the minimum or more |
| TidyProofs.AutoTidyFreesAda | src/tidy.ts:283-298 | when the automatic tidy goes ahead ADA-only lovelace grows, but for what the token output holds over its minimum |
| TidyProofs.FreesAdaExactlyWhen | src/tidy.ts:169-250 | every transaction the read-back accepts for a plan frees ADA, if and only if the listing's token UTxOs hold more than the plan's minimum, the slack and the highest fee |
| TidyProofs.AutoTidyFallsShort | src/tidy.ts:283-298 | where they do not, and the automatic decision still goes ahead, an accepted transaction frees none |
| TidyProofs.AutoTidyCanFallShort | src/tidy.ts:283-298 | a wallet for which it does |
| Ada.ParseUndoesFormat | src/tidy.ts:209-219 | reading an amount's printed form gives the amount, for every lovelace |
| Ada.FormatNormalises | src/tidy.ts:209-219 | printing what was read from any accepted text gives its canonical form |
| Ada.CanonicalIsFixed | src/tidy.ts:209-219 | canonical texts print back as they are |
| Ada.ReadsExactly | src/tidy.ts:215-219 | a text is read if and only if it is digits, and a dot and one to six more if any, and as the lovelace they stand for |
| Decimal.PrintThenRead | src/signerd.ts:456-456 | a number's decimal digits read back as the number |
| Serialize.KeyedLock.Run | src/serialize.ts:10-22 | a call joins the end of its key's chain |
| Serialize.KeyedLock.CleanUp | src/serialize.ts:14-20 | a settled task's clean-up forgets the key only while it is still the last |
| Serialize.OneAtATimeInCallOrder | src/serialize.ts:10-22 | under every schedule a key's tasks run one at a time and in call order, rejections and clean-ups included |
| Serialize.NeverWedged | src/serialize.ts:10-22 | while a task of a key is unsettled, the key's oldest can take a turn |
| Serialize.MapEmpties | src/serialize.ts:14-20 | once every clean-up has run the map is empty |
| Locks.NoDeadlock | src/signerd.ts:691-699 | with the wallet lock only ever taken inside an agent's, or alone, no reachable state is deadlocked |
| InFlight.Book.InputBusy | src/signerd.ts:732-738 | the first input still on hold, or none when none is |
| InFlight.Book.ClaimNonce | src/signerd.ts:707-713 | a nonce is claimed unless an unexpired claim of it stands |
| InFlight.NoSharedInputWhileHeld | src/signerd.ts:864-879 | over every run of payments and tidies, two transactions that share an input are at least the first one's hold apart |
| ChannelStore.Store.Set | src/channelStore.ts:86-91 | an entry that does not read changes nothing; one that does is in memory and, whole, in the file |
| Vouchers.CommitVoucher | src/signerd.ts:1365-1387 | the increment is what the amount adds to the entry; with none nothing is written, and otherwise the entry with that amount and the payee it had, or the voucher's when it had none: what the machine's commit, or its opening, leaves |
| Vouchers.LiftSignedMax | src/signerd.ts:1422-1429 | an entry below what the client was charged is written with that amount, any other is left: what the machine's lift leaves |
| Vouchers.SignedIsWhatWasSpent | src/signerd.ts:1356-1429 | over every run a channel's signed amount is the sum of increments, lifts, its base and what crashes orphaned, less what was written over; where no opening or recovery writes the channel while the index holds it nothing is lost and every voucher let out is covered |
| Vouchers.SignedNeverFalls | src/signerd.ts:1320-1429 | there it never goes down, whatever stale entry is written back |
| Vouchers.FallNeedsOverwrite | src/signerd.ts:1933-1966 | where it goes down, an opening or a recovery has written the channel while the index held it, then or before |
| Vouchers.ResigningIsFree | src/signerd.ts:1365-1371 | a voucher at or below what was signed spends and writes nothing |
| Vouchers.CrashOrphansOneIncrement | src/signerd.ts:1350-1414 | a crash between index and record, in an opening too, leaves the index one increment ahead, and the same voucher then adds nothing |
| Vouchers.OrphanGoesOutUnspent | src/signerd.ts:1350-1414 | a run in which the voucher of such a crash goes out and nothing is ever spent for it |
| Vouchers.FallsExactlyWhenWrittenForLess | src/signerd.ts:1320-1429 | in any state, a step lowers a channel's signed amount exactly when what it writes, from what its task read, is less than the index holds by now |
| Vouchers.RecoveriesCanLower | src/signerd.ts:1938-1957 | a run of two overlapping recoveries in which the second lowers it |
| Vouchers.StaleVoucherCanLower | src/signerd.ts:1365-1387 | a run in which a recovery writes over a channel for more, and a voucher from an earlier read then lowers it |
| Vouchers.StaleLiftCanLower | src/signerd.ts:1422-1429 | one in which a lift does |
| Channels.CounterAgreesWithLedger | src/signerd.ts:1350-1414 | over every run of daemon and index, crashes included, an agent's vouchers among all spends recorded come to its increments on the index, each channel's amount is what moved it, and each crash orphans at most one increment |
| Channels.CutRecords | src/signerd.ts:1387-1414 | a voucher cut short is among the spends exactly when its record was written |

## Left out

- The HTTP server, tokens, metrics, preflight, the command-line tools, the MCP server and the proxies: plumbing around the state machine.
- The SDK and the channel client: builders, CBOR decoding, following channels. Decoded transactions are data, chain reads a parameter.
- Keys and cryptography. `resourceMatches` is a parameter of the policy; of parsing a policy file only the rule on asset ids is modelled.
- Writes that fail: an append or a rename either happens, whole or cut by a crash, or the process is gone. A build that throws is a step that ends the task.
- `ALLOW_UNVERIFIED_AUDIT`: a start is modelled without it, as one that checks.
- Policy reloads: the policy is fixed for a run, so a stale approval comes only from the clock or the ledger.
- Budget.CapsAlwaysHold: says nothing of `channelLockedMax` over a run, which depends on when the chain shows a top-up; `decideDeposit` is modelled as a decision only.
- Queue.QueueAndLogAgree: a request left open by a run more than a day before the next start is outside every later window, and stays unanswered in the log.
- Vouchers.SignedNeverFalls: is for channels that no opening or recovery writes while the index holds them; FallsExactlyWhenWrittenForLess covers every step. An entry written back after an await also puts back the anchor and the status it was read with, which no property here concerns.
- Channels.CounterAgreesWithLedger: does not tell an agent's channels apart in the ledger, whose records do not either, nor tie the agent's lock in the two machines together, which only adds interleavings.
- Policy.AllowedDepositStaysWithin: takes a lovelace channel to have no reserve, as its callers do (src/signerd.ts:1189-1190, 1213).
- InFlight.NoSharedInputWhileHeld: holds for any hold, so how `approvalWindow` and NONCE_HOLD_SECONDS bound it is not modelled; does not model the entries the channel client deletes by itself, nor the inputs of channel steps.
- ChannelTx.SummaryProblem: `stepProblem`'s library checks and the `problem` texts are not part of this model; a problem is a name.
- Replay.ReplayAudit: numbers in the files are whole, a line holding only `null` is not modelled, and newline is the only line terminator.
- Ada.ParseUndoesFormat: lovelace is never negative here.
- `describeLayout`, `formatDuration`, `remaining` and `assets.ts`: reports and look-ups that would only add easy members.
