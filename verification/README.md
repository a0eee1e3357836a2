# Settlement, receipts, streams and routing: a verified model

A Dafny model of the SP state agent's money path and of the gateway code around it. Run
`dafny verify dfyconfig.toml` to check all of it.

## What is modelled

**Money.** `Billing` is the one cost formula. `Allocator` deducts a cost from a wallet's token
balances in priority order, in whole smallest units; `Aggregator` groups records and carried debts
per wallet and SP and pays them out of shared balances; `AggregatorLaws` holds its conservation,
no-over-allocation and order-independence theorems, `Pricing` what each token of a request costs,
`Spending` in which order and at which prices a wallet pays and whom, `Earnings` what each SP gets. `Balances` is the 402 gate, `CreditGate` the
proof that gate and allocator agree. `Batches` is the canonical hash, the receipt leaves and the
frozen plan; `Merkle` the receipt tree.

**The engine.** `Settlement` is a step machine over disk (log, cursor, plan file, dead letters, debt
ledger, settled total), chain (executed hashes, pending transactions, finality) and memory (pending
spend, in-flight requests); each event is one durable write, one chain step or one memory update, and
crash, reorg, revert and restart are events like any other. `SettlementSafety`, `SettlementMoney`,
`PendingLaw` and `Restarts` hold the invariants over all its runs. `Cycle` specifies one settlement cycle
and what it does to the money; `SettlerCode` is the cycle itself as a
class whose methods are proved to be runs of that machine for every behaviour of the chain, so the
theorems about runs apply to the code, including when other events come between its calls or while a plan
is being made. `RequestLog` and `Scanner` are the rotating log and its reader, and `LogRefinement` shows
they implement the single stream the engine reads, also run by run. `Reconcile` is the independent check
of billed against settled and pending. `Coverage` follows the gate through to the plan, `PlanOrder` shows
that a plan's hashes do not depend on reading order, `Instalments` and `PaidOnChain` compare what is
settled on paper with what moved on chain, in hashes and in USD, `Rounding` bounds the difference that
is left. `FailingRuns` holds reachable runs for
the promises that fail.

**Receipts.** `ReceiptStore` is the append-only ledger, record store and sidecar index across crashes
and starts on a sidecar that is not trusted;
`Migration` the offline conversion of older ledgers.

**Gateway.** `SseFilter` is the line filter in front of the client and `StreamLines` what it records of a
reply; `StreamResume` is the loop that splices worker segments into one stream and `ResumeLaws` when it goes
on and how it ends; `RateLimits` has the buckets and caps and `RateLaws` what they answer, told without their
state; `Workers` is the registry and router and `RoutingLaws` who gets a request.
`Orders` and `Sums` are sorting and exact sums.

## How to read it

Code that works by changing state is a class or a method with loops, proved equal to a specification
function; the laws are lemmas about those functions. Map walk orders, random draws, clocks and the
answers of the chain are parameters or arbitrary choices, so each theorem holds for all of them. No
lemma relies on automatic induction; every inductive proof is written out.

Assumptions, each at the place where the code stops guaranteeing it:
- Amounts are exact (reals for USD, integers for smallest units); prices are positive and catalog prices
  non-negative; workers report non-negative counts.
- sha256 is a free algebra: injective, and a leaf digest is never the digest of two hashes.
- Whole-file replacement and single-line appends are atomic; inodes are not reused.
- Logging a finished request and adjusting its reservation are one step.
- Wallet strings are canonical, so the case-insensitive match of a skipped item's user is equality.
- Dead letters and plan are written as one step; `DeadLettersBeforeWal` says exactly when that matters.
- A details hash the contract reports as processed, or whose receipt is final at the configured depth,
  stays so; the indexes of skipped items in one receipt are distinct; an execution seen again after its
  receipt vanished has the outcome of that receipt.
- `LogRefinement` and `RotationRefinement` need the cursor's file among the retained backups and no peek
  in the middle of a rotation; `RotationRefinement` also says exactly what is lost otherwise.
- The receipt index is warmed before the first append; `ColdAppendHidesGap` shows why. Ledger lines
  found when the store is opened vouch for records only if they were written with them.
- Receipt events carry no content text.
- A ledger line without its records is encoded in fewer bytes than with them (`ServeAtEveryStage`).
- Plans get strictly increasing creation times.

Where a promise does not hold in general the code is kept as it is, the exact condition is proved and a
failing input is given (in brackets): `CompleteKeepsDistance` (`StreamedErrorStrands`),
`AdjustWithoutEntry` (`AdjustmentLost`), `RestoreAfterPlan` (`RestartCountsTwice`), `DeadLettersBeforeWal`
(`TornReachably`), `OwnEffects` (`SecondInstalmentMovesNothing`), `SettledIsMoved` (`SkippedYetSettled`),
`FirstRunReadsMainOnly` (`FirstRunMissesBackup`), `RotationRefinement` (`OverrunLosesRecord`), `TornRun`
(`CrashBetweenCommitAndSave`), `LoadRecord` (`OrphanThenDebt`), `InterruptedMigration`, `ExactlyOneDone`
(`DoneTwice`), `StreamEnds` (`SilentError`), `SpliceKeepsEvents` (`SpliceJoinsEvents`), `AffinityAndAdmission` (`StickyPastTheGate`).
Two of these contradict comments in the code: the reconciler loses, rather than counts twice, the window
of a crash between its two writes, and an interrupted migration has one window in which no ledger is in
place. A third is what the comment on the non-streaming return warns of: the streaming return keeps the
usage of a non-200 reply.

## Model

| member | source | states |
|---|---|---|
| Merkle.MerkleRoot | src/internal/settlement/merkle.go:53-71 | the root computed level by level, an odd node paired with itself, is the recursively defined root; the empty list has the zero hash |
| Merkle.MerkleProofFor | src/internal/settlement/merkle.go:74-99 | the generated sibling list is the path of the index; an index outside the leaves has the empty one |
| Merkle.VerifyMerkleProof | src/internal/settlement/merkle.go:102-113 | accepts exactly when folding the path from the leaf, halving the index toward zero, gives the root |
| Merkle.PathLeadsToRoot | src/internal/settlement/merkle.go:53-113 | completeness: every leaf verifies with its generated path against the computed root, for any number of leaves |
| Merkle.ProofSound | src/internal/settlement/merkle.go:102-113 | soundness: at an index of the batch a leaf and a path are accepted if and only if they are the committed leaf and its generated path; the path length needs no check |
| Merkle.FoldPinsLeaf | src/internal/settlement/merkle.go:53-113 | a fold of the height of the tree that reaches the root pins leaf and path, whatever the leaves hold |
| Merkle.AcceptedLeafWasCommitted | src/internal/settlement/merkle.go:102-113 | for any index, negative or beyond the batch, an accepted leaf is one of the leaves |
| Merkle.PaddingIndexVerifies | src/internal/settlement/merkle.go:82-85 | the index is bound only inside the batch: at every level with an odd number of nodes above one, a leaf below the last node verifies with its own path at the index of its padding copy, which is none of the batch |
| Merkle.RootBinding | src/internal/settlement/merkle.go:53-71 | for any two lists of pairwise distinct leaves, of any lengths, equal roots if and only if equal lists |
| Merkle.RepeatedLeafCollides | src/internal/settlement/merkle.go:60-66 | without distinctness the root does not determine the list |
| Billing.CostNonNegative | src/internal/settlement/aggregator.go:380-407 | never negative for non-negative prices and honest counts, whatever the cached count; what a request costs is in the rows of `Pricing` |
| Billing.EstimateCovers | src/internal/settlement/aggregator.go:564-575 | a reservation at the output rate for at least the tokens used covers the final cost when no catalog rate exceeds the output rate |
| Pricing.NoTokensAreFree | src/internal/settlement/aggregator.go:380-407 | no tokens cost nothing |
| Pricing.CompletionTokenCosts | src/internal/settlement/aggregator.go:391-404 | with an input rate one more completion token costs the output rate of the model, or the default one |
| Pricing.PromptTokenCosts | src/internal/settlement/aggregator.go:391-404 | and one more uncached prompt token the input rate |
| Pricing.CachedTokenCosts | src/internal/settlement/aggregator.go:391-404 | and one more cached prompt token the cache rate, or the input rate without one |
| Pricing.CachedIsClamped | src/internal/settlement/aggregator.go:380-404 | a cached count outside the prompt is read as the nearest one inside it, and the total is not looked at |
| Pricing.FlatTokenCosts | src/internal/settlement/aggregator.go:380-407 | without an input rate one more token of the total costs the output rate and the split does not matter |
| Pricing.EstimatedTokenCosts | src/internal/settlement/aggregator.go:564-575 | an estimate is flat at the output rate |
| Pricing.ChargedOnce | src/internal/settlement/aggregator.go:137-244 | a cycle with one record books exactly its cost on its wallet, settled or owed, and nothing on any other; nothing without a payee |
| Pricing.ChargeFollowsCost | src/internal/settlement/aggregator.go:137-244 | changing one payable record of any cycle changes what its wallet is booked for by the change of its cost, and no other wallet |
| Pricing.TokenPrices | src/internal/settlement/aggregator.go:137-244 | the aggregation itself, run with and without one more token of each kind: the difference booked on the wallet is the rate of that token |
| Pricing.CatalogExample | src/internal/settlement/aggregator.go:391-404 | a hundred prompt tokens at one dollar and ten completion tokens at fifteen cost 250 |
| Allocator.AllocateFrom | src/internal/settlement/aggregator.go:293-326 | one token: take the whole balance and carry the rest on, or cover the rest exactly; an amount below one unit makes no item |
| Allocator.Allocate | src/internal/settlement/aggregator.go:248-331 | walking the priority list, skipping unknown, empty and depegged tokens, is the deduction every law below is about |
| Allocator.TruncationBounds | src/internal/settlement/aggregator.go:530-540 | the truncated amount is worth at most the USD asked for and less than one smallest unit short of it |
| Allocator.DeductAccounted | src/internal/settlement/aggregator.go:256-331 | over the whole priority list: slices positive, each charged at its exact value plus less than one unit, balances reduced by exactly the slices and never below zero, shortfall never negative, uncollected dust below one unit of some token |
| Aggregator.CollectCosts | src/internal/settlement/aggregator.go:159-193 | per wallet and SP the collected USD is the cost of its resolvable records plus its positive debts, with the ids in order; the rest is unresolved |
| Aggregator.GroupByWallet | src/internal/settlement/aggregator.go:195-203 | each wallet is grouped with exactly its payees, in whatever order the cost map is walked |
| Aggregator.PayPayees | src/internal/settlement/aggregator.go:205-231 | the payees of one wallet are paid in turn out of the same running balances |
| Aggregator.PayAllWallets | src/internal/settlement/aggregator.go:205-231 | all wallets in sorted order, each from its own balances |
| Aggregator.AggregateWithDebts | src/internal/settlement/aggregator.go:137-246 | the whole aggregation is the specified one, for every walk order of its maps; a FIL price at or below zero defers everything |
| Aggregator.SortedSetUnique | src/internal/settlement/aggregator.go:203-206 | however a set is walked, sorting the walk gives one list: map order cannot show |
| AggregatorLaws.AggregationConserves | src/internal/settlement/aggregator.go:137-244 | per wallet, cost of collectable records plus positive carried debts == settled plus remaining debts, and items never claim more than settled |
| AggregatorLaws.NoOverAllocation | src/internal/settlement/aggregator.go:205-231 | over all SPs of a wallet the item amounts of one token add up to at most its cached balance |
| AggregatorLaws.ItemsExact | src/internal/settlement/aggregator.go:293-326 | every item of an aggregation is positive, its USD the exact value of its amount plus less than one smallest unit; every settled wallet settles something |
| AggregatorLaws.RecordsSplit | src/internal/settlement/aggregator.go:159-164 | the records are exactly the resolvable and the unresolvable ones, as multisets |
| AggregatorLaws.OrderIndependence | src/internal/settlement/aggregator.go:137-244 | reordering records and debts changes no amount, settled total or debt, and only permutes the unresolved |
| PlanOrder.HashesIgnoreOrder | src/internal/settlement/settler.go:589-667 | ids included: if no two different records share a request id, reordering records and debts changes neither the number of batches nor any details hash or receipt leaf, which is what the dedup on chain relies on |
| PlanOrder.SharedIdShowsOrder | src/internal/settlement/settler.go:317-323 | for any records: reordering them and the debts keeps the details hash of a batch if and only if for every id planned in it the records read last in the two orders have the same receipt |
| PlanOrder.IndexIsLast | src/internal/settlement/settler.go:317-323 | the record index holds for each id the record read last |
| AggregatorLaws.PayShares | src/internal/settlement/aggregator.go:205-231 | wallets do not share balances: each wallet's part of the payout is what it would be alone |
| Earnings.EverySpEarns | src/internal/settlement/aggregator.go:137-331 | per wallet and SP, not only per wallet: a cycle pays or owes each SP exactly the cost of what it served the wallet plus what was still owed it, to less than one smallest unit of one token, and where anything stays owed nothing is lost to rounding |
| Earnings.RequestsNamed | src/internal/settlement/aggregator.go:159-193 | every item and every remaining debt names exactly the requests its SP served its wallet and those behind the debts carried for the two |
| Earnings.PlanEarns | src/internal/settlement/settler.go:589-667 | the batches of the written plan move to each SP, or leave owed to it, what it is to get for everything outstanding at the peek |
| Spending.SpentInOrder | src/internal/settlement/aggregator.go:256-331 | a token is touched only after every spendable token before it in the priority list is empty |
| Spending.ItemsFair | src/internal/settlement/aggregator.go:256-331 | every item of an aggregation is in a coin at its peg, charged at its market price to less than one smallest unit, and for a wallet and SP that owe something |
| Spending.CountedAtPrice | src/internal/settlement/balance.go:413-440 | the gate counts every other holding at exactly that price |
| Spending.OffPegUncounted | src/internal/settlement/balance.go:413-440 | and a depegged coin not at all |
| Spending.SignedAddressIsPaid | src/internal/settlement/aggregator.go:342-358 | a wallet served only by workers whose miner signed for one address pays only that address, whatever the static map says |
| Spending.StaticAddressIsPaid | src/internal/settlement/aggregator.go:342-358 | without a signed address it is the entry of the static map, and without one the record waits |
| Balances.BalanceCache.AvailableUSD | src/internal/settlement/balance.go:413-452 | credit is the counted token value less pending spend less the buffer |
| Balances.BalanceCache.Reserve | src/internal/settlement/balance.go:224-255 | granted exactly when the token value pays for what is pending and the estimate with the configured minimum left over and the unsettled cap is kept; then pending grows by the estimate |
| Balances.GateKeepsMinimum | src/internal/settlement/balance.go:224-255 | what a grant leaves: the configured minimum in hand and the cap unexceeded; with neither configured only a wallet that cannot pay is refused |
| Balances.BalanceCache.Adjust | src/internal/settlement/balance.go:259-273 | a missing entry is left missing, a present one moves from estimate to actual and never below zero |
| Balances.BalanceCache.SettleSpend | src/internal/settlement/balance.go:277-295 | subtracts what was settled and drops an entry at or below the dust cutoff |
| Balances.BalanceCache.AddPendingSpend | src/internal/settlement/balance.go:298-309 | only positive amounts are added |
| Balances.BalanceCache.RestorePendingSpend | src/internal/settlement/balance.go:361-388 | adds the positive costs of the records, wallet by wallet |
| Balances.BalanceCache.UpdateDebts | src/internal/settlement/balance.go:73-92 | the suspended set is exactly the wallets owing at least the threshold |
| Balances.BalanceCache.TotalPendingSpendUSD | src/internal/settlement/balance.go:345-353 | the sum over all entries, whatever the walk order |
| CreditGate.ValueAfterTake | src/internal/settlement/balance.go:413-440 | spending part of one token's balance lowers the counted value by exactly that part |
| CreditGate.DeductTakesValue | src/internal/settlement/aggregator.go:256-331 | a deduction takes at most what it collects out of the counted value and leaves a shortfall only after every token it may touch is gone |
| CreditGate.GateCoversAllocation | src/internal/settlement/balance.go:413-440 | a wallet whose cost over all SPs and debts is at most the token value the gate counts is left no debt and settles all of it, whatever the priority order |
| Coverage.NextPlanWithinPending | src/internal/settlement/balance.go:224-255 | over every gentle run, what the next plan can charge a wallet is at most its pending spend plus the dust, less the stranded usage |
| Coverage.CoveredWalletPaysAll | src/internal/settlement/balance.go:413-440 | end to end: if a wallet's pending spend plus dust is at most the token value the gate counts plus its stranded usage, the next plan leaves it no debt and settles all its billable records and all its debt |
| Batches.BatchHash | src/internal/settlement/aggregator.go:484-528 | the hash is the digest of the sorted items and the sorted set of request ids |
| Batches.BatchHashCanonical | src/internal/settlement/aggregator.go:484-528 | equal hashes if and only if equal item multisets and equal id sets |
| Batches.HashItemDetermines | src/internal/settlement/aggregator.go:491-500 | inside the hash an item is exactly its user, SP, token and decimal amount |
| Batches.SplitBatches | src/internal/settlement/settler.go:966-990 | the batches cut off the front in turn; a limit at or below zero means 50; no items, no batch |
| Batches.ChunksPartition | src/internal/settlement/settler.go:966-990 | batches put back together are the item list, none empty, none over the limit |
| Batches.ChunksFull | src/internal/settlement/settler.go:966-990 | and all but the last are full |
| Batches.BatchLeaves | src/internal/settlement/merkle.go:134-167 | the leaves are those of the first carrier of each id, sorted by id |
| Batches.BatchLeavesDistinct | src/internal/settlement/merkle.go:134-167 | the id dedup supplies what root binding needs: one leaf per id of the batch, pairwise distinct |
| Batches.LeafBinds | src/internal/settlement/merkle.go:134-157 | two leaves of one id are equal if and only if wallet, SP, model, token counts and receipt signature are |
| Batches.DetailsHashBinds | src/internal/settlement/settler.go:604-607 | two batches share a details hash if and only if they agree in items, ids and every leaf in order |
| Batches.FreezeBatch | src/internal/settlement/settler.go:597-664 | one frozen batch: hashes, root, rows with record and SP of the first carrier, items with their counts |
| Batches.BuildPending | src/internal/settlement/settler.go:589-667 | every batch of the split, frozen, in order |
| Batches.BatchCountsAddUp | src/internal/settlement/settler.go:632-663 | per-item request counts add up to the leaves, per-item token counts to the tokens of the distinct records |
| Batches.FrozenBatchChecks | src/internal/settlement/settler.go:597-629 | the stored rows re-derive every leaf, the stored root and the details hash |
| Batches.NewRequestNewHash | src/internal/settlement/settler.go:604-607 | a batch with one id an earlier batch lacks has another details hash |
| Batches.EqualInstalmentsCollide | src/internal/settlement/merkle.go:142-157 | a batch of which no id has its record gets the same details hash whatever records are at hand |
| RequestLog.RequestLogger.Rotate | src/internal/gateway/requestlog.go:130-151 | the renames from the oldest down shift every backup by one and leave a fresh main file |
| RequestLog.RequestLogger.Log | src/internal/gateway/requestlog.go:96-125 | every line reaches the abstract stream; files on disk stay its contiguous end, oldest first; the main file is rotated exactly when a line fills it and so stays below the threshold |
| RequestLog.RotatedAt | src/internal/gateway/requestlog.go:137-141 | after a rotation .k holds what .k-1 held and the oldest is gone |
| RequestLog.LogKeepsOrder | src/internal/gateway/requestlog.go:96-151 | what a call discards followed by what it leaves is what was there followed by the new line |
| Scanner.LogScanner.ScanFrom | src/internal/settlement/scanner.go:243-280 | the billable records from a byte offset on, skipping empty, malformed and non-billable lines: each a 200 with tokens, a wallet and no error reason, and every such record of the lines is among them |
| Scanner.LogScanner.FindCursorFile | src/internal/settlement/scanner.go:145-153 | the first numbered backup that is the cursor's file, stopping at the first missing number |
| Scanner.LogScanner.Peek | src/internal/settlement/scanner.go:103-234 | the records and the new cursor of every branch: missing main, drained backups, best effort, plain read; nothing is advanced |
| Scanner.LogScanner.CommitCursor | src/internal/settlement/scanner.go:237-239 | only this moves the saved cursor |
| Scanner.PeekRefines | src/internal/settlement/scanner.go:128-233 | a cursor whose file is on disk reads exactly the billable records of the stream after it, in order, and the new cursor denotes the end |
| Scanner.CursorAfterRun | src/internal/settlement/scanner.go:143-184 | after any run of appends r rotations have moved the cursor's file r backups down, or off the disk |
| Scanner.RotationRefinement | src/internal/settlement/scanner.go:128-233 | after any run the peek is exactly the billable records appended since, as long as the file is retained; beyond that it still is if and only if the unreachable lines hold nothing billable |
| LogRefinement.OverrunLosesRecord | src/internal/settlement/scanner.go:155-221 | the failing run: from the files a logger with one backup leaves after two lines, the scanner's cursor of the empty log reads the second record only |
| Scanner.FirstRunReadsMainOnly | src/internal/settlement/scanner.go:223-233 | without a cursor only the main file is read: everything is covered if and only if the backups hold nothing billable |
| LogRefinement.FirstRunMissesBackup | src/internal/settlement/scanner.go:223-233 | the failing run: without a cursor the scanner reads nothing of what a rotation has moved away |
| LogRefinement.RunBoth | src/internal/settlement/scanner.go:103-239 | logger and scanner objects take exactly these two runs |
| LogRefinement.PeekIsUnread | src/internal/settlement/scanner.go:103-234 | the scanner over files and cursor implements the position in one stream the engine works with, before and after a commit |
| LogRefinement.LogKeepsPosition | src/internal/gateway/requestlog.go:96-151 | logging keeps that correspondence while the backups hold the cursor's file |
| LogRefinement.Drive | src/internal/settlement/scanner.go:103-239 | logger and scanner over any run of logging, reading and committing within the retention: what is committed is exactly the billable part of what was logged between the two positions, in order, each once |
| SettlementSafety.ExactlyOnce | src/internal/settlement/settler.go:231-345 | over every run: with no plan outstanding, completed plans took exactly the billable records up to the committed cursor, in order, each settled once or still parked |
| SettlementSafety.ExactlyOnceWithPlan | src/internal/settlement/settler.go:231-345 | the same while a plan is outstanding |
| SettlementSafety.AtMostOnce | src/internal/settlement/settler.go:366-465 | no details hash is executed twice over any run of crashes, replays, resubmissions and reorgs; that of a confirmed batch and of every batch of a completed plan has been executed once |
| SettlementSafety.KnownHashMovesNothing | src/internal/settlement/settler.go:377-388 | from any reachable state on, a hash once relied on keeps its one effect, whatever is planned later |
| SettlementSafety.WalRemovedOnlyWhenDone | src/internal/settlement/settler.go:484-505 | a plan leaves the disk only fully confirmed, with cursor, debts and total written |
| SettlementSafety.TotalCountsPlansOnce | src/internal/settlement/settler.go:740-767 | the settled total is the sum over completed plans, each counted once however often replayed |
| Instalments.OwnEffects | src/internal/settlement/settler.go:366-388 | over every run: every completed batch has an effect of its own on chain if and only if the details hashes of the completed batches are pairwise distinct |
| Instalments.RepeatedHashIsRepeatedBatch | src/internal/settlement/settler.go:597-614 | in every reachable state two completed batches share a details hash if and only if they have the same tuples, the same ids and the same leaves |
| Instalments.RepeatedPlanMovesNothing | src/internal/settlement/settler.go:366-388 | whenever all hashes of the next plan are known to be final the cycle completes, adds its settled USD to the total, takes it off the debt and moves nothing on chain |
| Instalments.SecondInstalmentMovesNothing | src/internal/settlement/settler.go:377-388 | a reachable state and run of that kind, from the first request on: the second equal instalment of a debt is counted as settled and not paid |
| PaidOnChain.SettledIsMoved | src/internal/settlement/settler.go:366-505 | over every run, per wallet in USD: what completed plans settled == what the contract paid out for their hashes, each once and less the skipped items, + the batches of a hash completed before + the skipped items of batches confirmed without a receipt + the rounding; so apart from the rounding books and chain agree if and only if the two middle amounts are zero |
| Rounding.SettledWithinUnits | src/internal/settlement/aggregator.go:293-326 | the rounding of that equation, over every run: never negative, and less than one smallest unit of the dearest token for each payee of the wallet in each plan |
| PaidOnChain.FirstsAreExecuted | src/internal/settlement/settler.go:366-443 | the batches counted as paid out are exactly one per completed hash, each executed once |
| PaidOnChain.ReceiptsReverse | src/internal/settlement/settler.go:377-388 | a run in which every batch is confirmed from its receipt leaves no skipped item unreversed |
| FailingRuns.SkippedYetSettled | src/internal/settlement/settler.go:377-388 | a reachable state in which three dollars are settled without debt and nothing was paid: the batch landed with its item skipped and was confirmed as already processed |
| SettlementMoney.ReversalExact | src/internal/settlement/settler.go:513-563 | for any set of skipped items exactly their planned USD moves from settled to debt, wallet by wallet; the floor at zero is never reached |
| SettlementMoney.ConfirmKeepsReversible | src/internal/settlement/settler.go:513-563 | what the unconfirmed batches may still give back is always covered by the settled amounts |
| SettlementMoney.MoneyConserved | src/internal/settlement/settler.go:231-505 | over every run, per wallet: cost up to the committed cursor == settled by completed plans + debt + dead letters |
| PendingLaw.PendingConserved | src/internal/settlement/balance.go:224-309 | over every gentle run pending spend is in-flight estimates plus unsettled records, dead letters, debt, the outstanding plan and the stranded usage of streamed error replies, up to one dust cutoff per settlement |
| PendingLaw.BilledIsSettledPlusPending | src/internal/settlement/reconcile.go:169-234 | billed plus stranded == settled + pending per wallet at every quiescent point, within that dust |
| PendingLaw.CompleteKeepsDistance | src/internal/gateway/gateway.go:1172-1195 | a finished request keeps the distance between pending and owed if and only if it is not a streamed reply with tokens, a status other than 200, no error reason and a cost; else the distance grows by exactly that cost |
| PendingLaw.StreamedErrorStrands | src/internal/gateway/gateway.go:1172-1195 | the failing input: one streamed reply with usage and an error status, after which nothing is owed and its cost is pending |
| PendingLaw.StrandedStaysPending | src/internal/gateway/gateway.go:706-716 | short of a restart no later run clears it |
| PendingLaw.NothingStranded | src/internal/gateway/gateway.go:706-716 | a run without such replies strands nothing |
| Restarts.PendingConservedOrderly | src/internal/settlement/balance.go:224-309 | the law without the extra term for runs whose conditions can be checked as they go: estimates above the dust, no streamed error reply, no traffic between restart and restore, and no plan whose dead letters that now resolve cost a wallet other than the new records it parks |
| Restarts.OrderlyRunsGently | src/internal/settlement/balance.go:224-309 | such runs are gentle: the condition on plans gives the one every restart needs |
| PendingLaw.AdjustWithoutEntry | src/internal/settlement/balance.go:259-273 | an adjustment that finds no entry keeps the law if and only if the estimate was the charge |
| FailingRuns.AdjustmentLost | src/internal/settlement/balance.go:259-273 | the failing run: a reservation of nothing, a settlement that deletes the entry, and a reply of three dollars that is never pending |
| PendingLaw.EntrySurvives | src/internal/settlement/balance.go:277-295 | a reservation larger than the accumulated dust keeps its entry alive |
| Restarts.RestoreWithoutPlan | src/internal/settlement/settler.go:691-726 | without an outstanding plan a restart restores the held amount if and only if nothing but reservations and stranded usage was pending before |
| Restarts.RestoreAfterPlan | src/internal/settlement/settler.go:691-726 | with one outstanding the restored amount exceeds the held one by the cost of the new records the plan parked less that of the dead letters it took off; so without earlier traffic it is exact if and only if those costs are equal, a condition on the inputs of the plan |
| FailingRuns.RestartOffBy | src/internal/settlement/settler.go:691-726 | the failing runs: any plan with a batch, a crash before confirmation and a restart leave every wallet off by exactly that difference |
| FailingRuns.RestartCountsTwice | src/internal/settlement/settler.go:691-726 | one of them from the first request on: a record parked by the plan is reserved twice |
| PendingLaw.OwedNonNegative | src/internal/settlement/settler.go:513-563 | nothing is ever over-settled: what remains owed is never negative |
| Restarts.DeadLettersBeforeWal | src/internal/settlement/settler.go:294-324 | a crash between the dead-letter write and the plan write loses nothing and counts nothing twice if and only if no dead letter resolves now and every unread record does; without a FIL price, if and only if nothing is unread |
| Restarts.TornCounts | src/internal/settlement/settler.go:294-324 | how often the next cycle then counts each record |
| Restarts.TornLosesAndDuplicates | src/internal/settlement/settler.go:294-324 | a dead letter that resolves is lost, a record that does not is counted twice |
| FailingRuns.TornReachably | src/internal/settlement/settler.go:294-324 | both happen: two reachable states, one for each |
| SettlerCode.ReverseFailedItems | src/internal/settlement/settler.go:513-563 | the loop over skipped indexes, out-of-range and worthless ones ignored |
| SettlerCode.ReducePendingSpend | src/internal/settlement/settler.go:670-678 | settles every wallet of the map, whatever the walk order |
| SettlerCode.DebtByWallet | src/internal/settlement/settler.go:848-859 | per wallet the sum of its positive debts |
| SettlerCode.Settler.ConfirmBatch | src/internal/settlement/settler.go:366-482 | one batch, for every behaviour of the chain: it confirms exactly this batch if and only if the contract truthfully answers that it is final or known, and otherwise leaves the plan as it was; after a final receipt, per wallet, settled falls and debt rises by exactly the planned USD of the distinct items it lists as skipped, each new debt to the SP and for the requests of its item; after an already-processed answer no amount changes |
| SettlerCode.Settler.Finish | src/internal/settlement/settler.go:484-505 | the finishing writes in order are a run of the step machine and leave exactly this: cursor moved, settled amounts off pending, total counted, debts written, plan gone |
| SettlerCode.Settler.AddSettledTotalOnce | src/internal/settlement/settler.go:740-767 | a plan already counted is not counted again |
| SettlerCode.Settler.WriteDebts | src/internal/settlement/settler.go:842-878 | ledger and suspension set follow from the same debts |
| SettlerCode.Settler.ResumePending | src/internal/settlement/settler.go:349-506 | a run of the step machine that completes the plan if and only if every unconfirmed batch in turn gets such an answer, and otherwise stops at the first one that does not; completed or not, what has become debt of each wallet to each SP is what the final receipts of the batches it settled list as skipped |
| Cycle.CanCooperate | src/internal/settlement/settler.go:366-482 | whatever the chain has done so far there are such answers for every plan: none is ever stuck for good |
| SettlerCode.Settler.Settle | src/internal/settlement/settler.go:231-345 | one cycle, with requests admitted, finished and logged while its plan is made: a plan is written if and only if the first pass succeeded, something is due and the price is fresh, and without one nothing changes after the first pass; per wallet the plan settles or owes exactly what is due at the peek and parks the rest, a wallet whose token value under the balances passed in covers that owes nothing, and every SP gets its share; both passes move to debt exactly what the receipts list as skipped; the cycle succeeds if and only if the chain cooperates, and then, unless the price is stale, nothing billable that was logged when it began is unread |
| SettlerCode.Settler.MakeCyclePlan | src/internal/settlement/settler.go:252-324 | peek, see whether anything is due, and plan it unless the price is stale: a stale price leaves cursor, plan, debts and dead letters alone |
| Cycle.WrittenPlanPays | src/internal/settlement/settler.go:282-324 | the plan written after any requests served meanwhile bills, wallet by wallet and SP by SP, what was due at the peek under the balances and prices of the cycle |
| Cycle.ConfirmGives | src/internal/settlement/settler.go:513-563 | one settled batch moves from settled to debt exactly the skipped items of its receipt, per wallet, per SP and by request, and leaves enough settled for the batches to come |
| Cycle.ResumedGives | src/internal/settlement/settler.go:349-506 | so does a whole pass, completed or stopped |
| Cycle.CycleAdvances | src/internal/settlement/settler.go:231-345 | a cycle is stamped only by its plan, which follows the completed one, and a successful one with a fresh price leaves nothing billable unread that was logged when it began |
| Cycle.CycleApplies | src/internal/settlement/settler.go:231-345 | in every reachable state the outstanding plan covers what may be given back and what is due is metered, so these money laws apply |
| Cycle.PlanCommutes | src/internal/settlement/settler.go:252-324 | a plan made of one peek and written after any number of requests, log lines and chain steps leaves the state in which the plan came first: what was logged since stays unread and nothing else is lost |
| SettlerCode.Settler.WritePlan | src/internal/settlement/settler.go:294-324 | aggregating and freezing up to the peeked position, the log having grown since, writes exactly that plan and its dead letters |
| SettlerCode.Settler.RestorePendingSpend | src/internal/settlement/settler.go:691-726 | the restore event, with the suspension set rebuilt |
| SettlerCode.Settler.Start | src/internal/settlement/settler.go:147-162 | resume, then restore whatever is still unsettled, outstanding plan or not |
| SettlerCode.Settler.Admit | src/internal/settlement/balance.go:224-255 | granted exactly when the gate grants it; a granted reservation is the reserve event, a refused one changes nothing |
| SettlerCode.Settler.FinishRequest | src/internal/gateway/gateway.go:1172-1195 | logging the record and turning the reservation into the cost of the usage the handler keeps, billable or not, is the complete event |
| SettlerCode.Settler.AdjustBalance | src/internal/gateway/gateway.go:1677-1688 | usage with tokens is charged at its cost, none releases the reservation; without a wallet nothing happens |
| SettlerCode.Settler.DropRequest | src/internal/gateway/gateway.go:518-522 | a request that ends without a record is the release event |
| Cycle.CodeStaysReachable | src/internal/settlement/settler.go:231-345 | what is proved of reachable states holds around every call of the code |
| Reconcile.Reconciler.Run | src/internal/settlement/reconcile.go:169-234 | the running total covers exactly the log since the first pass; drift is billed less the settled and pending changes since the baseline |
| Reconcile.SystemBalance | src/internal/settlement/reconcile.go:215-234 | in-flight estimates plus stranded usage plus billed less settled is pending over all wallets, up to dust per wallet, with or without an outstanding plan; a plan off pending and not yet in the total counts exactly its settled USD |
| Reconcile.DriftIsDust | src/internal/settlement/reconcile.go:215-234 | baselined in one state and run in any later one, plan outstanding or not, the drift is the change of in-flight estimates and of stranded usage and of what is underway between pending and total, to within the dust |
| Reconcile.TakeBaseline | src/internal/settlement/reconcile.go:185-206 | the first pass of the reconciler in a state takes its baseline there and reports no drift |
| Reconcile.PassInRun | src/internal/settlement/reconcile.go:169-234 | the reconciler itself: every later pass, however many came before it, reports a drift within those bounds |
| Reconcile.Reconciler.TornRun | src/internal/settlement/reconcile.go:209-213 | a pass cut off between its cursor commit and its state save, and the reload: the total still covers the log if and only if no baseline was taken yet or the window just read costs nothing |
| Reconcile.CrashBetweenCommitAndSave | src/internal/settlement/reconcile.go:209-213 | the torn pass followed by a whole one: the report is short by exactly the window the torn pass read, or right if that was the first pass (the comment there promises the window is counted twice) |
| ReceiptStore.ScanIsLast | src/internal/settlement/merkle_store.go:210-264 | a scan finds for every id the last ledger line that carries it, and nothing else |
| ReceiptStore.RecordScanIsLast | src/internal/settlement/merkle_store.go:267-292 | a scan finds for every id its last stored record |
| ReceiptStore.LineAtStart | src/internal/settlement/settler.go:1358-1381 | offsets identify lines |
| ReceiptStore.Receipts.ReplaySidecar | src/internal/settlement/merkle_store.go:165-206 | accepted exactly when the last line's sizes are those of both data files |
| ReceiptStore.Receipts.RebuildFromData | src/internal/settlement/merkle_store.go:210-264 | both indexes are the scans and the new sidecar accounts for everything, but for records of ids no ledger line carries |
| ReceiptStore.Receipts.Warm | src/internal/settlement/merkle_store.go:153-160 | from any state a crash can leave, the merkle index is the scan of the ledger, and the record index the scan of the store but for exactly what an accepted sidecar lacks, which is never an id the ledger vouches for |
| ReceiptStore.Receipts.AppendReceiptRecord | src/internal/settlement/merkle_store.go:67-87 | appends one line and returns its place; a crash right after is recoverable |
| ReceiptStore.Receipts.StoreRecords | src/internal/settlement/settler.go:1276-1287 | exactly the records of the rows are appended, where the scan finds them, rows thinned, a crash anywhere recoverable |
| ReceiptStore.Receipts.AppendMerkleLedger | src/internal/settlement/settler.go:1264-1319 | idempotent by details hash; otherwise the records, one more thin line that vouches for exactly their ids, and indexes that know them |
| ReceiptStore.Receipts.FindMerkleBatch | src/internal/settlement/settler.go:1331-1355 | the last ledger line that carries the id; a miss means that no line does |
| ReceiptStore.Receipts.LoadRecord | src/internal/settlement/merkle_store.go:90-119 | the last record stored for the id if and only if the index has not lost it; what a start loses is given by the files, and an id the ledger vouches for is always found |
| ReceiptStore.Receipts.BuildReceiptProof | src/internal/settlement/merkle.go:190-253 | a proof exactly for ledgered ids, from the last batch with the id, with the embedded or else the loaded record; it verifies against the details hash, and every id with a receipt leaf is served with its record |
| ReceiptStore.MissingBetween | src/internal/settlement/merkle_store.go:165-206 | what a start on an accepted sidecar misses: every stored id no line carries, none that a line has a receipt leaf for |
| ReceiptStore.OrphanThenDebt | src/internal/settlement/merkle_store.go:210-264 | between the two bounds a record can be lost: the run of a record cut off from its line, a rebuild, and a debt line for the same id |
| ReceiptStore.PlannedBatchIsSelfChecking | src/internal/settlement/settler.go:597-629 | every batch a plan freezes can be ledgered: what is served for it verifies, and its receipt leaves are exactly those with a record |
| ReceiptStore.ColdAppendHidesGap | src/internal/settlement/settler.go:1304-1318 | why the index is warmed first: a cold append after a gap makes an incomplete sidecar look complete |
| Migration.MigrateFatLedger | src/internal/settlement/migrate.go:38-166 | nothing to do without a ledger, refused once a record store exists, otherwise the directory after as many of the four renames as the process lives to do |
| Migration.Rewrite | src/internal/settlement/migrate.go:86-143 | thin lines, moved records and sidecar with running offsets |
| Migration.MigrationPreservesProofs | src/internal/settlement/migrate.go:76-161 | for every id and everything served for it: same leaf, index, path, root and hashes after, and any record served before is the record served after |
| Migration.ServeAcrossMigration | src/internal/settlement/migrate.go:38-166 | the same of the serving code itself: a process on the old files and one started on the migrated ones serve the same proof, and the same record if there was one; nothing new is served |
| Migration.ServeAtEveryStage | src/internal/settlement/migrate.go:147-161 | started on the files after any of the four renames the serving code answers as it does after all of them, except that after three it serves nothing |
| Migration.SecondRun | src/internal/settlement/migrate.go:39-52 | a second run is refused after one, two or four renames if any record was moved, finds no ledger after three, and runs through if nothing was moved |
| Migration.MigratedFilesOk | src/internal/settlement/migrate.go:123-161 | the migrated files are a sound start for the receipt store |
| Migration.VouchedMoved | src/internal/settlement/migrate.go:86-143 | if receipt leaves had their records embedded, every id the thin ledger vouches for has its record stored |
| Migration.MigratedSidecarIsRebuild | src/internal/settlement/migrate.go:123-136 | the written sidecar accounts for both new files completely and replays to what a rebuild of them gives |
| Migration.InterruptedMigration | src/internal/settlement/migrate.go:147-161 | stopped between renames an id keeps its last batch except while neither ledger is in place, when nothing is served (the comment there overlooks this window) |
| Migration.NewSidecarOldLedger | src/internal/settlement/migrate.go:153-159 | with the new sidecar beside the old ledger a start trusts it if and only if the two ledgers are the same |
| SseFilter.SseCaptureWriter.ProcessLine | src/internal/gateway/gateway.go:2012-2091 | one line: suppressed, held, captured or forwarded and metered |
| SseFilter.SseCaptureWriter.Write | src/internal/gateway/gateway.go:2161-2196 | one write does what feeding its bytes to the line machine does, sampling included |
| SseFilter.SseCaptureWriter.FlushHeld | src/internal/gateway/gateway.go:2096-2114 | pending tail, held error and end marker, in that order |
| SseFilter.SseCaptureWriter.FinishClean | src/internal/gateway/gateway.go:2118-2131 | pending tail and end marker |
| SseFilter.ChunkIndependence | src/internal/gateway/gateway.go:2161-2196 | any cut of the bytes into writes sends the same bytes and ends in the same state |
| SseFilter.CaptureIndependence | src/internal/gateway/gateway.go:2163-2170 | the bounded sample does not depend on the cut and is a prefix of the bytes |
| SseFilter.FilterRemovesEvents | src/internal/gateway/gateway.go:2012-2091 | of a stream of single-line events the client gets the printed list without the suppressed events and their terminators, and nothing else |
| SseFilter.FeedKeepsUnended | src/internal/gateway/gateway.go:2025-2029 | however a stream is fed, no end marker is sent before it is ended |
| SseFilter.ExactlyOneDone | src/internal/gateway/gateway.go:2096-2131 | both ways of ending send the end marker last, and exactly once if and only if the reply did not break off behind its own marker before the newline |
| SseFilter.DoneTwice | src/internal/gateway/gateway.go:2118-2131 | the failing input: the filter fed a marker without its newline and ended cleanly sends two |
| StreamLines.ReplyRead | src/internal/gateway/gateway.go:2025-2068 | read off the lines of a reply alone, however it is cut into writes: the filter ends with its last usage, its last receipt, its last error event and the first message that says anything, and knows whether it said it was done |
| StreamLines.CapturedIsPrefix | src/internal/gateway/gateway.go:2163-2170 | the sample is the whole reply, or exactly its first bytes up to the cap |
| StreamResume.TryResume | src/internal/gateway/gateway.go:1202-1257 | a continuation is granted exactly under the stated conditions, to a capable worker, with the delivered text and the rest of the budget |
| StreamResume.ServeSegment | src/internal/gateway/gateway.go:895-1083 | one segment through the filter and what is decided after it is the specified turn; when that goes on and how it ends is told by `ResumeLaws` |
| StreamResume.HandleStreaming | src/internal/gateway/gateway.go:842-1083 | for every script of interruptions the loop plays it as specified, and what it plays has the properties of the next rows |
| StreamResume.StreamContinues | src/internal/gateway/gateway.go:842-1083 | over every script: what the client had at each request is a growing prefix of its bytes holding exactly the tokens of the requests before; each continuation is given the text decoded from just those bytes, and its limit plus those tokens is the original budget; the client decodes the tokens counted and those of an unfinished line the end sends along; workers that honour their limits stay within the budget in total |
| StreamResume.StreamIsDriven | src/internal/gateway/gateway.go:842-1083 | one request per attempt: it gets what its worker sends on top of the bytes the client has, and the next request, or the end, goes on from the bytes that leaves |
| StreamResume.StreamCloses | src/internal/gateway/gateway.go:2096-2131 | a client that stays to the end gets the end marker last and once, unless the last reply broke off behind its own marker; replies of complete lines, however cut into writes, leave no such tail; nobody else gets a marker |
| ResumeLaws.StreamTold | src/internal/gateway/gateway.go:895-1083 | every stream attempt by attempt, from what the workers did and the bytes the client had: while the client has nothing the same request goes to another worker if one is on offer; after that it goes on with a continuation exactly if the reply broke off before its marker or carried an error message and the stream is not stuck; and each way of ending has its condition |
| ResumeLaws.StreamEnds | src/internal/gateway/gateway.go:957-1083 | a started stream whose client stays is interrupted only if the resumes are used up, the deadline passed, the text in its bytes is empty or over the cap, less than one token of the budget is left, no offered or queued worker can continue, or the request cannot be rebuilt; it ends cleanly if and only if its last reply neither broke off before its own marker nor carried an error message; its bytes then end with the unfinished line of that reply, after an interruption its last error event, and the marker |
| ResumeLaws.SuccessorIsFirst | src/internal/gateway/gateway.go:1221-1244 | the worker asked to continue is the first on offer that can, and the queued one only if none is |
| ResumeLaws.SegmentWithin | src/internal/gateway/gateway.go:2079-2086 | the kept text is given up exactly when the text in the client's bytes is over the cap |
| ResumeLaws.ResumedOnce | src/internal/gateway/gateway.go:1061-1065 | a reply of one word that breaks off and one capable worker on offer: two requests, the second for the rest, and a clean end |
| ResumeLaws.SilentError | src/internal/gateway/gateway.go:2054-2066 | the failing input for error events as such: one with an empty message is held back and the stream ends cleanly without it |
| StreamResume.PumpKeepsMetered | src/internal/gateway/gateway.go:2072-2088 | the delivered count and the kept text are those decoded from the bytes actually sent |
| StreamResume.SpliceKeepsEvents | src/internal/gateway/gateway.go:965-977 | a continuation is spliced in unseen by the event parser if and only if the break fell between two events |
| StreamResume.SpliceJoinsEvents | src/internal/gateway/gateway.go:965-977 | the failing input: a segment that breaks off between a data line and its blank line and a second one on top of it, after which the client's parser has one event of the two lines |
| RateLimits.TokenBucket.AllowAt | src/internal/gateway/ratelimit.go:37-54 | one call of the bucket; what it answers over a run is in the rows of `WindowBound` and `AnswerCalls` |
| RateLimits.WindowBound | src/internal/gateway/ratelimit.go:37-54 | in any run with a non-decreasing clock any window admits at most burst + rate x length |
| RateLaws.AnswerCalls | src/internal/gateway/ratelimit.go:37-54 | a bucket asked at any non-decreasing times refuses a call if and only if less than one token is left of its initial tokens, or of a full burst at some earlier call, with what accrued since less what was granted since: no call is refused for less |
| RateLimits.InFlightLimiter.Acquire | src/internal/gateway/ratelimit.go:131-143 | refused exactly at the cap, never without one; the counter is the number of unreleased slots |
| RateLimits.InFlightLimiter.Release | src/internal/gateway/ratelimit.go:145-153 | releasing twice is releasing once |
| RateLimits.IpLimiter.Allow | src/internal/gateway/spregister.go:667-689 | one call, pruning a full table first, decided by the tokens the address has |
| RateLimits.IpLimiter.Prune | src/internal/gateway/spregister.go:692-698 | exactly the completely refilled buckets go |
| RateLimits.PruningChangesNothing | src/internal/gateway/spregister.go:667-698 | over any run with a non-decreasing clock the pruning limiter decides like one that never prunes |
| RateLimits.AnswerAll | src/internal/gateway/spregister.go:667-698 | the limiter itself, from its start, answers any such run like one that never prunes |
| RateLaws.AnswerAddresses | src/internal/gateway/spregister.go:667-698 | the per-address limiter, pruning included, refuses a call if and only if the calls of that address alone have, from one of them on, used up the burst and what accrued since |
| Workers.Registry.RegisterWorker | src/internal/worker/registry.go:89-171 | a new worker is offline; a known one keeps state, proof and payout unless given |
| Workers.Registry.RecordPoll | src/internal/worker/registry.go:367-443 | the pending switch outranks the polled engine state; stuck loading becomes offline |
| Workers.Registry.Switch | src/internal/worker/registry.go:453-470 | marks and hides the worker unless it already has the model |
| Workers.Registry.RecordFailure | src/internal/worker/registry.go:475-489 | counts, and advises offline exactly at the threshold for a worker not offline yet |
| Workers.Registry.TakeOffline | src/internal/worker/registry.go:493-510 | offline, whatever the switch |
| Workers.Registry.List | src/internal/worker/registry.go:202-213 | copies of all workers with their in-flight counts |
| Workers.Registry.IncInflight | src/internal/worker/registry.go:61-65 | one more for this worker, the others unchanged |
| Workers.Registry.DecInflight | src/internal/worker/registry.go:68-77 | one less, never below zero, the others unchanged |
| Workers.SwitchingIsHidden | src/internal/worker/registry.go:367-470 | in every reachable registry a worker with a switch target is loading or offline |
| Workers.SwitchEndsOnlyByPoll | src/internal/worker/registry.go:390-404 | the target is cleared if and only if a successful poll reports it loaded or comes after the timeout |
| Workers.TimeoutClears | src/internal/worker/registry.go:395-401 | the first poll after the timeout ends a hung switch and leaves the worker offline |
| Workers.SelectWorkerForModel | src/internal/gateway/router.go:47-150 | the member of the preferred group that the draw picks, or none exactly if no eligible worker can serve the model |
| Workers.WeightedPick | src/internal/gateway/router.go:222-247 | a candidate is picked exactly for the draws in its own stretch of the cumulated weights |
| Workers.PickUnique | src/internal/gateway/router.go:222-247 | each draw allows one pick |
| Workers.SelectWithAffinity | src/internal/gateway/gateway.go:345-362 | the sticky worker if it still serves the model and is not banned, else the router's answer for the draw |
| Workers.SwitchingNeverRouted | src/internal/gateway/router.go:56-70 | routing over a registry of any history, with or without a session: what is returned is registered and not switching models |
| Workers.AffinityAndAdmission | src/internal/gateway/gateway.go:345-355 | a sticky worker is one the router would admit if and only if it is not self-registered without proof while the gate is on |
| Workers.StickyPastTheGate | src/internal/gateway/gateway.go:345-355 | such a worker is reachable: admitted while its proof was good, still sticky after losing it |
| RoutingLaws.WhoIsPreferred | src/internal/gateway/router.go:113-147 | a named model goes to a worker that has it, unless none does, or all that do are over the factor and an idle one could switch: then to one that could switch |
| RoutingLaws.AnyoneIsPreferred | src/internal/gateway/router.go:95-98 | any model goes to any eligible worker |
| RoutingLaws.ShareOfDraws | src/internal/gateway/router.go:222-247 | the draws that pick a candidate are as many as its share of the weight |
| RoutingLaws.IdleWeight | src/internal/gateway/router.go:287-304 | an idle worker weighs its GPUs, at least one |
| RoutingLaws.BusyWeight | src/internal/gateway/router.go:287-304 | a busy one weighs its GPUs shared among them and its requests, and not below one |
| RoutingLaws.YieldingWeight | src/internal/gateway/router.go:274-304 | within a minute of an announced yield the weight is a twentieth, before that unchanged |
| RoutingLaws.RoutableAfterPoll | src/internal/worker/registry.go:367-443 | after a poll a worker can be sent requests if and only if its GPU is available, its engine runs and no switch is pending; busy if and only if it then reports requests |
| RoutingLaws.LoadingTimesOut | src/internal/worker/registry.go:408-422 | a worker found loading in every poll is loading until the timeout, counted from the first of them, and offline after it |
| RoutingLaws.FailuresInARow | src/internal/worker/registry.go:475-489 | over any run the failure count is that of the failed polls since the last successful one |
| RoutingLaws.SwitchHides | src/internal/worker/registry.go:453-470 | asking for a model the worker does not have notes the target and hides the worker from the router |
| RoutingLaws.SwitchLasts | src/internal/worker/registry.go:367-470 | and over any run it stays hidden, whatever its polls report, until one reports the target or comes after the timeout, another switch, a restart or its leaving |
| RoutingLaws.WeightPathMatches | src/internal/gateway/router.go:164-195 | a model loaded from a weight directory is the one requested by its public name |
| RoutingLaws.RecordLasts | src/internal/worker/registry.go:284-324 | over any run bans and proofs are changed only by the calls that set them, and a self-registered worker stays one: polls, switches, failures, restarts and registering again change none of it |
| RoutingLaws.BannedGetsNothing | src/internal/gateway/router.go:70-93 | so over any run a banned worker is sent nothing before its ban ends, and a self-registered one without any proof nothing while the gate is on |
| RoutingLaws.RegisterAgain | src/internal/worker/registry.go:89-171 | registering again keeps state, model and switch, and takes a model list or payout only when it brings one |

## Left out

- HTTP handlers, reverse proxying, TLS, metrics, logging texts, configuration and the web UI: plumbing.
- Price feeds, finality polling and gas of the chain client: only their answers appear, as parameters and chain events.
- Decimal text and precision of USD amounts in the plan file: exact values are carried instead.
- Signatures of receipts: opaque strings inside leaves.
- Log timestamps and file sizes in cursors: carried by the code, never decided on.
- A plan file without planned USD per item, as older versions wrote: such items are not reversed.
- Deletion of the plan file failing on disk: the plan would be replayed and pending spend reduced twice.
- The per-request items ledger and the audit log: append-only copies of what the receipt ledger holds.
- The per-batch token total on items that the contract ignores.
- SettlerCode.Settler.ConfirmBatch: does not append to the receipt ledger, because the append comes after the confirmation is durable and may be lost in a crash; `ReceiptStore` models it on its own.
- PendingLaw.PendingConserved: runs in which an adjustment finds no entry or a restart misses the restore condition are not covered, because the law fails there exactly as `AdjustWithoutEntry`, `RestoreWithoutPlan` and `RestoreAfterPlan` say.
- ReceiptStore.Receipts.FindMerkleBatch: the second rebuild for an unreadable offset is missing, because an indexed offset is always readable.
- ReceiptStore: lines that do not parse, which the scans skip.
- SseFilter: writes to a client that fail part-way, and the unfiltered mode, whose marker counting depends on the cut of the bytes.
- StreamResume.SpliceKeepsEvents: lines end at LF or CR LF; a lone CR, which the standard also takes for a line end, is an ordinary character here as in the filter.
- StreamResume.HandleStreaming: the set of workers already tried only steers the registry's offers, which are part of the script.
- RateLimits: the lookup of a key's limiter and the defaults of its configuration.
- Workers: format checks of ids and URLs are one flag; features and receipt keys of workers, which routing does not read.
- Workers.Registry: deregistration, bans, proof lists and yield estimates are events of the reachable states without a method of their own, because their code is a single assignment.
- The floating-point fallback of the weighted pick: with exact weights it is never reached.
