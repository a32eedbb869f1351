# Founder Stack in Dafny: payouts, claims, the allowlist and their arithmetic

A Dafny 4.11 model of the parts of Founder Stack that move money or let money move, with proofs that
hold for every input, every interleaving and every sequence of steps. `dafny verify dfyconfig.toml`
checks all of it.

## What is modelled

One money story, from token balances to a paid holder:

| files | subject |
|---|---|
| `Allocation`, `AllocationLaws` | balances are classified, merged by owner and floor-divided into payouts |
| `Merkle`, `ClaimTree` | the Merkle tree over the payouts, its stored proofs and their check |
| `Ledger`, `FakeChain` | the USDC ledger under the payouts, as a value and as the object updated in place |
| `Lifecycle`, `LifecycleInv`, `LifecycleProof`, `LifecycleFrames`, `LifecycleTheorems`, `LifecycleModes`, `LifecycleRecovery` | snapshot, execute, claim, failure, crash and lease expiry as a protocol of concurrent processes; its invariant; what a step leaves alone; what follows; which way and in which order a row is paid; that nothing gets stuck |
| `LifecycleGuards`, `LifecycleSteps`, `LifecycleDouble`, `LifecycleSchedule`, `LifecycleLimits` | the two guards the handlers lack: what exactly happens without each, from any state; which wallets can then be paid twice; runs from the start that get there |
| `RecordDates`, `RecordDateLimits` | the issuance's next record date over the same runs |
| `Answers`, `Server` | the same handlers as statements over mutable rows with other requests in between; every execution is a run of the protocol, and every answer has its reason at some moment of it |
| `Civil`, `AgeGate`, `Calendar` | the Gregorian calendar; the on-chain date algorithm and age gate; the reporting periods |
| `Allowlist`, `AllowlistProgram` | the transfer-hook program as steps over keyed accounts, and as handlers that assign them |
| `Resend`, `Base58` | sending a transaction at most once over an unreliable connection; base58 signatures |
| `Money`, `Isqrt` | reading and printing USDC; Newton's integer square root |
| `Text`, `Sorting`, `Sums`, `Wrappers` | numerals, UTF-8, hex, byte order; sorting; sums; `Option` and `Result` |

A step of the protocol is one database statement or transaction; every read is a step of its own, so what
a process goes on with may be out of date. A process is a value with a program counter. Time is a clock
that any step may advance.

Where the source updates fields or loops, the model has a method that does the same, proved equal to a
function of the old state; the laws are proved about that function. Where the source computes a value by
expressions, the model has a function.

## Assumptions

- A request lives less than 60 s (`maxDuration` of the execute and claim routes), the lease and the claim
  lock 120 s. A process past its limit does nothing more.
- A transfer or release that throws moved nothing; a transfer and the record written right after it are one
  step. Any other `await` may throw and a crash may come at any other point, between the escrow's funding
  and EXECUTED too, in every theorem.
- Two guards that the handlers lack bound some of what holds of them (`LifecycleInv.Guards`). They are asked
  distribution by distribution (`LifecycleInv.Rules`), each result names those it needs, and the invariant is
  proved for every choice of them:
  - the commit guard: no snapshot commits over the funded row while it is not yet EXECUTED.
    `assertSnapshotAllowed` (`apps/web/lib/server/distribution.ts:227-236`) does not ask. It is needed on a
    funded row for its table to stay, for its proofs to be served and for the escrow to pay a wallet once at
    most; and on all of them for the escrow, which they share, to stay solvent. Without it the row stays
    claimable exactly when the payable table stays the same, and the invariant survives exactly when moreover
    nobody alive is claiming (`LifecycleGuards.FundedCommitLoadsIff`, `LifecycleGuards.FundedCommitKeepsInvIff`).
  - the lease guard: no direct execution that started before the escrow was funded takes the lease of the
    funded row. The filter at `apps/web/lib/server/distribution.ts:265-268` does not ask for
    `escrowFundSignature: null`. It is needed, on funded rows only, for a wallet to be paid once over both
    sources and for the confirmed total. Without it `LifecycleSchedule.PaidTwiceIff` says who can be paid twice.
  - neither is needed for a distribution whose escrow is not funded; nor, on any row, for mutual exclusion, for
    the issuer to pay a wallet once at most and to fund an escrow once at most, for the frozen table of a row
    with a recorded payout or EXECUTED, for the total being the sum, for every transfer being made under the
    total shown, or for an execution being able to finish.
- SHA-256 is any function from byte strings to 32 bytes. Soundness of proofs assumes no collision among the
  byte strings hashed while the tree was built and the proof checked, and wallets without `|` (base58 has
  none); `Merkle.PipeInWalletConfuses` shows why.
- The Groth16 verifier is any fixed relation between proofs and signals. Nobody signs with the default
  public key; `Allowlist.DefaultKeyWouldShare` shows why that matters.
- Cluster reads are truthful. Status and height reads may fail and be taken for null or 0; `swallowed`
  records a last look at an expired signature that failed so. `Resend` says what holds either way: what is
  guaranteed when none did, and exactly when that still holds when one did.
- The UTC dates that JavaScript gives are those of the Gregorian calendar (`Civil.DateOfDay`).
- Dafny's `char` is a Unicode scalar value and strings compare by it; JavaScript compares UTF-16 units. They agree on
  wallets (ASCII).

## Model

| member | source | states |
|---|---|---|
| `LifecycleProof.StepKeeps` | apps/web/lib/server/distribution.ts:182-452 | for each choice of the two guards on each distribution, every step any process can take that respects them, at any moment, keeps the invariant of rows, processes, exclusion, accounts and escrow reserves that belongs to them |
| `LifecycleProof.RunKeeps` | apps/web/lib/server/distribution.ts:182-452 | so the invariant holds after every run that respects the chosen guards (with none chosen: after every run), over all interleavings of snapshots, executions, claims, errors at any point, retries, crashes and expiries |
| `LifecycleTheorems.MutualExclusion` | apps/web/lib/server/distribution.ts:262-282 | in every run, no two live processes pay out one distribution and no two release one allocation; the row names the live holder's lease, and it has not run out |
| `LifecycleTheorems.PaidAtMostOnce` | apps/web/lib/server/distribution.ts:399-404 | in every run, a wallet gets at most one transfer per distribution over issuer and escrow, and it is exactly its recorded payout, if the escrow of the distribution is not funded or both guards are respected on it |
| `LifecycleTheorems.IssuerPaysOnce` | apps/web/lib/server/distribution.ts:399-404 | in every run the issuer sends a wallet at most one transfer per distribution, and it is exactly its recorded payout: no allocation is transferred twice |
| `LifecycleTheorems.EscrowPaysOnce` | apps/web/lib/server/escrow.ts:117-144 | so does the escrow, if the commit guard is respected on the distribution |
| `LifecycleTheorems.FundedAtMostOnce` | apps/web/lib/server/distribution.ts:334-350 | in every run the escrow is funded at most once for a distribution, and only if the row says so |
| `LifecycleSchedule.PaidTwiceIff` | apps/web/lib/server/distribution.ts:262-268 | from any state of the invariant in which a direct execution may take the lease of a funded row: some continuation that does not commit over the row pays a wallet of the table twice if and only if its payout is open, not behind a lock that the dead left and that outlasts every such execution, and the issuer's balance covers it together with all payouts behind such locks |
| `LifecycleDouble.OthersPaidOnce` | apps/web/lib/server/distribution.ts:262-268 | whoever does not meet that condition is paid once at most in every such continuation |
| `LifecycleSchedule.PayableIsPaidTwice` | apps/web/lib/server/distribution.ts:355-418 | whoever does is paid by the escrow and by the direct execution under a schedule that is constructed |
| `LifecycleTheorems.ExecutedDirectIsPaid` | apps/web/lib/server/distribution.ts:355-452 | in every run, EXECUTED in direct mode means that every positive allocation was paid exactly once and nothing else left the issuer, if the escrow is not funded or the lease guard is respected on the distribution |
| `LifecycleTheorems.ExecutedDirectIsRecorded` | apps/web/lib/server/distribution.ts:355-452 | in every run, EXECUTED in direct mode means that every positive payout is recorded as paid |
| `LifecycleTheorems.ConfirmedTotal` | apps/web/lib/server/distribution.ts:262-297 | in every run, every issuer transfer of a distribution was made under its total as typed, together they never exceed it, and at EXECUTED they equal it, if its escrow is not funded or both guards are respected on it |
| `LifecycleTheorems.TotalIsTheSum` | apps/web/lib/server/distribution.ts:192-219 | in every run, a snapshotted total is the sum of the payouts |
| `LifecycleTheorems.PaidAtShownTotal` | apps/web/lib/server/distribution.ts:262-297 | in every run, each issuer transfer was made while its distribution was SNAPSHOTTED and showed exactly the total typed for that execution |
| `LifecycleTheorems.ShownTotalPassesGate` | apps/web/lib/server/distribution.ts:284-295 | both displayed forms of the total pass the confirm gate, and any text that passes reads as exactly the total |
| `LifecycleTheorems.EscrowSolvent` | apps/web/lib/server/escrow.ts:92-157 | with the commit guard on all distributions, the escrow balance covers the unclaimed payouts of all funded ones together |
| `LifecycleTheorems.LockedClaimIsCovered` | apps/web/lib/server/escrow.ts:129-137 | with the commit guard on all distributions, a live claim that holds its lock always finds its payout in the escrow |
| `LifecycleTheorems.MoneyIsConserved` | apps/web/lib/chain/fake.ts:266-296 | over every run, issuer, escrow and holders together keep their sum and every balance moved by exactly the logged transfers |
| `LifecycleTheorems.HolderHasRecordedPayouts` | apps/web/lib/server/escrow.ts:138-144 | with both guards on all distributions, a holder's USDC is what it was plus exactly the payouts recorded as made, over all distributions and both modes |
| `LifecycleTheorems.HolderHasAtLeastRecorded` | apps/web/lib/server/escrow.ts:138-144 | with the commit guard alone, it is that much or more, and never by more than the recorded payouts again |
| `LifecycleTheorems.StepKeepsTable` | apps/web/lib/server/distribution.ts:192-236 | no step changes a table that is paid on or executed; with the commit guard on the distribution, nor one that is funded |
| `LifecycleTheorems.TableIsFrozen` | apps/web/lib/server/distribution.ts:192-236 | in every run, from the first recorded payout on or from EXECUTED on, wallets, payouts and total stay as they are and recorded payouts stay recorded |
| `LifecycleTheorems.FundedTableIsFrozen` | apps/web/lib/server/distribution.ts:192-236 | with the commit guard on the distribution, from the funding on |
| `LifecycleTheorems.ServedProofsVerify` | apps/web/lib/server/escrow.ts:42-72 | in every run, where the integrity check passes, the proof served for any wallet with a payout verifies against the stored root |
| `LifecycleTheorems.FundedRowLoads` | apps/web/lib/server/escrow.ts:42-51 | with the commit guard on the distribution, the stored root of the funded row is always the recomputed one, and the check passes unless it was executed directly |
| `LifecycleTheorems.VerifiedIsAnAllocation` | apps/web/lib/server/escrow.ts:98-106 | in every run, where the integrity check passes, whatever wallet, amount and proof verify against the stored root are a payout of the table |
| `LifecycleModes.ModeIs` | apps/web/lib/server/distribution.ts:257-259 | a signature on the escrow means escrow; without one, a recorded payout means direct; otherwise the mode asked for |
| `LifecycleModes.BeginsAs` | apps/web/lib/server/distribution.ts:246-262 | an execution begins exactly on a snapshotted row whose total was typed, as a process in that mode, and has changed nothing yet |
| `LifecycleModes.PartlyPaidStaysDirect` | apps/web/lib/server/distribution.ts:257-259 | from any state in which a row is partly paid, its escrow is not funded and nobody alive is about to fund it, no run whatever funds it: every retry, in whatever mode it is asked for, pays directly |
| `LifecycleModes.PaysInOrder` | apps/web/lib/server/distribution.ts:359-361 | what an execution pays is exactly the payable allocations without a signature, each once, larger payouts first and equal ones by wallet |
| `LifecycleRecovery.ExecutionCanFinish` | apps/web/lib/server/distribution.ts:46-50 | from every state of every run a snapshotted distribution can still reach EXECUTED, whatever crashed, if its escrow is funded or the issuer covers what is unpaid |
| `LifecycleRecovery.ClaimCanFinish` | apps/web/lib/server/escrow.ts:117-127 | with the commit guard on all distributions, an unclaimed payout of a funded one can be claimed, whatever earlier claims crashed, and is then paid once more in full and recorded |
| `LifecycleGuards.FundedDirectOverpaysIff` | apps/web/lib/server/distribution.ts:262-268 | from any state of the invariant, if a direct execution takes the lease of a funded row and then reads it, checks the balance and pays a batch with nobody in between, the issuer has paid more than the confirmed total if and only if something was unclaimed and its balance covered that |
| `LifecycleGuards.RootsAgreeIff` | apps/web/lib/server/escrow.ts:47-49 | what the integrity check means: two tables pass under the same root if and only if their payable allocations are the same, in any order |
| `LifecycleGuards.FundedCommitLoadsIff` | apps/web/lib/server/distribution.ts:192-219 | a snapshot committed over a funded row leaves it claimable if and only if the payable table is unchanged |
| `LifecycleGuards.FundedCommitDebt` | apps/web/lib/server/distribution.ts:192-219 | the escrow then owes the new total in place of the old one and holds what it held |
| `LifecycleGuards.FundedCommitKeepsInvIff` | apps/web/lib/server/distribution.ts:192-219 | such a commit keeps the invariant if and only if the payable table is unchanged and no live process is claiming from the row |
| `LifecycleGuards.ReleaseUnrecorded` | apps/web/lib/server/escrow.ts:138-144 | a claim under way while its allocation is replaced is paid and recorded on no allocation |
| `LifecycleGuards.IdenticalSnapshotPaysTwice` | apps/web/lib/server/distribution.ts:192-219 | so from any such state even an identical snapshot lets a wallet be paid its payout twice, if the escrow holds as much again |
| `LifecycleLimits.StaleDirectExecutionPaysTwice` | apps/web/lib/server/distribution.ts:262-268 | from the start: an escrow execution fails right after funding, a stale direct one takes the lease the `finally` gave back and pays as well: 4 leave the issuer for a total of 2 |
| `LifecycleLimits.WalletPaidTwice` | apps/web/lib/server/distribution.ts:262-268 | the same run with a claim in between pays the only holder 2 from the escrow and 2 from the issuer |
| `LifecycleLimits.SnapshotAfterFundingLosesTheTable` | apps/web/lib/server/distribution.ts:192-209 | from the start: a snapshot over a funded row after a crash replaces the table the escrow was funded for |
| `ServerHandlers.Server.Await` | apps/web/lib/server/distribution.ts:12-14 | between any two statements other requests make any number of steps, and none touches this process |
| `ServerHandlers.Server.Pause` | apps/web/lib/server/distribution.ts:276-282 | after any awaited call that may throw, the process goes on where it was, is at the statement its exception leads to, or is gone; EXECUTED rows stayed EXECUTED |
| `ServerHandlers.Server.SnapshotDistribution` | apps/web/lib/server/distribution.ts:182-225 | the handler's execution is a run; on success the row holds one unpaid allocation for each row of the allocation of those holders; every answer has its reason: taken, on a row not EXECUTED, not leased and with no payout recorded; refused, on one that is, at the moment it was decided |
| `ServerHandlers.Server.CommitTable` | apps/web/lib/server/distribution.ts:193-219 | write first, check after, roll back on failure: exactly the protocol's commit step; it commits if and only if the row is not EXECUTED, has no lease that has not run out and no recorded payout, and then replaces table, total, status and generation and nothing else |
| `ServerHandlers.Server.GateExecution` | apps/web/lib/server/distribution.ts:254-256 | the gate passes exactly a snapshotted row with the typed total; each refusal says what is wrong with the row |
| `ServerHandlers.Server.StartExecution` | apps/web/lib/server/distribution.ts:257-259 | a funded escrow fixes the mode, recorded payouts fix it the other way, otherwise it is the one asked for; no row changes |
| `ServerHandlers.Server.TakeLease` | apps/web/lib/server/distribution.ts:262-268 | the conditional update is the protocol's claim step, with the clock read before it: it matches exactly a snapshotted row with that total and no live lease, and writes the lease end alone |
| `ServerHandlers.Server.PayClaimed` | apps/web/lib/server/distribution.ts:355-418 | the batch loop, interrupted or throwing at every await, is a run of the protocol, keeps track of its renewed lease, ends paid only on an EXECUTED row, and otherwise for a reason: the issuer short of the whole or of a batch, the lease lost, a call that threw, or the process dead |
| `ServerHandlers.Server.PayOne` | apps/web/lib/server/distribution.ts:377-404 | one transfer, refused exactly when the issuer holds less, and its record: the batch's unsigned allocations get its signature and nothing else changes |
| `ServerHandlers.Server.FundEscrowClaimed` | apps/web/lib/server/distribution.ts:316-352 | funding, or finding the escrow funded before, with an exception possible at every await, the re-read and `markExecuted` after funding included, is a run of the protocol and ends paid only on an EXECUTED row |
| `ServerHandlers.Server.FundOnce` | apps/web/lib/server/distribution.ts:334-350 | one issuer to escrow transfer, refused exactly when the issuer holds less, none if nothing is left; signature, mode and root recorded under our lease only |
| `ServerHandlers.Server.ReadFunding` | apps/web/lib/server/distribution.ts:316-323 | the re-read goes on to mark an escrow funded before, or to fund exactly the sum of what has no signature, with the root of the table; it fails exactly when two payable allocations share a wallet |
| `ServerHandlers.Server.ExecuteDistribution` | apps/web/lib/server/distribution.ts:240-282 | every execution, with an exception possible at every await and its `finally`, is a run of the protocol; paid or already executed means the row is EXECUTED; and every other answer was true at a moment of the call: of the row (missing, not snapshotted, other total, leased when it began), of the ledger (less than was due), of the process (dead), or a call threw |
| `ServerHandlers.ClaimTreeOf` | apps/web/lib/server/distribution.ts:308-310 | the tree built over the payable allocations has the root the protocol compares |
| `ServerHandlers.GetClaimProof` | apps/web/lib/server/escrow.ts:54-72 | a proof is served exactly when the row is intact and the wallet has a payable allocation in it; it verifies against the stored root for the first such payout |
| `ServerHandlers.Server.CheckClaim` | apps/web/lib/server/escrow.ts:92-110 | the checks of a claim against one read of the row: it may go on with the wallet's first payable allocation, unpaid, of an intact row, with a proof that verifies if one came; each refusal says what was wrong with the row, the proof or the wallet |
| `ServerHandlers.Server.StartClaim` | apps/web/lib/server/escrow.ts:92-115 | a claim that passes its checks becomes a process for the allocation and the payout that were checked; one that is refused changes nothing |
| `ServerHandlers.Server.ClaimDistribution` | apps/web/lib/server/escrow.ts:92-157 | every claim, with an exception possible at every await and its `finally`, is a run of the protocol; a claimed answer names the release of the wallet's first payable payout in the log; every other answer has its reason at a moment of the call: the checks, a live lock, a recorded signature, less in the escrow than the payout, a replaced table, a call that threw, or a dead process |
| `ServerHandlers.ServerIsSafe` | apps/web/lib/server/escrow.ts:7-10 | whatever the handlers do, in any order and however interleaved, nobody pays a distribution out beside another, the issuer pays a wallet once at most and funds an escrow once at most, and a wallet of an unfunded distribution is paid once at most; under the guards that it needs, so does the escrow, so do both together, and the escrow is solvent |
| `FakeChainPorts.FakeChain.TransferBatch` | apps/web/lib/chain/fake.ts:266-277 | debits the total and credits row by row, or changes nothing |
| `FakeChainPorts.FakeChain.Release` | apps/web/lib/chain/fake.ts:284-296 | draws the total from the escrow and credits row by row, or changes nothing |
| `Ledger.TransferConserves` | apps/web/lib/chain/fake.ts:266-277 | a transfer keeps the sum of all balances and pays every wallet what its rows say |
| `Ledger.ReleaseConserves` | apps/web/lib/chain/fake.ts:284-296 | so does a release, at the escrow's expense |
| `ClaimTree.BuildClaimTree` | packages/core/src/distribution/merkle.ts:38-67 | fails exactly on a repeated wallet or a negative payout; otherwise the root and each wallet's proof are those of the tree over the rows in wallet order |
| `ClaimTree.NextLevel` | packages/core/src/distribution/merkle.ts:51-65 | one pass joins neighbours, promotes an odd last node, and extends each wallet's proof by its sibling |
| `ClaimTree.VerifyClaimProof` | packages/core/src/distribution/merkle.ts:70-75 | decides exactly whether the hex proof folds the leaf to the root; malformed hex is false, a negative payout throws |
| `ClaimTree.StoredProofVerifies` | packages/core/src/distribution/merkle.ts:38-75 | completeness for every number of rows: the proof stored for a row verifies against the root |
| `ClaimTree.VerifiedIsARow` | packages/core/src/distribution/merkle.ts:69-75 | soundness: any leaf and any proof of any length that verify against a built root are one of its rows |
| `Merkle.FoldIsARow` | packages/core/src/distribution/merkle.ts:21-28 | sorted pairs without left/right bits and the leaf and node prefixes suffice: what folds to a tree's root is one of its leaves |
| `Merkle.PathFolds` | packages/core/src/distribution/merkle.ts:53-63 | the siblings collected for a row lead from its leaf to the root, in a tree of any shape |
| `Merkle.ProofLength` | packages/core/src/distribution/merkle.ts:51-65 | over at most 2^k rows no proof has more than k siblings |
| `Merkle.TreeForgetsOrder` | packages/core/src/distribution/merkle.ts:44-45 | every order of rows with distinct wallets gives the same tree |
| `Merkle.LeafPreimageInjective` | packages/core/src/distribution/merkle.ts:21-24 | different rows are hashed from different bytes when wallets hold no separator |
| `Merkle.OrderKeeps` | packages/core/src/distribution/merkle.ts:48-49 | the leaves are the rows, wallets ascending |
| `Merkle.SmallerFirst` | packages/core/src/distribution/merkle.ts:26-28 | an inner node is hashed from the smaller digest followed by the larger |
| `Merkle.RootCommits` | apps/web/lib/server/escrow.ts:47-49 | the root commits to the table: without collisions two row lists with distinct pipe-free wallets have the same root if and only if they hold the same rows |
| `Merkle.PipeInWalletConfuses` | packages/core/src/distribution/merkle.ts:23 | with a separator in the wallet two different rows share their leaf |
| `Allocation.ComputeRightsPool` | packages/core/src/distribution/index.ts:70-76 | refused exactly outside (0, 10000] bps or below 0; otherwise the floor of the exact share, at most the cash flow |
| `Allocation.MergeHolders` | packages/core/src/distribution/index.ts:85-104 | one entry per owner in first-seen order with first kind, first id and total, or the first account's error |
| `AllocationLaws.MergeErrorIs` | packages/core/src/distribution/index.ts:85-104 | the merge fails with an error exactly when it is the reason of the first account that has one: a negative balance, another kind than an earlier account of its owner, or a non-empty id other than the non-empty one its owner got first |
| `Allocation.AllocateHolders` | packages/core/src/distribution/index.ts:114-166 | loops, sorts and sums compute the specified allocation, errors included |
| `AllocationLaws.AllocatesIff` | packages/core/src/distribution/index.ts:114-122 | allocated exactly when the supply is positive, the pool not negative, the accounts merge and their balances do not exceed the supply; otherwise the first of these that fails is reported |
| `AllocationLaws.Conservation` | packages/core/src/distribution/index.ts:147-152 | allocated and unallocated make up the pool, the breakdown makes up the unallocated, and 0 <= dust < rows + 3 |
| `AllocationLaws.DustIsTight` | packages/core/src/distribution/index.ts:152 | the dust bound is reached |
| `AllocationLaws.RowsAreExact` | packages/core/src/distribution/index.ts:125-144 | one row per participant, each within one base unit of its exact share, largest first |
| `AllocationLaws.BreakdownIsExact` | packages/core/src/distribution/index.ts:129-152 | each line of the breakdown is the floor of its exact share: of the pool accounts, of the unregistered ones, of the supply in no account |
| `AllocationLaws.ExcludedAreExact` | packages/core/src/distribution/index.ts:137-145 | one entry per non-participant with its holding and the floor of its share, largest first |
| `AllocationLaws.PerTokenIsHonoured` | packages/core/src/distribution/index.ts:114-176 | the displayed per-token amount is the floor of a whole token's exact share, and every row of an allocation with at least k whole tokens is paid at least k times that |
| `AllocationLaws.OnlyHoldingsMatter` | packages/core/src/distribution/index.ts:114-166 | accounts that give every owner the same kind, id and total give the same result, however split |
| `AllocationLaws.OrderIndependent` | packages/core/src/distribution/index.ts:85-166 | permuting the accounts changes neither whether allocation succeeds nor its result, when no owner mixes an empty id with another |
| `AllocationLaws.OrderMattersIffMixed` | packages/core/src/distribution/index.ts:97-100 | for accounts that merge, all orders agree exactly when no owner mixes an empty id with a non-empty one |
| `AllocationLaws.ClassifiedIff` | packages/core/src/distribution/holders.ts:28-40 | a balance is a pool's exactly if its owner is a pool owner; a participant's, under an id, exactly if it is not and the last registration of the owner that accepted the agreement and is allowlisted has that non-empty id; nobody's otherwise; owner, account and amount are kept |
| `AllocationLaws.PaidAreEligible` | packages/core/src/distribution/holders.ts:22-40 | paid are exactly the owners eligible in that sense, each under the id of its registration, the floor of the exact share of all its balances |
| `AllocationLaws.ClassifiedNeverConflict` | packages/core/src/distribution/holders.ts:28-40 | classified balances never meet the conflicting-kind or conflicting-id error, in any order |
| `AllocationLaws.ClassifiedErrorIsNegative` | packages/core/src/distribution/holders.ts:28-40 | the only error they can meet is a negative balance that is really there |
| `Allocation.BatchTransfers` | packages/core/src/distribution/index.ts:264-270 | the batches in order are exactly the payable rows in order, all full but perhaps the last |
| `Civil.CivilFromUnix` | programs/fs_allowlist/programs/fs_allowlist/src/kyc.rs:74-85 | the closed arithmetic computes the calendar's own date of the timestamp, `DateAt`, for every timestamp |
| `Civil.CivilCorrect` | programs/fs_allowlist/programs/fs_allowlist/src/kyc.rs:74-85 | for every timestamp, negative ones included, a valid Gregorian date, and of all valid dates the one whose day number is the floored day |
| `Civil.CivilAdvances` | programs/fs_allowlist/programs/fs_allowlist/src/kyc.rs:74-85 | a day later, the date computed is the calendar's next one, and day 0 is 1970-01-01 |
| `Civil.CivilOrders` | programs/fs_allowlist/programs/fs_allowlist/src/kyc.rs:74-85 | later days have later dates, and only they, so the dates computed order as the days do |
| `Civil.CivilInverts` | programs/fs_allowlist/programs/fs_allowlist/src/kyc.rs:74-85 | every valid date is what the arithmetic gives for its day number |
| `AgeGate.FillDigits` | programs/fs_allowlist/programs/fs_allowlist/src/kyc.rs:122-135 | the digit array is filled exactly when all six bytes are digits and nothing stands above them |
| `AgeGate.DecodeEncode` | programs/fs_allowlist/programs/fs_allowlist/src/kyc.rs:92-135 | decoding undoes encoding up to the century |
| `AgeGate.EncodeDecode` | programs/fs_allowlist/programs/fs_allowlist/src/kyc.rs:92-135 | encoding undoes decoding: every well-formed code is that of its digits |
| `AgeGate.DateCodeReads` | programs/fs_allowlist/programs/fs_allowlist/src/kyc.rs:105-108 | the code of a timestamp shifted by whole days reads as the calendar's date of that day |
| `AgeGate.EncodingOrders` | programs/fs_allowlist/programs/fs_allowlist/src/kyc.rs:139-143 | encoded dates compare as numbers as (yy, mm, dd) does |
| `AgeGate.NormalizedIsLatest` | programs/fs_allowlist/programs/fs_allowlist/src/kyc.rs:139-144 | on a day of the years 2000 to 2099 the century rule finds, of all dates from 1900 to 2099 with those digits, the latest that lies before that day |
| `AgeGate.NormalizeRoundTripIff` | programs/fs_allowlist/programs/fs_allowlist/src/kyc.rs:139-144 | a date comes back from its code on such a day exactly if it is from 2000 on and before the day, or from the century before with its counterpart a hundred years later not before the day |
| `AgeGate.BirthBoundOk` | programs/fs_allowlist/programs/fs_allowlist/src/kyc.rs:146-151 | the gate as the program computes it is `BoundOkOn` on the calendar's date of the timestamp, of which the next five rows speak |
| `AgeGate.AgeGateSound` | programs/fs_allowlist/programs/fs_allowlist/src/kyc.rs:146-151 | a bound accepted on a day means everyone born before it is older than the minimum age that day |
| `AgeGate.AgeGateExact` | programs/fs_allowlist/programs/fs_allowlist/src/kyc.rs:112-151 | for every input and every day, accepted are exactly the well-formed bounds below which everyone is older than the minimum age that day, except the missing February 29 itself on a February 29 without counterpart |
| `AgeGate.AcceptanceMonotone` | programs/fs_allowlist/programs/fs_allowlist/src/kyc.rs:146-151 | a lower minimum age accepts whatever a higher one does |
| `AgeGate.CutoffMonotone` | programs/fs_allowlist/programs/fs_allowlist/src/kyc.rs:112-119 | the cutoff never moves back as time passes |
| `AgeGate.AcceptancePersists` | programs/fs_allowlist/programs/fs_allowlist/src/kyc.rs:146-151 | a bound once accepted stays accepted for the same proof date |
| `AgeGate.ClientBoundAccepted` | apps/web/lib/chain/devnet/kyc.ts:51-57 | for the years 2000 to 2099 and ages below 100 the client's bound is accepted on the same UTC day |
| `AllowlistProgram.Program.SubmitKycProof` | programs/fs_allowlist/programs/fs_allowlist/src/lib.rs:231-302 | checks in order, then assigns nullifier and attestation; a failure leaves every account as it was; the accounts stay where the instructions handled lead |
| `Allowlist.PolicyAcceptsIff` | programs/fs_allowlist/programs/fs_allowlist/src/lib.rs:248-264 | passing the policy checks means exactly: a non-zero nullifier, an accepted root, a revealed citizenship not blocked, a date that reads as a day at most one from the cluster's, and a bound below which everyone is older than the minimum age |
| `Allowlist.CheckedBoundIsLatest` | programs/fs_allowlist/programs/fs_allowlist/src/lib.rs:253-264 | the bound that passing checks compare is, in the years 2000 to 2099, the latest date with its digits before the day the proof is dated, which is at most one from the cluster's |
| `Allowlist.AcceptedIff` | programs/fs_allowlist/programs/fs_allowlist/src/lib.rs:105-334 | each instruction is accepted exactly when its signer is entitled by the accounts as they are and they and its arguments allow it, and then it has its effect |
| `Allowlist.RefusedBecause` | programs/fs_allowlist/programs/fs_allowlist/src/lib.rs:105-334 | every error tells the truth of the accounts, the signer and the arguments |
| `Allowlist.OnlyTheEntitled` | programs/fs_allowlist/programs/fs_allowlist/src/lib.rs:375-640 | for every instruction: a mint's admin is set by the authority while it has none and changed only by itself; an entry changes only by that admin, or on the wallet's valid, or expired or blocked, attestation; policy and roots only by the policy's admin; openings only by the mint's admin; an attestation only by the wallet's own accepted proof |
| `Allowlist.AdminStays` | programs/fs_allowlist/programs/fs_allowlist/src/lib.rs:625-640 | over every run a mint stays with its admin until that admin hands it over |
| `Allowlist.ActiveStays` | programs/fs_allowlist/programs/fs_allowlist/src/lib.rs:155-334 | over every run a wallet stays allowed until the mint's admin of the moment removes it, or its attestation has expired or is blocked |
| `Allowlist.PolicyAdminStays` | programs/fs_allowlist/programs/fs_allowlist/src/lib.rs:194-219 | over every run the policy keeps its admin and its event |
| `AllowlistProgram.Program.PushKycRoot` | programs/fs_allowlist/programs/fs_allowlist/src/lib.rs:210-219 | the new root list, oldest dropped at eight, a known root ignored |
| `AllowlistProgram.Program.Initialize` | programs/fs_allowlist/programs/fs_allowlist/src/lib.rs:105-139 | only the authority, once per mint; the mint has the admin named |
| `AllowlistProgram.Program.SetAdmin` | programs/fs_allowlist/programs/fs_allowlist/src/lib.rs:161-164 | only the admin hands the mint over |
| `AllowlistProgram.Program.InitKycConfig` | programs/fs_allowlist/programs/fs_allowlist/src/lib.rs:172-191 | only the authority, once; at most 64 blocked countries and a positive lifetime; no roots yet |
| `AllowlistProgram.Program.SetKycPolicy` | programs/fs_allowlist/programs/fs_allowlist/src/lib.rs:194-207 | only the policy admin; roots and event id stay |
| `AllowlistProgram.Program.EnableKyc` | programs/fs_allowlist/programs/fs_allowlist/src/lib.rs:222-226 | only the mint's admin opens it to attestations |
| `AllowlistProgram.Program.AddAllow` | programs/fs_allowlist/programs/fs_allowlist/src/lib.rs:144-151 | admin only; the entry becomes active |
| `AllowlistProgram.Program.RemoveAllow` | programs/fs_allowlist/programs/fs_allowlist/src/lib.rs:155-158 | admin only; the entry is kept, inactive |
| `AllowlistProgram.Program.AddAllowKyc` | programs/fs_allowlist/programs/fs_allowlist/src/lib.rs:306-322 | a valid attestation of a citizenship not blocked activates the wallet's own entry |
| `AllowlistProgram.Program.RevokeKycAllow` | programs/fs_allowlist/programs/fs_allowlist/src/lib.rs:327-334 | anyone may deactivate the entry of an expired or blocked attestation, and no other |
| `AllowlistProgram.Program.Execute` | programs/fs_allowlist/programs/fs_allowlist/src/lib.rs:338-370 | after any instructions handled, a transfer passes exactly when the last thing that happened to the destination's entry was an activation, and then by the admin of that moment or by a then-valid attestation whose holder had proved their age |
| `AllowlistProgram.ProgramIsSafe` | programs/fs_allowlist/programs/fs_allowlist/src/lib.rs:99-371 | a program that has handled any sequence of instructions, failed ones included: no two wallets hold the same nullifier, the accepted roots are the newest eight, none twice |
| `Allowlist.RunKeepsInv` | programs/fs_allowlist/programs/fs_allowlist/src/lib.rs:99-371 | over every sequence of instructions entries, admins, attestations, nullifiers and roots agree with what happened |
| `Allowlist.OneWalletPerNullifier` | programs/fs_allowlist/programs/fs_allowlist/src/lib.rs:286-296 | two wallets never hold attestations with the same nullifier |
| `Allowlist.DefaultKeyWouldShare` | programs/fs_allowlist/programs/fs_allowlist/src/lib.rs:288-291 | a record owned by the default key would read as new and let a second wallet in |
| `Allowlist.RootsAreNewest` | programs/fs_allowlist/programs/fs_allowlist/src/lib.rs:210-219 | the accepted roots are the newest eight ever pushed, in order, none twice |
| `Allowlist.HookOnlyAfterActivation` | programs/fs_allowlist/programs/fs_allowlist/src/lib.rs:338-370 | a transfer passes only to a wallet activated by the admin of that moment or by a then-valid, earned attestation, and not deactivated since |
| `Allowlist.AttestedIsOldEnough` | programs/fs_allowlist/programs/fs_allowlist/src/lib.rs:258-264 | an earned attestation means everyone below the proven bound was older than the minimum age that day |
| `Allowlist.HookMeansAdminOrProvenAge` | programs/fs_allowlist/programs/fs_allowlist/src/lib.rs:231-370 | from end to end: over every run a transfer passes only to a wallet activated by the admin of that moment, or by a then-valid attestation for which everyone below the bound proved was older than the policy's minimum age on the day of attestation |
| `Resend.Connection.PollUntilFinal` | apps/web/lib/chain/devnet/env.ts:224-267 | it ends with the first final look; confirmed and failed mean landed so; expired means the height has passed, it can no longer land, and, with the last look answered, has not landed either; it gives up only after its four minutes, and every fourth look that found nothing was followed by another broadcast |
| `Resend.Connection.SendTx` | apps/web/lib/chain/devnet/env.ts:151-192 | if every last look was answered, of all transactions signed at most one has landed or can, and not landed means none did or can; a returned transaction has landed and its last look said so; not landed comes only after a rejection or after all attempts ran out, another error only after no blockhash could be had or a poll gave up; if a last look was not answered the same holds exactly when none landed before a later one that lives, or at all |
| `Resend.Connection.SendSignedTx` | apps/web/lib/chain/devnet/env.ts:198-222 | the same for a signed transaction: if nobody had passed it on before, "not landed" means it can no longer land, and with the last look answered that it has not; each answer comes only for its reason |
| `Resend.GuaranteeLasts` | apps/web/lib/chain/devnet/env.ts:145-150 | however the cluster moves on afterwards, at most one of the transactions of a call ever lands |
| `Resend.SwallowedLookSendsTwice` | apps/web/lib/chain/devnet/env.ts:253-260 | from every state of the cluster: signed, delivered, landed, expired, looked at in vain, signed again, delivered, landed: both transactions have landed |
| `Base58.EncodeSig` | apps/web/lib/chain/devnet/env.ts:270-282 | the digit and leading-zero loops compute the base58 text; the empty byte string throws |
| `Base58.DecodeEncode` | apps/web/lib/chain/devnet/env.ts:270-282 | decoding gives back every non-empty byte string, length included |
| `Base58.EncodeDecode` | apps/web/lib/chain/devnet/env.ts:269-282 | every non-empty base58 text is the encoding of what it decodes to |
| `Base58.EncodingInjective` | apps/web/lib/chain/devnet/env.ts:270-282 | two signatures never share their text |
| `Money.FormatRoundTrip` | apps/web/lib/server/money.ts:17-35 | the plain form, alone, after a dollar sign or before the unit, is read as the amount |
| `Money.DisplayRoundTrip` | apps/web/lib/server/money.ts:17-44 | the grouped, cent-padded display is read as the amount |
| `Money.DressMakesNoDifference` | apps/web/lib/server/money.ts:21 | a dollar sign, the unit in any case and white space around an amount make no difference |
| `Money.ParsesIff` | apps/web/lib/server/money.ts:17-26 | typed or a number, a text is accepted exactly if once stripped it is digits with at most six decimals, and is worth what they say; more decimals and everything else is refused, each with its own error |
| `Money.NegativeIsRefused` | apps/web/lib/server/money.ts:22-23 | a negative amount is shown but never accepted |
| `Money.DisplayInjective` | apps/web/lib/server/money.ts:40-44 | two different amounts are never displayed alike |
| `Money.DisplayShape` | apps/web/lib/server/money.ts:29-44 | an amount is displayed as its whole dollars in groups of three and, if there are any, at least two decimals and no more than needed |
| `Isqrt.Isqrt` | apps/web/lib/server/issuance.ts:47-56 | terminates with r*r <= n < (r+1)*(r+1); below 2 the argument comes back |
| `Isqrt.RootIsUnique` | apps/web/lib/server/issuance.ts:47-56 | no other result would do |
| `Isqrt.EstimatedThreshold` | apps/web/lib/server/issuance.ts:171-172 | the estimate lies between the sold share of the starting cap and of the graduation cap |
| `Calendar.PeriodsTile` | packages/core/src/calendar/index.ts:28-42 | for every year and index: the named period holds an instant if and only if it has its own months, in its own year outside 0 to 99 or in that year's last two digits for 1900 to 1999; its own period holds it exactly outside the years 0 to 99, and then every period that holds it spans the same time |
| `Calendar.PeriodHoldsMonths` | packages/core/src/calendar/index.ts:17-38 | a quarter holds exactly the instants of its three months, a month those of its one, of the year as `Date.UTC` reads it |
| `Calendar.ParsesIff` | packages/core/src/calendar/index.ts:48-56 | which labels are read, character by character |
| `Calendar.NamedTwiceIff` | packages/core/src/calendar/index.ts:28-56 | an instant lies in a period named by another year and index exactly when its UTC year is 1900 to 1999 |
| `Calendar.PeriodsMeetIff` | packages/core/src/calendar/index.ts:28-42 | two periods share an instant exactly when they name the same months of the same year as `Date.UTC` reads it; otherwise they are disjoint |
| `Calendar.TwoDigitLabelReads` | packages/core/src/calendar/index.ts:48-56 | the second name can be written: the label of every year 0 to 99, as in "0050-Q1", is read, and its period spans that of 1900 to 1999 |
| `Calendar.YearFiftyIsMisplaced` | packages/core/src/calendar/index.ts:35-36 | New Year of the year 50 does not lie in its period: `Date.UTC` reads 50 as 1950 |
| `Calendar.NextFollows` | packages/core/src/calendar/index.ts:44-46 | the next period starts one millisecond after the record date exactly when that instant's year is not 0 to 99 |
| `Calendar.LabelsRoundTrip` | packages/core/src/calendar/index.ts:48-56 | a period's label reads back as that period exactly for the years 1000 to 9999 |
| `Calendar.RecordDateNeverMovesBack` | packages/core/src/calendar/index.ts:69-72 | over any sequence of paid periods, one after the other, the record date never moves back and ends at the latest date due |
| `RecordDates.RecordDatesNeverMoveBack` | apps/web/lib/server/distribution.ts:421-453 | over every run of concurrent executions, as long as a distribution is filed only while its issuance has no open one (`reportPeriod` checks that, but not in one step with the creation), no record date ever moves back |
| `RecordDates.PaidPeriodIs` | apps/web/lib/server/distribution.ts:433-436 | the period paid for is the label's if it is one, and otherwise the one that holds the record date as read, or the time of the payment if there is none |
| `RecordDates.MarkMovesBackIff` | apps/web/lib/server/distribution.ts:429-452 | executing a distribution moves the date back if and only if the date is later than both the one that was read with the row and the one the paid period calls for; it never ends before the latter |
| `RecordDates.SecondMarkMovesBackIff` | apps/web/lib/server/distribution.ts:429-452 | two executions of one issuance that have both read its date: marking one and then the other moves the date back if and only if the first calls for a later date than the second and than the one that stood |
| `RecordDateLimits.StaleMarkMovesBack` | apps/web/lib/server/distribution.ts:429-452 | two quarters of one issuance filed before either is executed: the date goes to the end of 2026 and back to the end of June |

## Left out

- Wallet-signed payouts (`buildDistributionSignTxs`, `applyDistributionSigned`): their payloads are built outside the lease and not compared with the rows again, so at-most-once would rest on the cluster refusing replays.
- `reportPeriod`'s input checks; a reported distribution enters the model with its id and rights pool, and in `RecordDates` with its issuance, frequency and label.
- A crash between a landed transfer and its record, and the "OUTCOME UNKNOWN" deadline of a payout: the assumptions above cover them.
- `ServerHandlers.Server.ExecuteDistribution`: says what each answer rests on and that the execution is a run of the protocol; that the money arrived is said by the theorems about runs.
- Forks, and the "processed" status as more than "keep polling".
- `Allowlist.SubmitKycProof`: the 23 public signals are a record of the ones the program takes from its caller, its policy and the wallet; the fixed ones, the wallet hash and the Groth16 pairing are inside the abstract verifier.
- 64-bit overflow at the ends of `i64` in `civil_from_unix` and `encoded_date`; the attestation's expiry does model `checked_add`.
- The range of JavaScript dates (about 271,821 years either way) and `Invalid Date` beyond it.
- Lone surrogates in strings, which `Buffer.from` replaces before hashing.
- Amounts that arrive as JavaScript numbers are taken as the text JavaScript prints for them.
- Proof ownership (`verifyOwnership`: ed25519 over the claim message), wallet parsing, memos, explorer links and every response shape.
- Yield metrics, fee projections, launch pricing, `tokenDisplay`, `pctDisplay`: single expressions or floating point.
- HTTP routes, UI, MCP forwarding, Prisma plumbing, Anchor account layout, PDA derivation and deployment.
- The fake chain's pricing, `swap` and `quote`, which the file itself calls a toy.
