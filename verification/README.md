# Kael atomic swap: a verified model

This Dafny project models one Kael cross-chain swap from the contracts up to the
wallets, and proves that the whole keeps its promise: an honest party that gives
up its own leg gets the other one.

The model has five layers; each is proved against the one below.

- **Contracts** (`Ledger`, `Contracts`). `HashedTimelock` and `Settlement` over
  balances, allowances and storage. A transaction is a tree of calls: paying ETH
  runs the payee's code, which may call back to any depth and may refuse, which
  reverts its caller. `Contracts` holds the stateful contracts with snapshot and
  restore; `Ledger` is the specification they are proved equal to. `SmallSteps`
  cuts a call tree at the callbacks, `Effects` says what one step changes,
  `LedgerInvariants` and `LedgerTheorems` what every history keeps, and `CallLaws`
  exactly when each call goes through and what its errors mean.
- **Index** (`Tracker`, `TrackerAgreement`, `Observer`). The tracker over the event
  log, the windowed poller, discovery and the depth-gated read of a lock.
- **Decisions** (`Verify`, `StateMachine`, `Handshake`). Saturating u64 timelock
  checks, the ten-state machine, roles and contexts from an order pair.
- **Executor** (`Executor`, `SwapSystem`, `WalletRuns`, `WalletTheorems`,
  `MakerSafety`, `TakerSafety`, `Receipts`, `Completion`, `QuietSteps`, `Deployment`,
  `Failures`). The stateful executor, and a machine of one wallet, two chains and
  everybody else: others may mine any transactions and let time pass before each of
  the executor's reads and before its broadcast lands; any read may fail; a broadcast
  may be lost, revert or go unreported. Atomicity, run discipline and the fate of an
  expired leg are statements over every run of that machine; completion joins two of
  them, `Deployment` starts that from freshly deployed contracts and two orders, and
  `Failures` reaches, from there, each way a swap can go wrong.
- **Order book** (`Encoding`, `Orders`, `Matching`, `Book`). EIP-712 layout and
  signature checks on both sides, price-time matching, the deduplicating book.

SHA-256, keccak256 and public-key recovery are uninterpreted functions. Where a
result needs that keccak256 does not collide, its precondition says so for the two
inputs at hand (`Collides`, `DigestsCollide`). That SHA-256 has one preimage for a
hashlock (`OnePreimage`) is assumed in one corollary, `MakerCollectsOnePreimage`;
the results behind it say instead which two reads have to agree.

Results over runs assume that a receipt comes back exactly when the transaction took
effect (`TruthfulRun`). The executor does not check a receipt's status, so this is an
assumption about the network; `Receipts` proves that it is exactly what the executor's
own bookkeeping needs, and what is lost without it.

## What the proofs turned up

- **Late redeems.** Taker atomicity needs redeems to be mined before the maker
  leg's timelock; the executor does not bound how long a broadcast may take.
  `TakerAtomicity` proves it under that condition, `PromptIsTimely` that mining
  within the gap is enough, `LateRedeemLoses` that from every state about to redeem a
  late one can lose the leg, and `LateRedeemIsReached` that this happens.
- **Lost redeems.** A taker whose redeem is lost can go on to refund a leg that was
  withdrawn long ago (`LostRedeemIsReached`); one whose redeems are mined in time never
  does (`TakerRefundsOpenLegs`), and a maker never does (`MakerRefundsOpenLegs`).
- **A maker that has heard the secret never refunds.** The decision looks at the
  revealed secret before the own timelock, and the index keeps preimages by hashlock,
  not by lock. If the taker's leg has passed its timelock by then, nothing the maker
  does takes effect ever again (`StrandedForGood`), and its own leg can still be open
  and expired (`StrandedIsReached`). `ExpiredLegMadeGood` says exactly when an expired
  leg is made good.
- **Unchecked receipts.** A reverted redeem or refund is taken for a success and never
  tried again (`RevertedIsFinal`, `RevertIsTakenForSuccess`); a lock whose receipt is
  missed is never refunded (`OrphanStaysOrphaned`).
- **The first lock counts.** Discovery takes the first lock under a hashlock
  (`DiscoversTheFirst`), so a stray one put there before the agreed one keeps the taker
  from redeeming (`StrayLockPreventsRedeem`).
- **Two preimages.** Should the two refreshes of a step read two secrets for one
  hashlock, the maker waits instead of redeeming (`HeardStepRedeems`).
- **Safe at expiry.** With a gap of zero, or at the end of the u64 range, a lock is
  judged Safe at the very second it stops being redeemable (`SafeAtExpiry`,
  `SafeLeavesTime`). Honest completion therefore asks that the taker's redeem comes
  strictly before the maker's timelock.
- **Tied orders.** If arrival time and digest both tie, both sides become takers
  (`RolesDifferUnlessTied`); such a swap is never found safe (`SameRoleNeverSafe`).

## Model

| member | source | states |
|---|---|---|
| `Encoding.ContractIdBindsEveryField` | contracts/src/HashedTimelock.sol:54-63 | Two locks with one contract id agree in all six fields, unless keccak256 collides on exactly these two encodings |
| `Encoding.AbiWordsInjective` | contracts/src/Order.sol:37-52 | The concatenation of left-padded 32-byte fields determines the fields |
| `Encoding.LexIsNumeric` | orderbook/src/eip712.rs:136-138 | For byte strings of one length, the byte-wise order Rust uses is the numeric order of what they denote |
| `Encoding.LockLayout` | contracts/src/HashedTimelock.sol:54-63 | A contract id is the hash of 192 bytes in which each of the six fields stands at its own offset, as one big-endian word |
| `Orders.StructBytes` | orderbook/src/eip712.rs:66-79 | The buffer filled field by field is the abi.encode of type hash and nine fields, 320 bytes (EIP-712, section Definition of encodeData) |
| `Orders.DigestIdentifiesTerms` | orderbook/src/eip712.rs:81-87 | Two orders share a digest if and only if all nine signed fields agree, collisions on these inputs aside |
| `Orders.HighSIsNumeric` | orderbook/src/eip712.rs:136-138 | The byte comparison of s with half the curve order is the numeric one |
| `Orders.VerifiersAgree` | contracts/src/Order.sol:58-83 | Book and contract accept the same signed orders with the same digest and reject for the same reason; only a failed recovery has two names |
| `Orders.AcceptedOnChain` | contracts/src/Order.sol:58-83 | The contract accepts an order if and only if there are 65 signature bytes, low s, v 27 or 28, the terms' digest recovers to the non-zero maker, and the order has not expired |
| `Orders.AcceptedOffChain` | orderbook/src/eip712.rs:89-134 | The book accepts an order on exactly the same condition |
| `Orders.RefusalsAreTrue` | orderbook/src/eip712.rs:89-134 | Each reason either side gives for refusing an order is true of it |
| `Orders.StructLayout` | contracts/src/Order.sol:37-52 | Each signed member stands at the 32-byte offset its place in the type string gives it, after the type's hash |
| `Orders.DigestLayout` | contracts/src/Order.sol:54-56 | The digest hashes 66 bytes: two markers, the domain separator, the hash of the struct |
| `Effects.NewSwapDoes` | contracts/src/HashedTimelock.sol:68-102 | A lock that goes through was absent, is now stored open with these fields, moved exactly its amount from the payer to the HTLC, and was announced once |
| `Effects.BeginHappens` | contracts/src/Settlement.sol:100-222 | The change each successful call makes before a payee's code runs, to storage, balances, log, nonces, leg records and the contracts' own approvals |
| `Effects.BeginApprovals` | contracts/test/MockERC20.sol:25-43 | Every approval after such a call, exactly: only the one set or drawn on has changed, unlimited ones excepted |
| `Contracts.HashedTimelock.NewSwap` | contracts/src/HashedTimelock.sol:68-102 | The stateful method and the specification agree on result, error and whole new state |
| `Contracts.HashedTimelock.Redeem` | contracts/src/HashedTimelock.sol:107-120 | Same for redeem, with the payee's nested calls executed inside it and every revert undone |
| `Contracts.HashedTimelock.Refund` | contracts/src/HashedTimelock.sol:123-135 | Same for refund |
| `Contracts.HashedTimelock.PayOut` | contracts/src/HashedTimelock.sol:143-150 | The payout moves the amount, runs the payee's code for ETH only, and fails without effect when refused |
| `Contracts.Settlement.AuthorizeLeg` | contracts/src/Settlement.sol:100-105 | Verifies, refuses a used nonce, consumes it; otherwise nothing changes |
| `Contracts.Settlement.SettleLeg` | contracts/src/Settlement.sol:125-161 | All checks in order, nonce and leg record written, funds received and locked; a later failure undoes all of it |
| `Contracts.Settlement.ReceiveAndLock` | contracts/src/Settlement.sol:167-190 | ETH passes through, tokens are pulled from the maker, approved for exactly the amount and locked |
| `Contracts.Settlement.RefundLeg` | contracts/src/Settlement.sol:197-222 | Marks the leg, takes the HTLC refund, forwards it to the recorded maker; a failure at any point undoes all of it |
| `Contracts.Chain.Execute` | contracts/src/HashedTimelock.sol:107-150 | A transaction with reentrant callbacks of any depth ends in the specified state, or reverts and leaves the state it found |
| `Contracts.Chain.Transact` | contracts/src/HashedTimelock.sol:68-135 | A transaction on the stateful contracts keeps all their invariants and only moves storage forward; a failed one changes nothing |
| `SmallSteps.StepsRun` | contracts/src/HashedTimelock.sol:107-150 | A call tree is a sequence of small steps (work before a callback, event after it), so what each step keeps every call keeps |
| `LedgerInvariants.StepKeepsInv` | contracts/src/HashedTimelock.sol:116-119 | Solvency, leg linking, single payout, nonce uniqueness and log truth survive every small step, also in the middle of a call |
| `LedgerInvariants.HistoryKeepsInv` | contracts/src/Settlement.sol:100-222 | They hold after every history of transactions from deployment |
| `LedgerTheorems.InvAtEveryCallback` | contracts/src/HashedTimelock.sol:143-150 | They hold at each moment a payee's code gets control, even inside a call that later reverts |
| `LedgerTheorems.HtlcCoversEveryLock` | contracts/src/HashedTimelock.sol:116-150 | After any history and at any callback the HTLC's balance of each asset covers the sum of all open locks in it, and so each one |
| `LedgerTheorems.HtlcHoldsExactlyTheLocks` | contracts/src/HashedTimelock.sol:68-135 | If nobody donates to the HTLC or names it recipient, its balance is its deployment balance plus exactly the open locks |
| `LedgerTheorems.ExecConserves` | contracts/src/Settlement.sol:149-222 | One call with everything nested in it never lowers the HTLC's surplus or Settlement's balance, and leaves them equal if nobody gives to them and no lock names them recipient |
| `LedgerTheorems.SettlementPassesOn` | contracts/src/Settlement.sol:149-222 | What Settlement itself does in one settleLeg or refundLeg leaves its own balance of every asset exactly as it was, whoever locks name as recipients |
| `LedgerTheorems.ExecEvolves` | contracts/src/HashedTimelock.sol:107-135 | One call keeps every lock's terms, flags only rise, withdrawal only before and refund only from the timelock on, the log only grows, leg records keep maker, token and amount |
| `LedgerTheorems.ExecPublishesKnown` | contracts/src/HashedTimelock.sol:104-120 | A call tree can only log preimages of a hashlock that some redeem in the tree supplied |
| `LedgerTheorems.LegPaysOneParty` | contracts/src/Settlement.sol:197-222 | Over all histories a settled leg has paid nobody, or its recipient once before the timelock, or its maker once from the timelock on |
| `LedgerTheorems.LegsAreSettlementLocks` | contracts/src/Settlement.sol:148-157 | A leg record exists if and only if the HTLC holds a lock sent by Settlement under that id; token, amount and refunded flag agree |
| `LedgerTheorems.LegNeverOverwritten` | contracts/src/Settlement.sol:153-157 | A committed leg record survives all later transactions, including another maker producing the same id |
| `LedgerTheorems.NonceCommitsOnce` | contracts/src/Settlement.sol:100-146 | No two committed authorizations or settlements share maker and nonce, no two share a leg, and a nonce is consumed exactly when some commit used it |
| `TxOutcomes.HtlcCanPay` | contracts/src/HashedTimelock.sol:143-150 | The HTLC always holds the amount of an open lock, so a standard payout cannot fail for lack of funds |
| `TxOutcomes.LockStores` | contracts/src/HashedTimelock.sol:77-101 | A lock that is mined, on either path, is new, open and as asked for, under the id the wallet computes |
| `TxOutcomes.RedeemSucceeds` | contracts/src/HashedTimelock.sol:107-120 | A redeem with the preimage before the timelock leaves the lock withdrawn, whoever was first |
| `TxOutcomes.RefundSucceeds` | contracts/src/HashedTimelock.sol:123-135 | A refund by the sender of a lock not withdrawn, at or after the timelock, leaves it refunded |
| `TxOutcomes.RefundLegSucceeds` | contracts/src/Settlement.sol:197-222 | Same for a leg refunded through Settlement by anyone |
| `TxOutcomes.PaymentStands` | contracts/src/HashedTimelock.sol:116-119 | What a paying call did before the payee's code ran still stands when the call is over, whatever that code did |
| `TxOutcomes.RedeemMeans` | contracts/src/HashedTimelock.sol:107-120 | A successful redeem, whatever its payee did, found an open lock, in time, and a preimage of its hashlock, and logged it last |
| `TxOutcomes.RefundMeans` | contracts/src/HashedTimelock.sol:123-135 | A successful refund, on either path and whatever its payee did, found an open lock whose time was up |
| `CallLaws.LockGoesThrough` | contracts/src/HashedTimelock.sol:68-102 | newSwap goes through if and only if the amount and hashlock are not zero, the timelock ahead, the id new and the funds there |
| `CallLaws.SettleGoesThrough` | contracts/src/Settlement.sol:125-190 | settleLeg goes through if and only if the caller is the maker, signed these terms for this chain, unexpired and under a fresh nonce, and the lock is sound, new and paid for |
| `CallLaws.AuthorizeGoesThrough` | contracts/src/Settlement.sol:100-105 | authorizeLeg goes through if and only if the maker signed the terms, unexpired at the time given, and the nonce is free |
| `CallLaws.RedeemGoesThrough` | contracts/src/HashedTimelock.sol:107-150 | redeem goes through if and only if the lock is open and in time, the preimage hashes to its hashlock and a payee of ETH takes it |
| `CallLaws.RefundGoesThrough` | contracts/src/HashedTimelock.sol:123-150 | refund goes through if and only if the lock is open, its time up, the caller its sender and willing to take ETH |
| `CallLaws.RefundLegGoesThrough` | contracts/src/Settlement.sol:197-222 | refundLeg goes through if and only if the leg is recorded, its lock open and expired, and its maker takes ETH |
| `CallLaws.CallsRunInTurn` | contracts/src/HashedTimelock.sol:143-146 | The calls a payee makes run one after the other on what the earlier ones left, a failed one leaving nothing |
| `CallLaws.RecipientsCodeRuns` | contracts/src/HashedTimelock.sol:116-146 | Inside a redeem that pays ETH each call of the recipient's code runs on what the earlier ones left, before the event is written |
| `CallLaws.TokenCallsMove` | contracts/test/MockERC20.sol:19-49 | After a plain token call every balance is what it was, plus what came in, minus what went out |
| `CallLaws.TokenCallsGoThrough` | contracts/test/MockERC20.sol:19-49 | A transfer needs the balance, transferFrom also the approval; ETH knows neither approvals nor transferFrom |
| `CallLaws.RefusalsAreTruthful` | contracts/src/Settlement.sol:100-222 | Every error any call ends with is true of the call and the state it found |
| `CallLaws.EveryLegWasSignedFor` | contracts/src/Settlement.sol:125-161 | Over all histories: behind every leg record there is an order its maker signed for this chain, unexpired when mined, with the leg's token and amount and a nonce now consumed |
| `CallLaws.EveryNonceWasSignedFor` | contracts/src/Settlement.sol:100-146 | Over all histories every consumed nonce was signed for by its maker |
| `Tracker.SwapTracker.OnNewSwap` | maestro/src/correlate.rs:54-84 | The leg is filed once under its hashlock; the answer says whether it is the first one there |
| `Tracker.SwapTracker.OnRedeem` | maestro/src/correlate.rs:86-101 | Marks exactly the legs with this chain and id under the preimage's hash and keeps the preimage; an unknown hash changes nothing |
| `Tracker.SwapTracker.OnRefund` | maestro/src/correlate.rs:103-111 | Marks exactly the legs with this chain and id under this hashlock |
| `Tracker.SwapTracker.FindHashlock` | maestro/src/correlate.rs:117-127 | Finds a hashlock the leg is filed under if there is one, whatever order the map is walked in |
| `Tracker.SwapTracker.TimedOut` | maestro/src/correlate.rs:142-152 | Returns exactly the unsettled legs whose timelock has come, each once if none is filed twice |
| `Tracker.PollIntoTracker` | maestro/src/watcher.rs:34-56 | Dispatching a batch of log entries gives the replay of that batch and counts every entry |
| `TrackerAgreement.IndexHasOneHome` | maestro/src/correlate.rs:117-127 | On a log the HTLC wrote, no lock is filed under two hashlocks, so hashlock_of has one answer |
| `TrackerAgreement.IndexAgreesWithStorage` | maestro/src/watcher.rs:34-56 | For a state in the contracts' invariant, the index replayed from its log holds each lock exactly once, under its own hashlock, with its timelock, amount and both flags, and nothing else |
| `TrackerAgreement.HistoryIndexAgrees` | maestro/src/correlate.rs:54-111 | The same after every history of transactions |
| `TrackerAgreement.WatchdogReport` | maestro/src/correlate.rs:142-152 | On that index timed_out names exactly the locks open in storage with timelock at most now, each once |
| `TrackerAgreement.PreimageIsTheLatest` | maestro/src/correlate.rs:86-101 | Of several preimages shown under one hashlock the index holds the one shown last, and none only if none was shown |
| `TrackerAgreement.ReplayAgainChangesNothing` | maestro/src/correlate.rs:68-99 | Reading any window of the log a second time leaves the index as it was, unless the log shows two preimages of one hash |
| `Verify.SafeExactly` | swapkit/src/verify.rs:58-143 | Safe if and only if all fields match and the timelock rules hold in unbounded arithmetic, with the one exception saturation makes, for all u64 values |
| `Verify.UnsafeExactly` | swapkit/src/verify.rs:58-143 | Each reason is given if and only if it is the first that applies: fields in order, then inverted timelocks, their gap, the time left, in unbounded arithmetic |
| `Verify.SafeWhenSumsFit` | swapkit/src/verify.rs:106-143 | When the two sums fit in u64, Safe is the plain rule |
| `Verify.TimelockDuality` | swapkit/src/verify.rs:115-134 | Maker and taker judge one pair of timelocks alike, verdict and reason, saturation included |
| `Verify.TakerSafeIsEarly` | swapkit/src/verify.rs:125-141 | A taker told Safe still has time on its own leg, even under saturation |
| `Verify.SafeLeavesTime` | swapkit/src/verify.rs:139-141 | Safe means the other lock has not yet passed its timelock; it can equal now only without a gap or at the end of the u64 range |
| `Verify.SafeAtExpiry` | swapkit/src/verify.rs:139-141 | A concrete lock judged Safe at the moment it stops being redeemable |
| `StateMachine.AdvanceNeverClimbs` | swapkit/src/sm.rs:322-358 | A rank on states never rises under any event and falls whenever the state changes |
| `StateMachine.GatedOnSafety` | swapkit/src/sm.rs:226-318 | A maker is told to lock, and a taker to redeem, if and only if it sees a safe leg in the right state |
| `StateMachine.DecidedExactly` | swapkit/src/sm.rs:226-318 | In every state and context exactly one action fits, and it is the one decided: when to generate, lock, wait, redeem, refund, finish and abort, and why |
| `StateMachine.AdvancesExactly` | swapkit/src/sm.rs:322-358 | From which states and by which events each state is entered or kept, and which events abort a swap under way |
| `StateMachine.StateIsExplained` | swapkit/src/sm.rs:322-358 | Over all sequences of events the state is never ahead of what was confirmed: no locked leg without its confirmation, no redeem or refund without theirs, never both |
| `StateMachine.RegularCourses` | swapkit/src/sm.rs:333-353 | The events of a regular swap lead each role to CounterpartyRedeemed, those of an expired one to Refunded |
| `Observer.CreationBlock` | swapkit/src/chain.rs:148-164 | The first block announcing the lock, or none if no block does |
| `Observer.DepthGate` | swapkit/src/chain.rs:168-213 | For every depth asked for: Confirmed if and only if the lock is open in storage and the block announcing it is that deep, Shallow if and only if open and not, Absent if and only if not open; a confirmed lock is the record, field for field |
| `Observer.CounterpartyObserver.Poll` | swapkit/src/exec/observe.rs:37-58 | Reads exactly the blocks from next_block to the head, nothing if the head is behind, and changes nothing if the node does not answer |
| `Observer.CounterpartyObserver.Observe` | swapkit/src/exec/observe.rs:70-84 | Poll, discover, then the depth-gated read of the discovered lock; a call that fails gives no observation and keeps what was polled |
| `Observer.CounterpartyObserver.DiscoverContractId` | swapkit/src/exec/observe.rs:61-68 | The first leg on this chain under the hashlock |
| `Observer.WindowsAreOneReplay` | swapkit/src/exec/observe.rs:37-58 | For any sequence of heads, rising or falling, the windows fetch every entry read exactly once and in order, and the index is that of one replay from block zero |
| `Observer.OwnLogIsReadable` | maestro/src/watcher.rs:49-54 | On the HTLC's own log the dispatch never depends on the order of the tracker's hash map |
| `Observer.DiscoversTheFirst` | swapkit/src/exec/observe.rs:61-68 | Discovery finds a lock if and only if it is the first one announced under the hashlock in what was read |
| `Observer.ObservesTheFirst` | swapkit/src/exec/observe.rs:70-84 | End to end: what is observed is the first lock announced under the hashlock in what was polled, Confirmed or Shallow exactly by whether it is open and deep enough where the read sees it |
| `Observer.NothingToObserve` | swapkit/src/exec/observe.rs:70-84 | With no lock announced under the hashlock the answer is Absent, whether or not the node would answer |
| `Observer.PollRemembers` | swapkit/src/exec/observe.rs:61-89 | A discovered id never changes, a revealed secret never disappears, and a revealed secret opens its hashlock |
| `Executor.WalletExecutor.RefreshObservations` | swapkit/src/exec/mod.rs:159-180 | The state after one refresh, also when the hashlock is missing or any of its reads fails, and which error it returns |
| `Executor.WalletExecutor.ReverifiedAction` | swapkit/src/exec/mod.rs:182-185 | The action decided on a fresh refresh, or the read error |
| `Executor.WalletExecutor.LockMyLeg` | swapkit/src/exec/mod.rs:202-249 | Re-observes, sends only a still matching lock, records it when answered; a failed read ends the step |
| `Executor.WalletExecutor.RedeemCounterpartyLeg` | swapkit/src/exec/mod.rs:251-271 | Same for the redeem of the discovered lock |
| `Executor.WalletExecutor.RefundMyLeg` | swapkit/src/exec/mod.rs:272-289 | Waits before the timelock, then refunds the own lock on the path it was made |
| `Executor.WalletExecutor.Step` | swapkit/src/exec/mod.rs:187-300 | One step from any state, with any read failing, gives the specified wallet, result and broadcast |
| `Executor.StepSendsWhatIsDue` | swapkit/src/exec/mod.rs:187-289 | A step sends a transaction if and only if it is due: a lock or redeem decided on both of two answered refreshes and not made yet or discovered, a refund decided once, past the timelock, with the own id known |
| `Executor.StepReturnsExactly` | swapkit/src/exec/mod.rs:187-300 | The outcome or error of a step is exactly what its reads, its two decisions and the network's answer call for |
| `Executor.StepReportsWhatHappened` | swapkit/src/exec/mod.rs:202-300 | A lock, redeem or refund is reported exactly when that transaction was sent and answered, with the state and id it leaves; a failed one leaves the state for another try |
| `Executor.KnownLockIsNotMadeAgain` | swapkit/src/exec/mod.rs:217-230 | A step that waits leaves the state alone, except that a wallet about to lock that knows its own lock already moves on without sending |
| `Executor.WalletExecutor.Run` | swapkit/src/exec/mod.rs:302-319 | Over the plain sequence of steps: the error of the first that fails, or the state of the first that ends or aborts the swap or leaves a terminal state, with that wallet; MaxStepsExceeded if and only if no step does |
| `SwapSystem.MovesOutlived` | swapkit/src/exec/mod.rs:159-180 | Whatever others do between two reads leaves the wallet alone and only moves both chains forward |
| `WalletRuns.RefreshKnows` | swapkit/src/exec/mod.rs:159-180 | After a refresh that others interleave with, complete or cut short by a failed read, the discovered id names a stored lock with this hashlock and is the one known before; after a complete one the gated lock was that record, open and as deep as required, when read |
| `WalletRuns.RefreshHearsSecret` | swapkit/src/exec/mod.rs:172-175 | A secret is known after a complete refresh if and only if it was before or the own log opens the hashlock by then |
| `WalletRuns.RunIsHonest` | swapkit/src/exec/mod.rs:187-319 | The executor's invariant over every run in which receipts come back exactly for transactions that took effect, both roles, against arbitrary other parties |
| `WalletTheorems.RunDiscipline` | swapkit/src/exec/mod.rs:187-319 | Along such runs: at most one lock, then at most one redeem or one refund, never both; the own id is known exactly when the lock was made; the only abort reachable is an unsafe counterparty before any lock |
| `WalletTheorems.NextNeverClimbs` | swapkit/src/sm.rs:322-358 | Given true receipts the rank never rises and falls with each transaction that takes effect |
| `WalletTheorems.BroadcastIsReverified` | swapkit/src/exec/mod.rs:202-271 | A lock or redeem is sent only as the action planned and decided again on the last refresh; where the gate applies that refresh saw a safe leg, which was the chain's record of the id the redeem names, open and as deep as the wallet asks for when read |
| `WalletTheorems.ExpiredLegIsActedOn` | swapkit/src/sm.rs:250-306 | Past its timelock a taker refunds; a maker refunds if and only if no secret was revealed, and otherwise goes for the taker's leg |
| `WalletTheorems.RefundAttemptWorks` | swapkit/src/exec/mod.rs:272-289 | A refund that is mined gives the leg back unless it had been withdrawn, on either path, whatever is reported |
| `WalletTheorems.MakerRefundsOpenLegs` | swapkit/src/sm.rs:297-306 | A maker's refund never targets a leg already withdrawn, up to the moment it is mined |
| `WalletTheorems.WholeStepIsStep` | swapkit/src/exec/mod.rs:187-300 | The interleaved machine's step gives the same wallet as the executor's step on what it read, whichever read failed and whatever the network reported |
| `WalletTheorems.RunStaysThrough` | swapkit/src/sm.rs:226-239 | Once in CounterpartyRedeemed or Refunded the executor sends nothing more, in any run |
| `MakerSafety.MakerAtomicity` | swapkit/src/sm.rs:278-306 | Over all truthful runs and against any taker: whenever the maker's leg is withdrawn, the secret is in that chain's log and the verified taker leg pays the maker the agreed sum, past the gap, not refundable before its timelock |
| `MakerSafety.HeardStepRedeems` | swapkit/src/exec/mod.rs:251-256 | With the secret out a maker's step ends in a redeem if and only if its two refreshes read one secret; otherwise it waits |
| `MakerSafety.MakerCollects` | swapkit/src/exec/mod.rs:251-271 | Then one whole maker step mined before the taker leg's timelock leaves that leg withdrawn and paid to the maker, whatever happens in between and whatever is reported |
| `MakerSafety.MakerCollectsOnePreimage` | swapkit/src/exec/mod.rs:251-271 | Corollary: one preimage for the hashlock makes the two refreshes agree |
| `MakerSafety.ExpiredStepBroadcasts` | swapkit/src/exec/mod.rs:251-289 | Past the own timelock a fully answered step sends a refund of the own leg; only a maker that knows the secret redeems the other leg instead, or waits if it read two secrets |
| `MakerSafety.ExpiredLegMadeGood` | swapkit/src/sm.rs:297-306 | Exactly when an expired maker leg is made good by a mined step: others had seen to it, or no secret was heard, or it was read twice alike and the taker's leg had not expired |
| `MakerSafety.WithdrawnIsPaid` | contracts/src/HashedTimelock.sol:116-117 | A withdrawn counterparty leg made exactly one payout, of the agreed sum to this wallet |
| `TakerSafety.TakerAtomicity` | swapkit/src/sm.rs:259-269 | Over all truthful runs and against any maker: if nobody guesses the secret and redeems are mined in time, then once the secret is out or the taker's leg withdrawn the swap is done, the verified maker leg paid to the taker; with its leg locked and the swap not done, the secret is hidden and the leg not withdrawn |
| `TakerSafety.TakerRefundsOpenLegs` | swapkit/src/sm.rs:250-268 | Along these runs the taker never sends a refund for a leg already withdrawn |
| `TakerSafety.PromptIsTimely` | swapkit/src/verify.rs:139-141 | Redeems mined strictly within the gap of their last verification are in time, with no overflow assumption |
| `TakerSafety.SecretLeavesWithTheRedeem` | swapkit/src/exec/mod.rs:251-271 | Along these runs the secret first becomes public through the wallet's own mined redeem of the lock it verified |
| `Receipts.AnswersAgree` | swapkit/src/exec/tx.rs:289-305 | What the wallet makes of a broadcast is what it should if and only if it was told whether the transaction took effect |
| `Receipts.ReceiptIsRightIffCallIsOk` | swapkit/src/exec/tx.rs:242-253 | For a mined transaction whose receipt arrives, unchecked as it is: if and only if the call did not revert |
| `Receipts.HonestIffTruthful` | swapkit/src/exec/mod.rs:202-289 | The executor's invariant survives a broadcast if and only if the answer is true |
| `Receipts.RevertedIsFinal` | swapkit/src/exec/mod.rs:257-288 | After a reverted redeem or refund taken for a success the wallet never tries anything again, in any run |
| `Receipts.UnheardLockIsOrphaned` | swapkit/src/exec/mod.rs:217-249 | A lock that lands without its receipt is stored, and the wallet does not know it |
| `Receipts.OrphanStaysOrphaned` | swapkit/src/exec/mod.rs:202-289 | From there on, even if told the truth, no transaction of the wallet's takes effect again and it never refunds that lock |
| `Completion.OpenLockConfirmed` | swapkit/src/chain.rs:168-213 | An open lock that is deep enough passes the gate; where one block is asked for, as soon as its block exists |
| `Completion.TakerLocks` | swapkit/src/bin/closed-testnet-swap.rs:244-247 | The taker's first step locks its leg as agreed, whatever others do during it |
| `Completion.MakerLocks` | swapkit/src/bin/closed-testnet-swap.rs:248-251 | The maker's first step finds that leg safe and locks its own, whatever parties without a preimage do during it |
| `Completion.TakerRedeems` | swapkit/src/bin/closed-testnet-swap.rs:244-247 | The taker's second step redeems the maker's leg, under the same interference |
| `Completion.MakerRedeems` | swapkit/src/bin/closed-testnet-swap.rs:248-251 | The maker's second step leaves the taker's leg withdrawn to it, whatever others do during it |
| `Completion.HonestSwapCompletes` | swapkit/src/bin/closed-testnet-swap.rs:147-268 | Two honest wallets on paired contexts, asking for any depth that is reached when they look, finish in two rounds, each leg withdrawn and paid to the other side, among parties that may do anything but use a preimage before the taker shows it or put a lock under the hashlock first |
| `Completion.OnlyFirstLockIsRedeemed` | swapkit/src/exec/observe.rs:61-68 | A wallet about to redeem names the first lock under the hashlock, and that lock is a good one |
| `Completion.StrayLockPreventsRedeem` | swapkit/src/exec/observe.rs:61-68 | Conversely, if the first lock under the hashlock is not as expected the taker never comes to redeem, in any run |
| `Failures.LateRedeemLoses` | swapkit/src/exec/mod.rs:251-271 | From every state about to redeem, a redeem that only goes out after the maker leg's timelock lets the taker lose its own leg for nothing, nobody guessing the secret |
| `Failures.LateRedeemIsReached` | swapkit/src/exec/mod.rs:251-271 | Such a run exists from freshly deployed contracts and funded accounts |
| `Failures.LostRedeemIsReached` | swapkit/src/sm.rs:250-258 | So does one in which the taker's redeem is lost, others settle both legs, and the taker goes to refund a leg already withdrawn |
| `Failures.RevertIsTakenForSuccess` | swapkit/src/exec/tx.rs:289-305 | And one in which a reverted redeem is taken for the end of the swap while the maker's leg is gone |
| `Failures.StrandedForGood` | swapkit/src/sm.rs:297-301 | Once a maker knows a secret and the taker's leg has passed its timelock, no transaction of the maker's takes effect again, in any run |
| `Failures.StrandedIsReached` | maestro/src/correlate.rs:92-94 | From freshly deployed contracts a run leads a maker there with its own leg open and expired and the taker's leg gone: the secret shown through a one-unit lock under the same hashlock |
| `Deployment.FundedLockAccepted` | contracts/src/Settlement.sol:125-190 | On a chain with no locks and no used nonces yet, a funded and approved account's lock goes through, straight into the HTLC or with a valid order through Settlement |
| `Deployment.MatchedOrdersSettle` | swapkit/src/bin/closed-testnet-swap.rs:147-268 | End to end: two orders that trade, the later one (on a tie the larger digest) the taker, contracts as deployed, accounts funded, steps within the policy's two durations, either locking path on either side: each order's maker has been paid, exactly once, all the other order sells, and so at least its own buyAmount of its buyToken on its buyChainId |
| `Deployment.BookMatchSettles` | orderbook/src/matching.rs:65-88 | Any two orders of a book that find_match pairs or that are shown together, whichever came first, settle so |
| `Handshake.RolesDifferUnlessTied` | swapkit/src/handshake.rs:25-39 | The two sides take different roles if and only if not both arrival time and digest tie; tied, both are takers |
| `Handshake.RestingOrderMakes` | swapkit/src/handshake.rs:25-39 | A side is maker if and only if its order came earlier, or at the same time with the numerically smaller digest; the other side then is taker |
| `Handshake.RolesDifferForDistinctOrders` | swapkit/src/handshake.rs:25-39 | Collisions aside, the roles differ if and only if the orders do |
| `Handshake.DerivedContextsPair` | swapkit/src/handshake.rs:49-80 | The contexts derived from one order pair expect exactly what the other side locks, and each leg runs for the policy's time for its role |
| `Handshake.TimelockOfRole` | swapkit/src/handshake.rs:58-66 | Any derived leg runs for its role's time from now, or to the end of the u64 range if that comes first |
| `Handshake.DerivedLockVerifies` | swapkit/src/handshake.rs:49-80 | A lock made from one derived context, on either path, read back through the chain, verifies Safe for the other side if and only if the gap to its timelock remains |
| `Handshake.SameRoleNeverSafe` | swapkit/src/handshake.rs:49-80 | If both sides derive the same role, neither is ever told the other's lock is safe |
| `Matching.CompatibleIsMutual` | orderbook/src/matching.rs:13-26 | Orders are compatible if and only if neither has expired and each sells the token the other buys, on the chain it buys on, and at least the amount it asks; and so either way round |
| `Matching.CmpMakersIsTotalPreorder` | orderbook/src/matching.rs:54-59 | The maker ordering is a total preorder, consistent under swapping and composition |
| `Matching.LargerThenOlderThenLowerNonce` | orderbook/src/matching.rs:54-59 | A maker ranks first if and only if it sells more, or as much and is older, or both alike with a lower nonce; they tie only in all three |
| `Matching.BestMatchFor` | orderbook/src/matching.rs:30-51 | The chosen maker trades with the taker and outranks every other that does, ties to the lower index; none is returned if and only if none trades |
| `Matching.FindMatch` | orderbook/src/matching.rs:65-88 | Two orders that trade: the first with any partner, and the best of its partners, which stands behind it; none if and only if no two orders of the book trade |
| `Matching.RankingIsRanked` | orderbook/src/book.rs:90-94 | The sorted candidates are exactly the orders this one trades with, each once, best first, ties in book order |
| `Matching.RankedIsUnique` | orderbook/src/book.rs:90-94 | Only one list is so ordered, so any stable sort gives it |
| `Matching.BestIsHead` | orderbook/src/matching.rs:65-88 | The best partner is the head of that list, and there is one if and only if the list is not empty |
| `Book.OrderBook.Submit` | orderbook/src/book.rs:65-82 | Accepts an order if and only if its maker signed it, unexpired, and its digest is new, and appends both; names Duplicate if and only if signed and seen, otherwise a true reason of the check, and changes nothing; hashes stay distinct, parallel and equal to the seen set |
| `Book.OrderBook.MatchesFor` | orderbook/src/book.rs:84-103 | The pairs shown are those of the maker's orders in book order, each with its ranking |
| `Book.OrderBook.NoReplay` | orderbook/src/book.rs:73-76 | No set of signed fields stands in the book twice, whatever its arrival times |
| `Book.PairsAreThePartners` | orderbook/src/book.rs:84-103 | A pair is shown if and only if it joins one of the maker's orders with another order it trades with |
| `Book.ShownIsTheRanking` | orderbook/src/book.rs:95-100 | What is shown under one order's hash is its whole ranking, in order |
| `Book.MatchIsShownFirst` | orderbook/src/book.rs:84-103 | The match find_match makes for an order is the first one its maker is shown |

## Left out

- RPC transport and decoding: a read is an atomic read of some moment's chain or
  fails as a whole, a send either lands or does not, and is reported or is not. A
  missing answer leaves the state it would leave in the executor; which error text it
  carries is not modelled.
- Reorganisations, gas, fees and mempool ordering: chains only grow, one block per
  transaction in the interleaved machine (any blocks in the observer's results).
- Clock skew: the wallet's clock and both chains' block times are one clock that
  never runs back.
- Narrowing of 256-bit amounts and timelocks: locks are u128 amounts and u64 times,
  as the wallet makes them; larger ones, on which the readers fail, do not occur.
- Overflow of token balances, and tokens that take fees, rebase, call back or fail
  in other ways than for lack of funds or allowance.
- VerifiersAgree: about orders the book can hold, whose amounts and times are u128 and
  u64; the contract also takes larger ones, which the book never shows it.
- RunIsHonest: assumes true receipts, as do RunDiscipline, NextNeverClimbs,
  MakerAtomicity, MakerRefundsOpenLegs, TakerAtomicity and TakerRefundsOpenLegs; the
  executor leaves this to the network, and `Receipts` says exactly what depends on it.
- MakerAtomicity: is about the leg the wallet knows to be its own; a lock that lands
  after it was reported lost is covered by `Receipts.OrphanStaysOrphaned` instead.
- HonestSwapCompletes: asks that no read fails in the four steps.
- MatchedOrdersSettle: with nobody else moving there are no further blocks, so both
  wallets ask for a depth of one; `HonestSwapCompletes` takes any depth reached.
- Storing an order's `created_at` on the locking path: it is not signed, so the
  settling order carries the signed fields only.
- The wallet's ERC-20 approval before a lock: an earlier transaction of the
  account; whether the lock then goes through is left to the ledger.
- The signed order of the settling path: its remaining fields and signature are
  fixed for the run, as is the nonce; producing a valid signature is not modelled.
- Settlement's own events, which nothing in the modelled code reads.
- `correlated` and `correlated_hashlocks` in the tracker, order-book HTTP and wire
  formats, signer allowlists, key loading, preflight checks and debug redaction.
- Timed polling: `run` takes the reads of each step as its input, so sleeping
  between steps is any passage of time.
- BestAmong: the argmin loop that the repository writes out twice, in the search
  for one taker and in the search over the whole book, is one method here.
