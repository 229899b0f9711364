# Bet1v1 in Dafny

Two players stake the same amount on a match. A Solana program holds the stakes; an API and a worker follow the
match, pay scores out of the escrow and mirror the balances in a database; the app shows them. This project models
that path and proves what it keeps.

## What is modelled

**The escrow program.** `ProgramState` declares the accounts. `EscrowSpec` is one wager machine over a ledger of
configuration, wagers, access stakes and balances, parameterised by the asset; it is the specification of both
instruction families. `EscrowProgram` holds the handlers themselves, in place on maps of accounts, native SOL and
USDC side by side, with the runtime's rollback; each is proved to perform the machine's step. `LedgerSums`,
`EscrowInvariant`, `EscrowSteps` and `EscrowRuns` prove the invariants over every run, `EscrowExits` exactly when each
call succeeds and that money never gets stuck, `EscrowEffects` what each accepted call does to records, balances,
stakes and settings, and with it the terms of a wager and the money paid in over whole runs, `EscrowReceipts` what
every player has been paid, `EscrowRace` the closed form of incremental play, `EscrowPlay` that race in the middle of
any other transactions, `EscrowParity` that the two assets can be exchanged.

**The off-chain settlement.** `WagerRows` is a row of the wagers table under its guarded UPDATEs, `WagerLifecycle`
what they keep over a row's life, `WagersTable` the table in place behind its unique index, `QuakeServer` the
reservation of the one shared game server. `Settlement` is the protocol of one incremental wager: game worker, chain
worker, API and chain as interleaved atomic steps, one for each SQL statement or transaction and each chain call,
with duplicated events, retried jobs in any order, jobs that use up their attempts (`JobQueue`), crashes between any
two steps, transactions that land after their sender gave up, and refunds by the authority. `SettlementInvariant`,
`SettlementSteps` and `SettlementRuns` prove it correct, `SettlementCashOut` says when a cash-out records the right
balances, `SettlementLiveness` when a wager can still end and when its increments can go on, `SettlementAmounts`
compares what scoring events record with what the chain pays for them, `SettlementScores` the scores on both sides,
`SettlementPayments` follows whole payments, `SettlementLedger` proves that the protocol's chain is the escrow program on its ledger, and
`SettlementFleet` lets many wagers follow each other on the one game server and the one table of payouts.
`SettlementServices` holds the worker's and the API's statements in place and each handler as the run of its steps.
`WinnerTakeAll` is the other kind of wager: its job, its queue and the chain interleaved. `EscrowCheck` reads raw
accounts and connects the two halves, `KillScoring` decides who is credited, `BalanceDisplay` what the players are
shown.

**Around them.** `AccountLayout` (account bytes and their decoders), `MoneyText` (decimal money),
`NotificationScheduler` (superseding timed messages), `LineReader` (line reassembly in the game-server wrapper).

## Assumptions

- Program addresses are injective in their seeds, so an escrow is named by its wager id and a stake vault by its
  owner. An escrow of lamports is what the wager account holds above its rent.
- The supply of each mint fits u64; the two configured mints are not the default key; the default key signs nothing.
- One worker process with concurrency 1 on each queue, and a real chain (not the mock).
- Both sides of an incremental wager name the same increment value. Nothing on the server compares them;
  `FirstPaymentAgreesIff` shows that the assumption is needed.
- A scoring event may be read again and then be found to debit the other player. Only the exactness of the table
  (`TableExact`) needs that it does not; `CreditIsStable` says that it cannot while the two handles differ.

## Findings

- A ban needs an existing stake vault, so a player who never staked cannot be banned
  (bet1v1-solana-program/programs/bet1v1-solana-program/src/instructions/admin/ix_ban_user.rs:22-29;
  `BanSucceedsIff`, with a run from initialisation in `UnstakedCannotBeBanned`).
- A cash-out reads the balances before it sends the refund. An increment that lands in between is paid but missing
  from the recorded final balances; they are right if and only if the scores since the snapshot cancel out
  (api/src/worker.ts:428-437, api/src/chain.ts:365-377; `CashOutExactIff`, with a run in `LateIncrementMissed`).
- A row in CASHING_OUT can be left behind for good. It finishes only while its escrow is there and its job has an
  attempt left or a call is about to queue it (`FinishesIff`). Runs that end stuck: the call dies between its UPDATE
  and queueing the job (api/src/index.ts:554-571; `CallDies`); the job uses up its five attempts, which nothing
  renews (api/src/queue.ts:19-24; `AttemptsUsedUp`); adding the job reports a failure although it was stored, it runs
  out of attempts against the row rolled back, and a job under the same id is not added again
  (api/src/index.ts:567-577; `AddedInVain`); the refund lands after its sender gave up on it, and every retry finds no
  active wager (api/src/chain.ts:365-377; `RefundLandsLate`). A MATCHED row whose escrow has ended behind the table's
  back never finishes either (`FinishesIff`).
- A payout whose job uses up its attempts blocks all later ones, since the chain wants the numbers in order: while the
  queue remembers that job no increment is accepted any more, and only a cash-out or a refund ends the wager
  (api/src/worker.ts:186-192, api/src/queue.ts:19-24; `NextIncrementIff`, `GapBlocks`, with a run in `PayoutGivenUp`).
- The last increment can be recorded and announced with more than it paid: an event that is read before an earlier one
  is paid is capped by what was left then. Every other accepted increment pays exactly what is recorded, and the last
  one does if and only if its amount was still left when the chain accepted it
  (api/src/worker.ts:152-153, api/src/worker.ts:193-193; `RecordedCovers`, `RecordedAddsUpIff`, with a run in
  `StaleReading`). It cannot happen while the game worker really waits for each payment (`WaitingIsExact`).
- A winner-take-all settlement that lands before its job fails is never recorded: the row goes back to MATCHED, or
  stays in SETTLING, and the chain refuses every retry (api/src/worker.ts:253-283; `SettlesIff`, with a run in
  `PaidButNeverSettled`). Announcing a winner again does not revive a job that has used up its attempts
  (api/src/queue.ts:19-24, api/src/queue.ts:47-53; `SettlesUnforgottenIff`).
- The display of a settled incremental wager is twice the stake against nothing. The loser keeps every increment
  scored, so it is right if and only if the loser never scored (app/src/main.ts:375-379; `SettledShownExactIff`, with
  a run in `LoserMayScore`).
- The funding call takes its signature as optional. A row funded without one can no longer be declined or cancelled,
  only accepted by its opponent; and an open challenge to everybody cannot be taken back at all before it is accepted
  (api/src/index.ts:374-382, api/src/index.ts:499-544; `EndableIff`, with runs in `DeadEnds`).
- `close` of the notification scheduler does not reach a notify that still awaits its immediate send; its repeats are
  armed afterwards (api/src/quake3-rcon.ts:243-245; `CloseMissesPendingIff`, with a run in `RepeatsAfterClose`).
- A wager of K rounds with 2K - 1 beyond u32 can run out of sequence numbers and then never settles by scores
  (bet1v1-solana-program/programs/bet1v1-solana-program/src/instructions/ix_settle_increment.rs:61-65;
  `AlwaysSettlesIff` with the scores in `RaceStalls`, and on the ledger `LedgerStallsIff`).

## Model

| member | source | states |
|---|---|---|
| EscrowProgram.Program.Execute | bet1v1-solana-program/programs/bet1v1-solana-program/src/lib.rs:12-144 | one transaction, either family: ends in exactly the ledger the wager machine prescribes or, on failure, in the old one; reports the machine's error; keeps every ledger invariant |
| EscrowProgram.Program.CreateSolWager | bet1v1-solana-program/programs/bet1v1-solana-program/src/instructions/ix_sol_wager.rs:39-77 | performs the machine's creation: terms, access, transfer into escrow, both reserves set to the stake, one slot taken |
| EscrowProgram.Program.JoinSolWager | bet1v1-solana-program/programs/bet1v1-solana-program/src/instructions/ix_sol_wager.rs:114-144 | performs the machine's joining, with its four guards in order |
| EscrowProgram.Program.CancelSolWager | bet1v1-solana-program/programs/bet1v1-solana-program/src/instructions/ix_sol_wager.rs:169-182 | performs the machine's cancellation; the reserves stay on record |
| EscrowProgram.Program.DeclineSolWager | bet1v1-solana-program/programs/bet1v1-solana-program/src/instructions/ix_sol_wager.rs:198-216 | performs the machine's decline of a reserved challenge; only the maker's reserve is zeroed |
| EscrowProgram.Program.SettleSolWager | bet1v1-solana-program/programs/bet1v1-solana-program/src/instructions/ix_sol_wager.rs:252-295 | performs the machine's winner-take-all settlement |
| EscrowProgram.Program.SettleSolIncrement | bet1v1-solana-program/programs/bet1v1-solana-program/src/instructions/ix_sol_wager.rs:336-446 | performs the machine's increment: capped payout, sweep and slot release on the last one |
| EscrowProgram.Program.InvalidateSolWager | bet1v1-solana-program/programs/bet1v1-solana-program/src/instructions/ix_sol_wager.rs:482-514 | performs the machine's refund of both reserves |
| EscrowProgram.Program.CreateTokenWager | bet1v1-solana-program/programs/bet1v1-solana-program/src/instructions/ix_start_wager.rs:57-100 | performs the same creation with a token vault, which it alone makes |
| EscrowProgram.Program.JoinTokenWager | bet1v1-solana-program/programs/bet1v1-solana-program/src/instructions/ix_join_wager.rs:50-81 | performs the same joining on the vault |
| EscrowProgram.Program.CancelTokenWager | bet1v1-solana-program/programs/bet1v1-solana-program/src/instructions/ix_start_wager.rs:146-170 | performs the same cancellation on the vault |
| EscrowProgram.Program.DeclineTokenWager | bet1v1-solana-program/programs/bet1v1-solana-program/src/instructions/ix_start_wager.rs:190-219 | performs the same decline on the vault |
| EscrowProgram.Program.SettleTokenWager | bet1v1-solana-program/programs/bet1v1-solana-program/src/instructions/ix_claim_winnings.rs:57-113 | performs the same winner-take-all settlement on the vault |
| EscrowProgram.Program.SettleTokenIncrement | bet1v1-solana-program/programs/bet1v1-solana-program/src/instructions/ix_settle_increment.rs:46-169 | performs the same increment on the vault |
| EscrowProgram.Program.InvalidateTokenWager | bet1v1-solana-program/programs/bet1v1-solana-program/src/instructions/admin/ix_invalidate_wager.rs:57-113 | performs the same refund on the vault |
| EscrowProgram.Program.RefundAll | bet1v1-solana-program/programs/bet1v1-solana-program/src/instructions/admin/ix_invalidate_wager.rs:69-96 | the refund loop pays each destination in turn, skips empty amounts and stops at the first failing transfer |
| EscrowProgram.TwoRefunds | bet1v1-solana-program/programs/bet1v1-solana-program/src/instructions/admin/ix_invalidate_wager.rs:69-96 | with positive reserves the loop that skips empty amounts is the two plain transfers of the SOL instruction |
| EscrowProgram.Program.CheckIncrement | bet1v1-solana-program/programs/bet1v1-solana-program/src/instructions/ix_settle_increment.rs:52-96 | the checked arithmetic and guards of an increment, in order, give the machine's payout, transfer and error |
| EscrowProgram.Program.RecordScore | bet1v1-solana-program/programs/bet1v1-solana-program/src/instructions/ix_settle_increment.rs:117-141 | the field updates in place give the machine's wager record |
| EscrowProgram.Program.ReleaseSlots | bet1v1-solana-program/programs/bet1v1-solana-program/src/instructions/ix_settle_increment.rs:142-154 | both counters drop by one, or the whole release fails |
| EscrowProgram.Program.ValidateWagerTerms | bet1v1-solana-program/programs/bet1v1-solana-program/src/instructions/wager_helpers.rs:6-23 | accepts exactly the machine's terms, with its error for each violation |
| EscrowProgram.Program.RequireWagerAccess | bet1v1-solana-program/programs/bet1v1-solana-program/src/instructions/wager_helpers.rs:25-41 | claims an unowned stake account and applies the access rule to it |
| EscrowProgram.Program.ValidateJoin | bet1v1-solana-program/programs/bet1v1-solana-program/src/instructions/wager_helpers.rs:80-94 | the guards of joining in the order of the source |
| EscrowProgram.Program.IncrementActiveWagers | bet1v1-solana-program/programs/bet1v1-solana-program/src/instructions/wager_helpers.rs:72-78 | one more slot, or overflow at the u32 limit |
| EscrowProgram.Program.StakeTokens | bet1v1-solana-program/programs/bet1v1-solana-program/src/instructions/ix_stake.rs:43-71 | performs the machine's staking |
| EscrowProgram.Program.UnstakeTokens | bet1v1-solana-program/programs/bet1v1-solana-program/src/instructions/ix_stake.rs:104-135 | performs the machine's unstaking |
| EscrowProgram.Program.BanUser | bet1v1-solana-program/programs/bet1v1-solana-program/src/instructions/admin/ix_ban_user.rs:39-63 | performs the machine's ban: the whole stake goes to the treasury |
| EscrowProgram.Program.UpdateConfig | bet1v1-solana-program/programs/bet1v1-solana-program/src/instructions/admin/ix_set_config.rs:57-74 | performs the machine's reconfiguration; the mints stay |
| EscrowProgram.Program.Initialize | bet1v1-solana-program/programs/bet1v1-solana-program/src/instructions/admin/ix_set_config.rs:25-55 | initialize_config: rejects staking at zero required stake with its error, and otherwise starts the program in a state from which the invariants hold |
| EscrowProgram.ValidAt | bet1v1-solana-program/programs/bet1v1-solana-program/src/instructions/ix_start_wager.rs:33-41 | in a valid ledger a wager has a vault exactly when it is escrowed in USDC, so the USDC handlers, which look for the vault and never read the mint, cannot act on a SOL wager |
| EscrowParity.StepParity | bet1v1-solana-program/programs/bet1v1-solana-program/src/instructions/ix_sol_wager.rs:39-514 | exchange SOL and USDC everywhere in a ledger: any call and its mirror image both succeed and leave mirrored ledgers, or fail with one error |
| EscrowParity.RunParity | bet1v1-solana-program/programs/bet1v1-solana-program/src/instructions/ix_settle_increment.rs:46-169 | whole runs of any mixture of wagers in both assets, stakes, bans and reconfigurations map to the run with the assets exchanged, record by record and balance by balance |
| EscrowSteps.StepKeeps | bet1v1-solana-program/programs/bet1v1-solana-program/src/instructions/ix_sol_wager.rs:39-514 | every instruction of every kind keeps records, seats, counters, vaults, solvency and supply, and moves a custodial surplus only by outside deposits |
| EscrowRuns.RunKeepsValid | bet1v1-solana-program/programs/bet1v1-solana-program/src/instructions/ix_sol_wager.rs:39-514 | every run keeps the ledger valid and never changes the mints |
| EscrowRuns.RunConserves | bet1v1-solana-program/programs/bet1v1-solana-program/src/instructions/ix_sol_wager.rs:39-514 | the total of each mint over all wallets, escrows and vaults is constant over every run |
| EscrowRuns.RunSurplus | bet1v1-solana-program/programs/bet1v1-solana-program/src/instructions/ix_stake.rs:43-135 | what a custodial account holds beyond what is owed is exactly what outsiders sent there during the run |
| EscrowRuns.ExactEscrow | bet1v1-solana-program/programs/bet1v1-solana-program/src/instructions/ix_settle_increment.rs:104-141 | from initialisation on an escrow holds the stake while OPEN, both reserves while MATCHED and nothing when over, plus outside deposits |
| EscrowRuns.CounterAgreement | bet1v1-solana-program/programs/bet1v1-solana-program/src/instructions/wager_helpers.rs:72-104 | from initialisation on `active_wagers` is the number of open or matched wagers made plus matched wagers joined |
| EscrowInvariant.PayIncrementKeepsRecord | bet1v1-solana-program/programs/bet1v1-solana-program/src/instructions/ix_settle_increment.rs:77-159 | an accepted increment keeps the reserves and the outcome functions of the two scores |
| EscrowInvariant.IncrementAcceptedIff | bet1v1-solana-program/programs/bet1v1-solana-program/src/instructions/ix_settle_increment.rs:52-96 | the payout is never zero and the sweep never overflows: an increment is accepted exactly for a matched incremental wager, a participant and the next sequence |
| EscrowExits.CreateSucceedsIff | bet1v1-solana-program/programs/bet1v1-solana-program/src/instructions/wager_helpers.rs:6-78 | a wager can be created exactly with a new id, valid terms, a maker who may play and the money; nothing else can fail |
| EscrowExits.JoinSucceedsIff | bet1v1-solana-program/programs/bet1v1-solana-program/src/instructions/wager_helpers.rs:80-104 | a wager can be joined exactly while open to that opponent, who may play and has the money |
| EscrowExits.CancelSucceedsIff | bet1v1-solana-program/programs/bet1v1-solana-program/src/instructions/ix_sol_wager.rs:169-182 | a cancel succeeds exactly for the maker of an existing OPEN wager; nothing behind the guards can fail |
| EscrowExits.DeclineSucceedsIff | bet1v1-solana-program/programs/bet1v1-solana-program/src/instructions/ix_sol_wager.rs:198-216 | a decline succeeds exactly for the chain authority on a reserved OPEN wager |
| EscrowExits.SettleSucceedsIff | bet1v1-solana-program/programs/bet1v1-solana-program/src/instructions/ix_claim_winnings.rs:57-107 | a winner-take-all settlement succeeds exactly under its guards; doubling the stake never overflows |
| EscrowExits.ScoreSucceedsIff | bet1v1-solana-program/programs/bet1v1-solana-program/src/instructions/ix_settle_increment.rs:52-154 | an increment succeeds exactly under its guards; arithmetic fails only at 2^32 - 1 scores |
| EscrowExits.InvalidateSucceedsIff | bet1v1-solana-program/programs/bet1v1-solana-program/src/instructions/admin/ix_invalidate_wager.rs:57-113 | a refund succeeds exactly for an authority on a MATCHED wager |
| EscrowExits.EndingDrains | bet1v1-solana-program/programs/bet1v1-solana-program/src/instructions/admin/ix_invalidate_wager.rs:69-99 | whatever ends a wager leaves nothing owed in its escrow |
| EscrowExits.UnstakeSucceedsIff | bet1v1-solana-program/programs/bet1v1-solana-program/src/instructions/ix_stake.rs:104-135 | unstaking succeeds exactly for a covered amount and an owner without live wagers |
| EscrowExits.BanSucceedsIff | bet1v1-solana-program/programs/bet1v1-solana-program/src/instructions/admin/ix_ban_user.rs:10-63 | a ban succeeds exactly for the authority on a user who has a stake account and a stake vault |
| EscrowExits.UnstakedCannotBeBanned | bet1v1-solana-program/programs/bet1v1-solana-program/src/instructions/admin/ix_ban_user.rs:10-63 | a run from initialisation after which a player has a wager and a stake account but no stake vault, and the ban fails |
| EscrowExits.StakeLeavesOnlyBy | bet1v1-solana-program/programs/bet1v1-solana-program/src/instructions/ix_stake.rs:104-135 | a stake vault shrinks only by its owner's unstaking without live wagers or by a ban |
| EscrowExits.AmountsStand | bet1v1-solana-program/programs/bet1v1-solana-program/src/instructions/ix_stake.rs:104-135 | only unstaking and bans lower a staked amount |
| EscrowExits.OnlyTheseFailures | bet1v1-solana-program/programs/bet1v1-solana-program/src/instructions/wager_helpers.rs:72-78 | in a valid ledger only a payer can lack funds, no balance overflows, and checked arithmetic fails only at the u32 limits of slots and scores |
| EscrowEffects.CreateEffect | bet1v1-solana-program/programs/bet1v1-solana-program/src/instructions/wager_helpers.rs:44-70 | an accepted creation stores the call's maker, challenger, amount, mint, mode, increment and bump, with nobody joined or won, and takes the stake from the maker's wallet alone |
| EscrowEffects.JoinEffect | bet1v1-solana-program/programs/bet1v1-solana-program/src/instructions/wager_helpers.rs:80-104 | an accepted joining seats its caller, changes nothing else of the record, and takes the same stake from the caller's wallet alone |
| EscrowEffects.RefundEffect | bet1v1-solana-program/programs/bet1v1-solana-program/src/instructions/ix_sol_wager.rs:169-250 | a cancel and a decline return the stake to the maker; only the decline clears the maker's reserve on record |
| EscrowEffects.SettleEffect | bet1v1-solana-program/programs/bet1v1-solana-program/src/instructions/ix_claim_winnings.rs:57-107 | a settlement names the winner, who gets both stakes, and no other balance changes |
| EscrowEffects.ScoreEffect | bet1v1-solana-program/programs/bet1v1-solana-program/src/instructions/ix_settle_increment.rs:71-154 | an increment takes its value off the other reserve, or all that is left, in which case it ends the wager and pays the own reserve along |
| EscrowEffects.InvalidateEffect | bet1v1-solana-program/programs/bet1v1-solana-program/src/instructions/admin/ix_invalidate_wager.rs:57-113 | a refund returns each reserve to its own player's wallet |
| EscrowEffects.StakeEffect | bet1v1-solana-program/programs/bet1v1-solana-program/src/instructions/ix_stake.rs:43-72 | staking moves the amount from the user's own wallet into the user's vault and adds it to the stake |
| EscrowEffects.StakeSucceedsIff | bet1v1-solana-program/programs/bet1v1-solana-program/src/instructions/ix_stake.rs:43-72 | staking succeeds exactly while it is on, for a positive amount that the user has, unless the user is banned |
| EscrowEffects.UnstakeEffect | bet1v1-solana-program/programs/bet1v1-solana-program/src/instructions/ix_stake.rs:104-135 | unstaking pays the amount to the user's own wallet and takes it off the stake; no other balance changes |
| EscrowEffects.BanEffect | bet1v1-solana-program/programs/bet1v1-solana-program/src/instructions/admin/ix_ban_user.rs:38-63 | a ban sends exactly the staked amount to the named treasury and marks the user; no other balance changes |
| EscrowEffects.ReconfigureEffect | bet1v1-solana-program/programs/bet1v1-solana-program/src/instructions/admin/ix_set_config.rs:57-74 | a reconfiguration works exactly for the authority, writes its four settings, and keeps mints, wagers, stakes and balances |
| EscrowEffects.OnlyAuthorityReconfigures | bet1v1-solana-program/programs/bet1v1-solana-program/src/instructions/admin/ix_set_config.rs:57-74 | nothing else changes the settings |
| EscrowEffects.TermsOfCreation | bet1v1-solana-program/programs/bet1v1-solana-program/src/instructions/wager_helpers.rs:44-70 | in every later ledger a wager has the terms of the call that created it, and its opponent is that call's challenger whenever it named one |
| EscrowEffects.OpponentJoined | bet1v1-solana-program/programs/bet1v1-solana-program/src/instructions/wager_helpers.rs:80-104 | an opponent has joined by an accepted call of its own |
| EscrowEffects.PaidInIsStake | bet1v1-solana-program/programs/bet1v1-solana-program/src/instructions/wager_helpers.rs:44-104 | over every run a player has paid one stake for each seat, and nobody else anything |
| EscrowEffects.UnstakedIsGotBack | bet1v1-solana-program/programs/bet1v1-solana-program/src/instructions/ix_stake.rs:104-135 | over every run a user's wallet got back out of the vault exactly what the accepted unstakings add up to |
| EscrowEffects.StakeAddsUp | bet1v1-solana-program/programs/bet1v1-solana-program/src/instructions/ix_stake.rs:43-135 | and the stake of a user who is not banned is what was staked less what was unstaked |
| EscrowReceipts.ReceivedIsDue | bet1v1-solana-program/programs/bet1v1-solana-program/src/instructions/ix_settle_increment.rs:77-159 | over every run what a player received from a wager's escrow is a closed form of its final record, whatever the order of scores |
| EscrowReceipts.PotIsPaidOut | bet1v1-solana-program/programs/bet1v1-solana-program/src/instructions/admin/ix_invalidate_wager.rs:69-99 | a finished funded wager has paid out both stakes exactly |
| EscrowReceipts.AcceptedInOrder | bet1v1-solana-program/programs/bet1v1-solana-program/src/instructions/ix_settle_increment.rs:61-69 | over every run the accepted sequence numbers of a wager are 1, 2, 3, ... and as many as its scores |
| EscrowReceipts.RunAdvances | bet1v1-solana-program/programs/bet1v1-solana-program/src/instructions/wager_helpers.rs:96-104 | terms never change, a wager only moves forward, and a finished record is frozen for good |
| EscrowReceipts.BannedForever | bet1v1-solana-program/programs/bet1v1-solana-program/src/instructions/admin/ix_ban_user.rs:56-58 | once banned, always banned with nothing staked |
| EscrowRace.ClosedForm | bet1v1-solana-program/programs/bet1v1-solana-program/src/instructions/ix_settle_increment.rs:77-141 | with K = ceil(amount / increment): reserves, receipts and outcome from the scores, K for the winner, at most 2K - 1 increments |
| EscrowRace.RunClosedForm | bet1v1-solana-program/programs/bet1v1-solana-program/src/instructions/ix_settle_increment.rs:77-159 | the same about the money and the accepted increments of a whole run |
| EscrowRace.FirstToRoundsWins | bet1v1-solana-program/programs/bet1v1-solana-program/src/instructions/ix_settle_increment.rs:71-141 | for every sequence of scores the record is that of a race to K: the first to reach K wins and later scores change nothing |
| EscrowRace.RaceEnds | bet1v1-solana-program/programs/bet1v1-solana-program/src/instructions/ix_settle_increment.rs:61-65 | 2K - 1 scores always settle the wager, whenever 2K - 1 fits u32 |
| EscrowRace.RaceStalls | bet1v1-solana-program/programs/bet1v1-solana-program/src/instructions/ix_settle_increment.rs:61-65 | otherwise some scores use up the sequence numbers first and leave the wager MATCHED whatever is scored later |
| EscrowRace.AlwaysSettlesIff | bet1v1-solana-program/programs/bet1v1-solana-program/src/instructions/ix_settle_increment.rs:61-65 | every long enough sequence of scores settles a wager if and only if 2K - 1 fits u32 |
| EscrowRace.AlwaysScorable | bet1v1-solana-program/programs/bet1v1-solana-program/src/instructions/ix_settle_increment.rs:61-69 | until then the next increment is always accepted |
| EscrowRace.ScoreShrinksDebt | bet1v1-solana-program/programs/bet1v1-solana-program/src/instructions/ix_settle_increment.rs:117-141 | what is owed strictly falls with every increment |
| EscrowPlay.LedgerRaces | bet1v1-solana-program/programs/bet1v1-solana-program/src/instructions/ix_settle_increment.rs:46-169 | in every run from a ledger with a wager just matched, whatever else happens, its record is that of the race of the scores submitted for it, unless it was refunded |
| EscrowPlay.FirstToRoundsOnLedger | bet1v1-solana-program/programs/bet1v1-solana-program/src/instructions/ix_settle_increment.rs:71-141 | so the first player with K submitted scores wins and later ones change nothing |
| EscrowPlay.LedgerSettles | bet1v1-solana-program/programs/bet1v1-solana-program/src/instructions/ix_settle_increment.rs:61-65 | and 2K - 1 submitted scores finish the wager |
| EscrowPlay.ExhaustedForEver | bet1v1-solana-program/programs/bet1v1-solana-program/src/instructions/ix_settle_increment.rs:61-65 | a running wager without sequence numbers left is only ended by a refund |
| EscrowPlay.LedgerStallsIff | bet1v1-solana-program/programs/bet1v1-solana-program/src/instructions/ix_settle_increment.rs:61-65 | a wager just matched can get there if and only if 2K - 1 does not fit u32 |
| WagersTable.Table.ProcessWinner | api/src/worker.ts:241-284 | the winner-take-all job is claim, then finish or roll back, also when the settlement landed and the final UPDATE threw; no write can hit the unique index |
| WagerLifecycle.RunForward | api/src/index.ts:363-599 | over every sequence of API calls the terms and a found opponent never change, seats stay proper, a row only moves forward and a finished one is frozen |
| WagerLifecycle.MatchedByOpponent | api/src/index.ts:470-496 | a row goes live only by its opponent's call after its maker's funding |
| WagerLifecycle.UnsignedFundingOnlyAccepts | api/src/index.ts:374-382 | exactly which calls select a funded row: acceptance, and cancellation only with a creation signature |
| WagerLifecycle.EndableIff | api/src/index.ts:499-544 | every row that has not gone live: some call can end it if and only if it is accepted, funded with a creation signature, or open and funded or reserved |
| WagerLifecycle.DeadEnds | api/src/index.ts:374-382 | runs from an inserted row into both dead ends: open to everybody, and funded without a signature |
| WagerLifecycle.SignedByFunding | api/src/index.ts:374-382 | over every sequence of calls a funded row carries a creation signature if and only if the funding call that took effect did |
| WagerLifecycle.SignedFundingCancels | api/src/index.ts:530-544 | accepted and then funded with a signature a row can be ended, and the maker's cancellation does |
| WagerLifecycle.CanEndIff | api/src/index.ts:499-544 | who can end a row that is not live: its maker when accepted or funded with a signature, without one the player it waits for, nobody else |
| WagerLifecycle.EndsAs | api/src/index.ts:499-544 | the status and the balance on record tell who ended it |
| WagerLifecycle.CanMoveIff | api/src/index.ts:363-496 | who can accept, fund and take a row live |
| WagerLifecycle.AcceptedBy | api/src/index.ts:413-433 | a row is accepted by a wallet that may play it, which becomes its opponent |
| QuakeServer.RunKeepsValid | api/src/db.ts:111-113 | in every reachable table at most one Quake wager is reserved |
| QuakeServer.RefusedIff | api/src/index.ts:386-497 | the unique index refuses a statement exactly when it takes an OPEN Quake wager into the server while another one holds it |
| EscrowCheck.LobbyStays | api/src/index.ts:340-359 | no API call touches balances or scores before a wager goes live, and none leads back |
| EscrowCheck.CheckedWagerStarts | api/src/index.ts:51-77 | if the escrow check passes, row and escrow are funded alike, from the raw account bytes on |
| EscrowCheck.CheckPassesIff | api/src/index.ts:51-77 | in every reachable ledger the check passes exactly for an open wager with the row's terms, or for a matched one with the expected opponent and no score |
| EscrowCheck.OwnCallsPass | api/src/index.ts:363-470 | the row's own creation and joining on the chain pass it |
| EscrowCheck.AccessAgrees | api/src/chain.ts:103-155 | what the API reads of a player from raw account bytes is what the ledger holds, and its access decision is the program's own, in every reachable ledger |
| SettlementServices.Services.ProcessScoringEvent | api/src/worker.ts:152-192 | uninterrupted, the handler is the run of its steps (reading, the deduplicating and numbering transaction, queueing) and keeps the protocol's invariant |
| SettlementServices.Services.ProcessIncrementPayout | api/src/worker.ts:304-368 | uninterrupted, the handler is the run of its steps (load, transaction, commit of payout and wager together), never throws after its transaction landed, and returns exactly when the payout is paid |
| SettlementServices.Services.ProcessCashOut | api/src/worker.ts:421-437 | uninterrupted, the handler is the run of its steps (load, snapshot, refund, guarded commit) and returns exactly when the row is cashed out |
| SettlementServices.Services.RequestCashOut | api/src/index.ts:546-583 | uninterrupted, the call is the run of its steps: the guarded UPDATE asks or answers, then the job is queued or the row rolled back |
| SettlementServices.Services.CancelCashOut | api/src/index.ts:585-599 | withdraws one's own standing request of a running wager, and nothing else |
| SettlementPayments.FirstPaymentAgreesIff | api/src/index.ts:64-73 | the check does not compare increment values; the first payment keeps table and escrow equal if and only if they agree |
| SettlementInvariant.ChainScoresIff | api/src/chain.ts:252-328 | the chain accepts an increment exactly while matched and in turn |
| SettlementInvariant.LandingMirrors | api/src/worker.ts:152-153 | an amount capped against an older balance, even the other player's, never takes more off the row than the chain took off the escrow, and settles the row only if the chain has settled for the same player |
| SettlementInvariant.LandingAgrees | api/src/worker.ts:152-153 | from equal balances, and capped for the debited player, both agree exactly |
| SettlementSteps.StepKeeps | api/src/worker.ts:110-456 | every step, failure, retry, crash and late transaction keeps the protocol's invariant |
| SettlementRuns.TableNeverAhead | api/src/worker.ts:304-368 | one-sided simulation over every interleaving: the row never shows less than the escrow holds; SETTLED and CASHED_OUT rows agree with the chain, winner included |
| SettlementRuns.TableExact | api/src/worker.ts:304-368 | with no lost step, no commit due and every queued job debiting the player its payout was recorded for, the row is exact |
| SettlementRuns.ReadsAgree | api/src/worker.ts:152-192 | the jobs do so whenever repeated readings of one event id find the same player |
| SettlementRuns.PaidAtMostOnce | api/src/worker.ts:155-184 | each event id causes at most one accepted increment, whichever player each reading debits; payouts are numbered 1 to count injectively and accepted in that order |
| SettlementAmounts.ReadingIsCapped | api/src/quake3.ts:61-62 | a scoring event takes down the increment, or what the row shows for the debited player if that is less |
| SettlementAmounts.RecordedAtReading | api/src/worker.ts:152-175 | over every run each row of kill_payouts has the amount of such a reading of its event |
| SettlementAmounts.RecordedCovers | api/src/worker.ts:152-153 | over every run an accepted increment took no more than was recorded, exactly that if and only if as much was left, and all but the last exactly that |
| SettlementAmounts.TakenAddsUp | bet1v1-solana-program/programs/bet1v1-solana-program/src/instructions/ix_settle_increment.rs:71-115 | over every run the increments have taken from each player the other one's score in increments, or the whole stake |
| SettlementAmounts.RecordedAddsUpIff | api/src/worker.ts:152-175 | the recorded amounts of both players add up to that if and only if the last one's was still left when accepted |
| SettlementAmounts.StaleReading | api/src/worker.ts:152-153 | a run in which it was not |
| SettlementAmounts.WaitingIsExact | api/src/worker.ts:186-193 | where every reading waits for the payments before it, all increments pay exactly what is recorded |
| SettlementScores.ScoresExact | api/src/worker.ts:339-361 | each player's score in the table counts the paid payouts that debit the other one, and is the account's score when nothing is lost and no commit due |
| SettlementCashOut.CashOutExactIff | api/src/worker.ts:428-437 | in every finished run the recorded balances add up to both stakes, and equal the receipts if and only if the increments since the snapshot cancel out; so always when none landed between snapshot and commit |
| SettlementCashOut.LateIncrementMissed | api/src/worker.ts:428-437 | a run in which they do not: an increment lands between snapshot and refund and is missing from the record |
| SettlementLiveness.FinishesIff | api/src/index.ts:546-583 | between jobs a running row can still reach a final state if and only if its escrow is there and it is MATCHED, or its cash-out job has an attempt left, or a call is about to queue it |
| SettlementLiveness.StuckAfterIff | api/src/queue.ts:19-24 | after n failed attempts a row in CASHING_OUT is stuck if and only if n is at least five |
| SettlementLiveness.AttemptsNeverRenewed | api/src/queue.ts:19-24 | as long as the queue forgets nothing no call and no retry renews the attempts |
| SettlementLiveness.CallDies | api/src/index.ts:554-571 | a run that ends stuck: the call dies between its UPDATE and queueing the job |
| SettlementLiveness.AttemptsUsedUp | api/src/queue.ts:19-24 | another: the job fails five times |
| SettlementLiveness.AddedInVain | api/src/index.ts:567-577 | another: the job was stored although adding it reported a failure, failed against the MATCHED row, and is not added again |
| SettlementLiveness.RefundLandsLate | api/src/chain.ts:365-377 | another: the refund lands after its sender gave up |
| SettlementLiveness.GapBlocks | api/src/worker.ts:186-192 | a payout that the queue has given up stops every later increment, as long as the queue remembers it |
| SettlementLiveness.NextIncrementIff | api/src/worker.ts:152-192 | in a running wager a further increment can be accepted if and only if a number is left and the next payout is not such a one |
| SettlementLiveness.PayoutGivenUp | api/src/queue.ts:19-24 | a run into such a gap |
| SettlementFleet.EachRunsAlone | api/src/worker.ts:90-101 | among many wagers on the one server each goes through a run of the protocol of one wager |
| SettlementFleet.OneAtATime | api/src/db.ts:111-113 | the server is one wager's at a time |
| SettlementFleet.NeverMisdirected | api/src/worker.ts:163-192 | a job that names one wager for an event recorded for another never sends an increment: the other one is over |
| SettlementFleet.PaidOnceOverall | api/src/db.ts:125-136 | each event id causes at most one accepted increment over all wagers together |
| WinnerTakeAll.StepKeeps | api/src/worker.ts:241-284 | every step of the winner-take-all job, its queue and the chain, with every failure, keeps table and chain consistent |
| WinnerTakeAll.WinnerAgrees | api/src/worker.ts:253-260 | over every run both stakes are paid at most once, to one winner or back, and a settled row names who got them |
| WinnerTakeAll.StakesStand | api/src/worker.ts:255-260 | a row shows both stakes until it is settled and nothing afterwards |
| WinnerTakeAll.SettlesIff | api/src/worker.ts:253-283 | in every reachable state a row can still be settled if and only if the escrow is there or the worker is about to commit |
| WinnerTakeAll.SettlesUnforgottenIff | api/src/queue.ts:47-53 | between jobs, as long as the queue forgets nothing, it also takes no job yet or an attempt left for a winner who plays |
| WinnerTakeAll.PaidButNeverSettled | api/src/worker.ts:280-283 | runs in which the winner is paid and the row stays MATCHED or SETTLING for good |
| WinnerTakeAll.SettlementLinks | bet1v1-solana-program/programs/bet1v1-solana-program/src/instructions/ix_sol_wager.rs:252-334 | the ledger program accepts the same settlements, leaves the same record and pays what is booked |
| SettlementLedger.IncrementAgrees | bet1v1-solana-program/programs/bet1v1-solana-program/src/instructions/ix_settle_increment.rs:46-76 | the ledger program accepts an increment of the protocol's wager if and only if the protocol's chain does |
| SettlementLedger.RefundAgrees | bet1v1-solana-program/programs/bet1v1-solana-program/src/instructions/admin/ix_invalidate_wager.rs:57-113 | the same for the refund, by either authority |
| SettlementLedger.IncrementLinks | bet1v1-solana-program/programs/bet1v1-solana-program/src/instructions/ix_settle_increment.rs:46-169 | an accepted increment leaves the same record on both, and what the protocol books is what the wallets receive |
| SettlementLedger.RefundLinks | bet1v1-solana-program/programs/bet1v1-solana-program/src/instructions/admin/ix_invalidate_wager.rs:57-113 | the same for the refund, by either authority |
| SettlementLedger.LedgerFollows | api/src/chain.ts:252-446 | over every run of the protocol, in the middle of anybody else's transactions, the ledger holds the protocol's wager and each player's wallet has received out of the escrow what the protocol booked |
| SettlementLedger.CashOutWalletsIff | api/src/worker.ts:428-437 | so the recorded balances of a cash-out are what the wallets received if and only if the increments since the snapshot cancel out |
| SettlementRuns.FinishedStands | api/src/worker.ts:339-361 | no later step changes a finished row, so no wager is both settled and cashed out |
| SettlementRuns.SettledRefusesCashOut | api/src/worker.ts:425-427 | once a final increment is committed the cash-out job never reaches the chain; its attempts fail at once |
| SettlementRuns.CashingOutNeedsBoth | api/src/index.ts:550-578 | CASHING_OUT is reached only by an uncancelled request of one player and a call of the other |
| SettlementRuns.RequestWasMade | api/src/index.ts:589-594 | a standing request was made by its wallet and never withdrawn since |
| SettlementRuns.RequestStands | api/src/index.ts:550-566 | a first request of a player is put on record, of anybody else not, and starts nothing |
| SettlementRuns.WithdrawnCannotBeAnswered | api/src/index.ts:585-599 | after a withdrawal the other player's call is a request of its own |
| SettlementRuns.CommitNeverThrows | api/src/worker.ts:316-361 | the commit never throws: the balances it computes in memory are those the UPDATE writes, and no score outgrows its INTEGER column |
| SettlementRuns.RunningPays | api/src/worker.ts:152-154 | while a wager runs every event has something to pay |
| KillScoring.CreditedIff | api/src/quake3.ts:73-94 | a credit goes from the dead player's wallet to the other one, for a kill only to the killer's; every such event is credited |
| KillScoring.SuicideIsNoKill | api/src/quake3.ts:73-94 | nobody is credited for killing oneself |
| KillScoring.SeatsAreSymmetricIff | api/src/quake3.ts:73-94 | who made the wager does not matter exactly when the seats have different players |
| KillScoring.CreditIsStable | api/src/quake3.ts:73-94 | reprocessing an event credits the same wallet, whatever the client numbers by then |
| BalanceDisplay.ShownAddsUp | app/src/main.ts:367-387 | the two balances on display always share out both stakes |
| BalanceDisplay.ShownIff | app/src/main.ts:367-387 | balances are on display in every reachable state but CASHING_OUT |
| BalanceDisplay.WinnerShownExact | app/src/main.ts:375-386 | a winner-take-all wager shows each stake until it is settled, then the receipts |
| BalanceDisplay.RunningShownExact | app/src/main.ts:380-386 | a running wager shows receipts plus the refundable reserve |
| BalanceDisplay.CashedOutShownExactIff | app/src/main.ts:369-374 | after a cash-out the receipts are on display if and only if the increments since the snapshot cancel out |
| BalanceDisplay.SettledShownExactIff | app/src/main.ts:375-379 | the exact split of a settled wager; the display equals it if and only if the loser never scored |
| BalanceDisplay.LoserMayScore | app/src/main.ts:375-379 | a run of the protocol after which the display says twice the stake to nothing while the loser has received an increment |
| BalanceDisplay.AnnouncedIsShown | api/src/worker.ts:374-384 | the in-game message announces what the app shows once the increment is committed |
| MoneyText.RawOfFormat | api/src/quake3-rcon.ts:8-17 | parsing undoes formatting for every amount and number of decimals |
| MoneyText.FormatOfRaw | app/src/main.ts:350-353 | formatting undoes parsing on canonical texts, so the two are inverse bijections |
| MoneyText.FormatIsCanonical | api/src/quake3-rcon.ts:8-17 | formatting writes no leading zeros, no trailing zeros and at most the asset's decimals |
| MoneyText.RawRoundsDown | app/src/main.ts:350-353 | any decimal text is read as the number it denotes, in base units and rounded down |
| MoneyText.RawReadableIff | app/src/main.ts:350-353 | a text is refused exactly for a character other than a digit in its whole part or among the digits of its fraction that count |
| NotificationScheduler.Scheduler.Supersede | api/src/quake3-rcon.ts:212-218 | clears the key's timers in a loop and starts the next generation |
| NotificationScheduler.Scheduler.Notify | api/src/quake3-rcon.ts:220-222 | supersedes, sends at once and waits |
| NotificationScheduler.Scheduler.SendCompleted | api/src/quake3-rcon.ts:222-236 | arms one timer per repeat in a loop, only for the current generation |
| NotificationScheduler.Scheduler.OnTimer | api/src/quake3-rcon.ts:228-233 | the callback: leaves its set, checks the generation, delivers |
| NotificationScheduler.Scheduler.Cancel | api/src/quake3-rcon.ts:239-241 | supersedes the key |
| NotificationScheduler.Scheduler.Close | api/src/quake3-rcon.ts:243-245 | supersedes every key that has timers, in any order; nothing stays armed |
| NotificationScheduler.StepKeeps | api/src/quake3-rcon.ts:203-246 | every call, resumption and callback, in any order, keeps the scheduler's invariant |
| NotificationScheduler.NotifySends | api/src/quake3-rcon.ts:220-222 | a notify supersedes its key, sends its immediate commands at once and keeps its whole plan |
| NotificationScheduler.CompletionArms | api/src/quake3-rcon.ts:222-236 | an enabled completion of a key's latest notify arms a timer for each repeat with its commands, and nothing else |
| NotificationScheduler.OnlyCompletionArms | api/src/quake3-rcon.ts:220-246 | nothing else ever arms a timer |
| NotificationScheduler.RepeatsServed | api/src/quake3-rcon.ts:227-236 | over every run, as long as that notify is the latest, every repeat is armed or delivered |
| NotificationScheduler.PendingWasNotified | api/src/quake3-rcon.ts:220-222 | the plan that waits is the one of the notify that made its generation |
| NotificationScheduler.FiringDelivers | api/src/quake3-rcon.ts:228-233 | an armed timer belongs to its key's current generation under every interleaving; the check in the callback never trips |
| NotificationScheduler.RepeatsAreFresh | api/src/quake3-rcon.ts:220-236 | every delivered repeat comes from its key's latest notify with that plan's commands, and at most once |
| NotificationScheduler.CancelledStaysQuiet | api/src/quake3-rcon.ts:239-241 | after a cancel nothing is sent for the key until it is notified again |
| NotificationScheduler.CloseMissesPendingIff | api/src/quake3-rcon.ts:243-245 | after a close a completing send arms timers if and only if it is its key's latest notify and has repeats |
| NotificationScheduler.RepeatsAfterClose | api/src/quake3-rcon.ts:243-245 | a run in which it does |
| LineReader.Reader.OnData | bet1v1-quake-3-js-server/bet1v1-wrapper.mjs:38-46 | passes the chunk on and keeps: inspected lines and remainder are the lines of the whole text |
| LineReader.SplitResumes | bet1v1-quake-3-js-server/bet1v1-wrapper.mjs:40-41 | splitting can stop anywhere and resume from the unfinished line, even inside a line end |
| LineReader.FedIsSplit | bet1v1-quake-3-js-server/bet1v1-wrapper.mjs:36-47 | whatever the chunks, the emitted lines and the remainder are the split of the whole text |
| LineReader.ChunksDoNotMatter | bet1v1-quake-3-js-server/bet1v1-wrapper.mjs:36-47 | two ways of cutting one text give the same lines and remainder |
| LineReader.SplitWeave | bet1v1-quake-3-js-server/bet1v1-wrapper.mjs:40-40 | splitting recovers the lines of every text written with LF or CR LF ends |
| LineReader.WeaveSplit | bet1v1-quake-3-js-server/bet1v1-wrapper.mjs:40-40 | and loses nothing: lines and ends make up the text |
| AccountLayout.WagerDecodes | api/src/chain.ts:74-91 | the wager image has 219 bytes, and the decoder's fixed offsets give back the record's own fields |
| AccountLayout.ConfigDecodes | api/src/chain.ts:61-72 | the same for the 146 bytes of the configuration |
| AccountLayout.StakeDecodes | api/src/chain.ts:140-149 | the same for the 54 bytes of a stake account |
| AccountLayout.ReadsBack | api/src/chain.ts:84-84 | reading a little-endian number gives back what was written |
| AccountLayout.WritesBack | api/src/chain.ts:84-84 | and every byte string of a width is the image of the number read from it |
| AccountLayout.FieldAt | bet1v1-solana-program/programs/bet1v1-solana-program/src/state/state.rs:13-31 | cutting a record at the sum of the widths before a field gives that field |

## Left out

- EscrowProgram.Program.Initialize: the program starts on a chain that so far only holds wallets.
- EscrowProgram.Program.Execute: the runtime's account validation is one error, AccountConstraint; which of several violated constraints is reported first is not modelled.
- EscrowProgram.Program.CheckIncrement: the guards and amounts that the two increment instructions repeat line by line are one method here; with the guards passed the checked score update cannot fail, so it is plain arithmetic in RecordScore.
- EscrowProgram.Program.BanUser: the treasury is a wallet, never itself a stake vault; with an empty stake no transfer happens.
- LineReader.Reader.OnData: works on characters; a multi-byte character cut between two chunks is decoded per chunk in the source.
- MoneyText.RawRoundsDown: texts with a sign, surrounding spaces or a radix prefix, which BigInt also reads, count as unreadable here.
- NotificationScheduler.Scheduler.SendCompleted: delays are not modelled, timers fire in any order; whether a send works is an input.
- WagersTable.Table.AcceptIntent: the reads before the UPDATE (access, profile, an occupied server) only choose the error message and are left out, here and in the other handlers.
- EscrowParity.RunParity: plain transfers from outside into an escrow are left out (lamports can be sent to any wager account, USDC only to an existing vault), and the stake token is a third mint.
- SettlementLedger.LedgerFollows: increments and refunds of this wager are only those of the protocol, signed with the keys configured at the time; a reconfiguration among the other transactions sets no default key.
- SettlementServices.Services.ProcessScoringEvent: waiting for the payout job changes nothing and is left out, it is only the hypothesis of WaitingIsExact; a payout job may run again until the queue gives it up, at any time: its failed attempts are not counted.
- SettlementLiveness.FinishesIff: says that some steps lead to a final state, not that they are taken; the queue may forget a job that is over at any time, in the source after a hundred others.
- SettlementFleet.NeverMisdirected: what a misdirected increment would go on to do is not modelled, since there is none; winner-take-all wagers between the others only hold the server and are left out.
- WinnerTakeAll.SettlementLinks: is about single transactions; it is not lifted to whole runs as LedgerFollows is.
- The winner of a winner-take-all wager, decided from the game server's own scores, is an input.
- One token account per owner and mint; creation of associated token accounts, rent and fees.
- Bumps of stake and configuration accounts, and the stored configuration of the client.
- Lamports sent to an address before the wager account exists there.
- Usernames, friends, sessions, wallet signatures, secrets, HTTP routing, schemas, logging.
- Transaction assembly, address derivation, discriminators, confirmation of transactions.
- Price estimates, message wording and sanitising, RCON and status packets, the kill-line pattern.
- Mock-chain mode, database migrations, deployment.
