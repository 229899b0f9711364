/** When a running wager can still come to an end, and when its increments can still go on. */
module SettlementLiveness {
  import opened Basics
  import opened ProgramState
  import opened EscrowSpec
  import opened JobQueue
  import opened WagerRows
  import opened Settlement
  import opened SettlementInvariant
  import opened SettlementSteps
  import opened SettlementRuns
  import opened SettlementServices
  import opened SettlementCashOut

  /** Whatever happens, the row never reaches a final state. */
  ghost predicate Stuck(s: World) {
    forall actions :: Running(Run(s, actions).row)
  }

  // ----- What keeps a row from finishing -----

  /** Between jobs, no attempt of the job is left, and no call is about to queue it. */
  predicate Orphaned(s: World) {
    s.row.status == CashingOut && s.job == Idle && !s.cashOut.Waiting? && !s.cashOutPending
  }

  lemma OrphanedStep(s: World, a: Action)
    requires Orphaned(s)
    ensures Orphaned(Do(s, a)) && Do(s, a).row == s.row
  {
  }

  lemma {:induction false} OrphanedRun(s: World, actions: seq<Action>)
    requires Orphaned(s)
    ensures Orphaned(Run(s, actions)) && Run(s, actions).row == s.row
  {
    if actions != [] {
      OrphanedRun(s, actions[..|actions| - 1]);
      OrphanedStep(Run(s, actions[..|actions| - 1]), actions[|actions| - 1]);
    }
  }

  lemma OrphanedStuck(s: World)
    requires Orphaned(s)
    ensures Stuck(s)
  {
    forall actions
      ensures Running(Run(s, actions).row)
    {
      OrphanedRun(s, actions);
    }
  }

  /** The chain is done with the wager while the row still runs, and no commit is due. */
  predicate Outrun(s: World) {
    Running(s.row) && s.chain.wager.status != MATCHED && !Landed(s.job)
  }

  lemma OutrunStep(s: World, a: Action)
    requires Outrun(s)
    ensures Outrun(Do(s, a))
  {
  }

  lemma {:induction false} OutrunRun(s: World, actions: seq<Action>)
    requires Outrun(s)
    ensures Outrun(Run(s, actions))
  {
    if actions != [] {
      OutrunRun(s, actions[..|actions| - 1]);
      OutrunStep(Run(s, actions[..|actions| - 1]), actions[|actions| - 1]);
    }
  }

  lemma OutrunStuck(s: World)
    requires Outrun(s)
    ensures Stuck(s)
  {
    forall actions
      ensures Running(Run(s, actions).row)
    {
      OutrunRun(s, actions);
    }
  }

  // ----- How a row finishes -----

  lemma WaitingReads(s: World)
    requires s.row.status == CashingOut && s.row.incremental && s.job == Idle && s.cashOut.Waiting?
    requires s.chain.wager.status == MATCHED && s.chain.wager.payoutMode == INCREMENTAL
    ensures Run(s, [CashLoad, CashSnapshot]) == s.(job := CashRead(s.chain.wager))
  {
    RunTwo(s, CashLoad, CashSnapshot, s.(job := CashLoaded), s.(job := CashRead(s.chain.wager)));
  }

  lemma ReadFinishes(s: World)
    requires s.row.status == CashingOut && s.job.CashRead? && s.chain.wager.status == MATCHED
    ensures Run(s, [CashSend, CashCommit]).row.status == CashedOut
  {
    var landed := s.(chain := ChainInvalidates(s.chain).value, job := CashLanded(s.job.snapshot));
    LateCommit(landed);
    RunOne(landed, CashCommit);
    RunTwo(s, CashSend, CashCommit, landed, Do(landed, CashCommit));
  }

  lemma WaitingFinishes(s: World)
    requires s.row.status == CashingOut && s.row.incremental && s.job == Idle && s.cashOut.Waiting?
    requires s.chain.wager.status == MATCHED && s.chain.wager.payoutMode == INCREMENTAL
    ensures Run(s, CashOutSteps()).row.status == CashedOut
  {
    WaitingReads(s);
    ReadFinishes(s.(job := CashRead(s.chain.wager)));
    RunConcat(s, [CashLoad, CashSnapshot], [CashSend, CashCommit]);
  }

  /** The queue forgets a job that is over, the call queues it anew, and it runs through. */
  function QueueAndCashOut(): seq<Action> {
    [CashForgotten, QueueCashOut] + CashOutSteps()
  }

  lemma PendingFinishes(s: World)
    requires s.row.status == CashingOut && s.row.incremental && s.job == Idle && s.cashOutPending
    requires s.chain.wager.status == MATCHED && s.chain.wager.payoutMode == INCREMENTAL
    ensures Run(s, QueueAndCashOut()).row.status == CashedOut
  {
    var s1 := s.(cashOut := Forgotten(s.cashOut));
    var s2 := s1.(cashOutPending := false, cashOut := Added(s1.cashOut));
    RunTwo(s, CashForgotten, QueueCashOut, s1, s2);
    WaitingFinishes(s2);
    RunConcat(s, [CashForgotten, QueueCashOut], CashOutSteps());
  }

  function BothCall(r: Row): seq<Action>
    requires r.opponent.Some?
  {
    [AskCashOut(r.maker), AskCashOut(r.opponent.value)]
  }

  /** A call changes the row and perhaps leaves a job to queue. */
  lemma Asked(s: World, wallet: Pubkey)
    ensures var now := Do(s, AskCashOut(wallet));
            && now == s.(row := After(s.row, RequestCashOut(wallet)), cashOutPending := now.cashOutPending)
            && now.cashOutPending == (s.cashOutPending || (s.row.status == Matched && now.row.status == CashingOut))
  {
  }

  lemma BothRequest(r: Row)
    requires r.status == Matched && r.incremental && r.opponent.Some? && r.opponent.value != r.maker
    ensures var r1 := After(r, RequestCashOut(r.maker));
            var r2 := After(r1, RequestCashOut(r.opponent.value));
            r1.status in {Matched, CashingOut} && r2.status == CashingOut && r2.incremental
  {
  }

  /** Whoever has asked already, when both call the row is in CASHING_OUT. */
  lemma BothCallRun(s: World)
    requires s.row.status == Matched && s.row.incremental && s.row.opponent.Some?
    requires s.row.opponent.value != s.row.maker && s.job == Idle
    ensures var now := Run(s, BothCall(s.row));
            && now.row.status == CashingOut && now.cashOutPending && now.row.incremental
            && now.job == Idle && now.chain == s.chain
  {
    var first, second := s.row.maker, s.row.opponent.value;
    var s1 := Do(s, AskCashOut(first));
    Asked(s, first);
    Asked(s1, second);
    BothRequest(s.row);
    RunTwo(s, AskCashOut(first), AskCashOut(second), s1, Do(s1, AskCashOut(second)));
  }

  lemma MatchedFinishes(s: World)
    requires s.row.status == Matched && s.row.incremental && s.row.opponent.Some?
    requires s.row.opponent.value != s.row.maker && s.job == Idle
    requires s.chain.wager.status == MATCHED && s.chain.wager.payoutMode == INCREMENTAL
    ensures Run(s, BothCall(s.row) + QueueAndCashOut()).row.status == CashedOut
  {
    BothCallRun(s);
    PendingFinishes(Run(s, BothCall(s.row)));
    RunConcat(s, BothCall(s.row), QueueAndCashOut());
  }

  /** Between two jobs a running row can still reach a final state if and only if the escrow is still there, and
    * the row is MATCHED, or its cash-out job has an attempt left, or a call is about to queue it.
    */
  lemma FinishesIff(s: World)
    requires Inv(s) && Running(s.row) && s.job == Idle
    ensures (exists actions :: !Running(Run(s, actions).row))
            <==> s.chain.wager.status == MATCHED && (s.row.status == Matched || s.cashOut.Waiting? || s.cashOutPending)
  {
    if s.chain.wager.status != MATCHED {
      OutrunStuck(s);
    } else if s.row.status == Matched {
      MatchedFinishes(s);
    } else if s.cashOut.Waiting? {
      WaitingFinishes(s);
    } else if s.cashOutPending {
      PendingFinishes(s);
    } else {
      OrphanedStuck(s);
    }
  }

  // ----- Runs into the dead ends -----

  /** Both players have agreed, and the call of the second one is still running. */
  predicate Agreeing(s: World, now: World) {
    now == s.(row := s.row.(status := CashingOut, cashoutRequestedBy := Some(s.row.maker)), cashOutPending := true)
  }

  lemma BothAgree(s: World)
    requires Started(s)
    ensures Agreeing(s, Run(s, BothCall(s.row)))
  {
    BothAsk(s, s.row.maker, s.row.opponent.value);
  }

  /** The call dies before it queues the job. */
  lemma CallDies(s: World)
    requires Started(s)
    ensures var now := Run(s, BothCall(s.row) + [ApiCrash]);
            now.row.status == CashingOut && now.chain == s.chain && Stuck(now)
  {
    BothAgree(s);
    RunOne(Run(s, BothCall(s.row)), ApiCrash);
    RunConcat(s, BothCall(s.row), [ApiCrash]);
    OrphanedStuck(Run(s, BothCall(s.row) + [ApiCrash]));
  }

  /** The job of a row in CASHING_OUT, throwing n times. */
  function FailedAttempts(n: nat): seq<Action> {
    if n == 0 then [] else FailedAttempts(n - 1) + [CashLoad, CashFails]
  }

  function AfterFailures(n: nat): Job {
    if n < ATTEMPTS then Waiting(n) else Over
  }

  lemma FailsOnceMore(n: nat)
    requires 0 < n <= ATTEMPTS
    ensures AfterFailures(n - 1).Waiting? && Failed(AfterFailures(n - 1)) == AfterFailures(n)
  {
  }

  lemma OneFails(s: World)
    requires s.row.status == CashingOut && s.row.incremental && s.job == Idle && s.cashOut.Waiting?
    ensures Run(s, [CashLoad, CashFails]) == s.(cashOut := Failed(s.cashOut))
  {
    RunTwo(s, CashLoad, CashFails, s.(job := CashLoaded), s.(cashOut := Failed(s.cashOut)));
  }

  lemma OneMoreFailure(s: World, n: nat)
    requires n > 0
    ensures Run(s, FailedAttempts(n)) == Run(Run(s, FailedAttempts(n - 1)), [CashLoad, CashFails])
  {
    RunConcat(s, FailedAttempts(n - 1), [CashLoad, CashFails]);
  }

  lemma {:induction false} AttemptsFail(s: World, n: nat)
    requires s.row.status == CashingOut && s.row.incremental && s.job == Idle
    requires s.cashOut == Waiting(0) && n <= ATTEMPTS
    ensures Run(s, FailedAttempts(n)) == s.(cashOut := AfterFailures(n))
    decreases n
  {
    if n > 0 {
      AttemptsFail(s, n - 1);
      FailsOnceMore(n);
      OneMoreFailure(s, n);
      OneFails(s.(cashOut := AfterFailures(n - 1)));
    }
  }

  /** A job that is over is not attempted any more. */
  lemma OverStays(s: World)
    requires s.job == Idle && s.cashOut == Over
    ensures Run(s, [CashLoad, CashFails]) == s
  {
    RunTwo(s, CashLoad, CashFails, s, s);
  }

  lemma {:induction false} AllAttempts(s: World, n: nat)
    requires s.row.status == CashingOut && s.row.incremental && s.job == Idle && s.cashOut == Waiting(0)
    ensures Run(s, FailedAttempts(n)) == s.(cashOut := AfterFailures(n))
    decreases n
  {
    if n <= ATTEMPTS {
      AttemptsFail(s, n);
    } else {
      AllAttempts(s, n - 1);
      OneMoreFailure(s, n);
      OverStays(s.(cashOut := Over));
    }
  }

  lemma QueuedAttempts(asked: World, n: nat)
    requires asked.cashOutPending && asked.cashOut == Absent && asked.job == Idle
    requires asked.row.status == CashingOut && asked.row.incremental
    ensures Run(asked, [QueueCashOut] + FailedAttempts(n))
         == asked.(cashOutPending := false, cashOut := AfterFailures(n))
  {
    RunOne(asked, QueueCashOut);
    AllAttempts(asked.(cashOutPending := false, cashOut := Waiting(0)), n);
    RunConcat(asked, [QueueCashOut], FailedAttempts(n));
  }

  lemma FailedSoFar(s: World, n: nat)
    requires Started(s)
    ensures Run(s, BothCall(s.row) + ([QueueCashOut] + FailedAttempts(n)))
         == s.(row := s.row.(status := CashingOut, cashoutRequestedBy := Some(s.row.maker)),
               cashOut := AfterFailures(n))
  {
    BothAgree(s);
    QueuedAttempts(Run(s, BothCall(s.row)), n);
    RunConcat(s, BothCall(s.row), [QueueCashOut] + FailedAttempts(n));
  }

  lemma StuckIff(s: World)
    requires s.row.status == CashingOut && s.row.incremental && s.job == Idle && !s.cashOutPending
    requires s.chain.wager.status == MATCHED && s.chain.wager.payoutMode == INCREMENTAL
    ensures Stuck(s) <==> !s.cashOut.Waiting?
  {
    if s.cashOut.Waiting? {
      WaitingFinishes(s);
    } else {
      OrphanedStuck(s);
    }
  }

  /** After n failures, none of them forgotten, the row is stuck if and only if they are five or more. */
  lemma StuckAfterIff(s: World, n: nat)
    requires Started(s)
    ensures Stuck(Run(s, BothCall(s.row) + ([QueueCashOut] + FailedAttempts(n)))) <==> n >= 5
  {
    FailedSoFar(s, n);
    StuckIff(Run(s, BothCall(s.row) + ([QueueCashOut] + FailedAttempts(n))));
  }

  /** So the job can use up its attempts, say while no node of the chain answers. */
  lemma AttemptsUsedUp(s: World)
    requires Started(s)
    ensures var now := Run(s, BothCall(s.row) + ([QueueCashOut] + FailedAttempts(5)));
            now.row.status == CashingOut && now.chain == s.chain && Stuck(now)
  {
    FailedSoFar(s, 5);
    StuckAfterIff(s, 5);
  }

  /** How much of a job's attempts is gone. */
  function Spent(job: Job): nat {
    match job
    case Absent => 0
    case Waiting(failures) => 1 + failures
    case Over => 1 + ATTEMPTS
  }

  predicate BoundedJob(job: Job) {
    job.Waiting? ==> job.failures < ATTEMPTS
  }

  lemma AttemptsStep(s: World, a: Action)
    requires a != CashForgotten && BoundedJob(s.cashOut)
    ensures BoundedJob(Do(s, a).cashOut) && Spent(s.cashOut) <= Spent(Do(s, a).cashOut)
  {
  }

  /** As long as the queue forgets nothing, no call and no retry ever renews the attempts of the job. */
  lemma {:induction false} AttemptsNeverRenewed(s: World, actions: seq<Action>)
    requires BoundedJob(s.cashOut) && CashForgotten !in actions
    ensures BoundedJob(Run(s, actions).cashOut) && Spent(s.cashOut) <= Spent(Run(s, actions).cashOut)
    decreases |actions|
  {
    if actions != [] {
      AttemptsNeverRenewed(s, actions[..|actions| - 1]);
      AttemptsStep(Run(s, actions[..|actions| - 1]), actions[|actions| - 1]);
    }
  }

  /** The job of a row that is not in CASHING_OUT, failing n times. */
  function RefusedAttempts(n: nat): seq<Action> {
    if n == 0 then [] else RefusedAttempts(n - 1) + [CashLoad]
  }

  lemma OneRefused(s: World)
    requires s.row.status == Matched && s.job == Idle && s.cashOut.Waiting?
    ensures Run(s, [CashLoad]) == s.(cashOut := Failed(s.cashOut))
  {
    RunOne(s, CashLoad);
  }

  lemma {:induction false} AttemptsRefused(s: World, n: nat)
    requires s.row.status == Matched && s.job == Idle && s.cashOut == Waiting(0) && n <= ATTEMPTS
    ensures Run(s, RefusedAttempts(n)) == s.(cashOut := AfterFailures(n))
    decreases n
  {
    if n > 0 {
      AttemptsRefused(s, n - 1);
      FailsOnceMore(n);
      OneRefused(s.(cashOut := AfterFailures(n - 1)));
      RunConcat(s, RefusedAttempts(n - 1), [CashLoad]);
    }
  }

  /** The call reports a failure although the job was stored, and rolls the row back; the job runs out of
    * attempts against the MATCHED row; when the second player calls again, adding the job does nothing.
    */
  function StoredThoughRefused(r: Row): seq<Action>
    requires r.opponent.Some?
  {
    BothCall(r) + ([QueueFails(true)] + (RefusedAttempts(ATTEMPTS) + [AskCashOut(r.opponent.value), QueueCashOut]))
  }

  lemma AskedAgain(s: World, second: Pubkey)
    requires s.row.status == Matched && s.row.incremental && s.cashOut == Over && RowParticipant(s.row, second)
    requires s.row.cashoutRequestedBy.Some? && s.row.cashoutRequestedBy != Some(second)
    ensures Run(s, [AskCashOut(second), QueueCashOut])
         == s.(row := s.row.(status := CashingOut), cashOutPending := false)
  {
    RunTwo(s, AskCashOut(second), QueueCashOut, s.(row := s.row.(status := CashingOut), cashOutPending := true),
           s.(row := s.row.(status := CashingOut), cashOutPending := false));
  }

  lemma RolledBack(asked: World)
    requires asked.cashOutPending && asked.cashOut == Absent && asked.row.status == CashingOut
    ensures Run(asked, [QueueFails(true)])
         == asked.(cashOutPending := false, cashOut := Waiting(0), row := asked.row.(status := Matched))
  {
    RunOne(asked, QueueFails(true));
  }

  /** A row rolled back with its job in the queue. */
  lemma RefusedThenAsked(s: World, second: Pubkey)
    requires s.row.status == Matched && s.row.incremental && s.job == Idle && s.cashOut == Waiting(0)
    requires !s.cashOutPending && RowParticipant(s.row, second)
    requires s.row.cashoutRequestedBy.Some? && s.row.cashoutRequestedBy != Some(second)
    ensures var now := Run(s, RefusedAttempts(ATTEMPTS) + [AskCashOut(second), QueueCashOut]);
            now.row.status == CashingOut && now.chain == s.chain && Orphaned(now)
  {
    AttemptsRefused(s, ATTEMPTS);
    AskedAgain(s.(cashOut := Over), second);
    RunConcat(s, RefusedAttempts(ATTEMPTS), [AskCashOut(second), QueueCashOut]);
  }

  lemma AddedInVain(s: World)
    requires Started(s)
    ensures var now := Run(s, StoredThoughRefused(s.row));
            now.row.status == CashingOut && now.chain == s.chain && Stuck(now)
  {
    var second := s.row.opponent.value;
    var later := RefusedAttempts(ATTEMPTS) + [AskCashOut(second), QueueCashOut];
    BothAgree(s);
    var asked := Run(s, BothCall(s.row));
    RolledBack(asked);
    RefusedThenAsked(Run(asked, [QueueFails(true)]), second);
    RunConcat(asked, [QueueFails(true)], later);
    RunConcat(s, BothCall(s.row), [QueueFails(true)] + later);
    OrphanedStuck(Run(s, StoredThoughRefused(s.row)));
  }

  lemma LandsAlone(s: World, c: Chain)
    requires s.job.CashRead? && ChainInvalidates(s.chain) == Some(c)
    ensures Run(s, [CashTimesOut, Land(InvalidateTx)])
         == s.(inFlight := s.inFlight + {InvalidateTx}, job := Idle, cashOut := Failed(s.cashOut), chain := c,
               lost := true)
  {
    var sent := s.(inFlight := s.inFlight + {InvalidateTx}, job := Idle, cashOut := Failed(s.cashOut));
    RunTwo(s, CashTimesOut, Land(InvalidateTx), sent, sent.(chain := c, lost := true));
  }

  /** The refund lands after its sender gave up on it: the players have their money, the row never knows. */
  lemma RefundLandsLate(s: World)
    requires Started(s)
    ensures var now := Run(s, AgreedSnapshot(s.row.maker, s.row.opponent.value) + [CashTimesOut, Land(InvalidateTx)]);
            now.row.status == CashingOut && now.chain.wager.status == CANCELLED && Stuck(now)
  {
    var agreed := AgreedSnapshot(s.row.maker, s.row.opponent.value);
    AgreedSnapshotRun(s, s.row.opponent.value);
    LandsAlone(Run(s, agreed), ChainInvalidates(s.chain).value);
    RunConcat(s, agreed, [CashTimesOut, Land(InvalidateTx)]);
    OutrunStuck(Run(s, agreed + [CashTimesOut, Land(InvalidateTx)]));
  }

  // ----- Increments -----

  function NextNumber(s: World): nat {
    |s.chain.accepted| + 1
  }

  predicate IsNext(s: World, id: nat) {
    id in s.payouts && s.payouts[id].sequence == NextNumber(s)
  }

  predicate Flies(inFlight: set<Tx>, id: nat) {
    exists tx :: tx in inFlight && tx.IncrementTx? && tx.event.id == id
  }

  /** The queue has given up the payout that the chain wants next, and no transaction for it is on its way. */
  predicate Gap(s: World, id: nat) {
    IsNext(s, id) && id in s.spent && !Flies(s.inFlight, id)
  }

  predicate Holds(job: ChainJob, id: nat) {
    job.PayLoaded? && job.event.id == id
  }

  lemma OnlySentScores(s: World, a: Action)
    requires a != PaySend && !a.Land?
    ensures Do(s, a).chain.accepted == s.chain.accepted
  {
  }

  lemma SentIsNext(s: World)
    requires ChainOk(s.chain) && Do(s, PaySend).chain.accepted != s.chain.accepted
    ensures s.job.PayLoaded? && IsNext(s, s.job.event.id)
  {
    if s.job.PayLoaded? && s.job.event.id in s.payouts {
      ChainScoresIff(s.chain, s.job.event, s.payouts[s.job.event.id].sequence);
    }
  }

  lemma LandedIsNext(s: World, tx: Tx)
    requires ChainOk(s.chain) && InFlightOk(s.inFlight, s.payouts)
    requires Do(s, Land(tx)).chain.accepted != s.chain.accepted
    ensures tx.IncrementTx? && IsNext(s, tx.event.id) && Flies(s.inFlight, tx.event.id)
  {
    Lands(s, tx);
    if tx in s.inFlight && tx.IncrementTx? {
      ChainScoresIff(s.chain, tx.event, tx.sequence);
    }
  }

  /** What the chain accepts is the next payout, sent by the worker or on its way. */
  lemma AcceptsNext(s: World, a: Action)
    requires ChainOk(s.chain) && InFlightOk(s.inFlight, s.payouts) && Do(s, a).chain.accepted != s.chain.accepted
    ensures exists id :: IsNext(s, id) && (Holds(s.job, id) || Flies(s.inFlight, id))
  {
    if a == PaySend {
      SentIsNext(s);
      assert Holds(s.job, s.job.event.id);
    } else if a.Land? {
      LandedIsNext(s, a.tx);
    } else {
      OnlySentScores(s, a);
    }
  }

  lemma NumberStands(s: World, a: Action, id: nat)
    requires id in s.payouts
    ensures id in Do(s, a).payouts && Do(s, a).payouts[id].sequence == s.payouts[id].sequence
  {
  }

  lemma SpentStands(s: World, a: Action, id: nat)
    requires id in s.spent && !Holds(s.job, id) && a != PayForgotten(id)
    ensures id in Do(s, a).spent && !Holds(Do(s, a).job, id)
  {
  }

  lemma NothingSent(s: World, a: Action, id: nat)
    requires !Flies(s.inFlight, id) && !Holds(s.job, id)
    ensures !Flies(Do(s, a).inFlight, id)
  {
    if a.PayTimesOut? || a.CashTimesOut? {
      assert Flies(Do(s, a).inFlight, id) ==> Holds(s.job, id) || Flies(s.inFlight, id);
    } else {
      assert Do(s, a).inFlight == s.inFlight;
    }
  }

  lemma GapStep(s: World, a: Action, id: nat)
    requires Inv(s) && Gap(s, id) && !Holds(s.job, id) && a != PayForgotten(id)
    ensures Gap(Do(s, a), id) && !Holds(Do(s, a).job, id) && Do(s, a).chain.accepted == s.chain.accepted
  {
    NumberStands(s, a, id);
    SpentStands(s, a, id);
    NothingSent(s, a, id);
    if Do(s, a).chain.accepted != s.chain.accepted {
      AcceptsNext(s, a);
    }
  }

  /** A payout whose job is given up blocks all later ones: as long as the queue remembers that, no increment is
    * ever accepted again, and the row never says SETTLED.
    */
  lemma {:induction false} GapBlocks(s: World, actions: seq<Action>, id: nat)
    requires Inv(s) && Gap(s, id) && !Holds(s.job, id) && PayForgotten(id) !in actions
    ensures Inv(Run(s, actions)) && Gap(Run(s, actions), id) && !Holds(Run(s, actions).job, id)
    ensures Run(s, actions).chain.accepted == s.chain.accepted
  {
    if actions != [] {
      var before, a := actions[..|actions| - 1], actions[|actions| - 1];
      GapBlocks(s, before, id);
      GapStep(Run(s, before), a, id);
      StepKeeps(Run(s, before), a);
    }
  }

  // ----- When increments can go on -----

  lemma {:induction false} Fresh(used: set<nat>) returns (id: nat)
    ensures forall x :: x in used ==> x < id
  {
    if used == {} {
      id := 0;
    } else {
      var x :| x in used;
      var rest := Fresh(used - {x});
      id := if x < rest then rest else x + 1;
      assert forall y :: y in used ==> y == x || y in used - {x};
    }
  }

  predicate Playing(s: World) {
    && s.row.status == Matched && s.row.incremental && s.job == Idle && s.game == NoEvent
    && s.chain.wager.status == MATCHED
  }

  /** Steps after which the chain has accepted one increment more. */
  ghost predicate Accepts(s: World, actions: seq<Action>) {
    |Run(s, actions).chain.accepted| > |s.chain.accepted| && forall id :: PayForgotten(id) !in actions
  }

  lemma SendsNext(s: World, e: Event)
    requires ChainOk(s.chain) && Playing(s) && e in s.jobs && e.id !in s.spent
    requires IsNext(s, e.id) && !s.payouts[e.id].paid && NextNumber(s) <= INTEGER_MAX
    ensures |Run(s, [PayLoad(e), PaySend]).chain.accepted| > |s.chain.accepted|
  {
    ChainScoresIff(s.chain, e, NextNumber(s));
    var loaded := s.(job := PayLoaded(e, s.row, s.payouts[e.id].amount));
    RunTwo(s, PayLoad(e), PaySend, loaded, Do(loaded, PaySend));
  }

  /** The event is read, or read again, and its job runs. */
  lemma PaysNext(s: World, e: Event, payouts: Payouts)
    requires Inv(s) && Playing(s) && e.id !in s.spent
    requires var amount := KillPayout(s.row.incrementValue, RowLeft(s.row, e.victimIsMaker));
             amount > 0 && RecordPayout(s.payouts, e, amount) == Some(payouts)
    requires e.id in payouts && payouts[e.id].sequence == NextNumber(s) <= INTEGER_MAX && !payouts[e.id].paid
    ensures |Run(s, ScoringSteps(e) + [PayLoad(e), PaySend]).chain.accepted| > |s.chain.accepted|
  {
    var amount := KillPayout(s.row.incrementValue, RowLeft(s.row, e.victimIsMaker));
    var queued := s.(payouts := payouts, jobs := s.jobs + {e});
    RunThree(s, GameRead(e), GameRecord, GameEnqueue, s.(game := Scored(e, amount)),
             s.(game := Recorded(e), payouts := payouts), queued);
    SendsNext(queued, e);
    RunConcat(s, ScoringSteps(e), [PayLoad(e), PaySend]);
  }

  lemma PaysNew(s: World, e: Event)
    requires Inv(s) && Playing(s) && e.id !in s.payouts && e.id !in s.spent
    requires |s.payouts| + 1 == NextNumber(s) <= INTEGER_MAX
    ensures |Run(s, ScoringSteps(e) + [PayLoad(e), PaySend]).chain.accepted| > |s.chain.accepted|
  {
    var amount := KillPayout(s.row.incrementValue, RowLeft(s.row, e.victimIsMaker));
    PaysNext(s, e, s.payouts[e.id := Payout(e.victimIsMaker, amount, |s.payouts| + 1, false)]);
  }

  lemma LandsNext(s: World, tx: Tx)
    requires ChainOk(s.chain) && Playing(s) && tx in s.inFlight && tx.IncrementTx?
    requires tx.sequence == NextNumber(s) <= INTEGER_MAX
    ensures |Run(s, [Land(tx)]).chain.accepted| > |s.chain.accepted|
  {
    ChainScoresIff(s.chain, tx.event, tx.sequence);
    RunOne(s, Land(tx));
  }

  lemma NextUnpaid(s: World, id: nat)
    requires BooksOk(s.payouts, s.chain.accepted, s.row) && IsNext(s, id)
    ensures !s.payouts[id].paid && NextNumber(s) <= INTEGER_MAX
  {
    assert s.payouts[id].paid ==> id in PaidIds(s.payouts);
  }

  /** The recorded next payout goes through: on its way, or by its job. */
  lemma RecordedGoesOn(s: World, id: nat)
    requires Inv(s) && Playing(s) && IsNext(s, id) && !Gap(s, id)
    ensures exists actions :: Accepts(s, actions)
  {
    NextUnpaid(s, id);
    if Flies(s.inFlight, id) {
      var tx :| tx in s.inFlight && tx.IncrementTx? && tx.event.id == id;
      LandsNext(s, tx);
      assert Accepts(s, [Land(tx)]);
    } else {
      PaysNext(s, Event(id, true), s.payouts);
      assert Accepts(s, ScoringSteps(Event(id, true)) + [PayLoad(Event(id, true)), PaySend]);
    }
  }

  lemma NextRecorded(s: World)
    requires BooksOk(s.payouts, s.chain.accepted, s.row)
    ensures |s.payouts| == |s.chain.accepted| || exists id :: IsNext(s, id)
  {
    if |s.payouts| >= NextNumber(s) {
      assert InUse(s.payouts, NextNumber(s));
      var id :| id in s.payouts && s.payouts[id].sequence == NextNumber(s);
      assert IsNext(s, id);
    }
    if s.chain.accepted != [] {
      var last := |s.chain.accepted| - 1;
      assert s.payouts[s.chain.accepted[last]].sequence == last + 1;
    }
  }

  /** A new event is recorded as the next payout and goes through. */
  lemma NewGoesOn(s: World)
    requires Inv(s) && Playing(s) && NextNumber(s) <= INTEGER_MAX && forall id :: !IsNext(s, id)
    ensures exists actions :: Accepts(s, actions)
  {
    NextRecorded(s);
    var id := Fresh(s.payouts.Keys + s.spent);
    assert id !in s.payouts.Keys + s.spent;
    PaysNew(s, Event(id, true));
    assert Accepts(s, ScoringSteps(Event(id, true)) + [PayLoad(Event(id, true)), PaySend]);
  }

  lemma {:induction false} FullRun(s: World, actions: seq<Action>)
    requires Inv(s) && |s.chain.accepted| >= INTEGER_MAX
    ensures Inv(Run(s, actions)) && Run(s, actions).chain.accepted == s.chain.accepted
  {
    if actions != [] {
      var before, a := actions[..|actions| - 1], actions[|actions| - 1];
      FullRun(s, before);
      StepKeeps(Run(s, before), a);
      if Do(Run(s, before), a).chain.accepted != s.chain.accepted {
        AcceptsNext(Run(s, before), a);
      }
    }
  }

  /** In a running wager the chain can still accept an increment, as long as the queue forgets nothing, if and
    * only if the numbers are not used up and the next payout is not one that the queue has given up.
    */
  lemma NextIncrementIff(s: World)
    requires Inv(s) && Playing(s)
    ensures (exists actions :: Accepts(s, actions))
            <==> NextNumber(s) <= INTEGER_MAX && !exists id :: Gap(s, id)
  {
    if NextNumber(s) > INTEGER_MAX {
      forall actions
        ensures !Accepts(s, actions)
      {
        FullRun(s, actions);
      }
    } else if id :| Gap(s, id) {
      forall actions
        ensures !Accepts(s, actions)
      {
        if PayForgotten(id) !in actions {
          GapBlocks(s, actions, id);
        }
      }
    } else if id :| IsNext(s, id) {
      RecordedGoesOn(s, id);
    } else {
      NewGoesOn(s);
    }
  }

  /** A run into such a gap: an event is recorded and queued, and its job fails until the queue gives it up. */
  lemma PayoutGivenUp(s: World, e: Event)
    requires Started(s) && !e.victimIsMaker && s.row.incrementValue < s.row.amount
    ensures var now := Run(s, [GameRead(e), GameRecord] + [GameEnqueue, PayGivenUp(e)]);
            Inv(now) && Playing(now) && Gap(now, e.id) && now.chain == s.chain
  {
    EventRecorded(s, e);
    var recorded := Run(s, [GameRead(e), GameRecord]);
    var queued := recorded.(game := NoEvent, jobs := {e});
    RunTwo(recorded, GameEnqueue, PayGivenUp(e), queued, queued.(spent := {e.id}));
    RunConcat(s, [GameRead(e), GameRecord], [GameEnqueue, PayGivenUp(e)]);
    RunKeeps(s, [GameRead(e), GameRecord] + [GameEnqueue, PayGivenUp(e)]);
  }
}
