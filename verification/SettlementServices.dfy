/** The jobs of the worker and the cash-out calls of the API, in place on the database, the queue and the
  * chain. Each statement, transaction and chain call is one step of the protocol; a handler that nothing
  * interrupts is the run of its steps. What interruptions, retries and interleavings can do is the protocol's
  * own business.
  */
module SettlementServices {
  import opened Basics
  import opened ProgramState
  import opened EscrowSpec
  import opened EscrowInvariant
  import opened JobQueue
  import opened WagerRows
  import opened Settlement
  import opened SettlementInvariant
  import opened SettlementSteps
  import opened SettlementRuns

  datatype Outcome = Returned | Thrown

  function ScoringSteps(e: Event): seq<Action> {
    [GameRead(e), GameRecord, GameEnqueue]
  }

  function PayoutSteps(e: Event): seq<Action> {
    [PayLoad(e), PaySend, PayCommit]
  }

  function CashOutSteps(): seq<Action> {
    [CashLoad, CashSnapshot] + [CashSend, CashCommit]
  }

  function RequestSteps(wallet: Pubkey, queueWorks: bool): seq<Action> {
    [AskCashOut(wallet), if queueWorks then QueueCashOut else QueueFails(false)]
  }

  class Services {
    // The chain, the database and the queue.
    var chain: Chain
    var row: Row
    var payouts: Payouts
    var jobs: set<Event>
    var spent: set<nat>
    var cashOut: Job
    // What the handlers hold between two steps.
    var game: GameJob
    var job: ChainJob
    var cashOutPending: bool
    ghost var inFlight: set<Tx>
    ghost var lost: bool

    ghost function State(): World
      reads this
    {
      World(chain, row, payouts, jobs, spent, cashOut, cashOutPending, game, job, inFlight, lost)
    }

    ghost predicate Valid()
      reads this
    {
      Inv(State())
    }

    /** A wager that has just gone live. */
    constructor (w: Wager, r: Row)
      requires Started(World(Chain(w, 0, 0, []), r, map[], {}, {}, Absent, false, NoEvent, Idle, {}, false))
      ensures Valid() && Started(State()) && chain.wager == w && row == r
    {
      chain, row, payouts, jobs, spent, cashOut := Chain(w, 0, 0, []), r, map[], {}, {}, Absent;
      game, job, cashOutPending, inFlight, lost := NoEvent, Idle, false, {}, false;
      new;
      StartedInv(State());
    }

    // ----- Game worker -----

    /** findScoringWager and the amount. */
    method SelectScoringWager(e: Event)
      requires game == NoEvent
      modifies this
      ensures State() == Do(old(State()), GameRead(e))
    {
      if row.status != Matched {
        return;
      }
      var victimRemaining := if e.victimIsMaker then row.makerRemaining else row.opponentRemaining;
      var amount := KillPayout(row.incrementValue, victimRemaining);
      if amount <= 0 {
        return;
      }
      game := Scored(e, amount);
    }

    /** The transaction that deduplicates an event and numbers its payout. */
    method RecordEvent()
      requires game.Scored?
      modifies this
      ensures State() == Do(old(State()), GameRecord)
    {
      var e := game.event;
      if e.id !in payouts {
        var count := |payouts|;
        var sequence := count + 1;
        if sequence > INTEGER_MAX {
          game := NoEvent;
          return;
        }
        payouts := payouts[e.id := Payout(e.victimIsMaker, game.amount, sequence, false)];
      }
      game := Recorded(e);
    }

    method EnqueuePayout()
      requires game.Recorded?
      modifies this
      ensures State() == Do(old(State()), GameEnqueue)
    {
      jobs := jobs + {game.event};
      game := NoEvent;
    }

    /** The steps of processScoringEvent, one after the other. */
    method ScoreEvent(e: Event)
      requires game == NoEvent
      modifies this
      ensures State() == Run(old(State()), ScoringSteps(e)) && game == NoEvent
    {
      ghost var before := State();
      SelectScoringWager(e);
      ghost var read := State();
      if game.Scored? {
        RecordEvent();
      }
      ghost var recorded := State();
      if game.Recorded? {
        EnqueuePayout();
      }
      RunThree(before, GameRead(e), GameRecord, GameEnqueue, read, recorded, State());
    }

    /** processScoringEvent for an incremental wager. */
    method ProcessScoringEvent(e: Event)
      requires Valid() && game == NoEvent
      modifies this
      ensures Valid() && game == NoEvent
      ensures State() == Run(old(State()), ScoringSteps(e))
    {
      RunKeepsInv(State(), ScoringSteps(e));
      ScoreEvent(e);
    }

    // ----- Chain worker: increments -----

    /** The SELECT of processIncrementPayout. */
    method LoadJob(e: Event)
      requires job == Idle && e in jobs && e.id !in spent
      modifies this
      ensures State() == Do(old(State()), PayLoad(e))
    {
      if e.id !in payouts || payouts[e.id].paid {
        return;
      }
      if row.status != Matched || !row.incremental {
        return;
      }
      job := PayLoaded(e, row, payouts[e.id].amount);
    }

    method SettleIncrement()
      requires job.PayLoaded? && job.event.id in payouts
      modifies this
      ensures State() == Do(old(State()), PaySend)
    {
      var next := ChainScores(chain, job.event, payouts[job.event.id].sequence);
      if next.None? {
        job := Idle;
        return;
      }
      chain := next.value;
      job := PayLanded(job.event, job.row, job.amount);
    }

    /** The UPDATE of wagers that follows an increment. */
    method UpdateScore(beneficiaryIsMaker: bool, finalIncrement: bool, amount: int)
      modifies this`row
      ensures row == After(old(row), CommitIncrement(beneficiaryIsMaker, amount, finalIncrement))
    {
      if beneficiaryIsMaker {
        row := row.(makerScore := row.makerScore + 1);
        row := row.(opponentRemaining := if finalIncrement then 0 else row.opponentRemaining - amount);
        row := row.(makerRemaining := if finalIncrement then 0 else row.makerRemaining);
        row := row.(winner := if finalIncrement then Some(row.maker) else row.winner);
      } else {
        row := row.(opponentScore := row.opponentScore + 1);
        row := row.(makerRemaining := if finalIncrement then 0 else row.makerRemaining - amount);
        row := row.(opponentRemaining := if finalIncrement then 0 else row.opponentRemaining);
        row := row.(winner := if finalIncrement then row.opponent else row.winner);
      }
      row := row.(status := if finalIncrement then RowStatus.Settled else row.status);
    }

    /** What the job does once its transaction has landed: payout and wager in one transaction. */
    method CommitLanded()
      requires job.PayLanded? && job.event.id in payouts && CommitFits(job.row, job.event, job.amount)
      requires ScoreFits(row, job.event)
      modifies this
      ensures State() == Do(old(State()), PayCommit)
    {
      var e, loaded, amount := job.event, job.row, job.amount;
      var beneficiaryIsMaker := !e.victimIsMaker;
      var debitedRemaining := if beneficiaryIsMaker then loaded.opponentRemaining else loaded.makerRemaining;
      var finalIncrement := amount >= debitedRemaining;
      var left := RemainingAfterIncrement(loaded.makerRemaining, loaded.opponentRemaining, beneficiaryIsMaker, amount,
                                          finalIncrement);
      assert left.Some?;
      payouts := payouts[e.id := payouts[e.id].(paid := true)];
      UpdateScore(beneficiaryIsMaker, finalIncrement, amount);
      job := Idle;
    }

    /** The steps of processIncrementPayout, one after the other. */
    method PayIncrement(e: Event)
      requires job == Idle && e in jobs && e.id !in spent && e.id in payouts
      requires row.status == Matched && !payouts[e.id].paid ==>
                 CommitFits(row, e, payouts[e.id].amount) && ScoreFits(row, e)
      modifies this
      ensures State() == Run(old(State()), PayoutSteps(e)) && job == Idle && e.id in payouts
    {
      ghost var before := State();
      LoadJob(e);
      ghost var loaded := State();
      if job.PayLoaded? {
        SettleIncrement();
      }
      ghost var landed := State();
      if job.PayLanded? {
        CommitLanded();
      }
      RunThree(before, PayLoad(e), PaySend, PayCommit, loaded, landed, State());
    }

    /** processIncrementPayout for a queued job. */
    method ProcessIncrementPayout(e: Event) returns (outcome: Outcome)
      requires Valid() && job == Idle && e in jobs && e.id !in spent
      modifies this
      ensures Valid() && job == Idle
      ensures State() == Run(old(State()), PayoutSteps(e))
      ensures outcome == Returned <==> e.id in payouts && payouts[e.id].paid
    {
      RunKeepsInv(State(), PayoutSteps(e));
      PayoutFits(State(), e);
      PayIncrement(e);
      outcome := if payouts[e.id].paid then Returned else Thrown;
    }

    // ----- Chain worker: cash-out -----

    /** The SELECT of processCashOut. */
    method LoadCashOut()
      requires job == Idle && cashOut.Waiting?
      modifies this
      ensures State() == Do(old(State()), CashLoad)
    {
      if row.status == CashedOut {
        cashOut := Finished(cashOut);
        return;
      }
      if row.status != CashingOut || !row.incremental {
        cashOut := Failed(cashOut);
        return;
      }
      job := CashLoaded;
    }

    /** cashOutWager, up to the balances it reads from the account. */
    method SnapshotWager()
      requires job.CashLoaded?
      modifies this
      ensures State() == Do(old(State()), CashSnapshot)
    {
      if chain.wager.status != MATCHED || chain.wager.payoutMode != INCREMENTAL {
        job := Idle;
        cashOut := Failed(cashOut);
        return;
      }
      job := CashRead(chain.wager);
    }

    /** The rest of cashOutWager: the refund. */
    method InvalidateWager()
      requires job.CashRead?
      modifies this
      ensures State() == Do(old(State()), CashSend)
    {
      var next := ChainInvalidates(chain);
      if next.None? {
        job := Idle;
        cashOut := Failed(cashOut);
        return;
      }
      chain := next.value;
      job := CashLanded(job.snapshot);
    }

    /** The UPDATE of wagers that ends a cash-out. */
    method CommitCashedOut()
      requires job.CashLanded?
      modifies this
      ensures State() == Do(old(State()), CashCommit)
    {
      var w := job.snapshot;
      var makerBalance := w.makerRemaining + (w.amount - w.opponentRemaining);
      var opponentBalance := w.opponentRemaining + (w.amount - w.makerRemaining);
      if row.status == CashingOut {
        row := row.(status := CashedOut, makerRemaining := 0, opponentRemaining := 0);
        row := row.(makerFinal := Some(makerBalance), opponentFinal := Some(opponentBalance));
      } else {
        lost := true;
      }
      job := Idle;
      cashOut := Finished(cashOut);
    }

    method ReadForCashOut()
      requires job == Idle && cashOut.Waiting?
      modifies this
      ensures State() == Run(old(State()), [CashLoad, CashSnapshot]) && (job == Idle || job.CashRead?)
    {
      ghost var before := State();
      LoadCashOut();
      ghost var loaded := State();
      if job.CashLoaded? {
        SnapshotWager();
      }
      RunTwo(before, CashLoad, CashSnapshot, loaded, State());
    }

    method PayCashOut()
      requires job == Idle || job.CashRead?
      modifies this
      ensures State() == Run(old(State()), [CashSend, CashCommit]) && job == Idle
    {
      ghost var before := State();
      if job.CashRead? {
        InvalidateWager();
      }
      ghost var landed := State();
      if job.CashLanded? {
        CommitCashedOut();
      }
      RunTwo(before, CashSend, CashCommit, landed, State());
    }

    /** The steps of processCashOut, one after the other. */
    method CashOut()
      requires job == Idle && cashOut.Waiting?
      modifies this
      ensures State() == Run(old(State()), CashOutSteps()) && job == Idle
    {
      RunConcat(State(), [CashLoad, CashSnapshot], [CashSend, CashCommit]);
      ReadForCashOut();
      PayCashOut();
    }

    /** processCashOut for a queued job. */
    method ProcessCashOut() returns (outcome: Outcome)
      requires Valid() && job == Idle && cashOut.Waiting?
      modifies this
      ensures Valid() && job == Idle
      ensures State() == Run(old(State()), CashOutSteps())
      ensures outcome == Returned <==> row.status == CashedOut
    {
      RunKeepsInv(State(), CashOutSteps());
      CashOut();
      outcome := if row.status == CashedOut then Returned else Thrown;
    }

    // ----- API -----

    /** The UPDATE of the cash-out call. */
    method UpdateRequest(wallet: Pubkey) returns (found: bool)
      requires !cashOutPending
      modifies this
      ensures State() == Do(old(State()), AskCashOut(wallet))
      ensures found <==> old(row.status) == Matched && row.incremental && RowParticipant(row, wallet)
    {
      if !(row.status == Matched && row.incremental && (wallet == row.maker || Some(wallet) == row.opponent)) {
        return false;
      }
      if row.cashoutRequestedBy == None {
        row := row.(cashoutRequestedBy := Some(wallet));
      } else if row.cashoutRequestedBy != Some(wallet) {
        row := row.(status := CashingOut);
        cashOutPending := true;
      }
      return true;
    }

    method QueueJob()
      requires cashOutPending
      modifies this
      ensures State() == Do(old(State()), QueueCashOut) && !cashOutPending
    {
      cashOut := Added(cashOut);
      cashOutPending := false;
    }

    /** Takes the row back to MATCHED when the queue fails. */
    method RollBack()
      requires cashOutPending
      modifies this
      ensures State() == Do(old(State()), QueueFails(false)) && !cashOutPending
    {
      if row.status == CashingOut {
        row := row.(status := Matched);
      }
      cashOutPending := false;
    }

    method CallCashOut(wallet: Pubkey, queueWorks: bool) returns (outcome: Outcome)
      requires !cashOutPending
      modifies this
      ensures State() == Run(old(State()), RequestSteps(wallet, queueWorks)) && !cashOutPending
      ensures old(row.status) == Matched && old(row.incremental) && old(RowParticipant(row, wallet)) && queueWorks ==>
                outcome == Returned
    {
      ghost var before := State();
      var found := UpdateRequest(wallet);
      ghost var asked := State();
      outcome := if found && (queueWorks || !cashOutPending) then Returned else Thrown;
      if cashOutPending && queueWorks {
        QueueJob();
      } else if cashOutPending {
        RollBack();
      }
      RunTwo(before, AskCashOut(wallet), if queueWorks then QueueCashOut else QueueFails(false), asked, State());
    }

    /** The cash-out call. */
    method RequestCashOut(wallet: Pubkey, queueWorks: bool) returns (outcome: Outcome)
      requires Valid() && !cashOutPending
      modifies this
      ensures Valid() && !cashOutPending
      ensures State() == Run(old(State()), RequestSteps(wallet, queueWorks))
      ensures old(row.status) == Matched && old(RowParticipant(row, wallet)) && queueWorks ==> outcome == Returned
    {
      RunKeepsInv(State(), RequestSteps(wallet, queueWorks));
      outcome := CallCashOut(wallet, queueWorks);
    }

    /** The UPDATE of the withdrawal. */
    method UpdateWithdrawn(wallet: Pubkey) returns (outcome: Outcome)
      modifies this
      ensures State() == Do(old(State()), WithdrawCashOut(wallet))
      ensures outcome == Returned <==> old(row.status) == Matched && old(row.cashoutRequestedBy) == Some(wallet)
    {
      if !(row.status == Matched && row.cashoutRequestedBy == Some(wallet)) {
        return Thrown;
      }
      row := row.(cashoutRequestedBy := None);
      return Returned;
    }

    /** The withdrawal of a cash-out request. */
    method CancelCashOut(wallet: Pubkey) returns (outcome: Outcome)
      requires Valid()
      modifies this
      ensures Valid()
      ensures State() == Do(old(State()), WithdrawCashOut(wallet))
      ensures outcome == Returned <==> old(row.status) == Matched && old(row.cashoutRequestedBy) == Some(wallet)
    {
      StepKeeps(State(), WithdrawCashOut(wallet));
      outcome := UpdateWithdrawn(wallet);
    }
  }

  lemma {:induction false} RunKeepsInv(s: World, actions: seq<Action>)
    requires Inv(s)
    ensures Inv(Run(s, actions))
  {
    if actions != [] {
      RunKeepsInv(s, actions[..|actions| - 1]);
      StepKeeps(Run(s, actions[..|actions| - 1]), actions[|actions| - 1]);
    }
  }

  /** remainingBalancesAfterIncrement does not throw. */
  predicate CommitFits(r: Row, e: Event, amount: int) {
    RemainingAfterIncrement(r.makerRemaining, r.opponentRemaining, !e.victimIsMaker, amount,
                            IsFinal(e, r, amount)).Some?
  }

  lemma PayoutFits(s: World, e: Event)
    requires Inv(s) && e in s.jobs
    ensures e.id in s.payouts
    ensures s.row.status == Matched && !s.payouts[e.id].paid ==>
              CommitFits(s.row, e, s.payouts[e.id].amount) && ScoreFits(s.row, e)
  {
    if !s.payouts[e.id].paid {
      ScoresFit(s.payouts, s.chain.accepted, s.row, e);
    }
  }
}
