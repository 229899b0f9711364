/** Every step of the settlement protocol keeps its invariant. */
module SettlementSteps {
  import opened Basics
  import opened ProgramState
  import opened EscrowSpec
  import opened EscrowReceipts
  import opened JobQueue
  import opened WagerRows
  import opened Settlement
  import opened SettlementInvariant

  // ----- Game worker -----

  lemma RecordNumbers(payouts: Payouts, e: Event, amount: int)
    requires Numbered(payouts) && e.id !in payouts && RecordPayout(payouts, e, amount).Some?
    ensures Numbered(RecordPayout(payouts, e, amount).value)
  {
    var payouts' := RecordPayout(payouts, e, amount).value;
    assert payouts'.Keys == payouts.Keys + {e.id};
    forall n | 1 <= n <= |payouts'|
      ensures InUse(payouts', n)
    {
      if n <= |payouts| {
        assert InUse(payouts, n);
        var id :| id in payouts && payouts[id].sequence == n;
        assert id in payouts' && payouts'[id].sequence == n;
      } else {
        assert e.id in payouts' && payouts'[e.id].sequence == n;
      }
    }
  }

  /** Recording a payout only adds a row. */
  predicate Grows(payouts: Payouts, payouts': Payouts) {
    forall id :: id in payouts ==> id in payouts' && payouts'[id] == payouts[id]
  }

  lemma RecordBooks(payouts: Payouts, e: Event, amount: int, accepted: seq<nat>, r: Row)
    requires BooksOk(payouts, accepted, r) && Capped(amount, e.victimIsMaker, r)
    requires RecordPayout(payouts, e, amount).Some?
    ensures BooksOk(RecordPayout(payouts, e, amount).value, accepted, r)
    ensures Grows(payouts, RecordPayout(payouts, e, amount).value)
    ensures e.id in RecordPayout(payouts, e, amount).value
  {
    if e.id !in payouts {
      var payouts' := RecordPayout(payouts, e, amount).value;
      RecordNumbers(payouts, e, amount);
      assert PaidIds(payouts') == PaidIds(payouts);
    }
  }

  lemma GrownQueues(s: World, payouts: Payouts)
    requires Grows(s.payouts, payouts)
    ensures JobsOk(s.jobs, s.payouts) ==> JobsOk(s.jobs, payouts)
    ensures InFlightOk(s.inFlight, s.payouts) ==> InFlightOk(s.inFlight, payouts)
  {
  }

  lemma GrownJob(s: World, payouts: Payouts)
    requires Grows(s.payouts, payouts) && JobsOk(s.jobs, s.payouts)
    requires JobOk(s.job, s.jobs, s.payouts, s.row, s.chain)
    requires Synced(s.lost, s.jobs, s.payouts, s.row, s.chain.wager, s.job)
    ensures JobOk(s.job, s.jobs, payouts, s.row, s.chain)
    ensures Synced(s.lost, s.jobs, payouts, s.row, s.chain.wager, s.job)
  {
  }

  lemma ReadKeeps(s: World, e: Event)
    requires Inv(s)
    ensures Inv(ReadEvent(s, e))
  {
  }

  lemma RecordKeeps(s: World, payouts: Payouts)
    requires Inv(s) && s.game.Scored? && RecordPayout(s.payouts, s.game.event, s.game.amount) == Some(payouts)
    ensures Inv(s.(payouts := payouts, game := Recorded(s.game.event)))
  {
    RecordBooks(s.payouts, s.game.event, s.game.amount, s.chain.accepted, s.row);
    GrownQueues(s, payouts);
    GrownJob(s, payouts);
  }

  lemma EnqueueKeeps(s: World)
    requires Inv(s) && s.game.Recorded?
    ensures Inv(s.(jobs := s.jobs + {s.game.event}, game := NoEvent))
  {
    var jobs := s.jobs + {s.game.event};
    assert SidesAgree(jobs, s.payouts) ==> SidesAgree(s.jobs, s.payouts);
    assert JobOk(s.job, jobs, s.payouts, s.row, s.chain);
  }

  lemma DropEventKeeps(s: World)
    requires Inv(s)
    ensures Inv(s.(game := NoEvent))
  {
  }

  // ----- Chain worker -----

  /** A chain worker step that only changes what the worker holds. */
  lemma JobKeeps(s: World, job: ChainJob)
    requires Inv(s) && JobOk(job, s.jobs, s.payouts, s.row, s.chain)
    requires !Landed(s.job) && !Landed(job)
    ensures Inv(s.(job := job))
  {
  }

  lemma LoadKeeps(s: World, e: Event)
    requires Inv(s)
    ensures Inv(LoadPayout(s, e))
  {
    if LoadPayout(s, e) != s {
      JobKeeps(s, LoadPayout(s, e).job);
    }
  }

  lemma TimeOutKeeps(s: World, tx: Tx)
    requires Inv(s) && !Landed(s.job)
    requires tx.IncrementTx? ==> tx.event.id in s.payouts && s.payouts[tx.event.id].sequence == tx.sequence
    ensures Inv(s.(inFlight := s.inFlight + {tx}, job := Idle))
  {
  }

  lemma AcceptNext(payouts: Payouts, c: Chain, e: Event)
    requires ChainOk(c) && AcceptedInTurn(c.accepted, payouts) && e.id in payouts
    requires ChainScores(c, e, payouts[e.id].sequence).Some?
    ensures AcceptedInTurn(ChainScores(c, e, payouts[e.id].sequence).value.accepted, payouts)
  {
    ChainScoresIff(c, e, payouts[e.id].sequence);
  }

  /** One more accepted increment, as far as the books are concerned. */
  lemma AcceptBooks(payouts: Payouts, c: Chain, e: Event, r: Row)
    requires ChainOk(c) && BooksOk(payouts, c.accepted, r) && e.id in payouts
    requires ChainScores(c, e, payouts[e.id].sequence).Some?
    ensures BooksOk(payouts, ChainScores(c, e, payouts[e.id].sequence).value.accepted, r)
  {
    AcceptNext(payouts, c, e);
    ChainScoresOk(c, e, payouts[e.id].sequence);
  }

  lemma LandedJob(s: World, c: Chain)
    requires ChainOk(s.chain) && Mirrors(s.row, s.chain.wager) && s.job.PayLoaded?
    requires JobOk(s.job, s.jobs, s.payouts, s.row, s.chain) && AllCapped(s.payouts, s.row)
    requires ChainScores(s.chain, s.job.event, s.payouts[s.job.event.id].sequence) == Some(c)
    ensures JobOk(PayLanded(s.job.event, s.job.row, s.job.amount), s.jobs, s.payouts, s.row, c)
  {
    var e := s.job.event;
    assert Capped(s.payouts[e.id].amount, s.payouts[e.id].victimIsMaker, s.row);
    LandingMirrors(s.chain, s.row, e, s.payouts[e.id].sequence, s.job.amount);
    ChainScoresOk(s.chain, e, s.payouts[e.id].sequence);
  }

  lemma LandedSynced(s: World, c: Chain)
    requires ChainOk(s.chain) && Mirrors(s.row, s.chain.wager) && s.job.PayLoaded?
    requires JobOk(s.job, s.jobs, s.payouts, s.row, s.chain) && AllCapped(s.payouts, s.row)
    requires Synced(s.lost, s.jobs, s.payouts, s.row, s.chain.wager, s.job)
    requires ChainScores(s.chain, s.job.event, s.payouts[s.job.event.id].sequence) == Some(c)
    ensures Synced(s.lost, s.jobs, s.payouts, s.row, c.wager, PayLanded(s.job.event, s.job.row, s.job.amount))
  {
    var e := s.job.event;
    if !s.lost && SidesAgree(s.jobs, s.payouts) {
      assert Capped(s.payouts[e.id].amount, s.payouts[e.id].victimIsMaker, s.row);
      LandingAgrees(s.chain, s.row, e, s.payouts[e.id].sequence, s.job.amount);
    }
  }

  lemma SendKeeps(s: World, c: Chain)
    requires Inv(s) && s.job.PayLoaded?
    requires ChainScores(s.chain, s.job.event, s.payouts[s.job.event.id].sequence) == Some(c)
    ensures Inv(s.(chain := c, job := PayLanded(s.job.event, s.job.row, s.job.amount)))
  {
    var e := s.job.event;
    ChainScoresOk(s.chain, e, s.payouts[e.id].sequence);
    MirrorsAdvance(s.row, s.chain.wager, c.wager);
    AcceptBooks(s.payouts, s.chain, e, s.row);
    LandedJob(s, c);
    LandedSynced(s, c);
  }

  /** The row after a commit, spelled out. */
  lemma CommitMirrored(r: Row, w: Wager, e: Event, amount: int)
    requires Mirrors(r, w) && Running(r) && Small(amount, r) && CommitMirrors(e, amount, r, w)
    ensures var r' := After(r, CommitIncrement(!e.victimIsMaker, amount, amount >= RowLeft(r, e.victimIsMaker)));
            && Mirrors(r', w)
            && (forall b, v :: Capped(b, v, r) ==> Capped(b, v, r'))
            && r'.makerScore + r'.opponentScore == r.makerScore + r.opponentScore + 1
  {
  }

  function MarkedPaid(payouts: Payouts, id: nat): Payouts
    requires id in payouts
  {
    payouts[id := payouts[id].(paid := true)]
  }

  lemma PaidGrows(payouts: Payouts, id: nat)
    requires id in payouts && !payouts[id].paid
    ensures PaidIds(MarkedPaid(payouts, id)) == PaidIds(payouts) + {id} && id !in PaidIds(payouts)
  {
  }

  lemma MarkedNumbers(payouts: Payouts, id: nat)
    requires id in payouts && Numbered(payouts)
    ensures Numbered(MarkedPaid(payouts, id))
  {
    var payouts' := MarkedPaid(payouts, id);
    assert payouts'.Keys == payouts.Keys;
    forall n | 1 <= n <= |payouts'|
      ensures InUse(payouts', n)
    {
      assert InUse(payouts, n);
      var i :| i in payouts && payouts[i].sequence == n;
      assert i in payouts' && payouts'[i].sequence == n;
    }
  }

  lemma CommitBooks(payouts: Payouts, accepted: seq<nat>, r: Row, r': Row, id: nat)
    requires BooksOk(payouts, accepted, r) && id in payouts && !payouts[id].paid && id in accepted
    requires forall b, v :: Capped(b, v, r) ==> Capped(b, v, r')
    requires r'.makerScore + r'.opponentScore == r.makerScore + r.opponentScore + 1
    ensures BooksOk(MarkedPaid(payouts, id), accepted, r')
  {
    PaidGrows(payouts, id);
    MarkedNumbers(payouts, id);
  }

  /** The scores of a row never exceed its payouts, so one more of them fits the column. */
  lemma ScoresFit(payouts: Payouts, accepted: seq<nat>, r: Row, e: Event)
    requires BooksOk(payouts, accepted, r) && e.id in payouts && !payouts[e.id].paid
    ensures ScoreFits(r, e)
  {
    assert PaidIds(payouts) <= payouts.Keys - {e.id};
    SubsetSize(PaidIds(payouts), payouts.Keys - {e.id});
  }

  lemma {:induction false} SubsetSize(a: set<nat>, b: set<nat>)
    requires a <= b
    ensures |a| <= |b|
  {
    if a != {} {
      var x :| x in a;
      SubsetSize(a - {x}, b - {x});
    }
  }

  function CommittedRow(s: World): Row
    requires s.job.PayLanded?
  {
    var e, amount := s.job.event, s.job.amount;
    After(s.row, CommitIncrement(!e.victimIsMaker, amount, IsFinal(e, s.job.row, amount)))
  }

  lemma CommitSynced(s: World, payouts: Payouts, r: Row)
    requires s.job.PayLanded? && JobOk(s.job, s.jobs, s.payouts, s.row, s.chain)
    requires Synced(s.lost, s.jobs, s.payouts, s.row, s.chain.wager, s.job)
    requires payouts == MarkedPaid(s.payouts, s.job.event.id) && r == CommittedRow(s)
    ensures Synced(s.lost, s.jobs, payouts, r, s.chain.wager, Idle)
  {
    assert SidesAgree(s.jobs, payouts) ==> SidesAgree(s.jobs, s.payouts);
  }

  lemma CommitRow(s: World)
    requires Mirrors(s.row, s.chain.wager) && BooksOk(s.payouts, s.chain.accepted, s.row) && s.job.PayLanded?
    requires JobOk(s.job, s.jobs, s.payouts, s.row, s.chain) && GameOk(s.game, s.payouts, s.row)
    ensures Mirrors(CommittedRow(s), s.chain.wager)
    ensures BooksOk(MarkedPaid(s.payouts, s.job.event.id), s.chain.accepted, CommittedRow(s))
    ensures GameOk(s.game, MarkedPaid(s.payouts, s.job.event.id), CommittedRow(s))
  {
    var e := s.job.event;
    assert Capped(s.payouts[e.id].amount, s.payouts[e.id].victimIsMaker, s.row);
    CommitMirrored(s.row, s.chain.wager, e, s.job.amount);
    CommitBooks(s.payouts, s.chain.accepted, s.row, CommittedRow(s), e.id);
  }

  lemma MarkedQueues(jobs: set<Event>, inFlight: set<Tx>, payouts: Payouts, id: nat)
    requires id in payouts && JobsOk(jobs, payouts) && InFlightOk(inFlight, payouts)
    ensures JobsOk(jobs, MarkedPaid(payouts, id)) && InFlightOk(inFlight, MarkedPaid(payouts, id))
  {
  }

  lemma CommitKeeps(s: World)
    requires Inv(s) && s.job.PayLanded?
    ensures Inv(CommitPayout(s))
  {
    var id := s.job.event.id;
    ScoresFit(s.payouts, s.chain.accepted, s.row, s.job.event);
    CommitRow(s);
    MarkedQueues(s.jobs, s.inFlight, s.payouts, id);
    CommitSynced(s, MarkedPaid(s.payouts, id), CommittedRow(s));
    CommittedKeeps(s.(job := Idle, payouts := MarkedPaid(s.payouts, id), row := CommittedRow(s)), s.row);
  }

  lemma CommittedKeeps(s: World, before: Row)
    requires ChainOk(s.chain) && Mirrors(s.row, s.chain.wager) && BooksOk(s.payouts, s.chain.accepted, s.row)
    requires JobsOk(s.jobs, s.payouts) && InFlightOk(s.inFlight, s.payouts) && GameOk(s.game, s.payouts, s.row)
    requires Synced(s.lost, s.jobs, s.payouts, s.row, s.chain.wager, Idle) && s.job == Idle
    requires PendingOk(s.cashOutPending, before) && s.row.status in {before.status, RowStatus.Settled}
    ensures Inv(s)
  {
  }

  lemma RefundKeeps(s: World, c: Chain)
    requires Inv(s) && s.job.CashRead? && ChainInvalidates(s.chain) == Some(c)
    ensures Inv(s.(chain := c, job := CashLanded(s.job.snapshot)))
  {
    ChainInvalidatesOk(s.chain);
    MirrorsAdvance(s.row, s.chain.wager, c.wager);
  }

  /** What a snapshot shows for the two players always adds up. */
  lemma FinalsMirror(r: Row, w: Wager, snapshot: Wager)
    requires Mirrors(r, w) && Running(r) && SnapshotOk(snapshot, w) && w.status == CANCELLED
    ensures Mirrors(After(r, CommitCashOut(MakerBalance(snapshot), OpponentBalance(snapshot))), w)
  {
  }

  lemma FinalsRow(r: Row, makerBalance: int, opponentBalance: int)
    ensures var r' := After(r, CommitCashOut(makerBalance, opponentBalance));
            && r'.makerScore == r.makerScore && r'.opponentScore == r.opponentScore
            && (r' == r || !Running(r')) && (Running(r) ==> r'.status != Matched || r' == r)
            && (forall b, v :: (r' == r || RowLeft(r', v) == 0) && Capped(b, v, r) ==> Capped(b, v, r'))
            && (r' == r || (r'.makerRemaining == r'.opponentRemaining == 0))
  {
  }

  lemma FinalsKeep(s: World)
    requires Inv(s) && s.job.CashLanded?
    ensures Inv(CommitFinals(s))
  {
    var snapshot := s.job.snapshot;
    var r := After(s.row, CommitCashOut(MakerBalance(snapshot), OpponentBalance(snapshot)));
    FinalsMirror(s.row, s.chain.wager, snapshot);
    FinalsRow(s.row, MakerBalance(snapshot), OpponentBalance(snapshot));
    assert BooksOk(s.payouts, s.chain.accepted, r);
  }

  lemma CrashKeeps(s: World)
    requires Inv(s)
    ensures Inv(s.(job := Idle, lost := s.lost || Landed(s.job)))
  {
  }

  // ----- API -----

  /** A cash-out call changes who has asked and whether the row is being cashed out, nothing else. */
  predicate OnlyRequest(r: Row, r': Row) {
    && r' == r.(status := r'.status, cashoutRequestedBy := r'.cashoutRequestedBy)
    && (r'.status == r.status || (Running(r) && Running(r')))
  }

  lemma RequestsAreFramed(r: Row, statement: Statement)
    requires statement.RequestCashOut? || statement.CancelCashOut? || statement.RollBackCashOut?
    ensures OnlyRequest(r, After(r, statement))
  {
  }

  lemma RequestBooks(payouts: Payouts, accepted: seq<nat>, r: Row, r': Row, game: GameJob)
    requires OnlyRequest(r, r')
    ensures BooksOk(payouts, accepted, r) ==> BooksOk(payouts, accepted, r')
    ensures GameOk(game, payouts, r) ==> GameOk(game, payouts, r')
  {
  }

  lemma RequestJob(s: World, r': Row)
    requires OnlyRequest(s.row, r')
    requires Mirrors(s.row, s.chain.wager) && JobOk(s.job, s.jobs, s.payouts, s.row, s.chain)
    requires Synced(s.lost, s.jobs, s.payouts, s.row, s.chain.wager, s.job)
    ensures Mirrors(r', s.chain.wager) && JobOk(s.job, s.jobs, s.payouts, r', s.chain)
    ensures Synced(s.lost, s.jobs, s.payouts, r', s.chain.wager, s.job)
  {
  }

  lemma FrameKeeps(s: World, r: Row, pending: bool, queued: Job)
    requires Inv(s) && OnlyRequest(s.row, r) && PendingOk(pending, r)
    ensures Inv(s.(row := r, cashOutPending := pending, cashOut := queued))
  {
    RequestBooks(s.payouts, s.chain.accepted, s.row, r, s.game);
    RequestJob(s, r);
  }

  lemma AskKeeps(s: World, wallet: Pubkey)
    requires Inv(s)
    ensures Inv(Do(s, AskCashOut(wallet)))
  {
    var r := After(s.row, RequestCashOut(wallet));
    RequestsAreFramed(s.row, RequestCashOut(wallet));
    FrameKeeps(s, r, s.cashOutPending || (s.row.status == Matched && r.status == CashingOut), s.cashOut);
  }

  lemma WithdrawKeeps(s: World, wallet: Pubkey)
    requires Inv(s)
    ensures Inv(Do(s, WithdrawCashOut(wallet)))
  {
    RequestsAreFramed(s.row, CancelCashOut(wallet));
    FrameKeeps(s, After(s.row, CancelCashOut(wallet)), s.cashOutPending, s.cashOut);
  }

  lemma QueueKeeps(s: World, a: Action)
    requires Inv(s) && (a.QueueCashOut? || a.QueueFails?)
    ensures Inv(Do(s, a))
  {
    if s.cashOutPending {
      if a.QueueCashOut? {
        FrameKeeps(s, s.row, false, Added(s.cashOut));
      } else {
        RequestsAreFramed(s.row, RollBackCashOut);
        FrameKeeps(s, After(s.row, RollBackCashOut), false, if a.queued then Added(s.cashOut) else s.cashOut);
      }
    }
  }

  // ----- The chain on its own -----

  lemma ElsewhereJob(s: World, c: Chain)
    requires JobOk(s.job, s.jobs, s.payouts, s.row, s.chain) && Advances(s.chain.wager, c.wager)
    requires c.wager.opponent == s.chain.wager.opponent && s.chain.accepted <= c.accepted
    requires s.chain.wager.status == MATCHED
    ensures JobOk(s.job, s.jobs, s.payouts, s.row, c)
  {
  }

  /** A chain step behind the worker's back. */
  lemma ElsewhereKeeps(s: World, c: Chain)
    requires Inv(s) && ChainOk(c) && Advances(s.chain.wager, c.wager) && c.wager.opponent == s.chain.wager.opponent
    requires s.chain.accepted <= c.accepted && BooksOk(s.payouts, c.accepted, s.row)
    requires s.chain.wager.status == MATCHED
    ensures Inv(s.(chain := c, lost := true))
  {
    MirrorsAdvance(s.row, s.chain.wager, c.wager);
    ElsewhereJob(s, c);
  }

  lemma LandIncrementKeeps(s: World, e: Event, n: nat)
    requires Inv(s) && IncrementTx(e, n) in s.inFlight && ChainScores(s.chain, e, n).Some?
    ensures Inv(s.(chain := ChainScores(s.chain, e, n).value, lost := true))
  {
    AcceptBooks(s.payouts, s.chain, e, s.row);
    ChainScoresIff(s.chain, e, n);
    ChainScoresOk(s.chain, e, n);
    ElsewhereKeeps(s, ChainScores(s.chain, e, n).value);
  }

  lemma RefundElsewhereKeeps(s: World)
    requires Inv(s) && ChainInvalidates(s.chain).Some?
    ensures Inv(s.(chain := ChainInvalidates(s.chain).value, lost := true))
  {
    ChainInvalidatesOk(s.chain);
    ElsewhereKeeps(s, ChainInvalidates(s.chain).value);
  }

  // ----- All steps -----

  predicate OfGame(a: Action) {
    a.GameRead? || a.GameRecord? || a.GameEnqueue? || a.GameFails?
  }

  predicate OfPayout(a: Action) {
    a.PayLoad? || a.PaySend? || a.PayTimesOut? || a.PayCommit?
  }

  predicate OfCashOut(a: Action) {
    a.CashLoad? || a.CashSnapshot? || a.CashSend? || a.CashTimesOut? || a.CashCommit? || a.CashFails?
  }

  predicate OfQueue(a: Action) {
    a.PayGivenUp? || a.PayForgotten? || a.CashGivenUp? || a.CashForgotten?
  }

  lemma GameKeeps(s: World, a: Action)
    requires Inv(s) && OfGame(a)
    ensures Inv(Do(s, a))
  {
    match a
    case GameRead(e) => ReadKeeps(s, e);
    case GameRecord =>
      if s.game.Scored? {
        match RecordPayout(s.payouts, s.game.event, s.game.amount) {
          case Some(payouts) => RecordKeeps(s, payouts);
          case None => DropEventKeeps(s);
        }
      }
    case GameEnqueue =>
      if s.game.Recorded? {
        EnqueueKeeps(s);
      }
    case GameFails => DropEventKeeps(s);
  }

  lemma PayKeeps(s: World, a: Action)
    requires Inv(s) && OfPayout(a)
    ensures Inv(Do(s, a))
  {
    match a
    case PayLoad(e) => LoadKeeps(s, e);
    case PaySend =>
      if s.job.PayLoaded? {
        match ChainScores(s.chain, s.job.event, s.payouts[s.job.event.id].sequence) {
          case Some(c) => SendKeeps(s, c);
          case None => JobKeeps(s, Idle);
        }
      }
    case PayTimesOut =>
      if s.job.PayLoaded? {
        TimeOutKeeps(s, IncrementTx(s.job.event, s.payouts[s.job.event.id].sequence));
      }
    case PayCommit =>
      if s.job.PayLanded? {
        CommitKeeps(s);
      }
  }

  /** What the queue keeps of its jobs is no business of the invariant. */
  lemma QueueFree(s: World, spent: set<nat>, cashOut: Job)
    requires Inv(s)
    ensures Inv(s.(spent := spent, cashOut := cashOut))
  {
  }

  lemma FailKeeps(s: World)
    requires Inv(s)
    ensures Inv(FailCashOut(s))
  {
    CrashKeeps(s);
    QueueFree(s.(job := Idle, lost := s.lost || Landed(s.job)), s.spent, Failed(s.cashOut));
  }

  lemma SnapshotKeeps(s: World)
    requires Inv(s) && s.job == CashLoaded
    requires s.chain.wager.status == MATCHED && s.chain.wager.payoutMode == INCREMENTAL
    ensures Inv(s.(job := CashRead(s.chain.wager)))
  {
    JobKeeps(s, CashRead(s.chain.wager));
  }

  lemma CashLoadKeeps(s: World)
    requires Inv(s)
    ensures Inv(LoadCashOut(s))
  {
    if s.job == Idle && s.row.status == CashingOut {
      JobKeeps(s, CashLoaded);
    }
    QueueFree(s, s.spent, Failed(s.cashOut));
    QueueFree(s, s.spent, Finished(s.cashOut));
  }

  lemma CashSnapshotKeeps(s: World)
    requires Inv(s)
    ensures Inv(Do(s, CashSnapshot))
  {
    if s.job == CashLoaded {
      if s.chain.wager.status == MATCHED && s.chain.wager.payoutMode == INCREMENTAL {
        SnapshotKeeps(s);
      } else {
        FailKeeps(s);
      }
    }
  }

  lemma CashSendKeeps(s: World)
    requires Inv(s)
    ensures Inv(Do(s, CashSend))
  {
    if s.job.CashRead? {
      match ChainInvalidates(s.chain)
      case Some(c) => RefundKeeps(s, c);
      case None => FailKeeps(s);
    }
  }

  lemma CashTimesOutKeeps(s: World)
    requires Inv(s)
    ensures Inv(Do(s, CashTimesOut))
  {
    if s.job.CashRead? {
      TimeOutKeeps(s, InvalidateTx);
      QueueFree(s.(inFlight := s.inFlight + {InvalidateTx}, job := Idle), s.spent, Failed(s.cashOut));
    }
  }

  lemma CashCommitKeeps(s: World)
    requires Inv(s)
    ensures Inv(Do(s, CashCommit))
  {
    if s.job.CashLanded? {
      FinalsKeep(s);
    }
  }

  lemma CashFailsKeeps(s: World)
    requires Inv(s)
    ensures Inv(Do(s, CashFails))
  {
    if CashingOutNow(s.job) {
      FailKeeps(s);
    }
  }

  /** The queue on its own. */
  lemma GivenUpKeeps(s: World, a: Action)
    requires Inv(s) && OfQueue(a)
    ensures Inv(Do(s, a))
  {
    match a
    case PayGivenUp(e) => QueueFree(s, s.spent + {e.id}, s.cashOut);
    case PayForgotten(id) => QueueFree(s, s.spent - {id}, s.cashOut);
    case CashGivenUp => QueueFree(s, s.spent, Finished(s.cashOut));
    case CashForgotten => QueueFree(s, s.spent, Forgotten(s.cashOut));
  }

  lemma Lands(s: World, tx: Tx)
    ensures Do(s, Land(tx)) ==
              if tx !in s.inFlight then s
              else if tx.InvalidateTx? then Do(s, AuthorityInvalidates)
              else if ChainScores(s.chain, tx.event, tx.sequence).None? then s
              else s.(chain := ChainScores(s.chain, tx.event, tx.sequence).value, lost := true)
  {
  }

  lemma AuthorityKeeps(s: World)
    requires Inv(s)
    ensures Inv(Do(s, AuthorityInvalidates))
  {
    if ChainInvalidates(s.chain).Some? {
      RefundElsewhereKeeps(s);
    }
  }

  lemma LandKeeps(s: World, tx: Tx, s': World)
    requires Inv(s) && s' == Do(s, Land(tx))
    ensures Inv(s')
  {
    Lands(s, tx);
    if tx in s.inFlight {
      if tx.InvalidateTx? {
        AuthorityKeeps(s);
      } else if ChainScores(s.chain, tx.event, tx.sequence).Some? {
        LandIncrementKeeps(s, tx.event, tx.sequence);
      }
    }
  }

  lemma CashKeeps(s: World, a: Action)
    requires Inv(s) && OfCashOut(a)
    ensures Inv(Do(s, a))
  {
    match a
    case CashLoad => CashLoadKeeps(s);
    case CashSnapshot => CashSnapshotKeeps(s);
    case CashSend => CashSendKeeps(s);
    case CashTimesOut => CashTimesOutKeeps(s);
    case CashCommit => CashCommitKeeps(s);
    case CashFails => CashFailsKeeps(s);
  }

  /** The API's calls, the chain on its own, and crashes. */
  lemma OthersKeep(s: World, a: Action)
    requires Inv(s) && !OfGame(a) && !OfPayout(a) && !OfCashOut(a) && !OfQueue(a)
    ensures Inv(Do(s, a))
  {
    match a
    case WorkerCrash => CrashKeeps(s);
    case AskCashOut(wallet) => AskKeeps(s, wallet);
    case WithdrawCashOut(wallet) => WithdrawKeeps(s, wallet);
    case QueueCashOut => QueueKeeps(s, a);
    case QueueFails(_) => QueueKeeps(s, a);
    case ApiCrash => FrameKeeps(s, s.row, false, s.cashOut);
    case Land(tx) => LandKeeps(s, tx, Do(s, a));
    case AuthorityInvalidates => AuthorityKeeps(s);
  }

  lemma StepKeeps(s: World, a: Action)
    requires Inv(s)
    ensures Inv(Do(s, a))
  {
    if OfGame(a) {
      GameKeeps(s, a);
    } else if OfPayout(a) {
      PayKeeps(s, a);
    } else if OfCashOut(a) {
      CashKeeps(s, a);
    } else if OfQueue(a) {
      GivenUpKeeps(s, a);
    } else {
      OthersKeep(s, a);
    }
  }
}
