/** Cash-outs over whole runs: when the recorded balances are right. */
module SettlementCashOut {
  import opened Basics
  import opened ProgramState
  import opened EscrowSpec
  import opened EscrowInvariant
  import opened EscrowReceipts
  import opened EscrowRace
  import opened JobQueue
  import opened WagerRows
  import opened Settlement
  import opened SettlementInvariant
  import opened SettlementRuns
  import opened SettlementServices

  // ----- What a snapshot is worth -----

  lemma BalanceByScores(w: Wager)
    requires RecordOk(w) && w.status == MATCHED && w.payoutMode == INCREMENTAL
    ensures MakerBalance(w) == w.amount + (w.makerScore - w.opponentScore) * w.incrementValue
    ensures OpponentBalance(w) == w.amount - (w.makerScore - w.opponentScore) * w.incrementValue
  {
    TimesIsProduct(w.makerScore, w.incrementValue);
    TimesIsProduct(w.opponentScore, w.incrementValue);
    Distributes(w.makerScore, w.opponentScore, w.incrementValue);
  }

  lemma GotByScores(w: Wager)
    requires RecordOk(w) && w.status == CANCELLED && w.payoutMode == INCREMENTAL && w.opponent != DEFAULT_KEY
    ensures Due(w, w.maker) == w.amount + (w.makerScore - w.opponentScore) * w.incrementValue
    ensures Due(w, w.opponent) == w.amount - (w.makerScore - w.opponentScore) * w.incrementValue
  {
    TimesIsProduct(w.makerScore, w.incrementValue);
    TimesIsProduct(w.opponentScore, w.incrementValue);
    Distributes(w.makerScore, w.opponentScore, w.incrementValue);
  }

  lemma Distributes(a: int, b: int, v: int)
    ensures (a - b) * v == a * v - b * v
  {
  }

  lemma Cancels(a: int, b: int, v: int)
    requires v > 0
    ensures a * v == b * v <==> a == b
  {
  }

  lemma FinalsByScores(snapshot: Wager, c: Chain)
    requires ChainOk(c) && SnapshotOk(snapshot, c.wager) && c.wager.status == CANCELLED
    ensures MakerBalance(snapshot) == c.makerGot && OpponentBalance(snapshot) == c.opponentGot <==>
              snapshot.makerScore - snapshot.opponentScore == c.wager.makerScore - c.wager.opponentScore
  {
    BalanceByScores(snapshot);
    GotByScores(c.wager);
    Cancels(snapshot.makerScore - snapshot.opponentScore, c.wager.makerScore - c.wager.opponentScore,
            c.wager.incrementValue);
  }

  // ----- The history of a cash-out -----

  predicate HasSnapshot(job: ChainJob) {
    job.CashRead? || job.CashLanded?
  }

  /** An increment that lands without the worker. */
  predicate LandsIncrement(a: Action) {
    a.Land? && a.tx.IncrementTx?
  }

  lemma KeptSnapshot(s: World, a: Action)
    requires HasSnapshot(s.job) && HasSnapshot(Do(s, a).job)
    ensures Do(s, a).job.snapshot == s.job.snapshot
    ensures LandsIncrement(a) || SameScores(s.chain.wager, Do(s, a).chain.wager)
  {
    if a.Land? {
      LandedScores(s, a.tx);
    }
  }

  lemma LandedScores(s: World, tx: Tx)
    ensures Do(s, Land(tx)).job == s.job
    ensures tx.InvalidateTx? ==> SameScores(s.chain.wager, Do(s, Land(tx)).chain.wager)
  {
  }

  lemma NewSnapshot(s: World, a: Action)
    requires !HasSnapshot(s.job) && HasSnapshot(Do(s, a).job)
    ensures a == CashSnapshot && Do(s, a).job.snapshot == s.chain.wager && Do(s, a).chain == s.chain
  {
  }

  /** The snapshot a job holds was taken by the m-th action; only increments that land on their own can have
    * changed the scores since.
    */
  predicate TakenAt(s: World, actions: seq<Action>, m: nat, snapshot: Wager) {
    && m < |actions| && actions[m] == CashSnapshot && snapshot == Run(s, actions[..m]).chain.wager
    && ((forall k :: m < k < |actions| ==> !LandsIncrement(actions[k])) ==>
          SameScores(snapshot, Run(s, actions).chain.wager))
  }

  lemma TakenStays(s: World, before: seq<Action>, a: Action, m: nat, snapshot: Wager)
    requires TakenAt(s, before, m, snapshot)
    requires LandsIncrement(a) || SameScores(Run(s, before).chain.wager, Do(Run(s, before), a).chain.wager)
    ensures TakenAt(s, before + [a], m, snapshot)
  {
    var actions := before + [a];
    assert actions[..|actions| - 1] == before && actions[..m] == before[..m];
    if forall k :: m < k < |actions| ==> !LandsIncrement(actions[k]) {
      assert actions[|before|] == a;
      assert forall k :: m < k < |before| ==> !LandsIncrement(actions[k]) && actions[k] == before[k];
    }
  }

  lemma TakenNow(s: World, before: seq<Action>)
    requires Do(Run(s, before), CashSnapshot).chain == Run(s, before).chain
    ensures TakenAt(s, before + [CashSnapshot], |before|, Run(s, before).chain.wager)
  {
    var actions := before + [CashSnapshot];
    assert actions[..|actions| - 1] == before;
  }

  lemma {:induction false} SnapshotTaken(s: World, actions: seq<Action>) returns (m: nat)
    requires !HasSnapshot(s.job) && HasSnapshot(Run(s, actions).job)
    ensures TakenAt(s, actions, m, Run(s, actions).job.snapshot)
  {
    var before, a := actions[..|actions| - 1], actions[|actions| - 1];
    assert actions == before + [a];
    if HasSnapshot(Run(s, before).job) {
      m := SnapshotTaken(s, before);
      KeptSnapshot(Run(s, before), a);
      TakenStays(s, before, a, m, Run(s, before).job.snapshot);
    } else {
      NewSnapshot(Run(s, before), a);
      TakenNow(s, before);
      m := |before|;
    }
  }

  lemma OnlyCommitRecords(s: World, a: Action)
    requires s.row.status != CashedOut && a != CashCommit
    ensures Do(s, a).row.status != CashedOut
  {
    match a
    case PayCommit =>
    case AskCashOut(_) =>
    case WithdrawCashOut(_) =>
    case QueueFails(_) =>
    case _ => RowFramed(s, a);
  }

  lemma CommitRecords(s: World)
    requires s.row.status != CashedOut && Do(s, CashCommit).row.status == CashedOut
    ensures s.job.CashLanded? && Do(s, CashCommit).chain == s.chain
    ensures Do(s, CashCommit).row.makerFinal == Some(MakerBalance(s.job.snapshot))
    ensures Do(s, CashCommit).row.opponentFinal == Some(OpponentBalance(s.job.snapshot))
  {
  }

  /** A refunded wager stands still. */
  lemma CancelledStands(s: World, a: Action)
    requires s.chain.wager.status == CANCELLED
    ensures Do(s, a).chain == s.chain
  {
  }

  /** How a cashed-out row came about: the n-th action committed the balances of a snapshot that the m-th had
    * taken, and nothing has changed since.
    */
  predicate CommittedAt(s: World, actions: seq<Action>, m: nat, n: nat) {
    && m < n < |actions| && actions[n] == CashCommit
    && var then', now := Run(s, actions[..n]), Run(s, actions);
       && then'.job.CashLanded? && TakenAt(s, actions[..n], m, then'.job.snapshot)
       && SnapshotOk(then'.job.snapshot, now.chain.wager) && now.chain == then'.chain
       && now.row.makerFinal == Some(MakerBalance(then'.job.snapshot))
       && now.row.opponentFinal == Some(OpponentBalance(then'.job.snapshot))
  }

  lemma CommittedStays(s: World, before: seq<Action>, a: Action, m: nat, n: nat)
    requires CommittedAt(s, before, m, n)
    requires Do(Run(s, before), a).chain == Run(s, before).chain && Do(Run(s, before), a).row == Run(s, before).row
    ensures CommittedAt(s, before + [a], m, n)
  {
    var actions := before + [a];
    assert actions[..|actions| - 1] == before && actions[..n] == before[..n];
  }

  lemma CommittedNow(s: World, before: seq<Action>, m: nat)
    requires Run(s, before).job.CashLanded? && TakenAt(s, before, m, Run(s, before).job.snapshot)
    requires SnapshotOk(Run(s, before).job.snapshot, Run(s, before).chain.wager)
    requires var then', now := Run(s, before), Do(Run(s, before), CashCommit);
             && now.chain == then'.chain
             && now.row.makerFinal == Some(MakerBalance(then'.job.snapshot))
             && now.row.opponentFinal == Some(OpponentBalance(then'.job.snapshot))
    ensures CommittedAt(s, before + [CashCommit], m, |before|)
  {
    var actions := before + [CashCommit];
    assert actions[..|before|] == before && actions[..|actions| - 1] == before;
  }

  lemma CashedOutStands(s: World, a: Action)
    requires Inv(s) && s.row.status == CashedOut
    ensures Do(s, a).row == s.row && Do(s, a).chain == s.chain
  {
    CancelledStands(s, a);
    FinishedStepStands(s, a);
  }

  lemma CommitHistory(s: World, before: seq<Action>, a: Action) returns (m: nat)
    requires !HasSnapshot(s.job) && Inv(Run(s, before))
    requires Run(s, before).row.status != CashedOut && Do(Run(s, before), a).row.status == CashedOut
    ensures CommittedAt(s, before + [a], m, |before|)
  {
    if a != CashCommit {
      OnlyCommitRecords(Run(s, before), a);
    }
    CommitRecords(Run(s, before));
    m := SnapshotTaken(s, before);
    CommittedNow(s, before, m);
  }

  lemma {:induction false} CashOutHistory(s: World, actions: seq<Action>) returns (m: nat, n: nat)
    requires !HasSnapshot(s.job) && s.row.status != CashedOut && Inv(s)
    requires Run(s, actions).row.status == CashedOut
    ensures CommittedAt(s, actions, m, n)
  {
    var before, a := actions[..|actions| - 1], actions[|actions| - 1];
    assert actions == before + [a];
    RunKeepsInv(s, before);
    if Run(s, before).row.status == CashedOut {
      m, n := CashOutHistory(s, before);
      CashedOutStands(Run(s, before), a);
      CommittedStays(s, before, a, m, n);
    } else {
      m := CommitHistory(s, before, a);
      n := |before|;
    }
  }

  // ----- When the recorded balances are right -----

  /** In every finished run of a cash-out the balances on record add up to both stakes, as do the payments.
    * They are what the chain has paid to each player, refunds included, if and only if the increments that
    * landed between the snapshot and the end cancel each other out.
    */
  lemma CashOutExactIff(s: World, actions: seq<Action>) returns (m: nat, n: nat)
    requires Started(s) && Run(s, actions).row.status == CashedOut
    ensures m < n < |actions| && actions[m] == CashSnapshot && actions[n] == CashCommit
    ensures var now, read := Run(s, actions), Run(s, actions[..m]).chain.wager;
            && now.row.makerFinal.Some? && now.row.opponentFinal.Some?
            && now.row.makerFinal.value + now.row.opponentFinal.value == 2 * now.row.amount
            && now.chain.makerGot + now.chain.opponentGot == 2 * now.row.amount
            && (FinalsExact(now) <==>
                  read.makerScore - read.opponentScore == now.chain.wager.makerScore - now.chain.wager.opponentScore)
            && ((forall k :: m < k < n ==> !LandsIncrement(actions[k])) ==> FinalsExact(now))
  {
    StartedInv(s);
    m, n := CashOutHistory(s, actions);
    RunKeeps(s, actions);
    assert actions[..n][..m] == actions[..m];
    assert forall k :: m < k < n ==> actions[..n][k] == actions[k];
    FinalsByScores(Run(s, actions[..n]).job.snapshot, Run(s, actions).chain);
    PotIsPaidOut(Run(s, actions).chain.wager);
  }

  // ----- A cash-out that misses a late increment -----

  /** An increment for the maker is recorded, queued and sent, and its sender gives up waiting. */
  function LatePayment(e: Event): seq<Action> {
    [GameRead(e), GameRecord] + ([GameEnqueue, PayLoad(e)] + [PayTimesOut])
  }

  /** Both players ask, and the job reads the chain. */
  function AgreedSnapshot(first: Pubkey, second: Pubkey): seq<Action> {
    [AskCashOut(first), AskCashOut(second)] + ([QueueCashOut, CashLoad] + [CashSnapshot])
  }

  /** The increment lands just before the refund. */
  function LateRefund(e: Event): seq<Action> {
    [Land(IncrementTx(e, 1)), CashSend] + [CashCommit]
  }

  /** The run behind the condition of CashOutExactIff. */
  function LateIncrement(s: World, e: Event): seq<Action> {
    LatePayment(e) + (AgreedSnapshot(s.row.maker, s.chain.wager.opponent) + LateRefund(e))
  }

  lemma EventRecorded(s: World, e: Event)
    requires s.game == NoEvent && s.payouts == map[] && s.row.status == Matched && !e.victimIsMaker
    requires 0 < s.row.incrementValue < s.row.opponentRemaining
    ensures Run(s, [GameRead(e), GameRecord])
         == s.(game := Recorded(e), payouts := map[e.id := Payout(false, s.row.incrementValue, 1, false)])
  {
    var s1 := s.(game := Scored(e, s.row.incrementValue));
    var s2 := s.(game := Recorded(e), payouts := map[e.id := Payout(false, s.row.incrementValue, 1, false)]);
    RunTwo(s, GameRead(e), GameRecord, s1, s2);
  }

  lemma PaymentSent(s: World, e: Event, amount: nat)
    requires s.game == Recorded(e) && s.job == Idle && s.jobs == {} && s.spent == {} && s.inFlight == {}
    requires s.payouts == map[e.id := Payout(false, amount, 1, false)] && s.row.status == Matched && s.row.incremental
    ensures Run(s, [GameEnqueue, PayLoad(e)] + [PayTimesOut])
         == s.(game := NoEvent, jobs := {e}, inFlight := {IncrementTx(e, 1)})
  {
    var s1 := s.(game := NoEvent, jobs := {e});
    var s2 := s1.(job := PayLoaded(e, s.row, amount));
    RunTwo(s, GameEnqueue, PayLoad(e), s1, s2);
    RunOne(s2, PayTimesOut);
    RunConcat(s, [GameEnqueue, PayLoad(e)], [PayTimesOut]);
  }

  lemma LatePaymentRun(s: World, e: Event)
    requires s.game == NoEvent && s.job == Idle && s.payouts == map[] && s.jobs == {} && s.spent == {}
    requires s.inFlight == {}
    requires s.row.status == Matched && s.row.incremental && !e.victimIsMaker
    requires 0 < s.row.incrementValue < s.row.opponentRemaining
    ensures Run(s, LatePayment(e))
         == s.(payouts := map[e.id := Payout(false, s.row.incrementValue, 1, false)], jobs := {e},
               inFlight := {IncrementTx(e, 1)})
  {
    EventRecorded(s, e);
    PaymentSent(s.(game := Recorded(e), payouts := map[e.id := Payout(false, s.row.incrementValue, 1, false)]),
                e, s.row.incrementValue);
    RunConcat(s, [GameRead(e), GameRecord], [GameEnqueue, PayLoad(e)] + [PayTimesOut]);
  }

  lemma BothAsk(s: World, first: Pubkey, second: Pubkey)
    requires s.row.status == Matched && s.row.incremental && s.row.cashoutRequestedBy == None
    requires s.row.maker == first && s.row.opponent == Some(second) && second != first
    ensures Run(s, [AskCashOut(first), AskCashOut(second)])
         == s.(row := s.row.(status := CashingOut, cashoutRequestedBy := Some(first)), cashOutPending := true)
  {
    var s1 := s.(row := s.row.(cashoutRequestedBy := Some(first)));
    var s2 := s.(row := s.row.(status := CashingOut, cashoutRequestedBy := Some(first)), cashOutPending := true);
    RunTwo(s, AskCashOut(first), AskCashOut(second), s1, s2);
  }

  lemma JobReads(s: World)
    requires s.job == Idle && s.cashOutPending && !s.cashOut.Over?
    requires s.row.status == CashingOut && s.row.incremental
    requires s.chain.wager.status == MATCHED && s.chain.wager.payoutMode == INCREMENTAL
    ensures Run(s, [QueueCashOut, CashLoad] + [CashSnapshot])
         == s.(cashOutPending := false, cashOut := Added(s.cashOut), job := CashRead(s.chain.wager))
  {
    var s1 := s.(cashOutPending := false, cashOut := Added(s.cashOut));
    var s2 := s1.(job := CashLoaded);
    RunTwo(s, QueueCashOut, CashLoad, s1, s2);
    RunOne(s2, CashSnapshot);
    RunConcat(s, [QueueCashOut, CashLoad], [CashSnapshot]);
  }

  lemma AgreedSnapshotRun(s: World, second: Pubkey)
    requires s.job == Idle && s.cashOut == Absent && !s.cashOutPending
    requires s.row.status == Matched && s.row.incremental && s.row.cashoutRequestedBy == None
    requires s.row.opponent == Some(second) && second != s.row.maker
    requires s.chain.wager.status == MATCHED && s.chain.wager.payoutMode == INCREMENTAL
    ensures Run(s, AgreedSnapshot(s.row.maker, second))
         == s.(row := s.row.(status := CashingOut, cashoutRequestedBy := Some(s.row.maker)),
               cashOut := Waiting(0), job := CashRead(s.chain.wager))
  {
    var first := s.row.maker;
    BothAsk(s, first, second);
    JobReads(s.(row := s.row.(status := CashingOut, cashoutRequestedBy := Some(first)), cashOutPending := true));
    RunConcat(s, [AskCashOut(first), AskCashOut(second)], [QueueCashOut, CashLoad] + [CashSnapshot]);
  }

  lemma LateLandingRun(s: World, e: Event, c1: Chain, c2: Chain)
    requires IncrementTx(e, 1) in s.inFlight && s.job.CashRead?
    requires ChainScores(s.chain, e, 1) == Some(c1) && ChainInvalidates(c1) == Some(c2)
    ensures Run(s, [Land(IncrementTx(e, 1)), CashSend])
         == s.(chain := c2, lost := true, job := CashLanded(s.job.snapshot))
  {
    RunTwo(s, Land(IncrementTx(e, 1)), CashSend, s.(chain := c1, lost := true),
           s.(chain := c2, lost := true, job := CashLanded(s.job.snapshot)));
  }

  lemma LateCommit(s: World)
    requires s.job.CashLanded? && s.row.status == CashingOut
    ensures var now := Run(s, [CashCommit]);
            && now.row.status == CashedOut && now.chain == s.chain
            && now.row.makerFinal == Some(MakerBalance(s.job.snapshot))
            && now.row.opponentFinal == Some(OpponentBalance(s.job.snapshot))
  {
    RunOne(s, CashCommit);
  }

  lemma LateRefundRun(s: World, e: Event, c1: Chain, c2: Chain)
    requires IncrementTx(e, 1) in s.inFlight && s.job.CashRead? && s.row.status == CashingOut
    requires ChainScores(s.chain, e, 1) == Some(c1) && ChainInvalidates(c1) == Some(c2)
    ensures var now := Run(s, LateRefund(e));
            && now.row.status == CashedOut && now.chain == c2
            && now.row.makerFinal == Some(MakerBalance(s.job.snapshot))
            && now.row.opponentFinal == Some(OpponentBalance(s.job.snapshot))
  {
    LateLandingRun(s, e, c1, c2);
    LateCommit(s.(chain := c2, lost := true, job := CashLanded(s.job.snapshot)));
    RunConcat(s, [Land(IncrementTx(e, 1)), CashSend], [CashCommit]);
  }

  lemma AgreedRefundRun(s: World, e: Event, second: Pubkey, c1: Chain, c2: Chain)
    requires s.job == Idle && s.cashOut == Absent && !s.cashOutPending
    requires s.row.status == Matched && s.row.incremental && s.row.cashoutRequestedBy == None
    requires s.row.opponent == Some(second) && second != s.row.maker
    requires s.chain.wager.status == MATCHED && s.chain.wager.payoutMode == INCREMENTAL
    requires IncrementTx(e, 1) in s.inFlight
    requires ChainScores(s.chain, e, 1) == Some(c1) && ChainInvalidates(c1) == Some(c2)
    ensures var now := Run(s, AgreedSnapshot(s.row.maker, second) + LateRefund(e));
            && now.row.status == CashedOut && now.chain == c2
            && now.row.makerFinal == Some(MakerBalance(s.chain.wager))
            && now.row.opponentFinal == Some(OpponentBalance(s.chain.wager))
  {
    AgreedSnapshotRun(s, second);
    LateRefundRun(Run(s, AgreedSnapshot(s.row.maker, second)), e, c1, c2);
    RunConcat(s, AgreedSnapshot(s.row.maker, second), LateRefund(e));
  }

  lemma LateLanding(c: Chain, e: Event)
    requires RecordOk(c.wager) && c.wager.status == MATCHED && c.wager.payoutMode == INCREMENTAL
    requires c.wager.makerScore == c.wager.opponentScore == 0 && 2 * c.wager.amount <= U64_MAX
    requires !e.victimIsMaker && c.wager.incrementValue < c.wager.amount
    requires c.makerGot == c.opponentGot == 0
    ensures ChainScores(c, e, 1).Some?
    ensures var c1 := ChainScores(c, e, 1).value;
            && ChainInvalidates(c1).Some?
            && ChainInvalidates(c1).value.makerGot == c.wager.amount + c.wager.incrementValue
            && ChainInvalidates(c1).value.opponentGot == c.wager.amount - c.wager.incrementValue
  {
  }

  /** The recorded balances then miss the late increment: the maker was paid one increment more than the
    * table says, and the opponent one less.
    */
  lemma LateIncrementMissed(s: World, e: Event)
    requires Started(s) && !e.victimIsMaker && s.row.incrementValue < s.row.amount
    ensures var now := Run(s, LateIncrement(s, e));
            && now.row.status == CashedOut
            && now.row.makerFinal == Some(s.row.amount) && now.row.opponentFinal == Some(s.row.amount)
            && now.chain.makerGot == s.row.amount + s.row.incrementValue
            && now.chain.opponentGot == s.row.amount - s.row.incrementValue
  {
    var late, agreed, refund := LatePayment(e), AgreedSnapshot(s.row.maker, s.chain.wager.opponent), LateRefund(e);
    LatePaymentRun(s, e);
    LateLanding(s.chain, e);
    var c1 := ChainScores(s.chain, e, 1).value;
    AgreedRefundRun(Run(s, late), e, s.chain.wager.opponent, c1, ChainInvalidates(c1).value);
    RunConcat(s, late, agreed + refund);
  }
}
