/** What every reachable state of the settlement protocol keeps. */
module SettlementInvariant {
  import opened Basics
  import opened ProgramState
  import opened EscrowSpec
  import opened EscrowInvariant
  import opened EscrowReceipts
  import opened WagerRows
  import opened Settlement

  predicate ChainOk(c: Chain) {
    && RecordOk(c.wager) && c.wager.payoutMode == INCREMENTAL && c.wager.status != OPEN && Seated(c.wager)
    && 2 * c.wager.amount <= U64_MAX
    && c.makerGot == Due(c.wager, c.wager.maker) && c.opponentGot == Due(c.wager, c.wager.opponent)
    && |c.accepted| == c.wager.makerScore + c.wager.opponentScore
  }

  predicate Running(r: Row) {
    r.status == Matched || r.status == CashingOut
  }

  predicate TermsAgree(r: Row, w: Wager) {
    && r.maker == w.maker && r.opponent == Some(w.opponent) && r.amount == w.amount
    && r.incremental && r.incrementValue == w.incrementValue
  }

  /** The table lags the chain on one side only: it never shows less than the escrow still holds. */
  predicate Mirrors(r: Row, w: Wager) {
    && TermsAgree(r, w)
    && r.status in {Matched, CashingOut, RowStatus.Settled, CashedOut}
    && (Running(r) ==>
          && 0 < r.makerRemaining <= r.amount && 0 < r.opponentRemaining <= r.amount
          && w.makerRemaining <= r.makerRemaining && w.opponentRemaining <= r.opponentRemaining
          && r.winner == None)
    && (!Running(r) ==> r.makerRemaining == r.opponentRemaining == 0)
    && (r.status != CashedOut ==> r.makerFinal == None && r.opponentFinal == None)
    && (r.status == RowStatus.Settled ==> w.status == SETTLED && r.winner == Some(w.winner))
    && (r.status == CashedOut ==>
          && w.status == CANCELLED && r.makerFinal.Some? && r.opponentFinal.Some?
          && r.makerFinal.value + r.opponentFinal.value == 2 * r.amount)
  }

  /** A payout never exceeds the increment. */
  predicate Small(amount: int, r: Row) {
    0 < amount <= r.incrementValue
  }

  /** The amount of a payout was capped against a balance at least as large as today's. */
  predicate Capped(amount: int, victimIsMaker: bool, r: Row) {
    Small(amount, r) && (amount == r.incrementValue || amount >= RowLeft(r, victimIsMaker))
  }

  /** Payouts are numbered 1, 2, ... without gaps or repetitions. */
  predicate Numbered(payouts: Payouts) {
    && |payouts| <= INTEGER_MAX
    && (forall id :: id in payouts ==> 1 <= payouts[id].sequence <= |payouts|)
    && (forall i, j :: i in payouts && j in payouts && payouts[i].sequence == payouts[j].sequence ==> i == j)
    && (forall n :: 1 <= n <= |payouts| ==> InUse(payouts, n))
  }

  predicate InUse(payouts: Payouts, n: nat) {
    exists id :: id in payouts && payouts[id].sequence == n
  }

  /** The i-th accepted increment is the payout numbered i + 1. */
  predicate AcceptedInTurn(accepted: seq<nat>, payouts: Payouts) {
    forall i :: 0 <= i < |accepted| ==> accepted[i] in payouts && payouts[accepted[i]].sequence == i + 1
  }

  function PaidIds(payouts: Payouts): set<nat> {
    set id | id in payouts && payouts[id].paid
  }

  predicate AllCapped(payouts: Payouts, r: Row) {
    forall id :: id in payouts ==> Capped(payouts[id].amount, payouts[id].victimIsMaker, r)
  }

  predicate BooksOk(payouts: Payouts, accepted: seq<nat>, r: Row) {
    && Numbered(payouts)
    && AcceptedInTurn(accepted, payouts)
    && AllCapped(payouts, r)
    && (forall id :: id in PaidIds(payouts) ==> id in accepted)
    && r.makerScore + r.opponentScore == |PaidIds(payouts)|
  }

  predicate JobsOk(jobs: set<Event>, payouts: Payouts) {
    forall e :: e in jobs ==> e.id in payouts
  }

  predicate InFlightOk(inFlight: set<Tx>, payouts: Payouts) {
    forall tx :: tx in inFlight && tx.IncrementTx? ==>
      tx.event.id in payouts && payouts[tx.event.id].sequence == tx.sequence
  }

  predicate GameOk(game: GameJob, payouts: Payouts, r: Row) {
    && (game.Scored? ==> Capped(game.amount, game.event.victimIsMaker, r))
    && (game.Recorded? ==> game.event.id in payouts)
  }

  /** Every queued job debits the player that its payout was recorded for. */
  predicate SidesAgree(jobs: set<Event>, payouts: Payouts) {
    forall e :: e in jobs ==> e.id in payouts && payouts[e.id].victimIsMaker == e.victimIsMaker
  }

  predicate SameLeft(r: Row, r': Row) {
    r'.makerRemaining == r.makerRemaining && r'.opponentRemaining == r.opponentRemaining
  }

  predicate SnapshotOk(snapshot: Wager, w: Wager) {
    && RecordOk(snapshot) && snapshot.status == MATCHED && snapshot.payoutMode == INCREMENTAL
    && snapshot.maker == w.maker && snapshot.opponent == w.opponent
    && snapshot.amount == w.amount && snapshot.incrementValue == w.incrementValue
    && snapshot.makerScore <= w.makerScore && snapshot.opponentScore <= w.opponentScore
  }

  predicate SameScores(snapshot: Wager, w: Wager) {
    snapshot.makerScore == w.makerScore && snapshot.opponentScore == w.opponentScore
  }

  /** The row as it will be after the commit still mirrors the chain. */
  predicate CommitMirrors(e: Event, amount: int, r: Row, w: Wager) {
    if amount >= RowLeft(r, e.victimIsMaker)
    then w.status == SETTLED && w.winner == Beneficiary(e, w)
    else RowLeft(r, e.victimIsMaker) - amount >= ChainLeft(w, e.victimIsMaker)
  }

  predicate LoadedOk(e: Event, r: Row, amount: int, jobs: set<Event>, payouts: Payouts, now: Row) {
    && Running(now) && SameLeft(r, now)
    && e in jobs && e.id in payouts && !payouts[e.id].paid && amount == payouts[e.id].amount
  }

  predicate JobOk(job: ChainJob, jobs: set<Event>, payouts: Payouts, r: Row, c: Chain) {
    match job
    case Idle => true
    case PayLoaded(e, loaded, amount) => LoadedOk(e, loaded, amount, jobs, payouts, r)
    case PayLanded(e, loaded, amount) =>
      LoadedOk(e, loaded, amount, jobs, payouts, r) && e.id in c.accepted && CommitMirrors(e, amount, r, c.wager)
    case CashLoaded => Running(r)
    case CashRead(snapshot) => Running(r) && SnapshotOk(snapshot, c.wager)
    case CashLanded(snapshot) => Running(r) && SnapshotOk(snapshot, c.wager) && c.wager.status == CANCELLED
  }

  predicate SyncedPair(r: Row, w: Wager, job: ChainJob) {
    match job
    case PayLanded(e, _, amount) =>
      if amount >= RowLeft(r, e.victimIsMaker) then w.status == SETTLED
      else
        && w.status == MATCHED
        && ChainLeft(w, e.victimIsMaker) == RowLeft(r, e.victimIsMaker) - amount
        && ChainLeft(w, !e.victimIsMaker) == RowLeft(r, !e.victimIsMaker)
    case CashLanded(_) => w.status == CANCELLED
    case _ =>
      w.status == MATCHED && w.makerRemaining == r.makerRemaining && w.opponentRemaining == r.opponentRemaining
  }

  /** As long as no step of the chain was lost, the table is exact whenever no commit is due. */
  predicate Synced(lost: bool, jobs: set<Event>, payouts: Payouts, r: Row, w: Wager, job: ChainJob) {
    !lost && SidesAgree(jobs, payouts) && Running(r) ==> SyncedPair(r, w, job)
  }

  /** The final balances on record are what the chain has paid. */
  predicate FinalsExact(s: World) {
    s.row.status == CashedOut ==>
      s.row.makerFinal == Some(s.chain.makerGot) && s.row.opponentFinal == Some(s.chain.opponentGot)
  }

  predicate PendingOk(pending: bool, r: Row) {
    pending ==> r.status != Matched
  }

  predicate Inv(s: World) {
    && ChainOk(s.chain)
    && Mirrors(s.row, s.chain.wager)
    && BooksOk(s.payouts, s.chain.accepted, s.row)
    && JobsOk(s.jobs, s.payouts)
    && InFlightOk(s.inFlight, s.payouts)
    && GameOk(s.game, s.payouts, s.row)
    && JobOk(s.job, s.jobs, s.payouts, s.row, s.chain)
    && Synced(s.lost, s.jobs, s.payouts, s.row, s.chain.wager, s.job)
    && PendingOk(s.cashOutPending, s.row)
  }

  lemma StartedInv(s: World)
    requires Started(s)
    ensures Inv(s)
  {
  }

  // ----- The chain moves -----

  /** The chain accepts an increment exactly when the wager is live and its turn has come. */
  lemma ChainScoresIff(c: Chain, e: Event, sequence: nat)
    requires ChainOk(c)
    ensures ChainScores(c, e, sequence).Some? <==>
              c.wager.status == MATCHED && sequence == |c.accepted| + 1 && sequence <= U32_MAX
  {
  }

  lemma IncrementAdvances(w: Wager, b: Pubkey, sequence: u32)
    requires PayIncrement(w, b, sequence).Ok?
    ensures var w' := PayIncrement(w, b, sequence).value.wager;
            && Advances(w, w') && w'.opponent == w.opponent && w'.status in {MATCHED, SETTLED}
            && w'.makerScore + w'.opponentScore == w.makerScore + w.opponentScore + 1
  {
  }

  lemma ChainScoresOk(c: Chain, e: Event, sequence: nat)
    requires ChainOk(c) && ChainScores(c, e, sequence).Some?
    ensures var c' := ChainScores(c, e, sequence).value;
            && ChainOk(c') && Advances(c.wager, c'.wager) && c'.accepted == c.accepted + [e.id]
            && c'.wager.opponent == c.wager.opponent
  {
    var w, b := c.wager, Beneficiary(e, c.wager);
    PayIncrementKeepsRecord(w, b, sequence);
    IncrementAdvances(w, b, sequence);
    ScoreDue(w, b, sequence, w.maker);
    ScoreDue(w, b, sequence, w.opponent);
  }

  lemma ChainInvalidatesOk(c: Chain)
    requires ChainOk(c) && ChainInvalidates(c).Some?
    ensures var c' := ChainInvalidates(c).value;
            && ChainOk(c') && Advances(c.wager, c'.wager) && c'.accepted == c.accepted
            && c'.wager.opponent == c.wager.opponent && SameScores(c.wager, c'.wager)
  {
  }

  /** What the invariant needs to know about the chain when the chain worker did not move it. */
  lemma MirrorsAdvance(r: Row, w: Wager, w': Wager)
    requires Mirrors(r, w) && Advances(w, w') && w'.opponent == w.opponent
    ensures Mirrors(r, w')
  {
  }

  /** An increment that lands takes at least as much off the escrow as its commit will take off the row,
    * although the recorded amount was capped against an older balance, be it the other player's; and if the
    * commit will settle the row, the chain has settled for the same player.
    */
  lemma LandingMirrors(c: Chain, r: Row, e: Event, sequence: nat, amount: int)
    requires ChainOk(c) && Mirrors(r, c.wager) && Running(r) && Small(amount, r)
    requires ChainScores(c, e, sequence).Some?
    ensures CommitMirrors(e, amount, r, ChainScores(c, e, sequence).value.wager)
  {
  }

  /** From equal balances, and with the amount capped for the player who is debited, both agree exactly. */
  lemma LandingAgrees(c: Chain, r: Row, e: Event, sequence: nat, amount: int)
    requires ChainOk(c) && Mirrors(r, c.wager) && Running(r) && Capped(amount, e.victimIsMaker, r)
    requires ChainScores(c, e, sequence).Some?
    requires c.wager.makerRemaining == r.makerRemaining && c.wager.opponentRemaining == r.opponentRemaining
    ensures SyncedPair(r, ChainScores(c, e, sequence).value.wager, PayLanded(e, r, amount))
  {
  }
}
