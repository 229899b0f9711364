/** Whole payments, from the event to the commit, and what they show about rows and escrows. */
module SettlementPayments {
  import opened Basics
  import opened ProgramState
  import opened EscrowSpec
  import opened EscrowInvariant
  import opened WagerRows
  import opened Settlement
  import opened SettlementRuns
  import opened SettlementServices

  /** One event handled without interruption by both workers. */
  function PaymentSteps(e: Event): seq<Action> {
    ScoringSteps(e) + PayoutSteps(e)
  }

  /** The world after a new event was recorded and queued. */
  function Queued(s: World, e: Event, amount: int): World {
    s.(payouts := s.payouts[e.id := Payout(e.victimIsMaker, amount, |s.payouts| + 1, false)], jobs := s.jobs + {e})
  }

  /** The world after its increment was accepted and committed. */
  function Settled(s: World, e: Event, amount: int, c: Chain): World {
    s.(payouts := s.payouts[e.id := Payout(e.victimIsMaker, amount, |s.payouts| + 1, true)], jobs := s.jobs + {e},
       chain := c, row := After(s.row, CommitIncrement(!e.victimIsMaker, amount, IsFinal(e, s.row, amount))))
  }

  lemma ScoringRuns(s: World, e: Event, amount: int)
    requires s.game == NoEvent && s.row.status == Matched && e.id !in s.payouts && |s.payouts| < INTEGER_MAX
    requires amount == KillPayout(s.row.incrementValue, RowLeft(s.row, e.victimIsMaker)) && amount > 0
    ensures Run(s, ScoringSteps(e)) == Queued(s, e, amount)
  {
    var recorded := Queued(s, e, amount).(jobs := s.jobs, game := Recorded(e));
    RunThree(s, GameRead(e), GameRecord, GameEnqueue, s.(game := Scored(e, amount)), recorded, Queued(s, e, amount));
  }

  lemma PayoutRuns(s: World, e: Event, amount: int, c: Chain)
    requires s.job == Idle && s.row.status == Matched && s.row.incremental && ScoreFits(s.row, e)
    requires e.id !in s.spent && ChainScores(s.chain, e, |s.payouts| + 1) == Some(c)
    ensures Run(Queued(s, e, amount), PayoutSteps(e)) == Settled(s, e, amount, c)
  {
    var q := Queued(s, e, amount);
    RunThree(q, PayLoad(e), PaySend, PayCommit, q.(job := PayLoaded(e, s.row, amount)),
             q.(chain := c, job := PayLanded(e, s.row, amount)), Settled(s, e, amount, c));
  }

  lemma PaymentRuns(s: World, e: Event, amount: int, c: Chain)
    requires s.game == NoEvent && s.job == Idle && s.row.status == Matched && s.row.incremental && ScoreFits(s.row, e)
    requires e.id !in s.payouts && e.id !in s.spent && |s.payouts| < INTEGER_MAX
    requires amount == KillPayout(s.row.incrementValue, RowLeft(s.row, e.victimIsMaker)) && amount > 0
    requires ChainScores(s.chain, e, |s.payouts| + 1) == Some(c)
    ensures Run(s, PaymentSteps(e)) == Settled(s, e, amount, c)
  {
    ScoringRuns(s, e, amount);
    PayoutRuns(s, e, amount, c);
    RunConcat(s, ScoringSteps(e), PayoutSteps(e));
  }

  // ----- Why both sides must name the same increment -----

  lemma FirstIncrement(c: Chain, e: Event)
    requires RecordOk(c.wager) && c.wager.status == MATCHED && c.wager.payoutMode == INCREMENTAL
    requires c.wager.makerScore == c.wager.opponentScore == 0 && 2 * c.wager.amount <= U64_MAX
    ensures ChainScores(c, e, 1).Some?
    ensures ChainLeft(ChainScores(c, e, 1).value.wager, e.victimIsMaker) == c.wager.amount - c.wager.incrementValue
  {
  }

  lemma FirstCommit(r: Row, e: Event, amount: int)
    requires 0 < amount <= r.amount && r.makerRemaining == r.opponentRemaining == r.amount
    ensures RowLeft(After(r, CommitIncrement(!e.victimIsMaker, amount, IsFinal(e, r, amount))), e.victimIsMaker)
         == r.amount - amount
  {
  }

  /** The first payment of a wager that was funded alike leaves table and escrow equal exactly when both name
    * the same increment, which nothing on the server compares.
    */
  lemma FirstPaymentAgreesIff(s: World, e: Event)
    requires FundedAlike(s)
    ensures var now := Run(s, PaymentSteps(e));
            RowLeft(now.row, e.victimIsMaker) == ChainLeft(now.chain.wager, e.victimIsMaker)
            <==> s.row.incrementValue == s.chain.wager.incrementValue
  {
    FirstIncrement(s.chain, e);
    FirstCommit(s.row, e, s.row.incrementValue);
    PaymentRuns(s, e, s.row.incrementValue, ChainScores(s.chain, e, 1).value);
  }

  // ----- A loser who scored -----

  /** The opponent scores once, the maker twice. */
  function LoserScores(): seq<Action> {
    PaymentSteps(Event(1, true)) + (PaymentSteps(Event(2, false)) + PaymentSteps(Event(3, false)))
  }

  predicate TwoRounds(w: Wager) {
    w.incrementValue < w.amount <= 2 * w.incrementValue
  }

  lemma ThreeIncrements(c: Chain) returns (c1: Chain, c2: Chain, c3: Chain)
    requires RecordOk(c.wager) && c.wager.status == MATCHED && c.wager.payoutMode == INCREMENTAL && TwoRounds(c.wager)
    requires c.wager.makerScore == c.wager.opponentScore == 0 && 2 * c.wager.amount <= U64_MAX
    requires c.makerGot == c.opponentGot == 0
    ensures ChainScores(c, Event(1, true), 1) == Some(c1)
    ensures ChainScores(c1, Event(2, false), 2) == Some(c2)
    ensures ChainScores(c2, Event(3, false), 3) == Some(c3)
    ensures c3.makerGot == 2 * c.wager.amount - c.wager.incrementValue && c3.opponentGot == c.wager.incrementValue
  {
    c1 := ChainScores(c, Event(1, true), 1).value;
    assert c1.wager == c.wager.(opponentScore := 1, makerRemaining := c.wager.amount - c.wager.incrementValue);
    c2 := ChainScores(c1, Event(2, false), 2).value;
    assert c2.wager == c1.wager.(makerScore := 1, opponentRemaining := c.wager.amount - c.wager.incrementValue);
    c3 := ChainScores(c2, Event(3, false), 3).value;
  }

  /** Ready for the n-th payment of a running wager. */
  predicate Ready(s: World, n: nat) {
    && s.game == NoEvent && s.job == Idle && s.row.status == Matched && s.row.incremental
    && s.spent == {} && n !in s.payouts && |s.payouts| + 1 == n <= INTEGER_MAX
  }

  lemma OpponentScores(s: World, n: nat, c: Chain)
    requires Ready(s, n) && s.row.opponentScore == 0 && ChainScores(s.chain, Event(n, true), n) == Some(c)
    requires 0 < s.row.incrementValue < s.row.makerRemaining == s.row.amount
    ensures var v := s.row.incrementValue;
            && Run(s, PaymentSteps(Event(n, true))) == Settled(s, Event(n, true), v, c)
            && Settled(s, Event(n, true), v, c).row == s.row.(opponentScore := 1, makerRemaining := s.row.amount - v)
  {
    PaymentRuns(s, Event(n, true), s.row.incrementValue, c);
  }

  lemma MakerScores(s: World, n: nat, c: Chain)
    requires Ready(s, n) && s.row.makerScore == 0 && ChainScores(s.chain, Event(n, false), n) == Some(c)
    requires 0 < s.row.incrementValue < s.row.opponentRemaining == s.row.amount
    ensures var v := s.row.incrementValue;
            && Run(s, PaymentSteps(Event(n, false))) == Settled(s, Event(n, false), v, c)
            && Settled(s, Event(n, false), v, c).row == s.row.(makerScore := 1, opponentRemaining := s.row.amount - v)
  {
    PaymentRuns(s, Event(n, false), s.row.incrementValue, c);
  }

  lemma MakerWins(s: World, n: nat, c: Chain)
    requires Ready(s, n) && s.row.makerScore == 1 && ChainScores(s.chain, Event(n, false), n) == Some(c)
    requires 0 < s.row.opponentRemaining <= s.row.incrementValue
    ensures var now := Run(s, PaymentSteps(Event(n, false)));
            && now.chain == c
            && now.row == s.row.(makerScore := 2, makerRemaining := 0, opponentRemaining := 0,
                                 status := RowStatus.Settled, winner := Some(s.row.maker))
  {
    PaymentRuns(s, Event(n, false), s.row.opponentRemaining, c);
  }

  /** In this run the loser keeps one increment, and the table says SETTLED for the maker. */
  lemma LoserScoresRun(s: World)
    requires Started(s) && TwoRounds(s.chain.wager)
    ensures var now := Run(s, LoserScores());
            && now.row.status == RowStatus.Settled && now.row.winner == Some(s.row.maker)
            && now.row.maker == s.row.maker && now.row.amount == s.row.amount
            && now.row.makerFinal == None && now.row.opponentFinal == None
            && now.chain.makerGot == 2 * s.row.amount - s.row.incrementValue
            && now.chain.opponentGot == s.row.incrementValue
  {
    var c1, c2, c3 := ThreeIncrements(s.chain);
    var v := s.row.incrementValue;
    OpponentScores(s, 1, c1);
    var s1 := Settled(s, Event(1, true), v, c1);
    MakerScores(s1, 2, c2);
    var s2 := Settled(s1, Event(2, false), v, c2);
    MakerWins(s2, 3, c3);
    RunConcat(s1, PaymentSteps(Event(2, false)), PaymentSteps(Event(3, false)));
    RunConcat(s, PaymentSteps(Event(1, true)), PaymentSteps(Event(2, false)) + PaymentSteps(Event(3, false)));
  }
}
