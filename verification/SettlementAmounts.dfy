/** What scoring events record against what the chain pays for them. */
module SettlementAmounts {
  import opened Basics
  import opened ProgramState
  import opened EscrowSpec
  import opened EscrowInvariant
  import opened WagerRows
  import opened Settlement
  import opened SettlementInvariant
  import opened SettlementSteps
  import opened SettlementRuns
  import opened SettlementServices
  import opened SettlementPayments

  // ----- What is recorded -----

  /** The increment, or all that the debited player has left if that is less. */
  predicate IsCapped(amount: int, incrementValue: int, left: int) {
    amount <= incrementValue && amount <= left && (amount == incrementValue || amount == left)
  }

  /** A reading takes down the increment, capped by what the row shows for the player who is debited. */
  lemma ReadingIsCapped(s: World, e: Event)
    requires s.game == NoEvent && Do(s, GameRead(e)).game != NoEvent
    ensures var game := Do(s, GameRead(e)).game;
            && game.Scored? && game.event == e && s.row.status == Matched && game.amount > 0
            && IsCapped(game.amount, s.row.incrementValue,
                        if e.victimIsMaker then s.row.makerRemaining else s.row.opponentRemaining)
  {
  }

  /** The reading at step m of a run. */
  predicate ReadAt(s: World, actions: seq<Action>, m: nat, e: Event, amount: int) {
    && m < |actions| && actions[m] == GameRead(e)
    && var row := Run(s, actions[..m]).row;
       && row.status == Matched
       && IsCapped(amount, row.incrementValue, if e.victimIsMaker then row.makerRemaining else row.opponentRemaining)
  }

  ghost predicate WasRead(s: World, actions: seq<Action>, e: Event, amount: int) {
    exists m: nat :: ReadAt(s, actions, m, e, amount)
  }

  lemma ReadEarlier(s: World, before: seq<Action>, a: Action, e: Event, amount: int)
    requires WasRead(s, before, e, amount)
    ensures WasRead(s, before + [a], e, amount)
  {
    var m: nat :| ReadAt(s, before, m, e, amount);
    assert (before + [a])[..m] == before[..m];
    assert ReadAt(s, before + [a], m, e, amount);
  }

  lemma ReadNow(s: World, before: seq<Action>, e: Event)
    requires Run(s, before).game == NoEvent && Do(Run(s, before), GameRead(e)).game.Scored?
    ensures WasRead(s, before + [GameRead(e)], e, Do(Run(s, before), GameRead(e)).game.amount)
  {
    ReadingIsCapped(Run(s, before), e);
    assert (before + [GameRead(e)])[..|before|] == before;
    assert ReadAt(s, before + [GameRead(e)], |before|, e, Do(Run(s, before), GameRead(e)).game.amount);
  }

  /** Every amount in the table, and the one the game worker holds, was read in the run. */
  ghost predicate AllRead(s: World, actions: seq<Action>, now: World) {
    && (now.game.Scored? ==> WasRead(s, actions, now.game.event, now.game.amount))
    && forall id :: id in now.payouts ==>
         WasRead(s, actions, Event(id, now.payouts[id].victimIsMaker), now.payouts[id].amount)
  }

  /** A step records what the game worker holds, or no new amount. */
  lemma RecordsHeld(s: World, a: Action, id: nat)
    requires id in Do(s, a).payouts
    ensures || (id in s.payouts && Do(s, a).payouts[id].amount == s.payouts[id].amount
                && Do(s, a).payouts[id].victimIsMaker == s.payouts[id].victimIsMaker)
            || (s.game.Scored? && s.game.event == Event(id, Do(s, a).payouts[id].victimIsMaker)
                && s.game.amount == Do(s, a).payouts[id].amount)
  {
  }

  lemma HoldsRead(s: World, a: Action)
    requires Do(s, a).game.Scored?
    ensures Do(s, a).game == s.game || (s.game == NoEvent && a == GameRead(Do(s, a).game.event))
  {
  }

  lemma {:induction false} AmountsWereRead(s: World, actions: seq<Action>)
    requires Started(s)
    ensures AllRead(s, actions, Run(s, actions))
    decreases |actions|
  {
    if actions != [] {
      var before, a := actions[..|actions| - 1], actions[|actions| - 1];
      var now := Run(s, before);
      assert actions == before + [a];
      AmountsWereRead(s, before);
      if Do(now, a).game.Scored? {
        HoldsRead(now, a);
        if Do(now, a).game == now.game {
          ReadEarlier(s, before, a, now.game.event, now.game.amount);
        } else {
          ReadNow(s, before, Do(now, a).game.event);
        }
      }
      forall id | id in Do(now, a).payouts
        ensures WasRead(s, actions, Event(id, Do(now, a).payouts[id].victimIsMaker), Do(now, a).payouts[id].amount)
      {
        RecordsHeld(now, a, id);
        ReadEarlier(s, before, a, Event(id, Do(now, a).payouts[id].victimIsMaker), Do(now, a).payouts[id].amount);
      }
    }
  }

  /** For every row of kill_payouts the run has a reading of its event at which the row's amount was the increment, or
    * what the debited player had left if that was less.
    */
  lemma RecordedAtReading(s: World, actions: seq<Action>, id: nat) returns (m: nat)
    requires Started(s) && id in Run(s, actions).payouts
    ensures var payout := Run(s, actions).payouts[id];
            ReadAt(s, actions, m, Event(id, payout.victimIsMaker), payout.amount)
  {
    AmountsWereRead(s, actions);
    var payout := Run(s, actions).payouts[id];
    m :| ReadAt(s, actions, m, Event(id, payout.victimIsMaker), payout.amount);
  }

  // ----- What the chain pays -----

  /** What an accepted increment takes: from whose reserve, how much was left of it, and how much it takes. */
  datatype Taken = Taken(fromMaker: bool, left: int, amount: int)

  /** Read off the wager record before and after. */
  function TakenBetween(w: Wager, w': Wager): Taken {
    if w'.opponentScore > w.opponentScore then Taken(true, w.makerRemaining, w.makerRemaining - w'.makerRemaining)
    else Taken(false, w.opponentRemaining, w.opponentRemaining - w'.opponentRemaining)
  }

  /** The accepted increments of a run. */
  function TakenLog(s: World, actions: seq<Action>): seq<Taken> {
    if actions == [] then []
    else
      var before, after := Run(s, actions[..|actions| - 1]).chain, Run(s, actions).chain;
      TakenLog(s, actions[..|actions| - 1])
      + (if before.accepted != after.accepted then [TakenBetween(before.wager, after.wager)] else [])
  }

  lemma ChainTakes(c: Chain, e: Event, sequence: nat)
    requires ChainOk(c) && ChainScores(c, e, sequence).Some?
    ensures var c' := ChainScores(c, e, sequence).value;
            var taken := TakenBetween(c.wager, c'.wager);
            && c.wager.status == MATCHED && c'.accepted == c.accepted + [e.id]
            && taken.fromMaker == e.victimIsMaker
            && taken.left == (if e.victimIsMaker then c.wager.makerRemaining else c.wager.opponentRemaining)
            && IsCapped(taken.amount, c.wager.incrementValue, taken.left)
            && (taken.amount == taken.left ==> c'.wager.status == SETTLED)
  {
  }

  /** Every transaction on its way belongs to a queued job. */
  predicate FlightsQueued(s: World) {
    forall tx :: tx in s.inFlight && tx.IncrementTx? ==> tx.event in s.jobs
  }

  lemma FlightsStep(s: World, a: Action)
    requires FlightsQueued(s) && (s.job.PayLoaded? ==> s.job.event in s.jobs)
    ensures FlightsQueued(Do(s, a))
  {
  }

  lemma {:induction false} FlightsRun(s: World, actions: seq<Action>)
    requires Started(s)
    ensures FlightsQueued(Run(s, actions))
    decreases |actions|
  {
    if actions != [] {
      FlightsRun(s, actions[..|actions| - 1]);
      RunKeeps(s, actions[..|actions| - 1]);
      FlightsStep(Run(s, actions[..|actions| - 1]), actions[|actions| - 1]);
    }
  }

  /** The event whose increment a step makes the chain accept. */
  predicate Accepts(s: World, a: Action, e: Event) {
    && e in s.jobs && e.id in s.payouts && s.payouts[e.id].sequence == |s.chain.accepted| + 1
    && ChainScores(s.chain, e, s.payouts[e.id].sequence) == Some(Do(s, a).chain)
  }

  lemma SendAccepts(s: World)
    requires ChainOk(s.chain) && JobOk(s.job, s.jobs, s.payouts, s.row, s.chain)
    requires Do(s, PaySend).chain.accepted != s.chain.accepted
    ensures s.job.PayLoaded? && Accepts(s, PaySend, s.job.event)
  {
    if s.job.PayLoaded? {
      ChainScoresIff(s.chain, s.job.event, s.payouts[s.job.event.id].sequence);
    }
  }

  lemma LandAccepts(s: World, tx: Tx)
    requires ChainOk(s.chain) && InFlightOk(s.inFlight, s.payouts) && FlightsQueued(s)
    requires Do(s, Land(tx)).chain.accepted != s.chain.accepted
    ensures tx.IncrementTx? && Accepts(s, Land(tx), tx.event)
  {
    Lands(s, tx);
    if tx in s.inFlight && tx.IncrementTx? {
      ChainScoresIff(s.chain, tx.event, tx.sequence);
    }
  }

  lemma OthersAccept(s: World, a: Action)
    requires a != PaySend && !a.Land?
    ensures Do(s, a).chain.accepted == s.chain.accepted
  {
  }

  lemma WhatIsAccepted(s: World, a: Action) returns (e: Event)
    requires ChainOk(s.chain) && JobOk(s.job, s.jobs, s.payouts, s.row, s.chain)
    requires InFlightOk(s.inFlight, s.payouts) && FlightsQueued(s)
    requires Do(s, a).chain.accepted != s.chain.accepted
    ensures Accepts(s, a, e)
  {
    if a == PaySend {
      SendAccepts(s);
      e := s.job.event;
    } else {
      if !a.Land? {
        OthersAccept(s, a);
      }
      LandAccepts(s, a.tx);
      e := a.tx.event;
    }
  }

  // ----- Recorded against paid -----

  /** The increment was recorded for the player it was taken from, with at least what was taken, and with exactly
    * that if and only if there was as much left; otherwise all that was left was taken.
    */
  predicate Covered(payout: Payout, taken: Taken) {
    && taken.fromMaker == payout.victimIsMaker
    && 0 < taken.amount <= payout.amount
    && (taken.amount == payout.amount <==> payout.amount <= taken.left)
    && (taken.amount == payout.amount || taken.amount == taken.left)
  }

  /** An amount that was capped against an older balance covers what is taken now. */
  lemma CapCovers(amount: int, taken: Taken, r: Row, victimIsMaker: bool)
    requires Capped(amount, victimIsMaker, r) && RowLeft(r, victimIsMaker) >= taken.left > 0
    requires IsCapped(taken.amount, r.incrementValue, taken.left)
    ensures 0 < taken.amount <= amount && (taken.amount == amount <==> amount <= taken.left)
    ensures taken.amount == amount || taken.amount == taken.left
  {
  }

  lemma AcceptedCovered(s: World, a: Action, e: Event)
    requires Inv(s) && Accepts(s, a, e) && SidesAgree(s.jobs, s.payouts)
    ensures var taken := TakenBetween(s.chain.wager, Do(s, a).chain.wager);
            && Covered(s.payouts[e.id], taken)
            && (taken.amount == taken.left ==> Do(s, a).chain.wager.status == SETTLED)
  {
    var payout := s.payouts[e.id];
    ChainTakes(s.chain, e, payout.sequence);
    assert Capped(payout.amount, payout.victimIsMaker, s.row);
    MatchedLeft(s.row, s.chain.wager, e.victimIsMaker);
    CapCovers(payout.amount, TakenBetween(s.chain.wager, Do(s, a).chain.wager), s.row, e.victimIsMaker);
  }

  lemma MatchedLeft(r: Row, w: Wager, ofMaker: bool)
    requires Mirrors(r, w) && w.status == MATCHED && RecordOk(w)
    ensures RowLeft(r, ofMaker) >= ChainLeft(w, ofMaker) > 0 && r.incrementValue == w.incrementValue
  {
  }

  /** The accepted increments of a run against their rows in the table; only the last one of a settled wager can have
    * taken all that was left.
    */
  predicate AllCovered(now: World, log: seq<Taken>) {
    && |log| == |now.chain.accepted|
    && (forall i :: 0 <= i < |log| ==>
          now.chain.accepted[i] in now.payouts && Covered(now.payouts[now.chain.accepted[i]], log[i]))
    && (forall i :: 0 <= i < |log| && log[i].amount == log[i].left ==>
          i == |log| - 1 && now.chain.wager.status == SETTLED)
  }

  /** What is in the table stays, but for its being paid. */
  predicate SameAmounts(payouts: Payouts, payouts': Payouts) {
    forall id :: id in payouts ==>
      && id in payouts' && payouts'[id].amount == payouts[id].amount
      && payouts'[id].victimIsMaker == payouts[id].victimIsMaker && payouts'[id].sequence == payouts[id].sequence
  }

  lemma AmountsStand(s: World, a: Action)
    ensures SameAmounts(s.payouts, Do(s, a).payouts)
  {
  }

  lemma SidesWereAgreed(s: World, a: Action)
    requires JobsOk(s.jobs, s.payouts) && SidesAgree(Do(s, a).jobs, Do(s, a).payouts)
    ensures SidesAgree(s.jobs, s.payouts)
  {
    AmountsStand(s, a);
    JobsStand(s, a);
  }

  lemma JobsStand(s: World, a: Action)
    ensures s.jobs <= Do(s, a).jobs
  {
  }

  lemma ChainStands(s: World, a: Action)
    requires Do(s, a).chain.accepted == s.chain.accepted
    ensures s.chain.wager.status == SETTLED ==> Do(s, a).chain.wager.status == SETTLED
    ensures s.chain.wager.status == CANCELLED ==> Do(s, a).chain.wager == s.chain.wager
  {
  }

  lemma CoverStays(now: World, after: World, log: seq<Taken>)
    requires AllCovered(now, log) && after.chain.accepted == now.chain.accepted
    requires now.chain.wager.status == SETTLED ==> after.chain.wager.status == SETTLED
    requires SameAmounts(now.payouts, after.payouts)
    ensures AllCovered(after, log)
  {
  }

  lemma CoverGrows(now: World, after: World, log: seq<Taken>, id: nat, taken: Taken)
    requires AllCovered(now, log) && now.chain.wager.status == MATCHED
    requires after.chain.accepted == now.chain.accepted + [id] && SameAmounts(now.payouts, after.payouts)
    requires id in now.payouts && Covered(now.payouts[id], taken)
    requires taken.amount == taken.left ==> after.chain.wager.status == SETTLED
    ensures AllCovered(after, log + [taken])
  {
  }

  /** In every run in which the queued jobs debit the players that their payouts were recorded for: each accepted
    * increment was recorded for the player it was taken from; it took no more than was recorded, and exactly that if
    * and only if there was as much left; all but the one that ends the wager took exactly what was recorded.
    */
  lemma {:induction false} RecordedCovers(s: World, actions: seq<Action>)
    requires Started(s) && SidesAgree(Run(s, actions).jobs, Run(s, actions).payouts)
    ensures AllCovered(Run(s, actions), TakenLog(s, actions))
    decreases |actions|
  {
    if actions != [] {
      var before, a := actions[..|actions| - 1], actions[|actions| - 1];
      var now := Run(s, before);
      RunKeeps(s, before);
      FlightsRun(s, before);
      SidesWereAgreed(now, a);
      RecordedCovers(s, before);
      AmountsStand(now, a);
      if Do(now, a).chain.accepted == now.chain.accepted {
        ChainStands(now, a);
        CoverStays(now, Do(now, a), TakenLog(s, before));
      } else {
        var e := WhatIsAccepted(now, a);
        AcceptedCovered(now, a, e);
        ChainTakes(now.chain, e, now.payouts[e.id].sequence);
        CoverGrows(now, Do(now, a), TakenLog(s, before), e.id,
                   TakenBetween(now.chain.wager, Do(now, a).chain.wager));
      }
    }
  }

  // ----- Sums -----

  function SumTaken(log: seq<Taken>, fromMaker: bool): int {
    if log == [] then 0
    else SumTaken(log[..|log| - 1], fromMaker)
         + (if log[|log| - 1].fromMaker == fromMaker then log[|log| - 1].amount else 0)
  }

  /** What is recorded for one debited player, over the accepted increments. */
  function SumRecorded(accepted: seq<nat>, payouts: Payouts, fromMaker: bool): int
    requires forall i :: 0 <= i < |accepted| ==> accepted[i] in payouts
  {
    if accepted == [] then 0
    else
      var payout := payouts[accepted[|accepted| - 1]];
      SumRecorded(accepted[..|accepted| - 1], payouts, fromMaker)
      + (if payout.victimIsMaker == fromMaker then payout.amount else 0)
  }

  /** The other player's score in increments, as far as the stake reaches. */
  function LostBy(w: Wager, maker: bool): int {
    Min(w.amount, Won(w, if maker then w.opponent else w.maker))
  }

  lemma TakenAdds(c: Chain, e: Event, sequence: nat, maker: bool)
    requires ChainOk(c) && ChainScores(c, e, sequence).Some?
    ensures var c' := ChainScores(c, e, sequence).value;
            LostBy(c'.wager, maker)
            == LostBy(c.wager, maker) + (if e.victimIsMaker == maker then TakenBetween(c.wager, c'.wager).amount else 0)
  {
  }

  lemma LostStands(s: World, a: Action, maker: bool)
    requires Do(s, a).chain.accepted == s.chain.accepted
    ensures LostBy(Do(s, a).chain.wager, maker) == LostBy(s.chain.wager, maker)
  {
  }

  lemma SumOnce(log: seq<Taken>, taken: Taken, fromMaker: bool)
    ensures SumTaken(log + [taken], fromMaker)
         == SumTaken(log, fromMaker) + (if taken.fromMaker == fromMaker then taken.amount else 0)
  {
    assert (log + [taken])[..|log|] == log;
  }

  /** What a step takes from a player. */
  function TakenNow(c: Chain, c': Chain, maker: bool): int {
    if c.accepted != c'.accepted && TakenBetween(c.wager, c'.wager).fromMaker == maker
    then TakenBetween(c.wager, c'.wager).amount else 0
  }

  lemma TakenStep(s: World, a: Action, maker: bool)
    requires Inv(s) && FlightsQueued(s)
    ensures LostBy(Do(s, a).chain.wager, maker)
         == LostBy(s.chain.wager, maker) + TakenNow(s.chain, Do(s, a).chain, maker)
  {
    if Do(s, a).chain.accepted == s.chain.accepted {
      LostStands(s, a, maker);
    } else {
      var e := WhatIsAccepted(s, a);
      ChainTakes(s.chain, e, s.payouts[e.id].sequence);
      TakenAdds(s.chain, e, s.payouts[e.id].sequence, maker);
    }
  }

  lemma LogStep(log: seq<Taken>, c: Chain, c': Chain, maker: bool)
    ensures SumTaken(log + (if c.accepted != c'.accepted then [TakenBetween(c.wager, c'.wager)] else []), maker)
         == SumTaken(log, maker) + TakenNow(c, c', maker)
  {
    if c.accepted != c'.accepted {
      SumOnce(log, TakenBetween(c.wager, c'.wager), maker);
    } else {
      assert log + [] == log;
    }
  }

  lemma NothingTaken(s: World, maker: bool)
    requires Started(s)
    ensures LostBy(s.chain.wager, maker) == 0
  {
  }

  /** In every run the increments have taken from each player the other one's score in increments, or the whole stake
    * if that is less.
    */
  lemma {:induction false} TakenAddsUp(s: World, actions: seq<Action>, maker: bool)
    requires Started(s)
    ensures SumTaken(TakenLog(s, actions), maker) == LostBy(Run(s, actions).chain.wager, maker)
    decreases |actions|
  {
    if actions == [] {
      NothingTaken(s, maker);
    } else {
      var before := actions[..|actions| - 1];
      RunKeeps(s, before);
      FlightsRun(s, before);
      TakenAddsUp(s, before, maker);
      TakenStep(Run(s, before), actions[|actions| - 1], maker);
      LogStep(TakenLog(s, before), Run(s, before).chain, Run(s, actions).chain, maker);
    }
  }

  /** Where every increment took what was recorded for it, the sums agree. */
  lemma {:induction false} SumsAgree(accepted: seq<nat>, payouts: Payouts, log: seq<Taken>, fromMaker: bool)
    requires |log| == |accepted| && forall i :: 0 <= i < |accepted| ==> accepted[i] in payouts
    requires forall i :: 0 <= i < |log| ==>
               log[i].fromMaker == payouts[accepted[i]].victimIsMaker && log[i].amount == payouts[accepted[i]].amount
    ensures SumRecorded(accepted, payouts, fromMaker) == SumTaken(log, fromMaker)
    decreases |log|
  {
    if log != [] {
      SumsAgree(accepted[..|accepted| - 1], payouts, log[..|log| - 1], fromMaker);
    }
  }

  /** What the last accepted increment was recorded with beyond what it took. */
  function Excess(now: World, log: seq<Taken>): int
    requires AllCovered(now, log)
  {
    if log == [] then 0
    else now.payouts[now.chain.accepted[|log| - 1]].amount - log[|log| - 1].amount
  }

  lemma SumsDiffer(now: World, log: seq<Taken>, fromMaker: bool)
    requires AllCovered(now, log)
    ensures SumRecorded(now.chain.accepted, now.payouts, fromMaker)
         == SumTaken(log, fromMaker)
            + (if log != [] && log[|log| - 1].fromMaker == fromMaker then Excess(now, log) else 0)
  {
    if log != [] {
      SumsAgree(now.chain.accepted[..|log| - 1], now.payouts, log[..|log| - 1], fromMaker);
    }
  }

  /** What is recorded for a player over the accepted increments is what they have taken from that player, except that
    * the one that ends the wager may be recorded with more: the sums of both players are right if and only if its
    * recorded amount was still left when the chain accepted it.
    */
  lemma RecordedAddsUpIff(s: World, actions: seq<Action>)
    requires Started(s) && SidesAgree(Run(s, actions).jobs, Run(s, actions).payouts)
    ensures var now, log := Run(s, actions), TakenLog(s, actions);
            && AllCovered(now, log)
            && (now.chain.wager.status != SETTLED ==> Excess(now, log) == 0)
            && ((forall maker :: SumRecorded(now.chain.accepted, now.payouts, maker) == LostBy(now.chain.wager, maker))
                <==> log == [] || now.payouts[now.chain.accepted[|log| - 1]].amount <= log[|log| - 1].left)
  {
    RecordedCovers(s, actions);
    var now, log := Run(s, actions), TakenLog(s, actions);
    TakenAddsUp(s, actions, true);
    TakenAddsUp(s, actions, false);
    SumsDiffer(now, log, true);
    SumsDiffer(now, log, false);
    if log != [] {
      assert Covered(now.payouts[now.chain.accepted[|log| - 1]], log[|log| - 1]);
    }
  }

  // ----- A stale reading -----

  /** Two events debit the opponent, and the second one is read before the first one is paid. */
  function StaleSteps(): seq<Action> {
    (ScoringSteps(Event(1, false)) + ScoringSteps(Event(2, false)))
    + (PayoutSteps(Event(1, false)) + PayoutSteps(Event(2, false)))
  }

  /** A queued payment of the next payout, without interruption. */
  lemma PaysQueued(s: World, e: Event, c: Chain)
    requires s.job == Idle && e in s.jobs && e.id !in s.spent && e.id in s.payouts && !s.payouts[e.id].paid
    requires s.row.status == Matched && s.row.incremental && ScoreFits(s.row, e)
    requires ChainScores(s.chain, e, s.payouts[e.id].sequence) == Some(c)
    ensures var amount := s.payouts[e.id].amount;
            Run(s, PayoutSteps(e))
            == s.(chain := c, payouts := MarkedPaid(s.payouts, e.id),
                  row := After(s.row, CommitIncrement(!e.victimIsMaker, amount, IsFinal(e, s.row, amount))))
  {
    var amount := s.payouts[e.id].amount;
    var loaded := s.(job := PayLoaded(e, s.row, amount));
    var landed := loaded.(chain := c, job := PayLanded(e, s.row, amount));
    RunThree(s, PayLoad(e), PaySend, PayCommit, loaded, landed, CommitPayout(landed));
  }

  lemma TwoIncrements(c: Chain) returns (c1: Chain, c2: Chain)
    requires RecordOk(c.wager) && c.wager.status == MATCHED && c.wager.payoutMode == INCREMENTAL
    requires c.wager.incrementValue < c.wager.amount < 2 * c.wager.incrementValue
    requires c.wager.makerScore == c.wager.opponentScore == 0 && 2 * c.wager.amount <= U64_MAX
    ensures ChainScores(c, Event(1, false), 1) == Some(c1) && ChainScores(c1, Event(2, false), 2) == Some(c2)
    ensures c2.wager.status == SETTLED && c2.wager.winner == c.wager.maker
    ensures LostBy(c2.wager, false) == c.wager.amount
  {
    c1 := ChainScores(c, Event(1, false), 1).value;
    assert c1.wager == c.wager.(makerScore := 1, opponentRemaining := c.wager.amount - c.wager.incrementValue);
    c2 := ChainScores(c1, Event(2, false), 2).value;
    TwoTimes(c.wager.incrementValue);
  }

  lemma TwoTimes(v: nat)
    ensures Times(2, v) == 2 * v
  {
    assert Times(1, v) == v;
  }

  /** The queues after both readings. */
  function BothQueued(s: World, amount: int): World {
    s.(payouts := map[1 := Payout(false, amount, 1, false), 2 := Payout(false, amount, 2, false)],
       jobs := {Event(1, false), Event(2, false)})
  }

  lemma BothRead(s: World)
    requires s.game == NoEvent && s.row.status == Matched && s.payouts == map[] && s.jobs == {}
    requires 0 < s.row.incrementValue < s.row.opponentRemaining
    ensures Run(s, ScoringSteps(Event(1, false)) + ScoringSteps(Event(2, false))) == BothQueued(s, s.row.incrementValue)
  {
    var amount := s.row.incrementValue;
    var once := Queued(s, Event(1, false), amount);
    ScoringRuns(s, Event(1, false), amount);
    ScoringRuns(once, Event(2, false), amount);
    QueuedTwice(s, amount);
    RunConcat(s, ScoringSteps(Event(1, false)), ScoringSteps(Event(2, false)));
  }

  lemma QueuedTwice(s: World, amount: int)
    requires s.payouts == map[] && s.jobs == {}
    ensures Queued(Queued(s, Event(1, false), amount), Event(2, false), amount) == BothQueued(s, amount)
  {
  }

  lemma BothPaid(s: World, c1: Chain, c2: Chain)
    requires Started(s) && s.row.incrementValue < s.row.amount < 2 * s.row.incrementValue
    requires ChainScores(s.chain, Event(1, false), 1) == Some(c1) && ChainScores(c1, Event(2, false), 2) == Some(c2)
    ensures var v := s.row.incrementValue;
            var now := Run(BothQueued(s, v), PayoutSteps(Event(1, false)) + PayoutSteps(Event(2, false)));
            && now.chain == c2 && now.row.status == RowStatus.Settled && !now.lost && now.job == Idle
            && now.payouts == map[1 := Payout(false, v, 1, true), 2 := Payout(false, v, 2, true)]
            && now.jobs == {Event(1, false), Event(2, false)}
  {
    var v := s.row.incrementValue;
    var queued := BothQueued(s, v);
    PaysQueued(queued, Event(1, false), c1);
    var once := Run(queued, PayoutSteps(Event(1, false)));
    assert once.row == s.row.(makerScore := 1, opponentRemaining := s.row.amount - v);
    PaysQueued(once, Event(2, false), c2);
    RunConcat(queued, PayoutSteps(Event(1, false)), PayoutSteps(Event(2, false)));
  }

  /** Nothing is lost, the table is exact and no commit is due; yet two whole increments are recorded as paid, which
    * is more than the loser had staked: the last one took only what was left.
    */
  lemma StaleReading(s: World)
    requires Started(s) && s.row.incrementValue < s.row.amount < 2 * s.row.incrementValue
    ensures var now := Run(s, StaleSteps());
            && now.row.status == RowStatus.Settled && now.chain.wager.status == SETTLED && !now.lost && now.job == Idle
            && SidesAgree(now.jobs, now.payouts)
            && now.chain.accepted == [1, 2]
            && now.payouts == map[1 := Payout(false, s.row.incrementValue, 1, true),
                                  2 := Payout(false, s.row.incrementValue, 2, true)]
            && LostBy(now.chain.wager, false) == s.row.amount
  {
    var c1, c2 := TwoIncrements(s.chain);
    BothRead(s);
    BothPaid(s, c1, c2);
    RunConcat(s, ScoringSteps(Event(1, false)) + ScoringSteps(Event(2, false)),
              PayoutSteps(Event(1, false)) + PayoutSteps(Event(2, false)));
  }

  // ----- When readings wait for payments -----

  predicate AllPaid(payouts: Payouts) {
    forall id :: id in payouts ==> payouts[id].paid
  }

  /** The game worker waits for the payout job of an event before it goes on: every reading finds all payouts paid. The
    * source gives up waiting after thirty seconds.
    */
  ghost predicate Waited(s: World, actions: seq<Action>) {
    forall m: nat :: m < |actions| && actions[m].GameRead? ==> AllPaid(Run(s, actions[..m]).payouts)
  }

  predicate Fits(w: Wager, amount: int, victimIsMaker: bool) {
    w.status == MATCHED ==> amount <= ChainLeft(w, victimIsMaker)
  }

  /** At most one payout is not accepted yet, and it still fits the reserve. */
  predicate WaitOk(s: World) {
    && (s.game.Scored? && s.game.event.id !in s.payouts ==>
          AllPaid(s.payouts) && Fits(s.chain.wager, s.game.amount, s.game.event.victimIsMaker))
    && (forall id :: id in s.payouts && id !in s.chain.accepted ==>
          && s.payouts[id].sequence == |s.payouts| == |s.chain.accepted| + 1
          && Fits(s.chain.wager, s.payouts[id].amount, s.payouts[id].victimIsMaker))
  }

  lemma PaidAreAccepted(s: World)
    requires BooksOk(s.payouts, s.chain.accepted, s.row) && AllPaid(s.payouts)
    ensures |s.payouts| == |s.chain.accepted| && forall id :: id in s.payouts ==> id in s.chain.accepted
  {
    forall id | id in s.payouts
      ensures id in s.chain.accepted
    {
      assert id in PaidIds(s.payouts);
    }
    if s.chain.accepted != [] {
      var last := |s.chain.accepted| - 1;
      assert s.payouts[s.chain.accepted[last]].sequence == last + 1;
    }
    if |s.payouts| > 0 {
      assert InUse(s.payouts, |s.payouts|);
      var id :| id in s.payouts && s.payouts[id].sequence == |s.payouts|;
      var i :| 0 <= i < |s.chain.accepted| && s.chain.accepted[i] == id;
    }
  }

  lemma ReadFits(s: World, e: Event)
    requires Inv(s) && !s.lost && SidesAgree(s.jobs, s.payouts) && AllPaid(s.payouts) && WaitOk(s)
    ensures WaitOk(Do(s, GameRead(e)))
  {
    if s.game == NoEvent && Do(s, GameRead(e)).game != NoEvent {
      ReadingIsCapped(s, e);
      assert !s.job.PayLanded?;
    }
  }

  lemma RecordFits(s: World)
    requires BooksOk(s.payouts, s.chain.accepted, s.row) && WaitOk(s)
    ensures WaitOk(Do(s, GameRecord))
  {
    if s.game.Scored? && s.game.event.id !in s.payouts {
      PaidAreAccepted(s);
    }
  }

  lemma AcceptFits(s: World, a: Action, e: Event)
    requires BooksOk(s.payouts, s.chain.accepted, s.row) && WaitOk(s) && ChainOk(s.chain)
    requires Accepts(s, a, e) && Do(s, a).payouts == s.payouts && Do(s, a).game == s.game
    ensures WaitOk(Do(s, a)) && Fits(s.chain.wager, s.payouts[e.id].amount, s.payouts[e.id].victimIsMaker)
  {
    ChainTakes(s.chain, e, s.payouts[e.id].sequence);
    assert e.id !in s.chain.accepted;
    if s.game.Scored? && s.game.event.id !in s.payouts {
      PaidAreAccepted(s);
    }
  }

  lemma SendsOnly(s: World, a: Action)
    requires a == PaySend || a.Land?
    ensures Do(s, a).payouts == s.payouts && Do(s, a).game == s.game
  {
  }

  lemma ReservesStand(s: World, a: Action)
    requires Do(s, a).chain.accepted == s.chain.accepted
    ensures Do(s, a).chain.wager.status == MATCHED ==> Do(s, a).chain == s.chain
  {
  }

  lemma TableStands(s: World, a: Action)
    requires !a.GameRead? && !a.GameRecord?
    ensures Do(s, a).payouts.Keys == s.payouts.Keys && (Do(s, a).game.Scored? ==> Do(s, a).game == s.game)
    ensures AllPaid(s.payouts) ==> AllPaid(Do(s, a).payouts)
  {
  }

  lemma WaitFramed(s: World, after: World)
    requires WaitOk(s) && SameAmounts(s.payouts, after.payouts) && after.payouts.Keys == s.payouts.Keys
    requires after.game.Scored? ==> after.game == s.game
    requires AllPaid(s.payouts) ==> AllPaid(after.payouts)
    requires after.chain.accepted == s.chain.accepted
    requires after.chain.wager.status == MATCHED ==> after.chain == s.chain
    ensures WaitOk(after)
  {
    assert |after.payouts| == |after.payouts.Keys| == |s.payouts.Keys| == |s.payouts|;
  }

  /** Steps after which the chain has accepted nothing more. */
  lemma OthersFit(s: World, a: Action)
    requires WaitOk(s) && Do(s, a).chain.accepted == s.chain.accepted && !a.GameRead? && !a.GameRecord?
    ensures WaitOk(Do(s, a))
  {
    AmountsStand(s, a);
    TableStands(s, a);
    ReservesStand(s, a);
    WaitFramed(s, Do(s, a));
  }

  lemma WaitStep(s: World, a: Action)
    requires Inv(s) && FlightsQueued(s) && !s.lost && SidesAgree(s.jobs, s.payouts) && WaitOk(s)
    requires a.GameRead? ==> AllPaid(s.payouts)
    ensures WaitOk(Do(s, a))
  {
    if a.GameRead? {
      ReadFits(s, a.event);
    } else if a.GameRecord? {
      RecordFits(s);
    } else if Do(s, a).chain.accepted == s.chain.accepted {
      OthersFit(s, a);
    } else {
      var e := WhatIsAccepted(s, a);
      if a != PaySend && !a.Land? {
        OthersAccept(s, a);
      }
      SendsOnly(s, a);
      AcceptFits(s, a, e);
    }
  }

  lemma LostForGood(s: World, a: Action)
    ensures s.lost ==> Do(s, a).lost
  {
  }

  lemma WaitedBefore(s: World, actions: seq<Action>)
    requires actions != [] && Waited(s, actions)
    ensures Waited(s, actions[..|actions| - 1])
    ensures actions[|actions| - 1].GameRead? ==> AllPaid(Run(s, actions[..|actions| - 1]).payouts)
  {
    var before := actions[..|actions| - 1];
    forall m: nat | m < |before| && before[m].GameRead?
      ensures AllPaid(Run(s, before[..m]).payouts)
    {
      assert before[..m] == actions[..m];
    }
  }

  lemma {:induction false} WaitRun(s: World, actions: seq<Action>)
    requires Started(s) && Waited(s, actions)
    requires !Run(s, actions).lost && SidesAgree(Run(s, actions).jobs, Run(s, actions).payouts)
    ensures WaitOk(Run(s, actions))
    decreases |actions|
  {
    if actions != [] {
      var before, a := actions[..|actions| - 1], actions[|actions| - 1];
      var now := Run(s, before);
      RunKeeps(s, before);
      FlightsRun(s, before);
      SidesWereAgreed(now, a);
      LostForGood(now, a);
      WaitedBefore(s, actions);
      WaitRun(s, before);
      WaitStep(now, a);
    }
  }

  /** Every accepted increment took exactly what was recorded. */
  predicate AllExact(now: World, log: seq<Taken>) {
    && |log| == |now.chain.accepted|
    && forall i :: 0 <= i < |log| ==>
         now.chain.accepted[i] in now.payouts && log[i].amount == now.payouts[now.chain.accepted[i]].amount
  }

  lemma ExactGrows(now: World, after: World, log: seq<Taken>, id: nat, taken: Taken)
    requires AllExact(now, log) && SameAmounts(now.payouts, after.payouts)
    requires after.chain.accepted == now.chain.accepted + [id] && id in now.payouts
    requires taken.amount == now.payouts[id].amount
    ensures AllExact(after, log + [taken])
  {
  }

  lemma FittingIsExact(s: World, a: Action, e: Event)
    requires Inv(s) && Accepts(s, a, e) && SidesAgree(s.jobs, s.payouts)
    requires Fits(s.chain.wager, s.payouts[e.id].amount, s.payouts[e.id].victimIsMaker)
    ensures TakenBetween(s.chain.wager, Do(s, a).chain.wager).amount == s.payouts[e.id].amount
  {
    AcceptedCovered(s, a, e);
    ChainTakes(s.chain, e, s.payouts[e.id].sequence);
  }

  /** Where every reading waits for the payments before it, nothing is lost and the sides agree, what the chain pays for
    * each accepted increment is what is recorded for it.
    */
  lemma {:induction false} WaitingIsExact(s: World, actions: seq<Action>)
    requires Started(s) && Waited(s, actions)
    requires !Run(s, actions).lost && SidesAgree(Run(s, actions).jobs, Run(s, actions).payouts)
    ensures AllExact(Run(s, actions), TakenLog(s, actions))
    decreases |actions|
  {
    if actions != [] {
      var before, a := actions[..|actions| - 1], actions[|actions| - 1];
      var now := Run(s, before);
      RunKeeps(s, before);
      FlightsRun(s, before);
      SidesWereAgreed(now, a);
      LostForGood(now, a);
      WaitedBefore(s, actions);
      WaitRun(s, before);
      WaitingIsExact(s, before);
      AmountsStand(now, a);
      if Do(now, a).chain.accepted != now.chain.accepted {
        var e := WhatIsAccepted(now, a);
        if a != PaySend && !a.Land? {
          OthersAccept(now, a);
        }
        SendsOnly(now, a);
        AcceptFits(now, a, e);
        FittingIsExact(now, a, e);
        ChainTakes(now.chain, e, now.payouts[e.id].sequence);
        ExactGrows(now, Do(now, a), TakenLog(s, before), e.id,
                   TakenBetween(now.chain.wager, Do(now, a).chain.wager));
      }
    }
  }
}
