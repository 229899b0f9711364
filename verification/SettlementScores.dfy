/** The scores of a row and of its wager account, player by player. */
module SettlementScores {
  import opened Basics
  import opened ProgramState
  import opened EscrowSpec
  import opened WagerRows
  import opened Settlement
  import opened SettlementInvariant
  import opened SettlementSteps
  import opened SettlementRuns
  import opened SettlementAmounts

  /** The paid, and the accepted, payouts that debit one of the players. */
  function PaidFor(payouts: Payouts, victimIsMaker: bool): set<nat> {
    set id | id in payouts && payouts[id].paid && payouts[id].victimIsMaker == victimIsMaker
  }

  function AcceptedFor(accepted: seq<nat>, payouts: Payouts, victimIsMaker: bool): set<nat> {
    set id | id in accepted && id in payouts && payouts[id].victimIsMaker == victimIsMaker
  }

  /** Each player's score is the number of payouts that debit the other one. */
  predicate RowCounts(r: Row, payouts: Payouts) {
    r.makerScore == |PaidFor(payouts, false)| && r.opponentScore == |PaidFor(payouts, true)|
  }

  predicate ChainCounts(c: Chain, payouts: Payouts) {
    && c.wager.makerScore == |AcceptedFor(c.accepted, payouts, false)|
    && c.wager.opponentScore == |AcceptedFor(c.accepted, payouts, true)|
  }

  /** As long as nothing is lost, an accepted payout is paid, or its commit is due. */
  predicate Committed(s: World) {
    s.lost || forall id :: id in s.chain.accepted ==>
                id in s.payouts && (s.payouts[id].paid || (s.job.PayLanded? && s.job.event.id == id))
  }

  // ----- Rows -----

  lemma MarkedFor(payouts: Payouts, id: nat)
    requires id in payouts && !payouts[id].paid
    ensures var side := payouts[id].victimIsMaker;
            && |PaidFor(MarkedPaid(payouts, id), side)| == |PaidFor(payouts, side)| + 1
            && PaidFor(MarkedPaid(payouts, id), !side) == PaidFor(payouts, !side)
  {
    var side := payouts[id].victimIsMaker;
    assert PaidFor(MarkedPaid(payouts, id), side) == PaidFor(payouts, side) + {id};
  }

  lemma CommitCounts(s: World)
    requires JobOk(s.job, s.jobs, s.payouts, s.row, s.chain) && BooksOk(s.payouts, s.chain.accepted, s.row)
    requires s.job.PayLanded? && SidesAgree(s.jobs, s.payouts) && RowCounts(s.row, s.payouts)
    ensures RowCounts(CommitPayout(s).row, CommitPayout(s).payouts)
  {
    var e := s.job.event;
    ScoresFit(s.payouts, s.chain.accepted, s.row, e);
    MarkedFor(s.payouts, e.id);
    ScoreOfCommit(s.row, !e.victimIsMaker, s.job.amount, IsFinal(e, s.job.row, s.job.amount));
  }

  lemma ScoreOfCommit(r: Row, forMaker: bool, amount: int, final: bool)
    ensures var r' := After(r, CommitIncrement(forMaker, amount, final));
            && r'.makerScore == r.makerScore + (if forMaker then 1 else 0)
            && r'.opponentScore == r.opponentScore + (if forMaker then 0 else 1)
  {
  }

  lemma RecordCounts(s: World, a: Action)
    requires a == GameRecord
    ensures PaidFor(Do(s, a).payouts, true) == PaidFor(s.payouts, true)
    ensures PaidFor(Do(s, a).payouts, false) == PaidFor(s.payouts, false)
  {
  }

  lemma TablesFramed(s: World, a: Action)
    requires a != GameRecord && a != PayCommit
    ensures Do(s, a).payouts == s.payouts
    ensures Do(s, a).row.makerScore == s.row.makerScore && Do(s, a).row.opponentScore == s.row.opponentScore
  {
  }

  lemma RowStep(s: World, a: Action)
    requires Inv(s) && SidesAgree(s.jobs, s.payouts) && RowCounts(s.row, s.payouts)
    ensures RowCounts(Do(s, a).row, Do(s, a).payouts)
  {
    if a == PayCommit {
      if s.job.PayLanded? {
        CommitCounts(s);
      }
    } else if a == GameRecord {
      RecordCounts(s, a);
      RowFramed(s, a);
    } else {
      TablesFramed(s, a);
    }
  }

  // ----- The chain -----

  lemma OneMoreAccepted(accepted: seq<nat>, payouts: Payouts, id: nat)
    requires id !in accepted && id in payouts
    ensures var side := payouts[id].victimIsMaker;
            && |AcceptedFor(accepted + [id], payouts, side)| == |AcceptedFor(accepted, payouts, side)| + 1
            && AcceptedFor(accepted + [id], payouts, !side) == AcceptedFor(accepted, payouts, !side)
  {
    var side := payouts[id].victimIsMaker;
    assert AcceptedFor(accepted + [id], payouts, side) == AcceptedFor(accepted, payouts, side) + {id};
  }

  lemma NextIsNew(accepted: seq<nat>, payouts: Payouts, id: nat)
    requires AcceptedInTurn(accepted, payouts) && id in payouts && payouts[id].sequence == |accepted| + 1
    ensures id !in accepted
  {
  }

  lemma AcceptCounts(s: World, a: Action, e: Event)
    requires Accepts(s, a, e) && SidesAgree(s.jobs, s.payouts) && ChainCounts(s.chain, s.payouts)
    requires AcceptedInTurn(s.chain.accepted, s.payouts) && Do(s, a).payouts == s.payouts && ChainOk(s.chain)
    ensures ChainCounts(Do(s, a).chain, Do(s, a).payouts)
  {
    NextIsNew(s.chain.accepted, s.payouts, e.id);
    OneMoreAccepted(s.chain.accepted, s.payouts, e.id);
    ScoreOfIncrement(s.chain, e, s.payouts[e.id].sequence);
    CountsFollow(s.chain, ChainScores(s.chain, e, s.payouts[e.id].sequence).value, s.payouts, e);
  }

  lemma CountsFollow(c: Chain, c': Chain, payouts: Payouts, e: Event)
    requires ChainCounts(c, payouts) && e.id in payouts && payouts[e.id].victimIsMaker == e.victimIsMaker
    requires c'.accepted == c.accepted + [e.id]
    requires |AcceptedFor(c'.accepted, payouts, e.victimIsMaker)|
          == |AcceptedFor(c.accepted, payouts, e.victimIsMaker)| + 1
    requires AcceptedFor(c'.accepted, payouts, !e.victimIsMaker) == AcceptedFor(c.accepted, payouts, !e.victimIsMaker)
    requires c'.wager.makerScore == c.wager.makerScore + (if e.victimIsMaker then 0 else 1)
    requires c'.wager.opponentScore == c.wager.opponentScore + (if e.victimIsMaker then 1 else 0)
    ensures ChainCounts(c', payouts)
  {
  }

  lemma ScoreOfIncrement(c: Chain, e: Event, sequence: nat)
    requires ChainOk(c) && ChainScores(c, e, sequence).Some?
    ensures var c' := ChainScores(c, e, sequence).value;
            && c'.accepted == c.accepted + [e.id]
            && c'.wager.makerScore == c.wager.makerScore + (if e.victimIsMaker then 0 else 1)
            && c'.wager.opponentScore == c.wager.opponentScore + (if e.victimIsMaker then 1 else 0)
  {
  }

  lemma ScoresStand(s: World, a: Action)
    requires Do(s, a).chain.accepted == s.chain.accepted
    ensures Do(s, a).chain.wager.makerScore == s.chain.wager.makerScore
    ensures Do(s, a).chain.wager.opponentScore == s.chain.wager.opponentScore
  {
  }

  lemma AcceptedStand(s: World, a: Action, victimIsMaker: bool)
    requires AcceptedInTurn(s.chain.accepted, s.payouts)
    ensures AcceptedFor(s.chain.accepted, Do(s, a).payouts, victimIsMaker)
         == AcceptedFor(s.chain.accepted, s.payouts, victimIsMaker)
  {
    AmountsStand(s, a);
    var payouts' := Do(s, a).payouts;
    assert forall id :: id in s.chain.accepted ==> id in s.payouts && id in payouts';
  }

  lemma ChainStep(s: World, a: Action)
    requires Inv(s) && FlightsQueued(s) && SidesAgree(s.jobs, s.payouts) && ChainCounts(s.chain, s.payouts)
    ensures ChainCounts(Do(s, a).chain, Do(s, a).payouts)
  {
    if Do(s, a).chain.accepted == s.chain.accepted {
      ScoresStand(s, a);
      AcceptedStand(s, a, true);
      AcceptedStand(s, a, false);
    } else {
      var e := WhatIsAccepted(s, a);
      if a != PaySend && !a.Land? {
        OthersAccept(s, a);
      }
      SendsOnly(s, a);
      AcceptCounts(s, a, e);
    }
  }

  // ----- Commits -----

  lemma CommittedStep(s: World, a: Action)
    requires Inv(s) && Committed(s)
    ensures Committed(Do(s, a))
  {
    AmountsStand(s, a);
    if a == PaySend {
      SendCommits(s);
    } else if a == PayCommit {
      CommitCommits(s);
    } else {
      OthersCommit(s, a);
    }
  }

  lemma SendCommits(s: World)
    requires Inv(s) && Committed(s)
    ensures Committed(Do(s, PaySend))
  {
    if Do(s, PaySend).chain.accepted != s.chain.accepted {
      SendAccepts(s);
      ScoreOfIncrement(s.chain, s.job.event, s.payouts[s.job.event.id].sequence);
    }
  }

  lemma CommitCommits(s: World)
    requires Inv(s) && Committed(s)
    ensures Committed(Do(s, PayCommit))
  {
    if s.job.PayLanded? {
      ScoresFit(s.payouts, s.chain.accepted, s.row, s.job.event);
    }
  }

  lemma OthersCommit(s: World, a: Action)
    requires Committed(s) && a != PaySend && a != PayCommit
    requires forall id :: id in s.payouts ==> id in Do(s, a).payouts
    ensures Committed(Do(s, a))
  {
    NothingCommitted(s, a);
    PaidStand(s, a);
  }

  /** Whoever else moves the chain or drops a due commit loses it. */
  lemma NothingCommitted(s: World, a: Action)
    requires a != PaySend && a != PayCommit
    ensures Do(s, a).lost || Do(s, a).chain.accepted == s.chain.accepted
    ensures s.job.PayLanded? ==> Do(s, a).lost || Do(s, a).job == s.job
    ensures s.lost ==> Do(s, a).lost
  {
  }

  lemma PaidStand(s: World, a: Action)
    ensures forall id :: id in s.payouts && s.payouts[id].paid ==>
              id in Do(s, a).payouts && Do(s, a).payouts[id].paid
  {
  }

  // ----- Whole runs -----

  predicate CountsOk(s: World) {
    RowCounts(s.row, s.payouts) && ChainCounts(s.chain, s.payouts) && Committed(s)
  }

  lemma {:induction false} CountsRun(s: World, actions: seq<Action>)
    requires Started(s) && SidesAgree(Run(s, actions).jobs, Run(s, actions).payouts)
    ensures CountsOk(Run(s, actions))
    decreases |actions|
  {
    if actions != [] {
      var before, a := actions[..|actions| - 1], actions[|actions| - 1];
      var now := Run(s, before);
      RunKeeps(s, before);
      FlightsRun(s, before);
      SidesWereAgreed(now, a);
      CountsRun(s, before);
      RowStep(now, a);
      ChainStep(now, a);
      CommittedStep(now, a);
    } else {
      assert PaidFor(s.payouts, true) == PaidFor(s.payouts, false) == {};
      assert AcceptedFor([], s.payouts, true) == AcceptedFor([], s.payouts, false) == {};
    }
  }

  /** Where every queued job debits the player that its payout was recorded for, each player's score in the table is the
    * number of paid payouts that debit the other one; with nothing lost and no commit due it is the score of the wager
    * account, player by player.
    */
  lemma ScoresExact(s: World, actions: seq<Action>)
    requires Started(s) && SidesAgree(Run(s, actions).jobs, Run(s, actions).payouts)
    ensures RowCounts(Run(s, actions).row, Run(s, actions).payouts)
    ensures var now := Run(s, actions);
            !now.lost && !Landed(now.job) ==>
              && now.row.makerScore == now.chain.wager.makerScore
              && now.row.opponentScore == now.chain.wager.opponentScore
  {
    CountsRun(s, actions);
    RunKeeps(s, actions);
    var now := Run(s, actions);
    if !now.lost && !Landed(now.job) {
      PaidIsAccepted(now, true);
      PaidIsAccepted(now, false);
    }
  }

  lemma PaidIsAccepted(s: World, victimIsMaker: bool)
    requires BooksOk(s.payouts, s.chain.accepted, s.row) && Committed(s) && !s.lost && !Landed(s.job)
    ensures PaidFor(s.payouts, victimIsMaker) == AcceptedFor(s.chain.accepted, s.payouts, victimIsMaker)
  {
    forall id | id in PaidFor(s.payouts, victimIsMaker)
      ensures id in s.chain.accepted
    {
      assert id in PaidIds(s.payouts);
    }
  }
}
