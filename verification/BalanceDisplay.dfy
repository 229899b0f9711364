/** The balances shown to players: the app's live view of a wager row and the worker's in-game messages. */
module BalanceDisplay {
  import opened Basics
  import opened ProgramState
  import opened EscrowSpec
  import opened EscrowInvariant
  import opened EscrowRace
  import opened WagerRows
  import opened Settlement
  import opened SettlementInvariant
  import opened SettlementRuns
  import opened SettlementCashOut
  import opened SettlementPayments
  import WinnerTakeAll

  datatype Shown = Shown(maker: int, opponent: int)

  /** liveWagerBalances. */
  function LiveBalances(r: Row): Option<Shown> {
    if r.makerFinal.Some? && r.opponentFinal.Some? then Some(Shown(r.makerFinal.value, r.opponentFinal.value))
    else if r.status == RowStatus.Settled && r.winner.Some? then
      Some(if r.winner == Some(r.maker) then Shown(2 * r.amount, 0) else Shown(0, 2 * r.amount))
    else if r.status !in {Matched, Settling} then None
    else Some(Shown(r.makerRemaining + (r.amount - r.opponentRemaining),
                    r.opponentRemaining + (r.amount - r.makerRemaining)))
  }

  /** The balances in the message that follows an increment, from the values the worker holds in memory. */
  function Announced(bankroll: int, makerRemaining: int, opponentRemaining: int, beneficiaryIsMaker: bool,
                     finalIncrement: bool): Shown
  {
    Shown(if finalIncrement && beneficiaryIsMaker then bankroll * 2
          else if finalIncrement then 0
          else makerRemaining + (bankroll - opponentRemaining),
          if finalIncrement && !beneficiaryIsMaker then bankroll * 2
          else if finalIncrement then 0
          else opponentRemaining + (bankroll - makerRemaining))
  }

  /** What a player has received so far together with what a cash-out would still refund. */
  function Standing(c: Chain): Shown {
    Shown(c.makerGot + c.wager.makerRemaining, c.opponentGot + c.wager.opponentRemaining)
  }

  // ----- A running wager -----

  lemma RowAddsUp(r: Row, w: Wager)
    requires Mirrors(r, w) && LiveBalances(r).Some?
    ensures LiveBalances(r).value.maker + LiveBalances(r).value.opponent == 2 * r.amount
    ensures r.status == Matched ==> LiveBalances(r).value.maker > 0 && LiveBalances(r).value.opponent > 0
  {
  }

  /** In every reachable state the two balances on display share out exactly both stakes. */
  lemma ShownAddsUp(s: World, actions: seq<Action>)
    requires Started(s) && LiveBalances(Run(s, actions).row).Some?
    ensures var r := Run(s, actions).row;
            var shown := LiveBalances(r).value;
            && shown.maker + shown.opponent == 2 * r.amount
            && (r.status == Matched ==> shown.maker > 0 && shown.opponent > 0)
  {
    RunKeeps(s, actions);
    RowAddsUp(Run(s, actions).row, Run(s, actions).chain.wager);
  }

  /** The players are shown balances in every reachable state but while the row is in CASHING_OUT. */
  lemma ShownIff(s: World, actions: seq<Action>)
    requires Started(s)
    ensures LiveBalances(Run(s, actions).row) == None <==> Run(s, actions).row.status == CashingOut
  {
    RunKeeps(s, actions);
    RowShown(Run(s, actions).row, Run(s, actions).chain.wager);
  }

  lemma RowShown(r: Row, w: Wager)
    requires Mirrors(r, w)
    ensures LiveBalances(r) == None <==> r.status == CashingOut
  {
  }

  lemma RowStanding(c: Chain, r: Row)
    requires ChainOk(c) && Mirrors(r, c.wager) && r.status == Matched && c.wager.status == MATCHED
    requires r.makerRemaining == c.wager.makerRemaining && r.opponentRemaining == c.wager.opponentRemaining
    ensures LiveBalances(r) == Some(Standing(c))
  {
  }

  /** With no step of the chain lost, the jobs' sides agreeing with the table and no commit due, a running wager
    * shows each player's receipts plus the reserve that a cash-out would refund.
    */
  lemma RunningShownExact(s: World, actions: seq<Action>)
    requires Started(s)
    requires Run(s, actions).row.status == Matched && !Run(s, actions).lost && !Landed(Run(s, actions).job)
    requires SidesAgree(Run(s, actions).jobs, Run(s, actions).payouts)
    ensures LiveBalances(Run(s, actions).row) == Some(Standing(Run(s, actions).chain))
  {
    RunKeeps(s, actions);
    RowStanding(Run(s, actions).chain, Run(s, actions).row);
  }

  /** The message announces what the app will show once the increment is committed. */
  lemma AnnouncedIsShown(s: World)
    requires Inv(s) && s.job.PayLanded? && s.row.status == Matched
    ensures var e, r, amount := s.job.event, s.job.row, s.job.amount;
            var final := IsFinal(e, r, amount);
            var left := RemainingAfterIncrement(r.makerRemaining, r.opponentRemaining, !e.victimIsMaker, amount, final);
            && left.Some?
            && LiveBalances(CommitPayout(s).row)
               == Some(Announced(s.row.amount, left.value.0, left.value.1, !e.victimIsMaker, final))
  {
    CommitNeverThrows(s);
    CommittedShown(s.row, s.job.event, s.job.amount);
  }

  lemma CommittedShown(r: Row, e: Event, amount: int)
    requires r.status == Matched && r.makerFinal == None && r.winner == None
    requires r.opponent.Some? && r.opponent != Some(r.maker)
    ensures var final := amount >= RowLeft(r, e.victimIsMaker);
            var r' := After(r, CommitIncrement(!e.victimIsMaker, amount, final));
            LiveBalances(r')
            == Some(Announced(r.amount, r'.makerRemaining, r'.opponentRemaining, !e.victimIsMaker, final))
  {
  }

  // ----- A finished wager -----

  /** After a cash-out the receipts themselves are on display, if and only if the increments that landed since
    * its snapshot cancel each other out; so always when none did.
    */
  lemma CashedOutShownExactIff(s: World, actions: seq<Action>) returns (m: nat, n: nat)
    requires Started(s) && Run(s, actions).row.status == CashedOut
    ensures m < n < |actions| && actions[m] == CashSnapshot && actions[n] == CashCommit
    ensures var now, read := Run(s, actions), Run(s, actions[..m]).chain.wager;
            && (LiveBalances(now.row) == Some(Shown(now.chain.makerGot, now.chain.opponentGot)) <==>
                  read.makerScore - read.opponentScore == now.chain.wager.makerScore - now.chain.wager.opponentScore)
            && ((forall k :: m < k < n ==> !LandsIncrement(actions[k])) ==>
                  LiveBalances(now.row) == Some(Shown(now.chain.makerGot, now.chain.opponentGot)))
  {
    m, n := CashOutExactIff(s, actions);
    FinalsShown(Run(s, actions));
  }

  lemma FinalsShown(s: World)
    requires s.row.status == CashedOut && s.row.makerFinal.Some? && s.row.opponentFinal.Some?
    ensures LiveBalances(s.row) == Some(Shown(s.chain.makerGot, s.chain.opponentGot)) <==> FinalsExact(s)
  {
  }

  lemma {:induction false} TimesIsZeroIff(n: nat, v: nat)
    requires v > 0
    ensures Times(n, v) == 0 <==> n == 0
  {
  }

  lemma SettledSplit(c: Chain, r: Row)
    requires ChainOk(c) && Mirrors(r, c.wager) && r.status == RowStatus.Settled
    ensures var w := c.wager;
            var lost := w.incrementValue * ScoreOf(w, Loser(w));
            && (w.winner == w.maker ==> c.makerGot == 2 * w.amount - lost && c.opponentGot == lost)
            && (w.winner != w.maker ==> c.opponentGot == 2 * w.amount - lost && c.makerGot == lost)
    ensures LiveBalances(r) == Some(Shown(c.makerGot, c.opponentGot)) <==> ScoreOf(c.wager, Loser(c.wager)) == 0
  {
    ClosedForm(c.wager);
    TimesIsProduct(ScoreOf(c.wager, Loser(c.wager)), c.wager.incrementValue);
    TimesIsZeroIff(ScoreOf(c.wager, Loser(c.wager)), c.wager.incrementValue);
  }

  /** The exact split of a settled wager: the loser keeps every increment scored, the winner has the rest.
    * The display says "everything to nothing", which is right if and only if the loser never scored.
    */
  lemma SettledShownExactIff(s: World, actions: seq<Action>)
    requires Started(s) && Run(s, actions).row.status == RowStatus.Settled
    ensures var c := Run(s, actions).chain;
            var lost := c.wager.incrementValue * ScoreOf(c.wager, Loser(c.wager));
            && (c.wager.winner == c.wager.maker ==> c.makerGot == 2 * c.wager.amount - lost && c.opponentGot == lost)
            && (c.wager.winner != c.wager.maker ==> c.opponentGot == 2 * c.wager.amount - lost && c.makerGot == lost)
            && (LiveBalances(Run(s, actions).row) == Some(Shown(c.makerGot, c.opponentGot))
                <==> ScoreOf(c.wager, Loser(c.wager)) == 0)
  {
    RunKeeps(s, actions);
    SettledSplit(Run(s, actions).chain, Run(s, actions).row);
  }

  /** A run with the wrong display: the opponent scores once, the maker wins with two scores. The table says
    * SETTLED and the display twice the stake against nothing, while the opponent has received one increment.
    */
  lemma LoserMayScore(s: World)
    requires Started(s) && TwoRounds(s.chain.wager)
    ensures var now := Run(s, LoserScores());
            && now.row.status == RowStatus.Settled
            && LiveBalances(now.row) == Some(Shown(2 * s.row.amount, 0))
            && now.chain.makerGot == 2 * s.row.amount - s.row.incrementValue
            && now.chain.opponentGot == s.row.incrementValue > 0
  {
    LoserScoresRun(s);
  }

  // ----- Winner-take-all -----

  /** A winner-take-all row shows each player the own stake until it is settled, and then what the escrow has paid. */
  lemma WinnerShownExact(s: WinnerTakeAll.World, actions: seq<WinnerTakeAll.Action>)
    requires WinnerTakeAll.Started(s)
    ensures var now := WinnerTakeAll.Run(s, actions);
            LiveBalances(now.row)
            == Some(if now.row.status == RowStatus.Settled then Shown(now.chain.makerGot, now.chain.opponentGot)
                    else Shown(s.row.amount, s.row.amount))
  {
    WinnerTakeAll.WinnerAgrees(s, actions);
    WinnerTakeAll.StakesStand(s, actions);
  }
}
