/** Incremental play in closed form: a race to ceil(amount / increment) scores. */
module EscrowRace {
  import opened Basics
  import opened ProgramState
  import opened EscrowSpec
  import opened EscrowInvariant
  import opened EscrowRuns
  import opened EscrowExits
  import opened EscrowReceipts

  lemma {:induction false} TimesIsProduct(n: nat, v: nat)
    ensures Times(n, v) == n * v
  {
    if n > 0 {
      TimesIsProduct(n - 1, v);
      assert n * v == (n - 1) * v + v;
    }
  }

  /** The score that exhausts a reserve: ceil(amount / increment). */
  function Rounds(amount: nat, increment: nat): nat
    requires increment > 0
  {
    (amount + increment - 1) / increment
  }

  lemma Divides(x: nat, d: nat)
    requires d > 0
    ensures (x / d) * d <= x < (x / d) * d + d
  {
  }

  lemma {:induction false} ProductGrows(m: nat, n: nat, v: nat)
    requires m <= n
    ensures m * v <= n * v
    decreases n - m
  {
  }

  lemma RoundsIsCeiling(amount: nat, increment: nat, n: nat)
    requires increment > 0
    ensures n * increment < amount <==> n < Rounds(amount, increment)
  {
    var k := Rounds(amount, increment);
    Divides(amount + increment - 1, increment);
    if n < k {
      ProductGrows(n + 1, k, increment);
      assert (n + 1) * increment == n * increment + increment;
    } else {
      ProductGrows(k, n, increment);
    }
  }

  function RoundsOf(w: Wager): nat
    requires w.incrementValue > 0
  {
    Rounds(w.amount, w.incrementValue)
  }

  /** In every reachable record of an incremental wager the reserves, the outcome and the payments are
    * functions of the two scores; the first to reach the number of rounds wins.
    */
  lemma ClosedForm(w: Wager)
    requires RecordOk(w) && w.payoutMode == INCREMENTAL
    ensures w.status == MATCHED ==>
              && w.makerRemaining == w.amount - w.incrementValue * w.opponentScore
              && w.opponentRemaining == w.amount - w.incrementValue * w.makerScore
              && w.makerScore < RoundsOf(w) && w.opponentScore < RoundsOf(w)
              && Due(w, w.maker) == w.incrementValue * w.makerScore
              && Due(w, w.opponent) == w.incrementValue * w.opponentScore
    ensures w.status == SETTLED ==>
              && ScoreOf(w, w.winner) == RoundsOf(w) && ScoreOf(w, Loser(w)) < RoundsOf(w)
              && Due(w, Loser(w)) == w.incrementValue * ScoreOf(w, Loser(w))
              && Due(w, w.winner) == 2 * w.amount - w.incrementValue * ScoreOf(w, Loser(w))
    ensures w.makerScore + w.opponentScore <= 2 * RoundsOf(w) - 1
  {
    var v := w.incrementValue;
    TimesIsProduct(w.makerScore, v);
    TimesIsProduct(w.opponentScore, v);
    RoundsIsCeiling(w.amount, v, 0);
    RoundsIsCeiling(w.amount, v, w.makerScore);
    RoundsIsCeiling(w.amount, v, w.opponentScore);
    if w.status == SETTLED {
      TimesIsProduct(ScoreOf(w, w.winner) - 1, v);
      RoundsIsCeiling(w.amount, v, ScoreOf(w, w.winner) - 1);
    }
  }

  /** The closed form over whole runs: the money each player of a finished incremental wager received,
    * and the bound on the number of accepted increments.
    */
  lemma RunClosedForm(l: Ledger, ixs: seq<Instruction>, id: u64)
    requires Valid(l) && id !in l.wagers
    requires id in Run(l, ixs).wagers
    requires var w := Run(l, ixs).wagers[id]; w.payoutMode == INCREMENTAL && w.status == SETTLED
    ensures var w := Run(l, ixs).wagers[id];
            && w.incrementValue > 0
            && Received(l, ixs, id, Loser(w)) == w.incrementValue * ScoreOf(w, Loser(w))
            && Received(l, ixs, id, w.winner) == 2 * w.amount - w.incrementValue * ScoreOf(w, Loser(w))
            && RoundsOf(w) <= |AcceptedScores(l, ixs, id)| <= 2 * RoundsOf(w) - 1
  {
    var w := Run(l, ixs).wagers[id];
    GoodThroughout(l, ixs, id);
    ClosedForm(w);
    ReceivedIsDue(l, ixs, id, Loser(w));
    ReceivedIsDue(l, ixs, id, w.winner);
    AcceptedInOrder(l, ixs, id);
  }

  // ----- Progress -----

  lemma NextSequenceFits(w: Wager)
    requires RecordOk(w) && w.payoutMode == INCREMENTAL && w.status == MATCHED
    requires 2 * RoundsOf(w) - 1 <= U32_MAX
    ensures w.makerScore + w.opponentScore < U32_MAX
  {
    ClosedForm(w);
  }

  lemma NextScoreAccepted(l: Ledger, asset: Asset, id: u64, beneficiary: Pubkey, sequence: u32)
    requires Valid(l) && l.config.chainAuthority != DEFAULT_KEY
    requires Loads(l, asset, id) && l.wagers[id].status == MATCHED && l.wagers[id].payoutMode == INCREMENTAL
    requires IsParticipant(l.wagers[id], beneficiary)
    requires sequence == l.wagers[id].makerScore + l.wagers[id].opponentScore + 1
    ensures Step(l, SettleIncrement(asset, id, beneficiary, sequence, l.config.chainAuthority)).Ok?
  {
    ScoreSucceedsIff(l, SettleIncrement(asset, id, beneficiary, sequence, l.config.chainAuthority));
  }

  lemma ValidRecord(l: Ledger, id: u64)
    requires Valid(l) && id in l.wagers
    ensures RecordOk(l.wagers[id])
  {
  }

  predicate RoundsFit(w: Wager) {
    w.incrementValue > 0 ==> 2 * RoundsOf(w) - 1 <= U32_MAX
  }

  lemma NextScoreFits(l: Ledger, id: u64) returns (sequence: u32)
    requires Valid(l) && id in l.wagers && RoundsFit(l.wagers[id])
    requires l.wagers[id].status == MATCHED && l.wagers[id].payoutMode == INCREMENTAL
    ensures sequence == l.wagers[id].makerScore + l.wagers[id].opponentScore + 1
  {
    ValidRecord(l, id);
    NextSequenceFits(l.wagers[id]);
    sequence := l.wagers[id].makerScore + l.wagers[id].opponentScore + 1;
  }

  /** Play can always go on when every possible sequence number fits u32. */
  lemma AlwaysScorable(l: Ledger, asset: Asset, id: u64, beneficiary: Pubkey) returns (sequence: u32)
    requires Valid(l) && l.config.chainAuthority != DEFAULT_KEY
    requires Loads(l, asset, id) && l.wagers[id].status == MATCHED && l.wagers[id].payoutMode == INCREMENTAL
    requires IsParticipant(l.wagers[id], beneficiary) && RoundsFit(l.wagers[id])
    ensures sequence == l.wagers[id].makerScore + l.wagers[id].opponentScore + 1
    ensures Step(l, SettleIncrement(asset, id, beneficiary, sequence, l.config.chainAuthority)).Ok?
  {
    sequence := NextScoreFits(l, id);
    NextScoreAccepted(l, asset, id, beneficiary, sequence);
  }

  /** What is owed is a termination measure of incremental play. */
  lemma ScoreShrinksDebt(w: Wager, beneficiary: Pubkey, sequence: u32)
    requires RecordOk(w) && PayIncrement(w, beneficiary, sequence).Ok?
    ensures Owed(PayIncrement(w, beneficiary, sequence).value.wager) < Owed(w)
  {
  }

  // ----- First to K -----

  function Count(picks: seq<bool>, side: bool): nat {
    if picks == [] then 0
    else Count(picks[..|picks| - 1], side) + (if picks[|picks| - 1] == side then 1 else 0)
  }

  predicate Decided(picks: seq<bool>, k: nat) {
    Count(picks, true) >= k || Count(picks, false) >= k
  }

  /** The part of a sequence of scores that is played: up to and including the one with which a player
    * first reaches k. True stands for the maker.
    */
  function Played(picks: seq<bool>, k: nat): seq<bool> {
    if picks == [] then []
    else
      var before := Played(picks[..|picks| - 1], k);
      if Decided(before, k) then before else picks
  }

  function SideOf(w: Wager, side: bool): Pubkey {
    if side then w.maker else w.opponent
  }

  /** Every score is submitted with the next sequence number; refused ones change nothing. */
  function Race(w: Wager, picks: seq<bool>): Wager {
    if picks == [] then w
    else
      var before := Race(w, picks[..|picks| - 1]);
      var side := SideOf(before, picks[|picks| - 1]);
      if before.makerScore + before.opponentScore >= U32_MAX then before
      else
        var paid := PayIncrement(before, side, before.makerScore + before.opponentScore + 1);
        if paid.Ok? then paid.value.wager else before
  }

  /** An incremental wager that both players have just funded. */
  predicate JustMatched(w: Wager) {
    && RecordOk(w) && w.status == MATCHED && w.payoutMode == INCREMENTAL
    && w.makerScore == w.opponentScore == 0
    && 2 * w.amount <= U64_MAX
  }

  predicate Fresh(w: Wager) {
    JustMatched(w) && 2 * RoundsOf(w) - 1 <= U32_MAX
  }

  predicate SameTerms(w: Wager, w': Wager) {
    && w'.maker == w.maker && w'.opponent == w.opponent && w'.amount == w.amount
    && w'.payoutMode == w.payoutMode && w'.incrementValue == w.incrementValue
  }

  lemma PlayedPrefix(picks: seq<bool>, k: nat)
    ensures !Decided(Played(picks, k), k) ==> Played(picks, k) == picks
    ensures |Played(picks, k)| <= |picks| && Played(picks, k) == picks[..|Played(picks, k)|]
  {
  }

  /** One more score on an undecided race to k. */
  predicate Scores(w: Wager, side: bool, k: nat) {
    && w.makerScore + w.opponentScore < U32_MAX
    && var paid := PayIncrement(w, SideOf(w, side), w.makerScore + w.opponentScore + 1);
       && paid.Ok?
       && var w' := paid.value.wager;
          && RecordOk(w') && SameTerms(w, w')
          && w'.makerScore == w.makerScore + (if side then 1 else 0)
          && w'.opponentScore == w.opponentScore + (if side then 0 else 1)
          && w'.status == (if w'.makerScore >= k || w'.opponentScore >= k then SETTLED else MATCHED)
          && (w'.status == SETTLED ==> w'.winner == SideOf(w, side))
  }

  lemma ScoreDecides(w: Wager, side: bool)
    requires RecordOk(w) && w.status == MATCHED && w.payoutMode == INCREMENTAL
    requires 2 * w.amount <= U64_MAX && w.makerScore + w.opponentScore < U32_MAX
    ensures Scores(w, side, RoundsOf(w))
  {
    ClosedForm(w);
    var n := w.makerScore + w.opponentScore + 1;
    IncrementAcceptedIff(w, SideOf(w, side), n);
    PayIncrementKeepsRecord(w, SideOf(w, side), n);
    ClosedForm(PayIncrement(w, SideOf(w, side), n).value.wager);
  }

  /** The record after any sequence of scores is the record of its played part. */
  predicate RaceIs(w: Wager, picks: seq<bool>, k: nat) {
    var w' := Race(w, picks);
    var played := Played(picks, k);
    && RecordOk(w') && SameTerms(w, w')
    && w'.makerScore == Count(played, true) && w'.opponentScore == Count(played, false)
    && w'.status == (if Decided(played, k) then SETTLED else MATCHED)
    && (Decided(played, k) ==> played != [] && w'.winner == SideOf(w, played[|played| - 1]))
  }

  lemma {:induction false} RaceHalts(w: Wager, picks: seq<bool>)
    requires picks != []
    requires Race(w, picks[..|picks| - 1]).status != MATCHED
    ensures Race(w, picks) == Race(w, picks[..|picks| - 1])
  {
  }

  lemma {:induction false} RaceAdvances(w: Wager, picks: seq<bool>)
    requires picks != []
    requires var before := Race(w, picks[..|picks| - 1]);
             && before.makerScore + before.opponentScore < U32_MAX
             && PayIncrement(before, SideOf(before, picks[|picks| - 1]),
                             before.makerScore + before.opponentScore + 1).Ok?
    ensures var before := Race(w, picks[..|picks| - 1]);
            Race(w, picks)
            == PayIncrement(before, SideOf(before, picks[|picks| - 1]), before.makerScore + before.opponentScore + 1)
               .value.wager
  {
  }

  lemma ScoresPays(w: Wager, side: bool, k: nat)
    requires Scores(w, side, k)
    ensures w.makerScore + w.opponentScore < U32_MAX
    ensures PayIncrement(w, SideOf(w, side), w.makerScore + w.opponentScore + 1).Ok?
  {
  }

  lemma {:induction false} RaceScores(w: Wager, picks: seq<bool>, k: nat)
    requires picks != [] && Scores(Race(w, picks[..|picks| - 1]), picks[|picks| - 1], k)
    ensures var before := Race(w, picks[..|picks| - 1]);
            Race(w, picks)
            == PayIncrement(before, SideOf(before, picks[|picks| - 1]), before.makerScore + before.opponentScore + 1)
               .value.wager
  {
    ScoresPays(Race(w, picks[..|picks| - 1]), picks[|picks| - 1], k);
    RaceAdvances(w, picks);
  }

  lemma {:induction false} PlayedStep(picks: seq<bool>, k: nat)
    requires picks != []
    ensures Played(picks, k)
         == if Decided(Played(picks[..|picks| - 1], k), k) then Played(picks[..|picks| - 1], k) else picks
    ensures !Decided(Played(picks[..|picks| - 1], k), k) ==> Played(picks[..|picks| - 1], k) == picks[..|picks| - 1]
  {
  }

  lemma {:induction false} RaceStep(w: Wager, picks: seq<bool>, k: nat)
    requires picks != [] && RaceIs(w, picks[..|picks| - 1], k)
    requires var before := Race(w, picks[..|picks| - 1]);
             before.status == MATCHED ==> Scores(before, picks[|picks| - 1], k)
    ensures RaceIs(w, picks, k)
  {
    var init := picks[..|picks| - 1];
    PlayedStep(picks, k);
    if Race(w, init).status == MATCHED {
      RaceScores(w, picks, k);
      assert Played(picks, k) == picks && Played(init, k) == init;
    } else {
      RaceHalts(w, picks);
      assert Played(picks, k) == Played(init, k);
    }
  }

  lemma {:induction false} FirstToRoundsWins(w: Wager, picks: seq<bool>)
    requires Fresh(w)
    ensures RaceIs(w, picks, RoundsOf(w))
  {
    if picks == [] {
      RoundsIsCeiling(w.amount, w.incrementValue, 0);
    } else {
      FirstToRoundsWins(w, picks[..|picks| - 1]);
      var before := Race(w, picks[..|picks| - 1]);
      if before.status == MATCHED {
        NextSequenceFits(before);
        ScoreDecides(before, picks[|picks| - 1]);
      }
      RaceStep(w, picks, RoundsOf(w));
    }
  }

  lemma {:induction false} CountsAddUp(picks: seq<bool>)
    ensures Count(picks, true) + Count(picks, false) == |picks|
  {
    if picks != [] {
      CountsAddUp(picks[..|picks| - 1]);
    }
  }

  /** Incremental play always settles: no sequence of 2K - 1 scores leaves a wager open. */
  lemma RaceEnds(w: Wager, picks: seq<bool>)
    requires Fresh(w) && |picks| >= 2 * RoundsOf(w) - 1
    ensures Race(w, picks).status == SETTLED
  {
    FirstToRoundsWins(w, picks);
    PlayedPrefix(picks, RoundsOf(w));
    CountsAddUp(picks);
    RoundsIsCeiling(w.amount, w.incrementValue, 0);
  }

  // ----- Races too long for u32 -----

  function Repeated(side: bool, n: nat): (r: seq<bool>)
    ensures |r| == n
  {
    if n == 0 then [] else Repeated(side, n - 1) + [side]
  }

  lemma {:induction false} CountRepeated(init: seq<bool>, side: bool, n: nat, of: bool)
    ensures Count(init + Repeated(side, n), of) == Count(init, of) + (if side == of then n else 0)
  {
    var picks := init + Repeated(side, n);
    if n == 0 {
      assert picks == init;
    } else {
      assert picks[..|picks| - 1] == init + Repeated(side, n - 1);
      CountRepeated(init, side, n - 1, of);
    }
  }

  lemma {:induction false} CountGrows(picks: seq<bool>, n: nat, of: bool)
    requires n <= |picks|
    ensures Count(picks[..n], of) <= Count(picks, of)
    decreases |picks|
  {
    if n < |picks| {
      assert picks[..|picks| - 1][..n] == picks[..n];
      CountGrows(picks[..|picks| - 1], n, of);
    } else {
      assert picks[..n] == picks;
    }
  }

  /** The record after some scores that nobody has won with. */
  predicate Open(w: Wager, picks: seq<bool>) {
    var w' := Race(w, picks);
    && RecordOk(w') && SameTerms(w, w') && w'.status == MATCHED
    && w'.makerScore == Count(picks, true) && w'.opponentScore == Count(picks, false)
  }

  lemma {:induction false} CountLast(picks: seq<bool>, side: bool)
    requires picks != []
    ensures Count(picks, side) == Count(picks[..|picks| - 1], side) + (if picks[|picks| - 1] == side then 1 else 0)
  {
  }

  /** A score with which nobody reaches k leaves the wager running. */
  lemma ScoreLeavesOpen(before: Wager, side: bool, k: nat, makerScore: nat, opponentScore: nat)
    requires Scores(before, side, k) && makerScore < k && opponentScore < k
    requires makerScore == before.makerScore + (if side then 1 else 0)
    requires opponentScore == before.opponentScore + (if side then 0 else 1)
    ensures var n := before.makerScore + before.opponentScore + 1;
            var w' := PayIncrement(before, SideOf(before, side), n).value.wager;
            && RecordOk(w') && SameTerms(before, w') && w'.status == MATCHED
            && w'.makerScore == makerScore && w'.opponentScore == opponentScore
  {
  }

  lemma OpenScores(w: Wager, init: seq<bool>, side: bool)
    requires Open(w, init) && |init| < U32_MAX
    requires 2 * w.amount <= U64_MAX && w.payoutMode == INCREMENTAL && w.incrementValue > 0
    ensures Scores(Race(w, init), side, RoundsOf(w))
  {
    CountsAddUp(init);
    ScoreDecides(Race(w, init), side);
  }

  lemma OpenOnceMore(w: Wager, picks: seq<bool>, k: nat)
    requires picks != [] && Open(w, picks[..|picks| - 1])
    requires Scores(Race(w, picks[..|picks| - 1]), picks[|picks| - 1], k)
    requires Count(picks, true) < k && Count(picks, false) < k
    ensures Open(w, picks)
  {
    CountLast(picks, true);
    CountLast(picks, false);
    ScoreLeavesOpen(Race(w, picks[..|picks| - 1]), picks[|picks| - 1], k, Count(picks, true), Count(picks, false));
    RaceScores(w, picks, k);
  }

  lemma OpenStep(w: Wager, picks: seq<bool>)
    requires picks != [] && Open(w, picks[..|picks| - 1])
    requires 2 * w.amount <= U64_MAX && w.payoutMode == INCREMENTAL && w.incrementValue > 0 && |picks| <= U32_MAX
    requires Count(picks, true) < RoundsOf(w) && Count(picks, false) < RoundsOf(w)
    ensures Open(w, picks)
  {
    OpenScores(w, picks[..|picks| - 1], picks[|picks| - 1]);
    OpenOnceMore(w, picks, RoundsOf(w));
  }

  /** While neither player has reached K and the scores fit u32, every score counts. */
  lemma {:induction false} Undecided(w: Wager, picks: seq<bool>)
    requires JustMatched(w) && |picks| <= U32_MAX
    requires Count(picks, true) < RoundsOf(w) && Count(picks, false) < RoundsOf(w)
    ensures Open(w, picks)
  {
    if picks != [] {
      CountGrows(picks, |picks| - 1, true);
      CountGrows(picks, |picks| - 1, false);
      Undecided(w, picks[..|picks| - 1]);
      OpenStep(w, picks);
    }
  }

  /** Once the scores are exhausted no score is accepted any more. */
  lemma {:induction false} ExhaustedStands(w: Wager, picks: seq<bool>, more: seq<bool>)
    requires Race(w, picks).makerScore + Race(w, picks).opponentScore >= U32_MAX
    ensures Race(w, picks + more) == Race(w, picks)
  {
    if more == [] {
      assert picks + more == picks;
    } else {
      assert (picks + more)[..|picks + more| - 1] == picks + more[..|more| - 1];
      ExhaustedStands(w, picks, more[..|more| - 1]);
    }
  }

  /** A drawn-out race: all sequence numbers used, and neither player at k. */
  lemma DrawnOut(k: nat) returns (picks: seq<bool>)
    requires k > 0 && 2 * k - 1 > U32_MAX
    ensures |picks| == U32_MAX && Count(picks, true) < k && Count(picks, false) < k
  {
    var a := if k - 1 < U32_MAX then k - 1 else U32_MAX;
    var init := Repeated(true, a);
    assert [] + init == init;
    CountRepeated([], true, a, true);
    CountRepeated([], true, a, false);
    CountRepeated(init, false, U32_MAX - a, true);
    CountRepeated(init, false, U32_MAX - a, false);
    picks := init + Repeated(false, U32_MAX - a);
  }

  /** If 2K - 1 exceeds u32, some sequence of scores exhausts the sequence numbers before anybody has won, and
    * the wager stays MATCHED for ever.
    */
  lemma RaceStalls(w: Wager, n: nat) returns (picks: seq<bool>)
    requires JustMatched(w) && 2 * RoundsOf(w) - 1 > U32_MAX
    ensures |picks| >= n && Race(w, picks).status == MATCHED
    ensures forall more :: Race(w, picks + more) == Race(w, picks)
  {
    var full := DrawnOut(RoundsOf(w));
    Undecided(w, full);
    CountsAddUp(full);
    ExhaustedStands(w, full, Repeated(true, n));
    picks := full + Repeated(true, n);
    forall more
      ensures Race(w, picks + more) == Race(w, picks)
    {
      ExhaustedStands(w, picks, more);
    }
  }

  /** Every long enough sequence of scores settles a wager if and only if 2K - 1 fits u32. */
  lemma AlwaysSettlesIff(w: Wager)
    requires JustMatched(w)
    ensures (forall picks :: |picks| >= 2 * RoundsOf(w) - 1 ==> Race(w, picks).status == SETTLED)
            <==> 2 * RoundsOf(w) - 1 <= U32_MAX
  {
    if 2 * RoundsOf(w) - 1 <= U32_MAX {
      forall picks: seq<bool> | |picks| >= 2 * RoundsOf(w) - 1
        ensures Race(w, picks).status == SETTLED
      {
        RaceEnds(w, picks);
      }
    } else {
      var picks := RaceStalls(w, 2 * RoundsOf(w) - 1);
    }
  }
}
