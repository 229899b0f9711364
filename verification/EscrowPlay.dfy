/** Incremental play on the ledger: in the middle of any other transactions the record of a wager is that of the
  * race of the scores submitted for it.
  */
module EscrowPlay {
  import opened Basics
  import opened ProgramState
  import opened EscrowSpec
  import opened EscrowInvariant
  import opened EscrowSteps
  import opened EscrowRuns
  import opened EscrowExits
  import opened EscrowReceipts
  import opened EscrowRace

  /** An increment as the worker submits it: signed by the configured key, for a participant, with the next
    * sequence number. Whether the wager still runs is for the program to check.
    */
  predicate Submits(l: Ledger, ix: Instruction, id: u64) {
    && ix.SettleIncrement? && ix.wagerId == id
    && ix.signer != DEFAULT_KEY && ix.signer == l.config.chainAuthority
    && Loads(l, ix.asset, id) && IsParticipant(l.wagers[id], ix.beneficiary)
    && ix.sequence == l.wagers[id].makerScore + l.wagers[id].opponentScore + 1
  }

  /** The scores submitted in a run, accepted or not. */
  function Picks(l: Ledger, ixs: seq<Instruction>, id: u64): seq<bool> {
    if ixs == [] then []
    else
      var before, ix := Run(l, ixs[..|ixs| - 1]), ixs[|ixs| - 1];
      Picks(l, ixs[..|ixs| - 1], id)
      + (if Submits(before, ix, id) then [ix.beneficiary == before.wagers[id].maker] else [])
  }

  /** An incremental wager that has gone live. */
  predicate Live(l: Ledger, id: u64) {
    GoodAt(l, id) && l.wagers[id].status != OPEN && l.wagers[id].payoutMode == INCREMENTAL
  }

  /** Only increments and refunds move the record of a wager that has gone live. */
  lemma OnlyScoresMove(l: Ledger, ix: Instruction, id: u64)
    requires id in l.wagers && l.wagers[id].status != OPEN && l.wagers[id].payoutMode == INCREMENTAL
    requires !((ix.SettleIncrement? || ix.InvalidateWager?) && ix.wagerId == id)
    ensures Step(l, ix).Ok? ==> id in Step(l, ix).value.wagers && Step(l, ix).value.wagers[id] == l.wagers[id]
    ensures PaysOut(ix, id) ==> Step(l, ix).Err?
  {
    if Step(l, ix).Ok? && !PaysOut(ix, id) && !(ix.JoinWager? && ix.wagerId == id) {
      OthersUntouched(l, ix, id);
    }
  }

  lemma RefundCancels(l: Ledger, ix: Instruction)
    requires ix.InvalidateWager? && Step(l, ix).Ok?
    ensures ix.wagerId in Step(l, ix).value.wagers && Step(l, ix).value.wagers[ix.wagerId].status == CANCELLED
  {
  }

  lemma ScoreWrites(l: Ledger, ix: Instruction)
    requires ix.SettleIncrement? && Step(l, ix).Ok?
    ensures ix.wagerId in l.wagers && ix.wagerId in Step(l, ix).value.wagers
    ensures PayIncrement(l.wagers[ix.wagerId], ix.beneficiary, ix.sequence).Ok?
    ensures Step(l, ix).value.wagers[ix.wagerId]
         == PayIncrement(l.wagers[ix.wagerId], ix.beneficiary, ix.sequence).value.wager
  {
  }

  /** What a transaction does to the record, unless it refunds the wager: a submitted score is played if the record
    * accepts it, everything else leaves it alone.
    */
  function Played(w: Wager, beneficiary: Pubkey, sequence: u32): Wager {
    var paid := PayIncrement(w, beneficiary, sequence);
    if paid.Ok? then paid.value.wager else w
  }

  lemma SubmittedMoves(l: Ledger, ix: Instruction, id: u64)
    requires Valid(l) && Live(l, id) && Submits(l, ix, id)
    ensures id in Apply(l, ix).wagers && Apply(l, ix).wagers[id] == Played(l.wagers[id], ix.beneficiary, ix.sequence)
  {
    ScoreSucceedsIff(l, ix);
    if Step(l, ix).Ok? {
      ScoreWrites(l, ix);
    } else {
      NotMatched(l.wagers[id], ix.beneficiary, ix.sequence);
    }
  }

  lemma NotMatched(w: Wager, beneficiary: Pubkey, sequence: u32)
    requires w.status != MATCHED
    ensures PayIncrement(w, beneficiary, sequence).Err?
  {
  }

  lemma OthersStand(l: Ledger, ix: Instruction, id: u64)
    requires Valid(l) && Live(l, id) && !Submits(l, ix, id)
    ensures id in Apply(l, ix).wagers
    ensures Apply(l, ix).wagers[id] == l.wagers[id] || Apply(l, ix).wagers[id].status == CANCELLED
  {
    if ix.SettleIncrement? && ix.wagerId == id {
      ScoreSucceedsIff(l, ix);
    } else if ix.InvalidateWager? && ix.wagerId == id {
      if Step(l, ix).Ok? {
        RefundCancels(l, ix);
      }
    } else {
      OnlyScoresMove(l, ix, id);
    }
  }

  lemma {:induction false} RaceOnce(w: Wager, picks: seq<bool>, side: bool)
    requires Race(w, picks).makerScore + Race(w, picks).opponentScore < U32_MAX
    ensures var before := Race(w, picks);
            Race(w, picks + [side])
            == Played(before, SideOf(before, side), before.makerScore + before.opponentScore + 1)
  {
    assert (picks + [side])[..|picks|] == picks;
  }

  /** For every run from a ledger where a wager has just been matched: unless the wager was refunded, its record is
    * that of the race of the scores submitted for it.
    */
  lemma {:induction false} LedgerRaces(l: Ledger, ixs: seq<Instruction>, id: u64)
    requires Valid(l) && id in l.wagers && JustMatched(l.wagers[id])
    ensures Live(Run(l, ixs), id)
    ensures var w := Run(l, ixs).wagers[id];
            w.status == CANCELLED || w == Race(l.wagers[id], Picks(l, ixs, id))
  {
    GoodThroughout(l, [], id);
    if ixs != [] {
      var init, ix := ixs[..|ixs| - 1], ixs[|ixs| - 1];
      LedgerRaces(l, init, id);
      RunKeepsValid(l, init);
      var before := Run(l, init);
      LiveStep(before, ix, id);
      RecordStep(before, ix, id);
      RaceFollows(before.wagers[id], Run(l, ixs).wagers[id], ix, Submits(before, ix, id), l.wagers[id],
                  Picks(l, init, id));
    }
  }

  lemma LiveStep(l: Ledger, ix: Instruction, id: u64)
    requires Valid(l) && Live(l, id)
    ensures Live(Apply(l, ix), id)
    ensures l.wagers[id].status == CANCELLED ==> Apply(l, ix).wagers[id] == l.wagers[id]
  {
    if Step(l, ix).Ok? {
      StepAdvances(l, ix, id);
      StepKeeps(l, ix);
      GoodAfter(Step(l, ix).value, id);
    }
  }

  lemma GoodAfter(l: Ledger, id: u64)
    requires Valid(l) && id in l.wagers
    ensures GoodAt(l, id)
  {
  }

  /** The record of a race before and after one transaction. */
  lemma RaceFollows(before: Wager, after: Wager, ix: Instruction, submits: bool, w: Wager, picks: seq<bool>)
    requires before.status != CANCELLED ==> before == Race(w, picks)
    requires before.status == CANCELLED ==> after == before
    requires submits ==>
               && ix.SettleIncrement? && IsParticipant(before, ix.beneficiary)
               && ix.sequence == before.makerScore + before.opponentScore + 1
               && after == Played(before, ix.beneficiary, ix.sequence)
    requires !submits ==> after == before || after.status == CANCELLED
    ensures var more := if submits then [ix.beneficiary == before.maker] else [];
            after.status == CANCELLED || after == Race(w, picks + more)
  {
    if before.status != CANCELLED {
      if submits {
        RaceOnce(w, picks, ix.beneficiary == before.maker);
      } else {
        assert picks + [] == picks;
      }
    }
  }

  lemma RecordStep(l: Ledger, ix: Instruction, id: u64)
    requires Valid(l) && Live(l, id)
    ensures id in Apply(l, ix).wagers
    ensures var before, after := l.wagers[id], Apply(l, ix).wagers[id];
            if Submits(l, ix, id) then after == Played(before, ix.beneficiary, ix.sequence)
            else after == before || after.status == CANCELLED
  {
    if Submits(l, ix, id) {
      SubmittedMoves(l, ix, id);
    } else {
      OthersStand(l, ix, id);
    }
  }

  /** The race of the whole run: unless the wager was refunded, the first player with K submitted scores wins, and
    * what is submitted later changes nothing.
    */
  lemma FirstToRoundsOnLedger(l: Ledger, ixs: seq<Instruction>, id: u64)
    requires Valid(l) && id in l.wagers && Fresh(l.wagers[id])
    ensures id in Run(l, ixs).wagers
    ensures var k, played := RoundsOf(l.wagers[id]), EscrowRace.Played(Picks(l, ixs, id), RoundsOf(l.wagers[id]));
            var w := Run(l, ixs).wagers[id];
            w.status == CANCELLED
            || (&& SameTerms(l.wagers[id], w)
                && w.makerScore == Count(played, true) && w.opponentScore == Count(played, false)
                && w.status == (if Decided(played, k) then SETTLED else MATCHED)
                && (Decided(played, k) ==> played != [] && w.winner == SideOf(w, played[|played| - 1])))
  {
    LedgerRaces(l, ixs, id);
    FirstToRoundsWins(l.wagers[id], Picks(l, ixs, id));
  }

  /** Whatever else happens on the ledger, 2K - 1 submitted scores finish a wager. */
  lemma LedgerSettles(l: Ledger, ixs: seq<Instruction>, id: u64)
    requires Valid(l) && id in l.wagers && Fresh(l.wagers[id])
    requires |Picks(l, ixs, id)| >= 2 * RoundsOf(l.wagers[id]) - 1
    ensures id in Run(l, ixs).wagers && Run(l, ixs).wagers[id].status in {SETTLED, CANCELLED}
  {
    LedgerRaces(l, ixs, id);
    RaceEnds(l.wagers[id], Picks(l, ixs, id));
  }

  // ----- Wagers that run out of sequence numbers -----

  /** The wager runs on, but no sequence number is left. */
  predicate Exhausted(l: Ledger, id: u64) {
    id in l.wagers && l.wagers[id].status == MATCHED && l.wagers[id].makerScore + l.wagers[id].opponentScore >= U32_MAX
  }

  lemma ExhaustedStep(l: Ledger, ix: Instruction, id: u64)
    requires Valid(l) && Live(l, id) && Exhausted(l, id)
    ensures id in Apply(l, ix).wagers
    ensures Apply(l, ix).wagers[id] == l.wagers[id] || Apply(l, ix).wagers[id].status == CANCELLED
  {
    OthersStand(l, ix, id);
  }

  /** Then only a refund can end it. */
  lemma {:induction false} ExhaustedForEver(l: Ledger, ixs: seq<Instruction>, id: u64)
    requires Valid(l) && Exhausted(l, id) && l.wagers[id].payoutMode == INCREMENTAL
    ensures Live(Run(l, ixs), id)
    ensures Run(l, ixs).wagers[id] == l.wagers[id] || Run(l, ixs).wagers[id].status == CANCELLED
  {
    GoodAfter(l, id);
    if ixs != [] {
      var before, ix := Run(l, ixs[..|ixs| - 1]), ixs[|ixs| - 1];
      ExhaustedForEver(l, ixs[..|ixs| - 1], id);
      RunKeepsValid(l, ixs[..|ixs| - 1]);
      LiveStep(before, ix, id);
      if before.wagers[id].status != CANCELLED {
        ExhaustedStep(before, ix, id);
      }
    }
  }

  /** The submissions of a sequence of scores, one after the other. */
  function Submissions(w: Wager, asset: Asset, id: u64, signer: Pubkey, picks: seq<bool>): (ixs: seq<Instruction>)
    requires |picks| <= U32_MAX
    ensures |ixs| == |picks|
  {
    if picks == [] then []
    else
      Submissions(w, asset, id, signer, picks[..|picks| - 1])
      + [SettleIncrement(asset, id, SideOf(w, picks[|picks| - 1]), |picks|, signer)]
  }

  lemma ScoreKeepsConfig(l: Ledger, ix: Instruction)
    requires ix.SettleIncrement?
    ensures Apply(l, ix).config == l.config
  {
  }

  /** The ledger while nobody has won with the submitted scores. */
  predicate OpenOnLedger(l: Ledger, now: Ledger, id: u64, picks: seq<bool>) {
    && id in l.wagers && id in now.wagers && now.config == l.config
    && now.wagers[id] == Race(l.wagers[id], picks) && Open(l.wagers[id], picks)
    && now.wagers[id].tokenMint == l.wagers[id].tokenMint
  }

  lemma OpenSubmits(l: Ledger, now: Ledger, asset: Asset, id: u64, init: seq<bool>, side: bool)
    requires Loads(l, asset, id) && l.config.chainAuthority != DEFAULT_KEY && |init| < U32_MAX
    requires OpenOnLedger(l, now, id, init)
    ensures Submits(now, SettleIncrement(asset, id, SideOf(l.wagers[id], side), |init| + 1, l.config.chainAuthority),
                    id)
  {
    CountsAddUp(init);
  }

  lemma MintStays(w: Wager, beneficiary: Pubkey, sequence: u32)
    ensures Played(w, beneficiary, sequence).tokenMint == w.tokenMint
  {
  }

  lemma OpenOnceMore(l: Ledger, now: Ledger, now': Ledger, id: u64, init: seq<bool>, side: bool)
    requires OpenOnLedger(l, now, id, init) && Open(l.wagers[id], init + [side]) && |init| < U32_MAX
    requires now'.config == now.config && id in now'.wagers
    requires now'.wagers[id] == Played(now.wagers[id], SideOf(l.wagers[id], side), |init| + 1)
    ensures OpenOnLedger(l, now', id, init + [side])
  {
    CountsAddUp(init);
    RaceOnce(l.wagers[id], init, side);
    MintStays(now.wagers[id], SideOf(l.wagers[id], side), |init| + 1);
  }

  lemma OpenSubmitted(l: Ledger, now: Ledger, asset: Asset, id: u64, init: seq<bool>, side: bool)
    requires Valid(now) && Live(now, id) && Loads(l, asset, id) && l.config.chainAuthority != DEFAULT_KEY
    requires |init| < U32_MAX && OpenOnLedger(l, now, id, init) && Open(l.wagers[id], init + [side])
    ensures var ix := SettleIncrement(asset, id, SideOf(l.wagers[id], side), |init| + 1, l.config.chainAuthority);
            OpenOnLedger(l, Apply(now, ix), id, init + [side])
  {
    var ix := SettleIncrement(asset, id, SideOf(l.wagers[id], side), |init| + 1, l.config.chainAuthority);
    OpenSubmits(l, now, asset, id, init, side);
    SubmittedMoves(now, ix, id);
    ScoreKeepsConfig(now, ix);
    OpenOnceMore(l, now, Apply(now, ix), id, init, side);
  }

  lemma PlayedSoFar(l: Ledger, ixs: seq<Instruction>, id: u64)
    requires Valid(l) && id in l.wagers && JustMatched(l.wagers[id])
    ensures Valid(Run(l, ixs)) && Live(Run(l, ixs), id)
  {
    RunKeepsValid(l, ixs);
    LedgerRaces(l, ixs, id);
  }

  lemma RunMore(l: Ledger, ixs: seq<Instruction>, ix: Instruction)
    ensures Run(l, ixs + [ix]) == Apply(Run(l, ixs), ix)
  {
    assert (ixs + [ix])[..|ixs|] == ixs;
  }

  lemma NothingPlayed(l: Ledger, id: u64)
    requires id in l.wagers && JustMatched(l.wagers[id])
    ensures OpenOnLedger(l, l, id, [])
  {
    Undecided(l.wagers[id], []);
  }

  lemma SubmissionsRun(l: Ledger, w: Wager, asset: Asset, id: u64, signer: Pubkey, init: seq<bool>, side: bool)
    requires |init| < U32_MAX
    ensures Run(l, Submissions(w, asset, id, signer, init + [side]))
         == Apply(Run(l, Submissions(w, asset, id, signer, init)),
                  SettleIncrement(asset, id, SideOf(w, side), |init| + 1, signer))
  {
    assert (init + [side])[..|init|] == init;
    RunMore(l, Submissions(w, asset, id, signer, init),
            SettleIncrement(asset, id, SideOf(w, side), |init| + 1, signer));
  }

  /** Nobody has won with any part of the scores. */
  predicate AllOpen(w: Wager, picks: seq<bool>) {
    Open(w, picks) && (picks != [] ==> AllOpen(w, picks[..|picks| - 1]))
  }

  lemma {:induction false} PrefixesOpen(w: Wager, picks: seq<bool>)
    requires JustMatched(w) && |picks| <= U32_MAX
    requires Count(picks, true) < RoundsOf(w) && Count(picks, false) < RoundsOf(w)
    ensures AllOpen(w, picks)
  {
    Undecided(w, picks);
    if picks != [] {
      CountGrows(picks, |picks| - 1, true);
      CountGrows(picks, |picks| - 1, false);
      PrefixesOpen(w, picks[..|picks| - 1]);
    }
  }

  /** One submission more, on a ledger reached by submissions. */
  lemma SentOnce(l: Ledger, sent: seq<Instruction>, asset: Asset, id: u64, init: seq<bool>, side: bool)
    requires Valid(l) && Loads(l, asset, id) && JustMatched(l.wagers[id]) && l.config.chainAuthority != DEFAULT_KEY
    requires |init| < U32_MAX && OpenOnLedger(l, Run(l, sent), id, init) && Open(l.wagers[id], init + [side])
    ensures var ix := SettleIncrement(asset, id, SideOf(l.wagers[id], side), |init| + 1, l.config.chainAuthority);
            OpenOnLedger(l, Apply(Run(l, sent), ix), id, init + [side])
  {
    PlayedSoFar(l, sent, id);
    OpenSubmitted(l, Run(l, sent), asset, id, init, side);
  }

  function Sent(l: Ledger, asset: Asset, id: u64, picks: seq<bool>): Ledger
    requires id in l.wagers && |picks| <= U32_MAX
  {
    Run(l, Submissions(l.wagers[id], asset, id, l.config.chainAuthority, picks))
  }

  lemma SentMore(l: Ledger, asset: Asset, id: u64, init: seq<bool>, side: bool)
    requires Valid(l) && Loads(l, asset, id) && JustMatched(l.wagers[id]) && l.config.chainAuthority != DEFAULT_KEY
    requires |init| < U32_MAX && Open(l.wagers[id], init + [side])
    requires OpenOnLedger(l, Sent(l, asset, id, init), id, init)
    ensures OpenOnLedger(l, Sent(l, asset, id, init + [side]), id, init + [side])
  {
    SentOnce(l, Submissions(l.wagers[id], asset, id, l.config.chainAuthority, init), asset, id, init, side);
    SubmissionsRun(l, l.wagers[id], asset, id, l.config.chainAuthority, init, side);
  }

  lemma SubmitsNext(l: Ledger, asset: Asset, id: u64, picks: seq<bool>)
    requires Valid(l) && Loads(l, asset, id) && JustMatched(l.wagers[id]) && l.config.chainAuthority != DEFAULT_KEY
    requires 0 < |picks| <= U32_MAX && Open(l.wagers[id], picks)
    requires OpenOnLedger(l, Sent(l, asset, id, picks[..|picks| - 1]), id, picks[..|picks| - 1])
    ensures OpenOnLedger(l, Sent(l, asset, id, picks), id, picks)
  {
    assert picks[..|picks| - 1] + [picks[|picks| - 1]] == picks;
    SentMore(l, asset, id, picks[..|picks| - 1], picks[|picks| - 1]);
  }

  lemma {:induction false} SubmitsOpen(l: Ledger, asset: Asset, id: u64, picks: seq<bool>)
    requires Valid(l) && Loads(l, asset, id) && JustMatched(l.wagers[id]) && l.config.chainAuthority != DEFAULT_KEY
    requires |picks| <= U32_MAX && AllOpen(l.wagers[id], picks)
    ensures OpenOnLedger(l, Sent(l, asset, id, picks), id, picks)
    decreases |picks|
  {
    if picks == [] {
      NothingPlayed(l, id);
    } else {
      SubmitsOpen(l, asset, id, picks[..|picks| - 1]);
      SubmitsNext(l, asset, id, picks);
    }
  }

  lemma PlayedOut(l: Ledger, asset: Asset, id: u64) returns (ixs: seq<Instruction>)
    requires Valid(l) && Loads(l, asset, id) && JustMatched(l.wagers[id]) && l.config.chainAuthority != DEFAULT_KEY
    requires 2 * RoundsOf(l.wagers[id]) - 1 > U32_MAX
    ensures Exhausted(Run(l, ixs), id)
  {
    var picks := DrawnOut(RoundsOf(l.wagers[id]));
    ixs := Submissions(l.wagers[id], asset, id, l.config.chainAuthority, picks);
    PrefixesOpen(l.wagers[id], picks);
    SubmitsOpen(l, asset, id, picks);
    DrawnOutIsFull(l, Run(l, ixs), id, picks);
  }

  lemma DrawnOutIsFull(l: Ledger, now: Ledger, id: u64, picks: seq<bool>)
    requires OpenOnLedger(l, now, id, picks) && |picks| == U32_MAX
    ensures Exhausted(now, id)
  {
    CountsAddUp(picks);
  }

  lemma NeverExhausted(l: Ledger, ixs: seq<Instruction>, id: u64)
    requires Valid(l) && id in l.wagers && Fresh(l.wagers[id])
    ensures !Exhausted(Run(l, ixs), id)
  {
    LedgerRaces(l, ixs, id);
    RunAdvances(l, ixs, id);
    var w := Run(l, ixs).wagers[id];
    if w.status == MATCHED {
      NextSequenceFits(w);
    }
  }

  /** Some run uses up the sequence numbers of a wager that runs on. */
  ghost predicate CanStall(l: Ledger, id: u64) {
    exists ixs :: Exhausted(Run(l, ixs), id)
  }

  lemma Stalls(l: Ledger, asset: Asset, id: u64)
    requires Valid(l) && Loads(l, asset, id) && JustMatched(l.wagers[id]) && l.config.chainAuthority != DEFAULT_KEY
    requires 2 * RoundsOf(l.wagers[id]) - 1 > U32_MAX
    ensures CanStall(l, id)
  {
    var ixs := PlayedOut(l, asset, id);
  }

  lemma NeverStalls(l: Ledger, id: u64)
    requires Valid(l) && id in l.wagers && Fresh(l.wagers[id])
    ensures !CanStall(l, id)
  {
    forall ixs
      ensures !Exhausted(Run(l, ixs), id)
    {
      NeverExhausted(l, ixs, id);
    }
  }

  /** A wager that has just been matched can run out of sequence numbers, after which only a refund ends it, if and
    * only if 2K - 1 does not fit u32.
    */
  lemma LedgerStallsIff(l: Ledger, asset: Asset, id: u64)
    requires Valid(l) && Loads(l, asset, id) && JustMatched(l.wagers[id]) && l.config.chainAuthority != DEFAULT_KEY
    ensures CanStall(l, id) <==> 2 * RoundsOf(l.wagers[id]) - 1 > U32_MAX
  {
    if 2 * RoundsOf(l.wagers[id]) - 1 > U32_MAX {
      Stalls(l, asset, id);
    } else {
      NeverStalls(l, id);
    }
  }
}
