/** What each player has been paid, over any run, as a closed form of the final wager record. */
module EscrowReceipts {
  import opened Basics
  import opened ProgramState
  import opened EscrowSpec
  import opened EscrowInvariant
  import opened EscrowSteps
  import opened EscrowRuns

  predicate PaysOut(ix: Instruction, id: u64) {
    && (ix.CancelWager? || ix.DeclineWager? || ix.SettleWager? || ix.SettleIncrement? || ix.InvalidateWager?)
    && ix.wagerId == id
  }

  /** What one transaction on a wager adds to a user's wallet in the wager's own mint. */
  function PaidBy(l: Ledger, ix: Instruction, id: u64, user: Pubkey): int {
    if PaysOut(ix, id) && id in l.wagers && Step(l, ix).Ok? then
      var wallet := Wallet(user, l.wagers[id].tokenMint);
      BalanceOf(Step(l, ix).value.balances, wallet) - BalanceOf(l.balances, wallet)
    else 0
  }

  /** Everything a user has received out of one wager's escrow in a run. */
  function Received(l: Ledger, ixs: seq<Instruction>, id: u64, user: Pubkey): int {
    if ixs == [] then 0
    else Received(l, ixs[..|ixs| - 1], id, user) + PaidBy(Run(l, ixs[..|ixs| - 1]), ixs[|ixs| - 1], id, user)
  }

  function Other(w: Wager, user: Pubkey): Pubkey {
    if user == w.maker then w.opponent else w.maker
  }

  /** The closed form: a running wager has paid each player the increments won; a winner takes the
    * pot less what the loser had won; a refund returns each reserve.
    */
  function Due(w: Wager, user: Pubkey): int {
    if !IsParticipant(w, user) || w.status == OPEN then 0
    else if w.status == MATCHED then Won(w, user)
    else if w.status == SETTLED then
      if w.payoutMode == WINNER_TAKE_ALL then (if user == w.winner then 2 * w.amount else 0)
      else if user == w.winner then 2 * w.amount - Won(w, Loser(w))
      else Won(w, user)
    else if w.opponent == DEFAULT_KEY then (if user == w.maker then w.amount else 0)
    else w.amount + Won(w, user) - Won(w, Other(w, user))
  }

  // ----- One step -----

  lemma MovePaysOnly(b: Balances, from: Account, to: Account, amount: u64, wallet: Account)
    requires from != to && wallet != from && Move(b, from, to, amount).Ok?
    ensures BalanceOf(Move(b, from, to, amount).value, wallet)
         == BalanceOf(b, wallet) + (if wallet == to then amount else 0)
  {
  }

  lemma ScoreDue(w: Wager, beneficiary: Pubkey, sequence: u32, user: Pubkey)
    requires RecordOk(w) && PayIncrement(w, beneficiary, sequence).Ok?
    ensures var paid := PayIncrement(w, beneficiary, sequence).value;
            Due(paid.wager, user) == Due(w, user) + (if user == beneficiary then paid.transferred else 0)
  {
  }

  lemma ScorePays(l: Ledger, ix: Instruction, user: Pubkey)
    requires ix.SettleIncrement? && Step(l, ix).Ok? && GoodAt(l, ix.wagerId)
    ensures Due(Step(l, ix).value.wagers[ix.wagerId], user)
         == Due(l.wagers[ix.wagerId], user) + PaidBy(l, ix, ix.wagerId, user)
  {
    var w := l.wagers[ix.wagerId];
    var paid := PayIncrement(w, ix.beneficiary, ix.sequence).value;
    ScoreDue(w, ix.beneficiary, ix.sequence, user);
    MovePaysOnly(l.balances, EscrowOf(ix.asset, ix.wagerId), Wallet(ix.beneficiary, w.tokenMint),
                 paid.transferred, Wallet(user, w.tokenMint));
  }

  lemma InvalidatePays(l: Ledger, ix: Instruction, user: Pubkey)
    requires ix.InvalidateWager? && Step(l, ix).Ok? && GoodAt(l, ix.wagerId)
    ensures Due(Step(l, ix).value.wagers[ix.wagerId], user)
         == Due(l.wagers[ix.wagerId], user) + PaidBy(l, ix, ix.wagerId, user)
  {
  }

  lemma WholePays(l: Ledger, ix: Instruction, user: Pubkey)
    requires ix.CancelWager? || ix.DeclineWager? || ix.SettleWager?
    requires Step(l, ix).Ok? && GoodAt(l, ix.wagerId)
    ensures Due(Step(l, ix).value.wagers[ix.wagerId], user)
         == Due(l.wagers[ix.wagerId], user) + PaidBy(l, ix, ix.wagerId, user)
  {
  }

  /** A transaction that is not about a wager leaves its record alone. */
  lemma OthersUntouched(l: Ledger, ix: Instruction, id: u64)
    requires Step(l, ix).Ok? && id in l.wagers
    requires !PaysOut(ix, id) && !(ix.JoinWager? && ix.wagerId == id)
    ensures id in Step(l, ix).value.wagers && Step(l, ix).value.wagers[id] == l.wagers[id]
  {
  }

  lemma JoinPays(l: Ledger, ix: Instruction, user: Pubkey)
    requires ix.JoinWager? && Step(l, ix).Ok? && GoodAt(l, ix.wagerId)
    ensures Due(Step(l, ix).value.wagers[ix.wagerId], user)
         == Due(l.wagers[ix.wagerId], user) + PaidBy(l, ix, ix.wagerId, user)
  {
  }

  lemma DueFollows(l: Ledger, ix: Instruction, id: u64, user: Pubkey)
    requires Step(l, ix).Ok? && GoodAt(l, id)
    ensures id in Step(l, ix).value.wagers
    ensures Due(Step(l, ix).value.wagers[id], user) == Due(l.wagers[id], user) + PaidBy(l, ix, id, user)
  {
    if PaysOut(ix, id) {
      match ix {
        case SettleIncrement(_, _, _, _, _) => ScorePays(l, ix, user);
        case InvalidateWager(_, _, _) => InvalidatePays(l, ix, user);
        case _ => WholePays(l, ix, user);
      }
    } else if ix.JoinWager? && ix.wagerId == id {
      JoinPays(l, ix, user);
    } else {
      OthersUntouched(l, ix, id);
    }
  }

  lemma GoodThroughout(l: Ledger, ixs: seq<Instruction>, id: u64)
    requires Valid(l)
    ensures id in Run(l, ixs).wagers ==> GoodAt(Run(l, ixs), id)
  {
    RunKeepsValid(l, ixs);
  }

  // ----- Whole runs -----

  lemma NothingBefore(l: Ledger, ix: Instruction, id: u64, user: Pubkey)
    requires id !in l.wagers
    ensures PaidBy(l, ix, id, user) == 0
    ensures Step(l, ix).Ok? && id in Step(l, ix).value.wagers ==> Due(Step(l, ix).value.wagers[id], user) == 0
  {
  }

  /** For every run that creates a wager, what each player was paid out of its escrow is the closed
    * form of the record the run ends with, whatever the order of scores.
    */
  lemma {:induction false} ReceivedIsDue(l: Ledger, ixs: seq<Instruction>, id: u64, user: Pubkey)
    requires Valid(l) && id !in l.wagers
    ensures Received(l, ixs, id, user)
         == (if id in Run(l, ixs).wagers then Due(Run(l, ixs).wagers[id], user) else 0)
  {
    if ixs != [] {
      var before := Run(l, ixs[..|ixs| - 1]);
      var ix := ixs[|ixs| - 1];
      ReceivedIsDue(l, ixs[..|ixs| - 1], id, user);
      GoodThroughout(l, ixs[..|ixs| - 1], id);
      if id !in before.wagers {
        NothingBefore(before, ix, id, user);
      } else if Step(before, ix).Ok? {
        DueFollows(before, ix, id, user);
      }
    }
  }

  /** Once both players have funded a wager and it is over, they have received both stakes, no more
    * and no less.
    */
  lemma PotIsPaidOut(w: Wager)
    requires RecordOk(w) && w.status in {SETTLED, CANCELLED} && w.opponent != DEFAULT_KEY
    ensures Due(w, w.maker) + Due(w, w.opponent) == 2 * w.amount
    ensures Due(w, w.maker) >= 0 && Due(w, w.opponent) >= 0
  {
  }

  // ----- Accepted scores -----

  /** The sequence numbers of the accepted increments of one wager, in order. */
  function AcceptedScores(l: Ledger, ixs: seq<Instruction>, id: u64): seq<u32> {
    if ixs == [] then []
    else
      var before := Run(l, ixs[..|ixs| - 1]);
      var ix := ixs[|ixs| - 1];
      AcceptedScores(l, ixs[..|ixs| - 1], id)
      + (if ix.SettleIncrement? && ix.wagerId == id && Step(before, ix).Ok? then [ix.sequence] else [])
  }

  function ScoreTotal(l: Ledger, id: u64): nat {
    if id in l.wagers then l.wagers[id].makerScore + l.wagers[id].opponentScore else 0
  }

  lemma NoScoreBefore(l: Ledger, ix: Instruction, id: u64)
    requires Step(l, ix).Ok? && id !in l.wagers
    ensures ScoreTotal(Step(l, ix).value, id) == 0 && !(ix.SettleIncrement? && ix.wagerId == id)
  {
  }

  lemma ScoreCounts(l: Ledger, ix: Instruction)
    requires ix.SettleIncrement? && Step(l, ix).Ok?
    ensures ScoreTotal(Step(l, ix).value, ix.wagerId) == ScoreTotal(l, ix.wagerId) + 1 == ix.sequence
  {
  }

  lemma ScoreTotalFollows(l: Ledger, ix: Instruction, id: u64)
    requires Step(l, ix).Ok? && (id in l.wagers ==> GoodAt(l, id))
    ensures if ix.SettleIncrement? && ix.wagerId == id
            then ScoreTotal(Step(l, ix).value, id) == ScoreTotal(l, id) + 1 == ix.sequence
            else ScoreTotal(Step(l, ix).value, id) == ScoreTotal(l, id)
  {
    if id !in l.wagers {
      NoScoreBefore(l, ix, id);
    } else if PaysOut(ix, id) {
      if ix.SettleIncrement? {
        ScoreCounts(l, ix);
      }
    } else if !(ix.JoinWager? && ix.wagerId == id) {
      OthersUntouched(l, ix, id);
    }
  }

  /** The chain accepts exactly the sequence numbers 1, 2, 3, ... in order, as many as the two scores
    * add up to.
    */
  lemma {:induction false} AcceptedInOrder(l: Ledger, ixs: seq<Instruction>, id: u64)
    requires Valid(l) && id !in l.wagers
    ensures |AcceptedScores(l, ixs, id)| == ScoreTotal(Run(l, ixs), id)
    ensures forall i :: 0 <= i < |AcceptedScores(l, ixs, id)| ==> AcceptedScores(l, ixs, id)[i] == i + 1
  {
    if ixs != [] {
      var before := Run(l, ixs[..|ixs| - 1]);
      AcceptedInOrder(l, ixs[..|ixs| - 1], id);
      GoodThroughout(l, ixs[..|ixs| - 1], id);
      if Step(before, ixs[|ixs| - 1]).Ok? {
        ScoreTotalFollows(before, ixs[|ixs| - 1], id);
      }
    }
  }

  // ----- Progress of one wager -----

  /** The agreed terms never change, a wager only moves forward, and a finished record is frozen. */
  predicate Advances(w: Wager, w': Wager) {
    && w'.maker == w.maker && w'.challenger == w.challenger && w'.amount == w.amount
    && w'.tokenMint == w.tokenMint && w'.payoutMode == w.payoutMode && w'.incrementValue == w.incrementValue
    && (w.status == MATCHED ==> w'.status != OPEN && w'.opponent == w.opponent)
    && (w.status in {SETTLED, CANCELLED} ==> w' == w)
    && w.makerScore <= w'.makerScore && w.opponentScore <= w'.opponentScore
    && w'.makerRemaining <= w.makerRemaining && w'.opponentRemaining <= w.opponentRemaining
  }

  lemma ScoreAdvances(l: Ledger, ix: Instruction)
    requires ix.SettleIncrement? && Step(l, ix).Ok? && GoodAt(l, ix.wagerId)
    ensures Advances(l.wagers[ix.wagerId], Step(l, ix).value.wagers[ix.wagerId])
  {
  }

  lemma EndAdvances(l: Ledger, ix: Instruction)
    requires ix.CancelWager? || ix.DeclineWager? || ix.SettleWager? || ix.InvalidateWager? || ix.JoinWager?
    requires Step(l, ix).Ok? && GoodAt(l, ix.wagerId)
    ensures Advances(l.wagers[ix.wagerId], Step(l, ix).value.wagers[ix.wagerId])
  {
  }

  lemma StepAdvances(l: Ledger, ix: Instruction, id: u64)
    requires Step(l, ix).Ok? && GoodAt(l, id)
    ensures id in Step(l, ix).value.wagers && Advances(l.wagers[id], Step(l, ix).value.wagers[id])
  {
    if !PaysOut(ix, id) && !(ix.JoinWager? && ix.wagerId == id) {
      OthersUntouched(l, ix, id);
    } else if ix.SettleIncrement? {
      ScoreAdvances(l, ix);
    } else {
      EndAdvances(l, ix);
    }
  }

  lemma {:induction false} RunAdvances(l: Ledger, ixs: seq<Instruction>, id: u64)
    requires Valid(l) && id in l.wagers
    ensures id in Run(l, ixs).wagers && Advances(l.wagers[id], Run(l, ixs).wagers[id])
  {
    if ixs != [] {
      var before := Run(l, ixs[..|ixs| - 1]);
      RunAdvances(l, ixs[..|ixs| - 1], id);
      GoodThroughout(l, ixs[..|ixs| - 1], id);
      if Step(before, ixs[|ixs| - 1]).Ok? {
        StepAdvances(before, ixs[|ixs| - 1], id);
      }
    }
  }

  /** A ban is for good: no run lifts it or lets the stake grow again. */
  lemma {:induction false} BannedForever(l: Ledger, ixs: seq<Instruction>, user: Pubkey)
    requires Valid(l) && user in l.stakes && l.stakes[user].banned
    ensures var now := Run(l, ixs).stakes;
            user in now && now[user].banned && now[user].amount == 0
  {
    if ixs != [] {
      var before := Run(l, ixs[..|ixs| - 1]);
      BannedForever(l, ixs[..|ixs| - 1], user);
      RunKeepsValid(l, ixs[..|ixs| - 1]);
      if Step(before, ixs[|ixs| - 1]).Ok? {
        BanStands(before, ixs[|ixs| - 1], user);
        StepKeeps(before, ixs[|ixs| - 1]);
      }
    }
  }

  lemma BanStands(l: Ledger, ix: Instruction, user: Pubkey)
    requires Step(l, ix).Ok? && user in l.stakes && l.stakes[user].banned
    ensures user in Step(l, ix).value.stakes && Step(l, ix).value.stakes[user].banned
  {
  }
}
