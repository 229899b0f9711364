/** What holds in every reachable ledger, and the proof that each instruction keeps it. */
module EscrowInvariant {
  import opened Basics
  import opened ProgramState
  import opened EscrowSpec
  import opened LedgerSums

  // ----- One wager record -----

  /** n times v, kept recursive so that ledger proofs stay linear. */
  function Times(n: nat, v: nat): nat {
    if n == 0 then 0 else Times(n - 1, v) + v
  }

  predicate Seated(w: Wager) {
    w.opponent != DEFAULT_KEY && w.opponent != w.maker
  }

  /** What the maker (opponent) has won from the other side, and with it each reserve, is a
    * closed form of the two scores.
    */
  function Won(w: Wager, user: Pubkey): nat {
    Times(if user == w.maker then w.makerScore else w.opponentScore, w.incrementValue)
  }

  predicate Unexhausted(w: Wager) {
    Won(w, w.maker) < w.amount && Won(w, w.opponent) < w.amount
  }

  function Loser(w: Wager): Pubkey {
    if w.winner == w.maker then w.opponent else w.maker
  }

  function ScoreOf(w: Wager, user: Pubkey): u32 {
    if user == w.maker then w.makerScore else w.opponentScore
  }

  predicate RecordOk(w: Wager) {
    && w.maker != DEFAULT_KEY
    && WagerTerms(w.amount, w.payoutMode, w.incrementValue).Pass?
    && (w.payoutMode == WINNER_TAKE_ALL ==> w.makerScore == w.opponentScore == 0)
    && (if w.status == OPEN then
          && w.opponent == w.winner == DEFAULT_KEY
          && w.makerRemaining == w.opponentRemaining == w.amount
          && w.makerScore == w.opponentScore == 0
        else if w.status == MATCHED then
          && Seated(w) && w.winner == DEFAULT_KEY && Unexhausted(w)
          && w.makerRemaining == w.amount - Won(w, w.opponent)
          && w.opponentRemaining == w.amount - Won(w, w.maker)
        else if w.status == SETTLED then
          && Seated(w) && IsParticipant(w, w.winner)
          && w.makerRemaining == w.opponentRemaining == 0
          && (w.payoutMode == INCREMENTAL ==>
                && ScoreOf(w, w.winner) > 0
                && Times(ScoreOf(w, w.winner) - 1, w.incrementValue) < w.amount <= Won(w, w.winner)
                && Won(w, Loser(w)) < w.amount)
        else
          && w.status == CANCELLED && w.winner == DEFAULT_KEY
          && (if w.opponent == DEFAULT_KEY then w.makerScore == w.opponentScore == 0
              else Seated(w) && Unexhausted(w) && w.makerRemaining == w.opponentRemaining == 0))
  }

  lemma PayIncrementKeepsRecord(w: Wager, beneficiary: Pubkey, sequence: u32)
    requires RecordOk(w) && PayIncrement(w, beneficiary, sequence).Ok?
    ensures RecordOk(PayIncrement(w, beneficiary, sequence).value.wager)
  {
    var w' := PayIncrement(w, beneficiary, sequence).value.wager;
    if beneficiary == w.maker {
      assert Won(w', w.maker) == Won(w, w.maker) + w.incrementValue;
      assert Won(w', w.opponent) == Won(w, w.opponent);
    } else {
      assert Won(w', w.opponent) == Won(w, w.opponent) + w.incrementValue;
      assert Won(w', w.maker) == Won(w, w.maker);
    }
  }

  /** The guards inside an increment can only refuse the wrong moment, the wrong signer's choice or
    * the wrong sequence: the payout is positive and no money arithmetic overflows, as long as both
    * reserves together fit the escrow balance.
    */
  lemma IncrementAcceptedIff(w: Wager, beneficiary: Pubkey, sequence: u32)
    requires RecordOk(w) && w.makerRemaining + w.opponentRemaining <= U64_MAX
    ensures PayIncrement(w, beneficiary, sequence).Ok? <==>
              && w.status == MATCHED && w.payoutMode == INCREMENTAL && IsParticipant(w, beneficiary)
              && sequence == w.makerScore + w.opponentScore + 1
  {
  }

  // ----- The ledger -----

  predicate RecordsOk(c: Config, wagers: Wagers) {
    forall id :: id in wagers ==>
      && wagers[id].wagerId == id
      && RecordOk(wagers[id])
      && (wagers[id].tokenMint == DEFAULT_KEY || wagers[id].tokenMint == c.usdcMint)
  }

  predicate SeatsOk(wagers: Wagers, stakes: Stakes) {
    forall id :: id in wagers ==>
      && wagers[id].maker in stakes
      && (wagers[id].opponent != DEFAULT_KEY ==> wagers[id].opponent in stakes)
  }

  /** Counter agreement: every stake account counts exactly its owner's live wagers. */
  predicate CountersOk(wagers: Wagers, stakes: Stakes) {
    forall u :: u in stakes ==>
      && u != DEFAULT_KEY
      && stakes[u].owner == u
      && stakes[u].activeWagers == |LiveWagers(wagers, u)|
      && (stakes[u].banned ==> stakes[u].amount == 0)
  }

  predicate VaultsOk(wagers: Wagers, balances: Balances) {
    && (forall id :: WagerVault(id) in balances ==> id in wagers && wagers[id].tokenMint != DEFAULT_KEY)
    && (forall id :: id in wagers && wagers[id].tokenMint != DEFAULT_KEY ==> WagerVault(id) in balances)
    && (forall id :: WagerEscrow(id) in balances ==> id in wagers)
  }

  predicate Custodial(a: Account) {
    !a.Wallet?
  }

  /** What a wager still owes its players. */
  function Owed(w: Wager): nat {
    if w.status == OPEN then w.amount
    else if w.status == MATCHED then w.makerRemaining + w.opponentRemaining
    else 0
  }

  /** What the program owes out of one custodial account. */
  function Obligation(l: Ledger, a: Account): nat {
    match a
    case Wallet(_, _) => 0
    case WagerEscrow(id) =>
      if id in l.wagers && l.wagers[id].tokenMint == DEFAULT_KEY then Owed(l.wagers[id]) else 0
    case WagerVault(id) =>
      if id in l.wagers && l.wagers[id].tokenMint != DEFAULT_KEY then Owed(l.wagers[id]) else 0
    case StakeVault(u) =>
      if u in l.stakes then l.stakes[u].amount else 0
  }

  /** Money in a custodial account beyond what the program owes out of it. */
  function Surplus(l: Ledger, a: Account): int {
    BalanceOf(l.balances, a) - Obligation(l, a)
  }

  ghost predicate SolventOk(l: Ledger) {
    forall a :: Custodial(a) ==> Surplus(l, a) >= 0
  }

  ghost predicate SupplyOk(c: Config, b: Balances) {
    forall mint :: Total(c, b, mint) <= U64_MAX
  }

  ghost predicate Valid(l: Ledger) {
    && l.config.usdcMint != DEFAULT_KEY && l.config.tokenMint != DEFAULT_KEY
    && RecordsOk(l.config, l.wagers)
    && SeatsOk(l.wagers, l.stakes)
    && CountersOk(l.wagers, l.stakes)
    && VaultsOk(l.wagers, l.balances)
    && SolventOk(l)
    && SupplyOk(l.config, l.balances)
  }

  // ----- Money moves -----

  /** With the whole supply of each mint within u64, a covered transfer cannot overflow. */
  lemma MoveSucceeds(c: Config, b: Balances, from: Account, to: Account, amount: u64)
    requires from != to && Denomination(c, from) == Denomination(c, to)
    requires SupplyOk(c, b) && amount <= BalanceOf(b, from)
    ensures Move(b, from, to, amount).Ok?
  {
    PairWithinTotal(c, b, from, to);
  }

  lemma MoveKeepsSupply(c: Config, b: Balances, from: Account, to: Account, amount: u64)
    requires from != to && Denomination(c, from) == Denomination(c, to)
    requires Move(b, from, to, amount).Ok?
    ensures forall mint :: Total(c, Move(b, from, to, amount).value, mint) == Total(c, b, mint)
  {
    forall mint
      ensures Total(c, Move(b, from, to, amount).value, mint) == Total(c, b, mint)
    {
      MoveKeepsTotal(c, b, from, to, amount, mint);
    }
  }

  // ----- Counters -----

  function ActiveOf(stakes: Stakes, u: Pubkey): nat {
    if u in stakes then stakes[u].activeWagers else 0
  }

  /** A user without a stake account has no live wager. */
  lemma CountsLive(wagers: Wagers, stakes: Stakes, u: Pubkey)
    requires SeatsOk(wagers, stakes) && CountersOk(wagers, stakes)
    requires u != DEFAULT_KEY
    ensures ActiveOf(stakes, u) == |LiveWagers(wagers, u)|
  {
  }

  /** A live wager holds at least one slot, so releasing it never underflows. */
  lemma LiveHoldsSlot(l: Ledger, id: u64, u: Pubkey)
    requires CountersOk(l.wagers, l.stakes)
    requires id in l.wagers && u in l.stakes && IsLive(l.wagers[id], u)
    ensures l.stakes[u].activeWagers > 0
  {
    assert id in LiveWagers(l.wagers, u);
  }
}
