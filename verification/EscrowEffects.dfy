/** What every accepted transaction does to records, balances and settings, field by field and account by account,
  * and what follows for the terms of a wager and for the money paid in over whole runs.
  */
module EscrowEffects {
  import opened Basics
  import opened ProgramState
  import opened EscrowSpec
  import opened EscrowInvariant
  import opened EscrowSteps
  import opened EscrowRuns
  import opened EscrowExits
  import opened EscrowReceipts

  /** An amount went from one account to another, and no other balance changed. */
  ghost predicate Moved(b: Balances, b': Balances, from: Account, to: Account, amount: nat) {
    from != to
    && forall a :: BalanceOf(b', a)
                == BalanceOf(b, a) - (if a == from then amount else 0) + (if a == to then amount else 0)
  }

  /** All records but one stand. */
  ghost predicate OnlyWager(l: Ledger, l': Ledger, id: u64) {
    && id in l'.wagers && l'.config == l.config
    && l'.wagers.Keys == l.wagers.Keys + {id}
    && forall other :: other in l.wagers && other != id ==> l'.wagers[other] == l.wagers[other]
  }

  /** All stake accounts but one stand, and nothing else does not. */
  ghost predicate OnlyStake(l: Ledger, l': Ledger, user: Pubkey) {
    && user in l'.stakes && l'.config == l.config && l'.wagers == l.wagers
    && l'.stakes.Keys == l.stakes.Keys + {user}
    && forall other :: other in l.stakes && other != user ==> l'.stakes[other] == l.stakes[other]
  }

  /** The terms that a record shares with the call that made it. */
  predicate HasTerms(c: Config, w: Wager, ix: Instruction)
    requires ix.CreateWager?
  {
    && w.wagerId == ix.wagerId && w.maker == ix.maker && w.challenger == ix.challenger && w.amount == ix.amount
    && w.tokenMint == (if ix.asset == Sol then DEFAULT_KEY else c.usdcMint)
    && w.payoutMode == ix.payoutMode && w.incrementValue == ix.incrementValue && w.bump == ix.bump
  }

  // ----- Wagers -----

  lemma MoveMoves(b: Balances, from: Account, to: Account, amount: u64)
    requires from != to && Move(b, from, to, amount).Ok?
    ensures Moved(b, Move(b, from, to, amount).value, from, to, amount)
  {
  }

  /** A created wager carries the terms of the call, nobody has joined or won, and its maker has paid the stake. */
  lemma CreateEffect(l: Ledger, ix: Instruction)
    requires ix.CreateWager? && Step(l, ix).Ok?
    ensures var l' := Step(l, ix).value;
            && ix.wagerId !in l.wagers && OnlyWager(l, l', ix.wagerId)
            && var w := l'.wagers[ix.wagerId];
               && HasTerms(l.config, w, ix) && w.status == OPEN && w.opponent == w.winner == DEFAULT_KEY
               && w.makerRemaining == w.opponentRemaining == ix.amount && w.makerScore == w.opponentScore == 0
               && Moved(l.balances, l'.balances, Wallet(ix.maker, w.tokenMint),
                        if ix.asset == Sol then WagerEscrow(ix.wagerId) else WagerVault(ix.wagerId), ix.amount)
  {
    MoveMoves(l.balances, Wallet(ix.maker, MintOf(l.config, ix.asset)), EscrowOf(ix.asset, ix.wagerId), ix.amount);
  }

  /** A joined wager has its caller as opponent, who has paid the same stake; nothing else about it changes. */
  lemma JoinEffect(l: Ledger, ix: Instruction)
    requires ix.JoinWager? && Step(l, ix).Ok?
    ensures var l' := Step(l, ix).value;
            && ix.wagerId in l.wagers && OnlyWager(l, l', ix.wagerId)
            && var w, w' := l.wagers[ix.wagerId], l'.wagers[ix.wagerId];
               && w.status == OPEN && w.maker != ix.opponent
               && (w.challenger == DEFAULT_KEY || w.challenger == ix.opponent)
               && w'.status == MATCHED && w'.opponent == ix.opponent
               && w'.(status := w.status, opponent := w.opponent) == w
               && Moved(l.balances, l'.balances, Wallet(ix.opponent, w.tokenMint),
                        if ix.asset == Sol then WagerEscrow(ix.wagerId) else WagerVault(ix.wagerId), w.amount)
  {
    var w := l.wagers[ix.wagerId];
    MoveMoves(l.balances, Wallet(ix.opponent, MintOf(l.config, ix.asset)), EscrowOf(ix.asset, ix.wagerId), w.amount);
  }

  /** A cancelled or declined wager returns the stake to its maker. Cancelling leaves both reserves on record,
    * declining clears the maker's.
    */
  lemma RefundEffect(l: Ledger, ix: Instruction)
    requires (ix.CancelWager? || ix.DeclineWager?) && Step(l, ix).Ok?
    ensures var l' := Step(l, ix).value;
            && ix.wagerId in l.wagers && OnlyWager(l, l', ix.wagerId)
            && var w, w' := l.wagers[ix.wagerId], l'.wagers[ix.wagerId];
               && w.status == OPEN && w'.status == CANCELLED
               && w'.makerRemaining == (if ix.CancelWager? then w.makerRemaining else 0)
               && w'.(status := w.status, makerRemaining := w.makerRemaining) == w
               && Moved(l.balances, l'.balances,
                        if ix.asset == Sol then WagerEscrow(ix.wagerId) else WagerVault(ix.wagerId),
                        Wallet(w.maker, w.tokenMint), w.amount)
  {
    var w := l.wagers[ix.wagerId];
    MoveMoves(l.balances, EscrowOf(ix.asset, ix.wagerId), Wallet(w.maker, w.tokenMint), w.amount);
  }

  /** A settled wager names its winner, who gets both stakes. */
  lemma SettleEffect(l: Ledger, ix: Instruction)
    requires ix.SettleWager? && Step(l, ix).Ok?
    ensures var l' := Step(l, ix).value;
            && ix.wagerId in l.wagers && OnlyWager(l, l', ix.wagerId)
            && var w, w' := l.wagers[ix.wagerId], l'.wagers[ix.wagerId];
               && w.status == MATCHED && w'.status == SETTLED && w'.winner == ix.winner
               && w'.makerRemaining == w'.opponentRemaining == 0
               && w'.(status := w.status, winner := w.winner, makerRemaining := w.makerRemaining,
                      opponentRemaining := w.opponentRemaining) == w
               && Moved(l.balances, l'.balances,
                        if ix.asset == Sol then WagerEscrow(ix.wagerId) else WagerVault(ix.wagerId),
                        Wallet(ix.winner, w.tokenMint), 2 * w.amount)
  {
    var w := l.wagers[ix.wagerId];
    MoveMoves(l.balances, EscrowOf(ix.asset, ix.wagerId), Wallet(ix.winner, w.tokenMint), w.amount * 2);
  }

  /** The reserve that an increment for a player is taken from. */
  function Debited(w: Wager, beneficiary: Pubkey): nat {
    if beneficiary == w.maker then w.opponentRemaining else w.makerRemaining
  }

  /** An accepted increment takes the increment off the other player's reserve, or all that is left of it; in that
    * case it ends the wager and the beneficiary's own reserve is paid along.
    */
  lemma ScoreEffect(l: Ledger, ix: Instruction)
    requires ix.SettleIncrement? && Step(l, ix).Ok?
    ensures var l' := Step(l, ix).value;
            && ix.wagerId in l.wagers && OnlyWager(l, l', ix.wagerId)
            && var w, w' := l.wagers[ix.wagerId], l'.wagers[ix.wagerId];
               var more := w.incrementValue < Debited(w, ix.beneficiary);
               var amount := if more then w.incrementValue else w.makerRemaining + w.opponentRemaining;
               && Debited(w', ix.beneficiary) == (if more then Debited(w, ix.beneficiary) - w.incrementValue else 0)
               && w'.makerRemaining + w'.opponentRemaining == w.makerRemaining + w.opponentRemaining - amount
               && w'.makerScore == w.makerScore + (if ix.beneficiary == w.maker then 1 else 0)
               && w'.opponentScore == w.opponentScore + (if ix.beneficiary == w.maker then 0 else 1)
               && (if more then w'.status == MATCHED && w'.winner == w.winner
                   else
                     && w'.status == SETTLED && w'.winner == ix.beneficiary
                     && w'.makerRemaining == w'.opponentRemaining == 0)
               && Moved(l.balances, l'.balances,
                        if ix.asset == Sol then WagerEscrow(ix.wagerId) else WagerVault(ix.wagerId),
                        Wallet(ix.beneficiary, w.tokenMint), amount)
  {
    var w := l.wagers[ix.wagerId];
    var paid := PayIncrement(w, ix.beneficiary, ix.sequence).value;
    MoveMoves(l.balances, EscrowOf(ix.asset, ix.wagerId), Wallet(ix.beneficiary, w.tokenMint), paid.transferred);
  }

  /** A refund of a running wager returns each reserve to its own player. */
  lemma InvalidateEffect(l: Ledger, ix: Instruction)
    requires ix.InvalidateWager? && Step(l, ix).Ok? && GoodAt(l, ix.wagerId)
    ensures var l' := Step(l, ix).value;
            && ix.wagerId in l.wagers && OnlyWager(l, l', ix.wagerId)
            && var w, w' := l.wagers[ix.wagerId], l'.wagers[ix.wagerId];
               var escrow := if ix.asset == Sol then WagerEscrow(ix.wagerId) else WagerVault(ix.wagerId);
               var maker, opponent := Wallet(w.maker, w.tokenMint), Wallet(w.opponent, w.tokenMint);
               && w.status == MATCHED && w'.status == CANCELLED && w'.makerRemaining == w'.opponentRemaining == 0
               && w'.(status := w.status, makerRemaining := w.makerRemaining,
                      opponentRemaining := w.opponentRemaining) == w
               && forall a :: BalanceOf(l'.balances, a) == BalanceOf(l.balances, a)
                    - (if a == escrow then w.makerRemaining + w.opponentRemaining else 0)
                    + (if a == maker then w.makerRemaining else 0) + (if a == opponent then w.opponentRemaining else 0)
  {
    var w := l.wagers[ix.wagerId];
    var escrow := EscrowOf(ix.asset, ix.wagerId);
    MoveMoves(l.balances, escrow, Wallet(w.maker, w.tokenMint), w.makerRemaining);
    var b1 := Move(l.balances, escrow, Wallet(w.maker, w.tokenMint), w.makerRemaining).value;
    MoveMoves(b1, escrow, Wallet(w.opponent, w.tokenMint), w.opponentRemaining);
  }

  // ----- Access stakes -----

  /** The vault of a user is paid from the user's own wallet, by exactly what the stake grows. */
  lemma StakeEffect(l: Ledger, ix: Instruction)
    requires ix.StakeTokens? && Step(l, ix).Ok?
    ensures var l' := Step(l, ix).value;
            && OnlyStake(l, l', ix.user) && l'.stakes[ix.user].amount == StakedBy(l, ix.user) + ix.amount
            && !l'.stakes[ix.user].banned && (ix.user in l.stakes ==> !l.stakes[ix.user].banned)
            && l'.stakes[ix.user].activeWagers == (if ix.user in l.stakes then l.stakes[ix.user].activeWagers else 0)
            && Moved(l.balances, l'.balances, Wallet(ix.user, l.config.tokenMint), StakeVault(ix.user), ix.amount)
  {
    MoveMoves(l.balances, Wallet(ix.user, l.config.tokenMint), StakeVault(ix.user), ix.amount);
  }

  /** Unstaked tokens go back to the user's own wallet. */
  lemma UnstakeEffect(l: Ledger, ix: Instruction)
    requires ix.UnstakeTokens? && Step(l, ix).Ok?
    ensures var l' := Step(l, ix).value;
            && ix.user in l.stakes && OnlyStake(l, l', ix.user)
            && l'.stakes[ix.user].amount == l.stakes[ix.user].amount - ix.amount
            && l'.stakes[ix.user].(amount := l.stakes[ix.user].amount) == l.stakes[ix.user]
            && Moved(l.balances, l'.balances, StakeVault(ix.user), Wallet(ix.user, l.config.tokenMint), ix.amount)
  {
    MoveMoves(l.balances, StakeVault(ix.user), Wallet(ix.user, l.config.tokenMint), ix.amount);
  }

  /** A ban sends exactly the staked amount to the wallet of the named treasury and marks the user. */
  lemma BanEffect(l: Ledger, ix: Instruction)
    requires ix.BanUser? && Step(l, ix).Ok?
    ensures var l' := Step(l, ix).value;
            && ix.signer == l.config.authority && ix.user in l.stakes && OnlyStake(l, l', ix.user)
            && l'.stakes[ix.user].banned && l'.stakes[ix.user].amount == 0
            && l'.stakes[ix.user].(banned := l.stakes[ix.user].banned, amount := l.stakes[ix.user].amount)
               == l.stakes[ix.user]
            && Moved(l.balances, l'.balances, StakeVault(ix.user), Wallet(ix.treasury, l.config.tokenMint),
                     l.stakes[ix.user].amount)
  {
    if l.stakes[ix.user].amount > 0 {
      MoveMoves(l.balances, StakeVault(ix.user), Wallet(ix.treasury, l.config.tokenMint), l.stakes[ix.user].amount);
    }
  }

  lemma StakeFits(l: Ledger, user: Pubkey, amount: u64)
    requires Valid(l) && amount <= BalanceOf(l.balances, Wallet(user, l.config.tokenMint))
    ensures Move(l.balances, Wallet(user, l.config.tokenMint), StakeVault(user), amount).Ok?
    ensures StakedBy(l, user) + amount <= U64_MAX
  {
    MoveSucceeds(l.config, l.balances, Wallet(user, l.config.tokenMint), StakeVault(user), amount);
    assert Surplus(l, StakeVault(user)) >= 0;
  }

  /** Staking works exactly while it is on, for a positive amount that the user has, unless the user is banned. */
  lemma StakeSucceedsIff(l: Ledger, user: Pubkey, amount: u64)
    requires Valid(l)
    ensures Step(l, StakeTokens(user, amount)).Ok? <==>
              && user != DEFAULT_KEY && l.config.stakingEnabled && !(user in l.stakes && l.stakes[user].banned)
              && 0 < amount <= BalanceOf(l.balances, Wallet(user, l.config.tokenMint))
    ensures Step(l, StakeTokens(user, amount)).Err? ==>
              Step(l, StakeTokens(user, amount)).error
                in {AccountConstraint, StakingDisabled, InvalidWagerAmount, UserBanned, InsufficientFunds}
  {
    if amount <= BalanceOf(l.balances, Wallet(user, l.config.tokenMint)) {
      StakeFits(l, user, amount);
    }
  }

  // ----- Settings and plain transfers -----

  /** A reconfiguration writes the four settings of the call, keeps both mints, and moves nothing. */
  lemma ReconfigureEffect(l: Ledger, ix: Instruction)
    requires ix.UpdateConfig?
    ensures Step(l, ix).Ok? <==>
              && ix.signer != DEFAULT_KEY && ix.signer == l.config.authority
              && (ix.stakingEnabled ==> ix.requiredStake > 0)
    ensures Step(l, ix).Ok? ==>
              var l' := Step(l, ix).value;
              && l'.config.authority == ix.authority && l'.config.chainAuthority == ix.chainAuthority
              && l'.config.requiredStake == ix.requiredStake && l'.config.stakingEnabled == ix.stakingEnabled
              && l'.config.tokenMint == l.config.tokenMint && l'.config.usdcMint == l.config.usdcMint
              && l'.(config := l.config) == l
  {
  }

  /** Only the authority changes the settings, by no other call. */
  lemma OnlyAuthorityReconfigures(l: Ledger, ix: Instruction)
    requires Step(l, ix).Ok? && Step(l, ix).value.config != l.config
    ensures ix.UpdateConfig? && ix.signer == l.config.authority != DEFAULT_KEY
  {
  }

  lemma DepositEffect(l: Ledger, ix: Instruction)
    requires ix.Deposit? && Step(l, ix).Ok?
    ensures var l' := Step(l, ix).value;
            && l'.(balances := l.balances) == l
            && Moved(l.balances, l'.balances, Wallet(ix.from, Denomination(l.config, ix.to)), ix.to, ix.amount)
  {
    MoveMoves(l.balances, Wallet(ix.from, Denomination(l.config, ix.to)), ix.to, ix.amount);
  }

  /** Staked amounts and bans change by staking, unstaking and banning that user, and by nothing else. */
  lemma StakesStand(l: Ledger, ix: Instruction, user: Pubkey)
    requires Step(l, ix).Ok? && !((ix.StakeTokens? || ix.UnstakeTokens? || ix.BanUser?) && ix.user == user)
    ensures StakedBy(Step(l, ix).value, user) == StakedBy(l, user)
    ensures IsBanned(Step(l, ix).value, user) == IsBanned(l, user)
  {
    if ix.StakeTokens? {
      StakeEffect(l, ix);
    } else if ix.UnstakeTokens? {
      UnstakeEffect(l, ix);
    } else if ix.BanUser? {
      BanEffect(l, ix);
    } else {
      PlayKeepsStakes(l, ix, user);
    }
  }

  lemma PlayKeepsStakes(l: Ledger, ix: Instruction, user: Pubkey)
    requires Step(l, ix).Ok? && !ix.StakeTokens? && !ix.UnstakeTokens? && !ix.BanUser?
    ensures StakedBy(Step(l, ix).value, user) == StakedBy(l, user)
    ensures IsBanned(Step(l, ix).value, user) == IsBanned(l, user)
  {
    if ix.CreateWager? || ix.JoinWager? {
      EnteringKeepsStakes(l, ix, user);
    }
  }

  lemma EnteringKeepsStakes(l: Ledger, ix: Instruction, user: Pubkey)
    requires Step(l, ix).Ok? && (ix.CreateWager? || ix.JoinWager?)
    ensures StakedBy(Step(l, ix).value, user) == StakedBy(l, user)
    ensures IsBanned(Step(l, ix).value, user) == IsBanned(l, user)
  {
  }

  predicate IsBanned(l: Ledger, user: Pubkey) {
    user in l.stakes && l.stakes[user].banned
  }

  // ----- The terms of a wager over runs -----

  /** Who may sit opposite a maker. */
  predicate OpponentFits(w: Wager) {
    w.opponent == DEFAULT_KEY || (w.opponent != w.maker && (w.challenger == DEFAULT_KEY || w.opponent == w.challenger))
  }

  /** No transaction changes the terms; only joining sets the opponent. */
  lemma TermsStand(l: Ledger, ix: Instruction, id: u64)
    requires Step(l, ix).Ok? && id in l.wagers
    ensures id in Step(l, ix).value.wagers
    ensures var w, w' := l.wagers[id], Step(l, ix).value.wagers[id];
            && w'.wagerId == w.wagerId && w'.maker == w.maker && w'.challenger == w.challenger && w'.amount == w.amount
            && w'.tokenMint == w.tokenMint && w'.payoutMode == w.payoutMode && w'.incrementValue == w.incrementValue
            && w'.bump == w.bump
            && (w'.opponent == w.opponent || (ix.JoinWager? && ix.wagerId == id && w'.opponent == ix.opponent))
            && (OpponentFits(w) ==> OpponentFits(w'))
  {
    if ix.JoinWager? && ix.wagerId == id {
      JoinEffect(l, ix);
    } else if !PaysOut(ix, id) {
      OthersUntouched(l, ix, id);
    }
  }

  /** The m-th transaction created the wager. */
  predicate CreatedBy(l: Ledger, ixs: seq<Instruction>, id: u64, m: nat) {
    && m < |ixs| && ixs[m].CreateWager? && ixs[m].wagerId == id && Step(Run(l, ixs[..m]), ixs[m]).Ok?
  }

  lemma CreatedEarlier(l: Ledger, ixs: seq<Instruction>, ix: Instruction, id: u64, m: nat)
    requires CreatedBy(l, ixs, id, m)
    ensures CreatedBy(l, ixs + [ix], id, m) && (ixs + [ix])[m] == ixs[m]
  {
    assert (ixs + [ix])[..m] == ixs[..m];
  }

  lemma OnlyCreated(l: Ledger, ix: Instruction, id: u64)
    requires Step(l, ix).Ok? && id !in l.wagers && id in Step(l, ix).value.wagers
    ensures ix.CreateWager? && ix.wagerId == id
  {
  }

  /** In every ledger of a run a wager has the terms of the call that created it, and its opponent, once there is
    * one, is not its maker, and is that call's challenger whenever the call named one.
    */
  lemma {:induction false} TermsOfCreation(l: Ledger, ixs: seq<Instruction>, id: u64) returns (m: nat)
    requires Valid(l) && id !in l.wagers && id in Run(l, ixs).wagers
    ensures CreatedBy(l, ixs, id, m)
    ensures HasTerms(l.config, Run(l, ixs).wagers[id], ixs[m]) && OpponentFits(Run(l, ixs).wagers[id])
    decreases |ixs|
  {
    var init, ix := ixs[..|ixs| - 1], ixs[|ixs| - 1];
    var before := Run(l, init);
    assert ixs == init + [ix];
    RunKeepsValid(l, init);
    if id in before.wagers {
      m := TermsOfCreation(l, init, id);
      CreatedEarlier(l, init, ix, id, m);
      if Step(before, ix).Ok? {
        TermsStand(before, ix, id);
      }
    } else {
      OnlyCreated(before, ix, id);
      CreateEffect(before, ix);
      m := |init|;
    }
  }

  /** The opponent of a wager has joined it by an accepted call of its own. */
  lemma {:induction false} OpponentJoined(l: Ledger, ixs: seq<Instruction>, id: u64) returns (m: nat)
    requires Valid(l) && id !in l.wagers && id in Run(l, ixs).wagers && Run(l, ixs).wagers[id].opponent != DEFAULT_KEY
    ensures m < |ixs| && ixs[m].JoinWager? && ixs[m].wagerId == id && Step(Run(l, ixs[..m]), ixs[m]).Ok?
    ensures Run(l, ixs).wagers[id].opponent == ixs[m].opponent
    decreases |ixs|
  {
    var init, ix := ixs[..|ixs| - 1], ixs[|ixs| - 1];
    var before := Run(l, init);
    if id !in before.wagers {
      OnlyCreated(before, ix, id);
      CreateEffect(before, ix);
    } else if before.wagers[id].opponent != Run(l, ixs).wagers[id].opponent {
      TermsStand(before, ix, id);
      m := |init|;
    } else {
      m := OpponentJoined(l, init, id);
      assert ixs[..m] == init[..m];
    }
  }

  // ----- Stakes paid in over runs -----

  predicate PaysIn(ix: Instruction, id: u64) {
    (ix.CreateWager? || ix.JoinWager?) && ix.wagerId == id
  }

  /** What a transaction that creates or joins a wager takes from a user's wallet in the wager's mint. */
  function TakenBy(l: Ledger, ix: Instruction, id: u64, user: Pubkey): int {
    if PaysIn(ix, id) && Step(l, ix).Ok? && id in Step(l, ix).value.wagers then
      var wallet := Wallet(user, Step(l, ix).value.wagers[id].tokenMint);
      BalanceOf(l.balances, wallet) - BalanceOf(Step(l, ix).value.balances, wallet)
    else 0
  }

  /** Everything a user has paid into one wager in a run. */
  function PaidIn(l: Ledger, ixs: seq<Instruction>, id: u64, user: Pubkey): int {
    if ixs == [] then 0
    else PaidIn(l, ixs[..|ixs| - 1], id, user) + TakenBy(Run(l, ixs[..|ixs| - 1]), ixs[|ixs| - 1], id, user)
  }

  /** One stake for each seat taken. */
  function StakesOf(l: Ledger, id: u64, user: Pubkey): int {
    if id !in l.wagers then 0
    else
      var w := l.wagers[id];
      (if user == w.maker then w.amount else 0)
      + (if w.opponent != DEFAULT_KEY && user == w.opponent then w.amount else 0)
  }

  lemma OpenHasNoOpponent(l: Ledger, id: u64)
    requires GoodAt(l, id) && l.wagers[id].status == OPEN
    ensures l.wagers[id].opponent == DEFAULT_KEY
  {
  }

  lemma StakesFollow(l: Ledger, ix: Instruction, id: u64, user: Pubkey)
    requires Step(l, ix).Ok? && (id in l.wagers ==> GoodAt(l, id))
    ensures StakesOf(Step(l, ix).value, id, user) == StakesOf(l, id, user) + TakenBy(l, ix, id, user)
  {
    if ix.CreateWager? && ix.wagerId == id {
      CreateEffect(l, ix);
    } else if ix.JoinWager? && ix.wagerId == id {
      JoinEffect(l, ix);
      OpenHasNoOpponent(l, id);
      assert ix.opponent != DEFAULT_KEY;
    } else if id in l.wagers {
      TermsStand(l, ix, id);
    } else if id in Step(l, ix).value.wagers {
      OnlyCreated(l, ix, id);
    }
  }

  /** In every run a player has paid one stake for each seat of a wager, out of the own wallet, and nobody else has
    * paid anything.
    */
  lemma {:induction false} PaidInIsStake(l: Ledger, ixs: seq<Instruction>, id: u64, user: Pubkey)
    requires Valid(l) && id !in l.wagers
    ensures PaidIn(l, ixs, id, user) == StakesOf(Run(l, ixs), id, user)
    decreases |ixs|
  {
    if ixs != [] {
      var before := Run(l, ixs[..|ixs| - 1]);
      PaidInIsStake(l, ixs[..|ixs| - 1], id, user);
      GoodThroughout(l, ixs[..|ixs| - 1], id);
      if Step(before, ixs[|ixs| - 1]).Ok? {
        StakesFollow(before, ixs[|ixs| - 1], id, user);
      }
    }
  }

  // ----- Access stakes over runs -----

  /** What a transaction other than a ban brings to a user's wallet while the user's stake vault shrinks. */
  function GotBackBy(l: Ledger, ix: Instruction, user: Pubkey): int {
    if Step(l, ix).Ok? && !ix.BanUser?
       && BalanceOf(Step(l, ix).value.balances, StakeVault(user)) < BalanceOf(l.balances, StakeVault(user))
    then
      var wallet := Wallet(user, l.config.tokenMint);
      BalanceOf(Step(l, ix).value.balances, wallet) - BalanceOf(l.balances, wallet)
    else 0
  }

  function GotBack(l: Ledger, ixs: seq<Instruction>, user: Pubkey): int {
    if ixs == [] then 0
    else GotBack(l, ixs[..|ixs| - 1], user) + GotBackBy(Run(l, ixs[..|ixs| - 1]), ixs[|ixs| - 1], user)
  }

  /** The amounts of a user's accepted stakings, or unstakings, in a run. */
  function StakingTotal(l: Ledger, ixs: seq<Instruction>, user: Pubkey, staking: bool): int {
    if ixs == [] then 0
    else
      var before, ix := Run(l, ixs[..|ixs| - 1]), ixs[|ixs| - 1];
      StakingTotal(l, ixs[..|ixs| - 1], user, staking)
      + (if (if staking then ix.StakeTokens? else ix.UnstakeTokens?) && ix.user == user && Step(before, ix).Ok?
         then ix.amount else 0)
  }

  lemma GotBackIsUnstaked(l: Ledger, ix: Instruction, user: Pubkey)
    requires Valid(l)
    ensures GotBackBy(l, ix, user)
         == if ix.UnstakeTokens? && ix.user == user && Step(l, ix).Ok? then ix.amount else 0
  {
    if Step(l, ix).Ok? {
      if ix.UnstakeTokens? && ix.user == user {
        UnstakeEffect(l, ix);
        UnstakeSucceedsIff(l, user, ix.amount);
      } else if GotBackBy(l, ix, user) != 0 {
        StakeLeavesOnlyBy(l, ix, user);
      }
    }
  }

  /** In every run a user's wallet has got back out of the stake vault exactly what the user's accepted unstakings
    * add up to.
    */
  lemma {:induction false} UnstakedIsGotBack(l: Ledger, ixs: seq<Instruction>, user: Pubkey)
    requires Valid(l)
    ensures GotBack(l, ixs, user) == StakingTotal(l, ixs, user, false)
    decreases |ixs|
  {
    if ixs != [] {
      UnstakedIsGotBack(l, ixs[..|ixs| - 1], user);
      RunKeepsValid(l, ixs[..|ixs| - 1]);
      GotBackIsUnstaked(Run(l, ixs[..|ixs| - 1]), ixs[|ixs| - 1], user);
    }
  }

  lemma StakedFollows(l: Ledger, ix: Instruction, user: Pubkey)
    requires Step(l, ix).Ok?
    ensures StakedBy(Step(l, ix).value, user)
         == if ix.StakeTokens? && ix.user == user then StakedBy(l, user) + ix.amount
            else if ix.UnstakeTokens? && ix.user == user then StakedBy(l, user) - ix.amount
            else if ix.BanUser? && ix.user == user then 0
            else StakedBy(l, user)
    ensures IsBanned(Step(l, ix).value, user) <==> IsBanned(l, user) || (ix.BanUser? && ix.user == user)
  {
    if ix.StakeTokens? && ix.user == user {
      StakeEffect(l, ix);
    } else if ix.UnstakeTokens? && ix.user == user {
      UnstakeEffect(l, ix);
    } else if ix.BanUser? && ix.user == user {
      BanEffect(l, ix);
    } else {
      StakesStand(l, ix, user);
    }
  }

  /** In every run a user who has not been banned has staked what was staked and not unstaked again. */
  lemma {:induction false} StakeAddsUp(l: Ledger, ixs: seq<Instruction>, user: Pubkey)
    requires !IsBanned(Run(l, ixs), user)
    ensures StakedBy(Run(l, ixs), user)
         == StakedBy(l, user) + StakingTotal(l, ixs, user, true) - StakingTotal(l, ixs, user, false)
    decreases |ixs|
  {
    if ixs != [] {
      var before, ix := Run(l, ixs[..|ixs| - 1]), ixs[|ixs| - 1];
      if Step(before, ix).Ok? {
        StakedFollows(before, ix, user);
      }
      StakeAddsUp(l, ixs[..|ixs| - 1], user);
    }
  }
}
