/** No stuck money: in a valid ledger every way out of an escrow or a stake vault succeeds exactly
  * when its plain guards hold; no arithmetic or balance check behind them can fail.
  */
module EscrowExits {
  import opened Basics
  import opened ProgramState
  import opened EscrowSpec
  import opened LedgerSums
  import opened EscrowInvariant
  import opened EscrowSteps
  import opened EscrowRuns

  /** The escrow of a loaded wager covers what is owed, and paying it out cannot overflow. */
  lemma EscrowPays(l: Ledger, asset: Asset, id: u64, to: Pubkey, amount: nat)
    requires Valid(l) && Loads(l, asset, id) && amount <= Owed(l.wagers[id])
    ensures Owed(l.wagers[id]) <= BalanceOf(l.balances, EscrowOf(asset, id)) <= U64_MAX
    ensures Move(l.balances, EscrowOf(asset, id), Wallet(to, MintOf(l.config, asset)), amount).Ok?
  {
    assert Surplus(l, EscrowOf(asset, id)) >= 0;
    MoveSucceeds(l.config, l.balances, EscrowOf(asset, id), Wallet(to, MintOf(l.config, asset)), amount);
  }

  lemma Slots(l: Ledger, id: u64)
    requires Valid(l) && id in l.wagers
    ensures HasStake(l.stakes, l.wagers[id].maker)
    ensures l.wagers[id].status == OPEN ==> Release(l.stakes, l.wagers[id].maker).Ok?
    ensures l.wagers[id].status == MATCHED ==>
              HasStake(l.stakes, l.wagers[id].opponent) && ReleaseBoth(l.stakes, l.wagers[id]).Ok?
  {
    var w := l.wagers[id];
    if w.status == OPEN {
      LiveHoldsSlot(l, id, w.maker);
    } else if w.status == MATCHED {
      LiveHoldsSlot(l, id, w.maker);
      LiveHoldsSlot(l, id, w.opponent);
    }
  }

  lemma CancelSucceedsIff(l: Ledger, asset: Asset, id: u64, maker: Pubkey)
    requires Valid(l)
    ensures var ix := CancelWager(asset, id, maker);
            Step(l, ix).Ok? <==> Loads(l, asset, id) && l.wagers[id].status == OPEN && l.wagers[id].maker == maker
    ensures Step(l, CancelWager(asset, id, maker)).Err? ==>
              Step(l, CancelWager(asset, id, maker)).error in {AccountConstraint, WagerNotOpen}
  {
    if Loads(l, asset, id) && l.wagers[id].status == OPEN {
      Slots(l, id);
      EscrowPays(l, asset, id, l.wagers[id].maker, l.wagers[id].amount);
    }
  }

  lemma DeclineSucceedsIff(l: Ledger, asset: Asset, id: u64, signer: Pubkey)
    requires Valid(l)
    ensures var ix := DeclineWager(asset, id, signer);
            Step(l, ix).Ok? <==>
              && signer != DEFAULT_KEY && signer == l.config.chainAuthority
              && Loads(l, asset, id) && l.wagers[id].status == OPEN && l.wagers[id].challenger != DEFAULT_KEY
    ensures Step(l, DeclineWager(asset, id, signer)).Err? ==>
              Step(l, DeclineWager(asset, id, signer)).error in {AccountConstraint, WagerNotOpen, WagerNotReserved}
  {
    if Loads(l, asset, id) && l.wagers[id].status == OPEN {
      Slots(l, id);
      EscrowPays(l, asset, id, l.wagers[id].maker, l.wagers[id].amount);
    }
  }

  lemma SettleCovered(l: Ledger, asset: Asset, id: u64, winner: Pubkey)
    requires Valid(l) && Loads(l, asset, id) && l.wagers[id].status == MATCHED
    requires l.wagers[id].payoutMode == WINNER_TAKE_ALL
    ensures LoadsSeated(l, asset, id) && ReleaseBoth(l.stakes, l.wagers[id]).Ok?
    ensures l.wagers[id].amount * 2 <= U64_MAX
    ensures Move(l.balances, EscrowOf(asset, id), Wallet(winner, l.wagers[id].tokenMint), l.wagers[id].amount * 2).Ok?
  {
    var w := l.wagers[id];
    Slots(l, id);
    assert Times(0, w.incrementValue) == 0;
    assert Owed(w) == w.amount * 2;
    EscrowPays(l, asset, id, winner, Owed(w));
  }

  predicate Settleable(l: Ledger, ix: Instruction)
    requires ix.SettleWager?
  {
    && ix.signer != DEFAULT_KEY && ix.signer == l.config.chainAuthority
    && Loads(l, ix.asset, ix.wagerId) && l.wagers[ix.wagerId].status == MATCHED
    && l.wagers[ix.wagerId].payoutMode == WINNER_TAKE_ALL && IsParticipant(l.wagers[ix.wagerId], ix.winner)
  }

  lemma SettleGuards(l: Ledger, ix: Instruction)
    requires ix.SettleWager?
    requires Loads(l, ix.asset, ix.wagerId) && l.wagers[ix.wagerId].status == MATCHED
             && l.wagers[ix.wagerId].payoutMode == WINNER_TAKE_ALL ==>
               && var w := l.wagers[ix.wagerId];
                  && LoadsSeated(l, ix.asset, ix.wagerId) && ReleaseBoth(l.stakes, w).Ok?
                  && w.amount * 2 <= U64_MAX
                  && Move(l.balances, EscrowOf(ix.asset, ix.wagerId), Wallet(ix.winner, w.tokenMint), w.amount * 2).Ok?
    ensures Step(l, ix).Ok? <==> Settleable(l, ix)
    ensures Step(l, ix).Err? ==>
              Step(l, ix).error in {AccountConstraint, WagerNotMatched, InvalidPayoutMode, InvalidWagerWinner}
  {
  }

  /** Doubling the stake never overflows: the escrow already holds both stakes. */
  lemma SettleSucceedsIff(l: Ledger, ix: Instruction)
    requires Valid(l) && ix.SettleWager?
    ensures Step(l, ix).Ok? <==> Settleable(l, ix)
    ensures Step(l, ix).Err? ==>
              Step(l, ix).error in {AccountConstraint, WagerNotMatched, InvalidPayoutMode, InvalidWagerWinner}
  {
    if Loads(l, ix.asset, ix.wagerId) && l.wagers[ix.wagerId].status == MATCHED
       && l.wagers[ix.wagerId].payoutMode == WINNER_TAKE_ALL {
      SettleCovered(l, ix.asset, ix.wagerId, ix.winner);
    }
    SettleGuards(l, ix);
  }

  /** Both reserves fit u64 together, and whatever an increment transfers the escrow can pay. */
  lemma ScoreCovered(l: Ledger, asset: Asset, id: u64, beneficiary: Pubkey, sequence: u32)
    requires Valid(l) && Loads(l, asset, id) && l.wagers[id].status == MATCHED
    ensures RecordOk(l.wagers[id]) && l.wagers[id].makerRemaining + l.wagers[id].opponentRemaining <= U64_MAX
    ensures LoadsSeated(l, asset, id) && ReleaseBoth(l.stakes, l.wagers[id]).Ok?
    ensures var paid := PayIncrement(l.wagers[id], beneficiary, sequence);
            paid.Ok? ==> Move(l.balances, EscrowOf(asset, id), Wallet(beneficiary, l.wagers[id].tokenMint),
                              paid.value.transferred).Ok?
  {
    var w := l.wagers[id];
    Slots(l, id);
    EscrowPays(l, asset, id, beneficiary, 0);
    if PayIncrement(w, beneficiary, sequence).Ok? {
      ScoreOwed(w, beneficiary, sequence);
      EscrowPays(l, asset, id, beneficiary, PayIncrement(w, beneficiary, sequence).value.transferred);
    }
  }

  predicate Scorable(l: Ledger, ix: Instruction)
    requires ix.SettleIncrement?
  {
    && ix.signer != DEFAULT_KEY && ix.signer == l.config.chainAuthority
    && Loads(l, ix.asset, ix.wagerId) && l.wagers[ix.wagerId].status == MATCHED
    && l.wagers[ix.wagerId].payoutMode == INCREMENTAL && IsParticipant(l.wagers[ix.wagerId], ix.beneficiary)
    && ix.sequence == l.wagers[ix.wagerId].makerScore + l.wagers[ix.wagerId].opponentScore + 1
  }

  lemma ScoreGuards(l: Ledger, ix: Instruction)
    requires ix.SettleIncrement?
    requires Loads(l, ix.asset, ix.wagerId) && l.wagers[ix.wagerId].status == MATCHED ==>
               && var w := l.wagers[ix.wagerId];
                  && RecordOk(w) && w.makerRemaining + w.opponentRemaining <= U64_MAX
                  && LoadsSeated(l, ix.asset, ix.wagerId) && ReleaseBoth(l.stakes, w).Ok?
                  && var paid := PayIncrement(w, ix.beneficiary, ix.sequence);
                     paid.Ok? ==> Move(l.balances, EscrowOf(ix.asset, ix.wagerId),
                                       Wallet(ix.beneficiary, w.tokenMint), paid.value.transferred).Ok?
    ensures Step(l, ix).Ok? <==> Scorable(l, ix)
    ensures Step(l, ix).Err? ==>
              && Step(l, ix).error in {AccountConstraint, WagerNotMatched, InvalidPayoutMode, InvalidWagerWinner,
                                       InvalidScoreSequence, MathOverflow}
              && (Step(l, ix).error == MathOverflow ==>
                    && ix.wagerId in l.wagers
                    && l.wagers[ix.wagerId].makerScore + l.wagers[ix.wagerId].opponentScore >= U32_MAX)
  {
  }

  /** An increment with the next sequence number is refused only when the scores are exhausted at
    * 2^32 - 1; the payout is positive and the final sweep fits u64 in every valid ledger.
    */
  lemma ScoreSucceedsIff(l: Ledger, ix: Instruction)
    requires Valid(l) && ix.SettleIncrement?
    ensures Step(l, ix).Ok? <==> Scorable(l, ix)
    ensures Step(l, ix).Err? ==>
              && Step(l, ix).error in {AccountConstraint, WagerNotMatched, InvalidPayoutMode, InvalidWagerWinner,
                                       InvalidScoreSequence, MathOverflow}
              && (Step(l, ix).error == MathOverflow ==>
                    && ix.wagerId in l.wagers
                    && l.wagers[ix.wagerId].makerScore + l.wagers[ix.wagerId].opponentScore >= U32_MAX)
  {
    if Loads(l, ix.asset, ix.wagerId) && l.wagers[ix.wagerId].status == MATCHED {
      ScoreCovered(l, ix.asset, ix.wagerId, ix.beneficiary, ix.sequence);
    }
    ScoreGuards(l, ix);
  }

  lemma TwoMovesSucceed(c: Config, b: Balances, from: Account, to1: Account, amount1: u64, to2: Account, amount2: u64)
    requires from != to1 && Denomination(c, from) == Denomination(c, to1)
    requires from != to2 && Denomination(c, from) == Denomination(c, to2)
    requires SupplyOk(c, b) && amount1 + amount2 <= BalanceOf(b, from)
    ensures Move(b, from, to1, amount1).Ok?
    ensures Move(Move(b, from, to1, amount1).value, from, to2, amount2).Ok?
  {
    MoveSucceeds(c, b, from, to1, amount1);
    var b' := Move(b, from, to1, amount1).value;
    MoveKeepsSupply(c, b, from, to1, amount1);
    SupplyFollows(c, b, b');
    MoveSucceeds(c, b', from, to2, amount2);
  }

  predicate Invalidatable(l: Ledger, ix: Instruction)
    requires ix.InvalidateWager?
  {
    && ix.signer != DEFAULT_KEY && (ix.signer == l.config.authority || ix.signer == l.config.chainAuthority)
    && Loads(l, ix.asset, ix.wagerId) && l.wagers[ix.wagerId].status == MATCHED
  }

  lemma InvalidateGuards(l: Ledger, ix: Instruction)
    requires ix.InvalidateWager?
    requires Loads(l, ix.asset, ix.wagerId) && l.wagers[ix.wagerId].status == MATCHED ==>
               && var w := l.wagers[ix.wagerId];
                  && LoadsSeated(l, ix.asset, ix.wagerId) && ReleaseBoth(l.stakes, w).Ok?
                  && var escrow := EscrowOf(ix.asset, ix.wagerId);
                     var b := Move(l.balances, escrow, Wallet(w.maker, w.tokenMint), w.makerRemaining);
                     b.Ok? && Move(b.value, escrow, Wallet(w.opponent, w.tokenMint), w.opponentRemaining).Ok?
    ensures Step(l, ix).Ok? <==> Invalidatable(l, ix)
    ensures Step(l, ix).Err? ==> Step(l, ix).error in {AccountConstraint, Unauthorized, WagerNotMatched}
  {
  }

  /** Both refunds of a matched wager go through. */
  lemma InvalidateCovered(l: Ledger, asset: Asset, id: u64)
    requires Valid(l) && Loads(l, asset, id) && l.wagers[id].status == MATCHED
    ensures LoadsSeated(l, asset, id) && ReleaseBoth(l.stakes, l.wagers[id]).Ok?
    ensures var w := l.wagers[id];
            var b := Move(l.balances, EscrowOf(asset, id), Wallet(w.maker, w.tokenMint), w.makerRemaining);
            b.Ok? && Move(b.value, EscrowOf(asset, id), Wallet(w.opponent, w.tokenMint), w.opponentRemaining).Ok?
  {
    var w := l.wagers[id];
    Slots(l, id);
    EscrowPays(l, asset, id, w.maker, Owed(w));
    TwoMovesSucceed(l.config, l.balances, EscrowOf(asset, id), Wallet(w.maker, w.tokenMint), w.makerRemaining,
                    Wallet(w.opponent, w.tokenMint), w.opponentRemaining);
  }

  lemma InvalidateSucceedsIff(l: Ledger, ix: Instruction)
    requires Valid(l) && ix.InvalidateWager?
    ensures Step(l, ix).Ok? <==> Invalidatable(l, ix)
    ensures Step(l, ix).Err? ==> Step(l, ix).error in {AccountConstraint, Unauthorized, WagerNotMatched}
  {
    if Loads(l, ix.asset, ix.wagerId) && l.wagers[ix.wagerId].status == MATCHED {
      InvalidateCovered(l, ix.asset, ix.wagerId);
    }
    InvalidateGuards(l, ix);
  }

  /** The status of a wager, or CANCELLED where there is none. */
  function StatusAt(l: Ledger, id: u64): u8 {
    if id in l.wagers then l.wagers[id].status else CANCELLED
  }

  /** Whichever transaction ends a wager pays out all that was owed: its escrow keeps only the surplus
    * that outsiders had sent there.
    */
  lemma EndingDrains(l: Ledger, ix: Instruction, asset: Asset, id: u64)
    requires Valid(l) && Loads(l, asset, id) && Step(l, ix).Ok?
    requires StatusAt(Step(l, ix).value, id) in {SETTLED, CANCELLED}
    ensures BalanceOf(Step(l, ix).value.balances, EscrowOf(asset, id))
         == Surplus(l, EscrowOf(asset, id)) + Gift(ix, EscrowOf(asset, id))
  {
    StepKeeps(l, ix);
    FinishedOwesNothing(Step(l, ix).value, asset, id);
  }

  lemma FinishedOwesNothing(l: Ledger, asset: Asset, id: u64)
    requires StatusAt(l, id) in {SETTLED, CANCELLED}
    ensures Surplus(l, EscrowOf(asset, id)) == BalanceOf(l.balances, EscrowOf(asset, id))
  {
  }

  // ----- Access stakes -----

  lemma UnstakeSucceedsIff(l: Ledger, user: Pubkey, amount: u64)
    requires Valid(l)
    ensures Step(l, UnstakeTokens(user, amount)).Ok? <==>
              user in l.stakes && 0 < amount <= l.stakes[user].amount && LiveWagers(l.wagers, user) == {}
    ensures Step(l, UnstakeTokens(user, amount)).Err? ==>
              Step(l, UnstakeTokens(user, amount)).error
                in {AccountConstraint, UserBanned, ActiveWagers, InvalidWagerAmount, InsufficientStake}
  {
    assert Surplus(l, StakeVault(user)) >= 0;
    if user in l.stakes {
      assert user != DEFAULT_KEY;
      CountsLive(l.wagers, l.stakes, user);
      if 0 < amount <= l.stakes[user].amount {
        MoveSucceeds(l.config, l.balances, StakeVault(user), Wallet(user, l.config.tokenMint), amount);
      }
    }
  }

  /** A ban needs the stake vault to exist, so a player who never staked cannot be banned. */
  lemma BanSucceedsIff(l: Ledger, user: Pubkey, treasury: Pubkey, signer: Pubkey)
    requires Valid(l)
    ensures Step(l, BanUser(user, treasury, signer)).Ok? <==>
              && signer != DEFAULT_KEY && signer == l.config.authority
              && user in l.stakes && StakeVault(user) in l.balances
    ensures Step(l, BanUser(user, treasury, signer)).Err? ==>
              Step(l, BanUser(user, treasury, signer)).error == AccountConstraint
  {
    if user in l.stakes {
      assert Surplus(l, StakeVault(user)) >= 0;
      MoveSucceeds(l.config, l.balances, StakeVault(user), Wallet(treasury, l.config.tokenMint), l.stakes[user].amount);
    }
  }

  /** Such a player: with staking off anybody with the money can create a wager, and then has a stake account but
    * no stake vault, so the authority's ban fails.
    */
  lemma UnstakedCannotBeBanned(l: Ledger, ix: Instruction, treasury: Pubkey)
    requires Genesis(l) && !l.config.stakingEnabled && l.config.authority != DEFAULT_KEY
    requires ix.CreateWager? && ix.maker != DEFAULT_KEY
    requires WagerTerms(ix.amount, ix.payoutMode, ix.incrementValue).Pass?
    requires ix.amount <= BalanceOf(l.balances, Wallet(ix.maker, MintOf(l.config, ix.asset)))
    ensures var played := Run(l, [ix]);
            && ix.wagerId in played.wagers && ix.maker in played.stakes && StakeVault(ix.maker) !in played.balances
            && Step(played, BanUser(ix.maker, treasury, l.config.authority)) == Err(AccountConstraint)
  {
    GenesisValid(l);
    CreateSucceedsIff(l, ix);
    assert [ix][..0] == [];
    assert Run(l, [ix]) == Step(l, ix).value;
    CreatedStake(l, ix);
  }

  lemma CreatedStake(l: Ledger, ix: Instruction)
    requires ix.CreateWager? && Step(l, ix).Ok? && StakeVault(ix.maker) !in l.balances
    ensures var l' := Step(l, ix).value;
            && l'.config == l.config && ix.wagerId in l'.wagers && ix.maker in l'.stakes
            && StakeVault(ix.maker) !in l'.balances
  {
  }

  /** Only unstaking and bans lower a staked amount. */
  lemma AmountsStand(l: Ledger, ix: Instruction, user: Pubkey)
    requires Step(l, ix).Ok? && user in l.stakes
    requires !((ix.UnstakeTokens? || ix.BanUser?) && ix.user == user)
    ensures user in Step(l, ix).value.stakes
    ensures Step(l, ix).value.stakes[user].amount >= l.stakes[user].amount
  {
  }

  function StakedBy(l: Ledger, user: Pubkey): nat {
    if user in l.stakes then l.stakes[user].amount else 0
  }

  lemma SurplusFollows(l: Ledger, ix: Instruction, a: Account)
    requires Valid(l) && Step(l, ix).Ok? && Custodial(a)
    ensures Surplus(Step(l, ix).value, a) == Surplus(l, a) + Gift(ix, a)
  {
    StepKeeps(l, ix);
  }

  /** Staked tokens leave a vault only by its owner with no live wager, or by a ban. */
  lemma StakeLeavesOnlyBy(l: Ledger, ix: Instruction, user: Pubkey)
    requires Valid(l) && Step(l, ix).Ok?
    requires BalanceOf(Step(l, ix).value.balances, StakeVault(user)) < BalanceOf(l.balances, StakeVault(user))
    ensures || (ix.UnstakeTokens? && ix.user == user && LiveWagers(l.wagers, user) == {})
            || (ix.BanUser? && ix.user == user && ix.signer == l.config.authority)
  {
    SurplusFollows(l, ix, StakeVault(user));
    if ix.UnstakeTokens? && ix.user == user {
      UnstakeSucceedsIff(l, user, ix.amount);
    } else if ix.BanUser? && ix.user == user {
      BanSucceedsIff(l, user, ix.treasury, ix.signer);
    } else if user in l.stakes {
      AmountsStand(l, ix, user);
    }
  }

  // ----- Entering -----

  /** The guards of a player who wants to play, other than money. */
  predicate MayPlay(l: Ledger, user: Pubkey) {
    && user != DEFAULT_KEY && ActiveOf(l.stakes, user) < U32_MAX
    && WagerAccess(l.config, ClaimedStake(l.stakes, user)).Pass?
  }

  lemma StakeClaimed(l: Ledger, user: Pubkey)
    requires Valid(l)
    ensures StakeFor(l.stakes, user) == Ok(ClaimedStake(l.stakes, user))
    ensures ClaimedStake(l.stakes, user).activeWagers == ActiveOf(l.stakes, user)
  {
  }

  lemma CreateGuards(l: Ledger, ix: Instruction)
    requires ix.CreateWager?
    requires StakeFor(l.stakes, ix.maker) == Ok(ClaimedStake(l.stakes, ix.maker))
    requires ClaimedStake(l.stakes, ix.maker).activeWagers == ActiveOf(l.stakes, ix.maker)
    requires var payer := Wallet(ix.maker, MintOf(l.config, ix.asset));
             Move(l.balances, payer, EscrowOf(ix.asset, ix.wagerId), ix.amount).Ok?
             <==> ix.amount <= BalanceOf(l.balances, payer)
    ensures Step(l, ix).Ok? <==>
              && ix.wagerId !in l.wagers && MayPlay(l, ix.maker)
              && WagerTerms(ix.amount, ix.payoutMode, ix.incrementValue).Pass?
              && ix.amount <= BalanceOf(l.balances, Wallet(ix.maker, MintOf(l.config, ix.asset)))
  {
  }

  /** A wager can be created exactly when its id is new, the terms are valid, and the maker may play and has
    * the money.
    */
  lemma CreateSucceedsIff(l: Ledger, ix: Instruction)
    requires Valid(l) && ix.CreateWager?
    ensures Step(l, ix).Ok? <==>
              && ix.wagerId !in l.wagers && MayPlay(l, ix.maker)
              && WagerTerms(ix.amount, ix.payoutMode, ix.incrementValue).Pass?
              && ix.amount <= BalanceOf(l.balances, Wallet(ix.maker, MintOf(l.config, ix.asset)))
  {
    StakeClaimed(l, ix.maker);
    PayerFails(l, Wallet(ix.maker, MintOf(l.config, ix.asset)), EscrowOf(ix.asset, ix.wagerId), ix.amount);
    CreateGuards(l, ix);
  }

  /** The wager is open to this opponent. */
  predicate Joinable(l: Ledger, ix: Instruction)
    requires ix.JoinWager?
  {
    && Loads(l, ix.asset, ix.wagerId)
    && var w := l.wagers[ix.wagerId];
       && w.status == OPEN && w.maker != ix.opponent && w.challenger in {DEFAULT_KEY, ix.opponent}
       && w.amount <= BalanceOf(l.balances, Wallet(ix.opponent, MintOf(l.config, ix.asset)))
  }

  lemma JoinGuards(l: Ledger, ix: Instruction)
    requires ix.JoinWager?
    requires StakeFor(l.stakes, ix.opponent) == Ok(ClaimedStake(l.stakes, ix.opponent))
    requires ClaimedStake(l.stakes, ix.opponent).activeWagers == ActiveOf(l.stakes, ix.opponent)
    requires Loads(l, ix.asset, ix.wagerId) ==>
               var payer, amount := Wallet(ix.opponent, MintOf(l.config, ix.asset)), l.wagers[ix.wagerId].amount;
               Move(l.balances, payer, EscrowOf(ix.asset, ix.wagerId), amount).Ok?
               <==> amount <= BalanceOf(l.balances, payer)
    ensures Step(l, ix).Ok? <==> Joinable(l, ix) && MayPlay(l, ix.opponent)
  {
  }

  lemma JoinSucceedsIff(l: Ledger, ix: Instruction)
    requires Valid(l) && ix.JoinWager?
    ensures Step(l, ix).Ok? <==> Joinable(l, ix) && MayPlay(l, ix.opponent)
  {
    StakeClaimed(l, ix.opponent);
    if Loads(l, ix.asset, ix.wagerId) {
      PayerFails(l, Wallet(ix.opponent, MintOf(l.config, ix.asset)), EscrowOf(ix.asset, ix.wagerId),
                 l.wagers[ix.wagerId].amount);
    }
    JoinGuards(l, ix);
  }

  // ----- Why a transaction can fail -----

  /** Only a payer's own wallet can lack money, no balance ever overflows, and checked arithmetic
    * fails only at the 2^32 - 1 limits of a user's slots or of a wager's scores.
    */
  lemma OnlyTheseFailures(l: Ledger, ix: Instruction)
    requires Valid(l) && Step(l, ix).Err?
    ensures Step(l, ix).error != BalanceOverflow
    ensures Step(l, ix).error == InsufficientFunds ==>
              ix.CreateWager? || ix.JoinWager? || ix.StakeTokens? || ix.Deposit?
    ensures Step(l, ix).error == MathOverflow ==>
              || (ix.CreateWager? && ActiveOf(l.stakes, ix.maker) == U32_MAX)
              || (ix.JoinWager? && ActiveOf(l.stakes, ix.opponent) == U32_MAX)
              || (ix.SettleIncrement? && ix.wagerId in l.wagers
                  && l.wagers[ix.wagerId].makerScore + l.wagers[ix.wagerId].opponentScore >= U32_MAX)
  {
    match ix
    case CancelWager(asset, id, maker) => CancelSucceedsIff(l, asset, id, maker);
    case DeclineWager(asset, id, signer) => DeclineSucceedsIff(l, asset, id, signer);
    case SettleWager(_, _, _, _) => SettleSucceedsIff(l, ix);
    case SettleIncrement(_, _, _, _, _) => ScoreSucceedsIff(l, ix);
    case InvalidateWager(_, _, _) => InvalidateSucceedsIff(l, ix);
    case UnstakeTokens(user, amount) => UnstakeSucceedsIff(l, user, amount);
    case BanUser(user, treasury, signer) => BanSucceedsIff(l, user, treasury, signer);
    case CreateWager(_, _, _, _, _, _, _, _) => CreateEntry(l, ix);
    case JoinWager(_, _, _) => JoinEntry(l, ix);
    case StakeTokens(_, _) => StakeEntry(l, ix);
    case Deposit(_, _, _) => DepositEntry(l, ix);
    case UpdateConfig(_, _, _, _, _) =>
  }

  /** How a transfer into custody can fail. */
  predicate PayerOnly(b: Balances, from: Account, to: Account, amount: u64)
    requires from != to
  {
    Move(b, from, to, amount).Err? ==> Move(b, from, to, amount).error == InsufficientFunds
  }

  /** What creating, joining, staking and depositing can fail with. */
  predicate EntryError(l: Ledger, ix: Instruction, e: Error) {
    && e != BalanceOverflow
    && (e == MathOverflow ==>
          || (ix.CreateWager? && ActiveOf(l.stakes, ix.maker) == U32_MAX)
          || (ix.JoinWager? && ActiveOf(l.stakes, ix.opponent) == U32_MAX))
  }

  lemma CreateEntry(l: Ledger, ix: Instruction)
    requires Valid(l) && ix.CreateWager? && Step(l, ix).Err?
    ensures EntryError(l, ix, Step(l, ix).error)
  {
    PayerFails(l, Wallet(ix.maker, MintOf(l.config, ix.asset)), EscrowOf(ix.asset, ix.wagerId), ix.amount);
    CreateFails(l, ix);
  }

  lemma JoinEntry(l: Ledger, ix: Instruction)
    requires Valid(l) && ix.JoinWager? && Step(l, ix).Err?
    ensures EntryError(l, ix, Step(l, ix).error)
  {
    if Loads(l, ix.asset, ix.wagerId) {
      PayerFails(l, Wallet(ix.opponent, MintOf(l.config, ix.asset)), EscrowOf(ix.asset, ix.wagerId),
                 l.wagers[ix.wagerId].amount);
    }
    JoinFails(l, ix);
  }

  lemma StakeEntry(l: Ledger, ix: Instruction)
    requires Valid(l) && ix.StakeTokens? && Step(l, ix).Err?
    ensures EntryError(l, ix, Step(l, ix).error)
  {
    PayerFails(l, Wallet(ix.user, l.config.tokenMint), StakeVault(ix.user), ix.amount);
    StakeFits(l, ix.user, ix.amount);
    StakeFails(l, ix);
  }

  lemma DepositEntry(l: Ledger, ix: Instruction)
    requires Valid(l) && ix.Deposit? && Step(l, ix).Err?
    ensures EntryError(l, ix, Step(l, ix).error)
  {
    if Wallet(ix.from, Denomination(l.config, ix.to)) != ix.to {
      PayerFails(l, Wallet(ix.from, Denomination(l.config, ix.to)), ix.to, ix.amount);
    }
  }

  lemma CreateFails(l: Ledger, ix: Instruction)
    requires ix.CreateWager? && Step(l, ix).Err?
    requires PayerOnly(l.balances, Wallet(ix.maker, MintOf(l.config, ix.asset)), EscrowOf(ix.asset, ix.wagerId),
                       ix.amount)
    ensures Step(l, ix).error != BalanceOverflow
    ensures Step(l, ix).error == MathOverflow ==> ActiveOf(l.stakes, ix.maker) == U32_MAX
  {
  }

  lemma JoinFails(l: Ledger, ix: Instruction)
    requires ix.JoinWager? && Step(l, ix).Err?
    requires Loads(l, ix.asset, ix.wagerId) ==>
               PayerOnly(l.balances, Wallet(ix.opponent, MintOf(l.config, ix.asset)),
                         EscrowOf(ix.asset, ix.wagerId), l.wagers[ix.wagerId].amount)
    ensures Step(l, ix).error != BalanceOverflow
    ensures Step(l, ix).error == MathOverflow ==> ActiveOf(l.stakes, ix.opponent) == U32_MAX
  {
  }

  lemma StakeFails(l: Ledger, ix: Instruction)
    requires ix.StakeTokens? && Step(l, ix).Err?
    requires PayerOnly(l.balances, Wallet(ix.user, l.config.tokenMint), StakeVault(ix.user), ix.amount)
    requires ix.amount <= BalanceOf(l.balances, Wallet(ix.user, l.config.tokenMint)) ==>
               StakedBy(l, ix.user) + ix.amount <= U64_MAX
    ensures Step(l, ix).error != BalanceOverflow && Step(l, ix).error != MathOverflow
  {
  }

  lemma PayerFails(l: Ledger, from: Account, to: Account, amount: u64)
    requires Valid(l) && from != to && Denomination(l.config, from) == Denomination(l.config, to)
    ensures Move(l.balances, from, to, amount).Ok? <==> amount <= BalanceOf(l.balances, from)
    ensures PayerOnly(l.balances, from, to, amount)
  {
    if amount <= BalanceOf(l.balances, from) {
      MoveSucceeds(l.config, l.balances, from, to, amount);
    }
  }

  /** A staked amount never overflows: the vault already holds it, and supply fits u64. */
  lemma StakeFits(l: Ledger, user: Pubkey, amount: u64)
    requires Valid(l)
    ensures amount <= BalanceOf(l.balances, Wallet(user, l.config.tokenMint)) ==>
              StakedBy(l, user) + amount <= U64_MAX
  {
    PairWithinTotal(l.config, l.balances, Wallet(user, l.config.tokenMint), StakeVault(user));
    assert Surplus(l, StakeVault(user)) >= 0;
  }
}
