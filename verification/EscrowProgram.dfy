/** The instruction handlers, in place on the program's accounts, for native SOL and for USDC.
  *
  * A handler loads its accounts, works on local copies, and writes them back when it succeeds, as
  * Anchor does. Execute is the runtime: it rolls a failed transaction back. Both families of handlers
  * are proved against the same wager machine.
  */
module EscrowProgram {
  import opened Basics
  import opened ProgramState
  import opened EscrowSpec
  import opened EscrowInvariant
  import opened EscrowSteps
  import opened EscrowRuns

  function CheckedAdd32(a: u32, b: u32): Result<u32, Error> {
    if a + b <= U32_MAX then Ok(a + b) else Err(MathOverflow)
  }

  function CheckedSub32(a: u32, b: u32): Result<u32, Error> {
    if a >= b then Ok(a - b) else Err(MathOverflow)
  }

  function CheckedAdd64(a: u64, b: u64): Result<u64, Error> {
    if a + b <= U64_MAX then Ok(a + b) else Err(MathOverflow)
  }

  function CheckedMul64(a: u64, b: u64): Result<u64, Error> {
    if a * b <= U64_MAX then Ok(a * b) else Err(MathOverflow)
  }

  /** What a handler promises: on success the specified ledger, on failure the specified error. */
  predicate Performs(before: Ledger, ix: Instruction, r: Result<(), Error>, after: Ledger) {
    match Step(before, ix)
    case Ok(l) => r.Ok? && after == l
    case Err(e) => r == Err(e)
  }

  predicate ConcernsWager(ix: Instruction) {
    || ix.CreateWager? || ix.JoinWager? || ix.CancelWager? || ix.DeclineWager? || ix.SettleWager?
    || ix.SettleIncrement? || ix.InvalidateWager?
  }

  /** Only create_wager makes a vault, so a wager has one exactly when it is escrowed in USDC. The USDC
    * handlers rely on this: they look for the vault and never read the wager's mint.
    */
  predicate VaultAgrees(l: Ledger, wagerId: u64) {
    WagerVault(wagerId) in l.balances <==> wagerId in l.wagers && l.wagers[wagerId].tokenMint == l.config.usdcMint
  }

  predicate ReservesPositive(l: Ledger, wagerId: u64) {
    wagerId in l.wagers && l.wagers[wagerId].status == MATCHED ==>
      l.wagers[wagerId].makerRemaining > 0 && l.wagers[wagerId].opponentRemaining > 0
  }

  lemma ValidAt(l: Ledger, wagerId: u64)
    requires Valid(l)
    ensures VaultAgrees(l, wagerId) && ReservesPositive(l, wagerId)
  {
  }

  class Program {
    var config: Config
    var wagers: Wagers
    var stakes: Stakes
    var balances: Balances

    function State(): Ledger
      reads this
    {
      Ledger(config, wagers, stakes, balances)
    }

    /** initialize_config, on a chain that so far only holds wallets. */
    constructor InitializeConfig(authority: Pubkey, chainAuthority: Pubkey, tokenMint: Pubkey, usdcMint: Pubkey,
                                 requiredStake: u64, stakingEnabled: bool, wallets: Balances)
      requires !stakingEnabled || requiredStake > 0
      requires tokenMint != DEFAULT_KEY && usdcMint != DEFAULT_KEY
      requires forall a :: a in wallets ==> a.Wallet?
      requires SupplyOk(Config(authority, chainAuthority, tokenMint, usdcMint, requiredStake, stakingEnabled), wallets)
      ensures Genesis(State()) && balances == wallets
      ensures config == Config(authority, chainAuthority, tokenMint, usdcMint, requiredStake, stakingEnabled)
    {
      config := Config(authority, chainAuthority, tokenMint, usdcMint, requiredStake, stakingEnabled);
      wagers, stakes, balances := map[], map[], wallets;
    }

    /** initialize_config with its check. */
    static method Initialize(authority: Pubkey, chainAuthority: Pubkey, tokenMint: Pubkey, usdcMint: Pubkey,
                             requiredStake: u64, stakingEnabled: bool, wallets: Balances)
      returns (r: Result<Program, Error>)
      requires tokenMint != DEFAULT_KEY && usdcMint != DEFAULT_KEY
      requires forall a :: a in wallets ==> a.Wallet?
      requires SupplyOk(Config(authority, chainAuthority, tokenMint, usdcMint, requiredStake, stakingEnabled), wallets)
      ensures r.Err? <==> stakingEnabled && requiredStake == 0
      ensures r.Err? ==> r.error == InvalidWagerAmount
      ensures r.Ok? ==> fresh(r.value) && Genesis(r.value.State()) && r.value.balances == wallets
      ensures r.Ok? ==> r.value.config == Config(authority, chainAuthority, tokenMint, usdcMint, requiredStake,
                                                 stakingEnabled)
    {
      if stakingEnabled && requiredStake == 0 {
        return Err(InvalidWagerAmount);
      }
      var program := new Program.InitializeConfig(authority, chainAuthority, tokenMint, usdcMint, requiredStake,
                                                  stakingEnabled, wallets);
      return Ok(program);
    }

    // ----- Transfers -----

    /** token::transfer and system_program::transfer. */
    method Transfer(from: Account, to: Account, amount: u64) returns (r: Check<Error>)
      requires from != to
      modifies this`balances
      ensures match Move(old(balances), from, to, amount)
              case Ok(b) => r == Pass && balances == b
              case Err(e) => r == Fail(e)
    {
      if BalanceOf(balances, from) < amount {
        return Fail(InsufficientFunds);
      }
      if BalanceOf(balances, to) + amount > U64_MAX {
        return Fail(BalanceOverflow);
      }
      balances := balances[from := BalanceOf(balances, from) - amount];
      balances := balances[to := BalanceOf(balances, to) + amount];
      return Pass;
    }

    /** sub_lamports on one account followed by add_lamports on another. */
    method MoveLamports(from: Account, to: Account, amount: u64) returns (r: Check<Error>)
      requires from != to
      modifies this`balances
      ensures match Move(old(balances), from, to, amount)
              case Ok(b) => r == Pass && balances == b
              case Err(e) => r == Fail(e)
    {
      r := SubLamports(from, amount);
      if r.Fail? {
        return;
      }
      r := AddLamports(to, amount);
    }

    method SubLamports(from: Account, amount: u64) returns (r: Check<Error>)
      modifies this`balances
      ensures r == if amount <= BalanceOf(old(balances), from) then Pass else Fail(InsufficientFunds)
      ensures r == Pass ==> balances == old(balances)[from := BalanceOf(old(balances), from) - amount]
    {
      if BalanceOf(balances, from) < amount {
        return Fail(InsufficientFunds);
      }
      balances := balances[from := BalanceOf(balances, from) - amount];
      return Pass;
    }

    method AddLamports(to: Account, amount: u64) returns (r: Check<Error>)
      modifies this`balances
      ensures r == if BalanceOf(old(balances), to) + amount <= U64_MAX then Pass else Fail(BalanceOverflow)
      ensures r == Pass ==> balances == old(balances)[to := BalanceOf(old(balances), to) + amount]
    {
      if BalanceOf(balances, to) + amount > U64_MAX {
        return Fail(BalanceOverflow);
      }
      balances := balances[to := BalanceOf(balances, to) + amount];
      return Pass;
    }

    // ----- Accounts -----

    /** The stake account a handler works on, created empty where there is none. */
    method InitStakeIfNeeded(user: Pubkey) returns (r: Result<UserStake, Error>)
      ensures r == if user !in stakes then Ok(NEW_STAKE)
                   else if stakes[user].owner in {DEFAULT_KEY, user} then Ok(stakes[user])
                   else Err(AccountConstraint)
    {
      if user !in stakes {
        return Ok(NEW_STAKE);
      }
      :- Need(stakes[user].owner == DEFAULT_KEY || stakes[user].owner == user, AccountConstraint);
      return Ok(stakes[user]);
    }

    /** validate_wager_terms, with incremental payouts supported. */
    method ValidateWagerTerms(amount: u64, payoutMode: u8, incrementValue: u64) returns (r: Check<Error>)
      ensures r == WagerTerms(amount, payoutMode, incrementValue)
    {
      if !(amount > 0) {
        return Fail(InvalidWagerAmount);
      }
      if !(payoutMode == WINNER_TAKE_ALL || payoutMode == INCREMENTAL) {
        return Fail(InvalidPayoutMode);
      }
      if !((payoutMode == WINNER_TAKE_ALL && incrementValue == 0)
        || (payoutMode == INCREMENTAL && incrementValue > 0 && incrementValue <= amount)) {
        return Fail(InvalidIncrementValue);
      }
      return Pass;
    }

    /** require_wager_access: claims an unowned stake account and checks the player's standing. */
    method RequireWagerAccess(loaded: UserStake, owner: Pubkey) returns (r: Result<UserStake, Error>)
      requires loaded.owner in {DEFAULT_KEY, owner}
      ensures match WagerAccess(config, loaded.(owner := owner))
              case Pass => r == Ok(loaded.(owner := owner))
              case Fail(e) => r == Err(e)
    {
      var stake := loaded;
      if stake.owner == DEFAULT_KEY {
        stake := stake.(owner := owner);
      }
      :- Need(!stake.banned, UserBanned);
      :- Need(!config.stakingEnabled || stake.amount >= config.requiredStake, StakeRequired);
      return Ok(stake);
    }

    /** increment_active_wagers. */
    method IncrementActiveWagers(loaded: UserStake) returns (r: Result<UserStake, Error>)
      ensures r == if loaded.activeWagers < U32_MAX then Ok(loaded.(activeWagers := loaded.activeWagers + 1))
                   else Err(MathOverflow)
    {
      var active :- CheckedAdd32(loaded.activeWagers, 1);
      return Ok(loaded.(activeWagers := active));
    }

    /** validate_join. */
    method ValidateJoin(wager: Wager, opponent: Pubkey, loaded: UserStake) returns (r: Result<UserStake, Error>)
      requires loaded.owner in {DEFAULT_KEY, opponent}
      ensures r == if wager.status != OPEN then Err(WagerNotOpen)
                   else if wager.maker == opponent then Err(InvalidWagerParticipants)
                   else if wager.challenger != DEFAULT_KEY && wager.challenger != opponent then Err(WagerReserved)
                   else match WagerAccess(config, loaded.(owner := opponent))
                        case Pass => Ok(loaded.(owner := opponent))
                        case Fail(e) => Err(e)
    {
      if wager.status != OPEN {
        return Err(WagerNotOpen);
      }
      :- Need(wager.maker != opponent, InvalidWagerParticipants);
      :- Need(wager.challenger == DEFAULT_KEY || wager.challenger == opponent, WagerReserved);
      r := RequireWagerAccess(loaded, opponent);
    }

    /** The wager and the stake accounts of both its participants. */
    method LoadSeated(wagerId: u64) returns (r: Result<(Wager, UserStake, UserStake), Error>)
      ensures wagerId in wagers && wagers[wagerId].maker in stakes && wagers[wagerId].opponent in stakes
              && stakes[wagers[wagerId].maker].owner == wagers[wagerId].maker
              && stakes[wagers[wagerId].opponent].owner == wagers[wagerId].opponent
              <==> r.Ok?
      ensures r.Err? ==> r.error == AccountConstraint
      ensures r.Ok? ==> r.value == (wagers[wagerId], stakes[wagers[wagerId].maker], stakes[wagers[wagerId].opponent])
    {
      if wagerId !in wagers {
        return Err(AccountConstraint);
      }
      var wager := wagers[wagerId];
      :- Need(wager.maker in stakes && stakes[wager.maker].owner == wager.maker, AccountConstraint);
      :- Need(wager.opponent in stakes && stakes[wager.opponent].owner == wager.opponent, AccountConstraint);
      return Ok((wager, stakes[wager.maker], stakes[wager.opponent]));
    }

    /** Writes the wager and both stake accounts back. */
    method Exit(wagerId: u64, wager: Wager, makerStake: UserStake, opponentStake: UserStake)
      modifies this`wagers, this`stakes
      ensures wagers == old(wagers)[wagerId := wager]
      ensures stakes == old(stakes)[wager.maker := makerStake][wager.opponent := opponentStake]
    {
      wagers := wagers[wagerId := wager];
      stakes := stakes[wager.maker := makerStake];
      stakes := stakes[wager.opponent := opponentStake];
    }

    /** Gives both participants their active slot back. */
    method ReleaseSlots(makerLoaded: UserStake, opponentLoaded: UserStake)
      returns (r: Result<(UserStake, UserStake), Error>)
      ensures makerLoaded.activeWagers > 0 && opponentLoaded.activeWagers > 0 ==>
                r == Ok((makerLoaded.(activeWagers := makerLoaded.activeWagers - 1),
                         opponentLoaded.(activeWagers := opponentLoaded.activeWagers - 1)))
      ensures makerLoaded.activeWagers == 0 || opponentLoaded.activeWagers == 0 ==> r == Err(MathOverflow)
    {
      var makerActive :- CheckedSub32(makerLoaded.activeWagers, 1);
      var opponentActive :- CheckedSub32(opponentLoaded.activeWagers, 1);
      return Ok((makerLoaded.(activeWagers := makerActive), opponentLoaded.(activeWagers := opponentActive)));
    }

    /** The end of a wager: both slots are given back and everything is written. */
    method ReleaseAndExit(wagerId: u64, wager: Wager, makerLoaded: UserStake, opponentLoaded: UserStake)
      returns (r: Result<(), Error>)
      requires wager.maker in stakes && wager.opponent in stakes
      requires makerLoaded == stakes[wager.maker] && opponentLoaded == stakes[wager.opponent]
      modifies this`wagers, this`stakes
      ensures match ReleaseBoth(old(stakes), wager)
              case Ok(s) => r.Ok? && stakes == s && wagers == old(wagers)[wagerId := wager]
              case Err(e) => r == Err(e)
    {
      var released :- ReleaseSlots(makerLoaded, opponentLoaded);
      var (makerStake, opponentStake) := released;
      Exit(wagerId, wager, makerStake, opponentStake);
      return Ok(());
    }

    // ----- Creating -----

    method CreateSolWager(maker: Pubkey, wagerId: u64, challenger: Pubkey, amount: u64,
                          payoutMode: u8, incrementValue: u64, bump: u8) returns (r: Result<(), Error>)
      requires maker != DEFAULT_KEY
      modifies this
      ensures Performs(old(State()),
                       CreateWager(Sol, maker, wagerId, challenger, amount, payoutMode, incrementValue, bump), r,
                       State())
    {
      if wagerId in wagers {
        return Err(AccountConstraint);
      }
      var makerStake :- InitStakeIfNeeded(maker);
      :- ValidateWagerTerms(amount, payoutMode, incrementValue);
      makerStake :- RequireWagerAccess(makerStake, maker);
      :- Transfer(Wallet(maker, DEFAULT_KEY), WagerEscrow(wagerId), amount);
      var wager := Wager(wagerId, maker, challenger, DEFAULT_KEY, amount, DEFAULT_KEY, DEFAULT_KEY, OPEN,
                         payoutMode, incrementValue, amount, amount, 0, 0, bump);
      makerStake :- IncrementActiveWagers(makerStake);
      wagers, stakes := wagers[wagerId := wager], stakes[maker := makerStake];
      return Ok(());
    }

    method CreateTokenWager(maker: Pubkey, wagerId: u64, challenger: Pubkey, amount: u64,
                            payoutMode: u8, incrementValue: u64, bump: u8) returns (r: Result<(), Error>)
      requires VaultAgrees(State(), wagerId)
      requires maker != DEFAULT_KEY
      modifies this
      ensures Performs(old(State()),
                       CreateWager(Usdc, maker, wagerId, challenger, amount, payoutMode, incrementValue, bump), r,
                       State())
    {
      if wagerId in wagers || WagerVault(wagerId) in balances {
        return Err(AccountConstraint);
      }
      var makerStake :- InitStakeIfNeeded(maker);
      :- ValidateWagerTerms(amount, payoutMode, incrementValue);
      makerStake :- RequireWagerAccess(makerStake, maker);
      :- Transfer(Wallet(maker, config.usdcMint), WagerVault(wagerId), amount);
      var wager := Wager(wagerId, maker, challenger, DEFAULT_KEY, amount, config.usdcMint, DEFAULT_KEY, OPEN,
                         payoutMode, incrementValue, amount, amount, 0, 0, bump);
      makerStake :- IncrementActiveWagers(makerStake);
      wagers, stakes := wagers[wagerId := wager], stakes[maker := makerStake];
      return Ok(());
    }

    // ----- Joining -----

    method JoinSolWager(wagerId: u64, opponent: Pubkey) returns (r: Result<(), Error>)
      requires opponent != DEFAULT_KEY
      modifies this
      ensures Performs(old(State()), JoinWager(Sol, wagerId, opponent), r, State())
    {
      var opponentStake :- InitStakeIfNeeded(opponent);
      :- Need(wagerId in wagers && wagers[wagerId].tokenMint == DEFAULT_KEY, AccountConstraint);
      var wager := wagers[wagerId];
      opponentStake :- ValidateJoin(wager, opponent, opponentStake);
      :- Transfer(Wallet(opponent, DEFAULT_KEY), WagerEscrow(wagerId), wager.amount);
      wager := wager.(opponent := opponent, status := MATCHED);
      opponentStake :- IncrementActiveWagers(opponentStake);
      wagers, stakes := wagers[wagerId := wager], stakes[opponent := opponentStake];
      return Ok(());
    }

    method JoinTokenWager(wagerId: u64, opponent: Pubkey) returns (r: Result<(), Error>)
      requires VaultAgrees(State(), wagerId)
      requires opponent != DEFAULT_KEY
      modifies this
      ensures Performs(old(State()), JoinWager(Usdc, wagerId, opponent), r, State())
    {
      var opponentStake :- InitStakeIfNeeded(opponent);
      :- Need(wagerId in wagers && WagerVault(wagerId) in balances, AccountConstraint);
      var wager := wagers[wagerId];
      opponentStake :- ValidateJoin(wager, opponent, opponentStake);
      :- Transfer(Wallet(opponent, config.usdcMint), WagerVault(wagerId), wager.amount);
      wager := wager.(opponent := opponent, status := MATCHED);
      opponentStake :- IncrementActiveWagers(opponentStake);
      wagers, stakes := wagers[wagerId := wager], stakes[opponent := opponentStake];
      return Ok(());
    }

    // ----- Cancelling and declining -----

    method CancelSolWager(wagerId: u64, maker: Pubkey) returns (r: Result<(), Error>)
      requires maker != DEFAULT_KEY
      modifies this
      ensures Performs(old(State()), CancelWager(Sol, wagerId, maker), r, State())
    {
      if maker !in stakes || stakes[maker].owner != maker {
        return Err(AccountConstraint);
      }
      :- Need(wagerId in wagers && wagers[wagerId].maker == maker, AccountConstraint);
      :- Need(wagers[wagerId].tokenMint == DEFAULT_KEY, AccountConstraint);
      var wager, makerStake := wagers[wagerId], stakes[maker];
      :- Need(wager.status == OPEN, WagerNotOpen);
      var amount := wager.amount;
      :- MoveLamports(WagerEscrow(wagerId), Wallet(maker, DEFAULT_KEY), amount);
      wager := wager.(status := CANCELLED);
      var active :- CheckedSub32(makerStake.activeWagers, 1);
      makerStake := makerStake.(activeWagers := active);
      wagers, stakes := wagers[wagerId := wager], stakes[maker := makerStake];
      return Ok(());
    }

    method CancelTokenWager(wagerId: u64, maker: Pubkey) returns (r: Result<(), Error>)
      requires VaultAgrees(State(), wagerId)
      requires maker != DEFAULT_KEY
      modifies this
      ensures Performs(old(State()), CancelWager(Usdc, wagerId, maker), r, State())
    {
      if maker !in stakes || stakes[maker].owner != maker {
        return Err(AccountConstraint);
      }
      :- Need(wagerId in wagers && wagers[wagerId].maker == maker, AccountConstraint);
      :- Need(WagerVault(wagerId) in balances, AccountConstraint);
      var wager, makerStake := wagers[wagerId], stakes[maker];
      :- Need(wager.status == OPEN, WagerNotOpen);
      :- Transfer(WagerVault(wagerId), Wallet(maker, config.usdcMint), wager.amount);
      wager := wager.(status := CANCELLED);
      var active :- CheckedSub32(makerStake.activeWagers, 1);
      makerStake := makerStake.(activeWagers := active);
      wagers, stakes := wagers[wagerId := wager], stakes[maker := makerStake];
      return Ok(());
    }

    method DeclineSolWager(wagerId: u64, chainAuthority: Pubkey) returns (r: Result<(), Error>)
      requires chainAuthority != DEFAULT_KEY
      modifies this
      ensures Performs(old(State()), DeclineWager(Sol, wagerId, chainAuthority), r, State())
    {
      if chainAuthority != config.chainAuthority {
        return Err(AccountConstraint);
      }
      :- Need(wagerId in wagers && wagers[wagerId].tokenMint == DEFAULT_KEY, AccountConstraint);
      var wager := wagers[wagerId];
      :- Need(wager.maker in stakes && stakes[wager.maker].owner == wager.maker, AccountConstraint);
      var makerStake := stakes[wager.maker];
      :- Need(wager.status == OPEN, WagerNotOpen);
      :- Need(wager.challenger != DEFAULT_KEY, WagerNotReserved);
      var amount := wager.amount;
      :- MoveLamports(WagerEscrow(wagerId), Wallet(wager.maker, DEFAULT_KEY), amount);
      wager := wager.(status := CANCELLED);
      wager := wager.(makerRemaining := 0);
      var active :- CheckedSub32(makerStake.activeWagers, 1);
      makerStake := makerStake.(activeWagers := active);
      wagers, stakes := wagers[wagerId := wager], stakes[wager.maker := makerStake];
      return Ok(());
    }

    method DeclineTokenWager(wagerId: u64, chainAuthority: Pubkey) returns (r: Result<(), Error>)
      requires VaultAgrees(State(), wagerId)
      requires chainAuthority != DEFAULT_KEY
      modifies this
      ensures Performs(old(State()), DeclineWager(Usdc, wagerId, chainAuthority), r, State())
    {
      if chainAuthority != config.chainAuthority {
        return Err(AccountConstraint);
      }
      :- Need(wagerId in wagers && WagerVault(wagerId) in balances, AccountConstraint);
      var wager := wagers[wagerId];
      :- Need(wager.maker in stakes && stakes[wager.maker].owner == wager.maker, AccountConstraint);
      var makerStake := stakes[wager.maker];
      :- Need(wager.status == OPEN, WagerNotOpen);
      :- Need(wager.challenger != DEFAULT_KEY, WagerNotReserved);
      :- Transfer(WagerVault(wagerId), Wallet(wager.maker, config.usdcMint), wager.amount);
      wager := wager.(status := CANCELLED);
      wager := wager.(makerRemaining := 0);
      var active :- CheckedSub32(makerStake.activeWagers, 1);
      makerStake := makerStake.(activeWagers := active);
      wagers, stakes := wagers[wagerId := wager], stakes[wager.maker := makerStake];
      return Ok(());
    }

    // ----- Winner takes all -----

    method SettleSolWager(wagerId: u64, winner: Pubkey, chainAuthority: Pubkey) returns (r: Result<(), Error>)
      requires chainAuthority != DEFAULT_KEY
      modifies this
      ensures Performs(old(State()), SettleWager(Sol, wagerId, winner, chainAuthority), r, State())
    {
      if chainAuthority != config.chainAuthority {
        return Err(AccountConstraint);
      }
      var loaded :- LoadSeated(wagerId);
      var (wager, makerStake, opponentStake) := loaded;
      :- Need(wager.tokenMint == DEFAULT_KEY, AccountConstraint);
      :- Need(wager.status == MATCHED, WagerNotMatched);
      :- Need(wager.payoutMode == WINNER_TAKE_ALL, InvalidPayoutMode);
      :- Need(winner == wager.maker || winner == wager.opponent, InvalidWagerWinner);
      var payout :- CheckedMul64(wager.amount, 2);
      :- MoveLamports(WagerEscrow(wagerId), Wallet(winner, DEFAULT_KEY), payout);
      wager := wager.(winner := winner);
      wager := wager.(status := SETTLED);
      wager := wager.(makerRemaining := 0, opponentRemaining := 0);
      r := ReleaseAndExit(wagerId, wager, makerStake, opponentStake);
    }

    method SettleTokenWager(wagerId: u64, winner: Pubkey, chainAuthority: Pubkey) returns (r: Result<(), Error>)
      requires VaultAgrees(State(), wagerId)
      requires chainAuthority != DEFAULT_KEY
      modifies this
      ensures Performs(old(State()), SettleWager(Usdc, wagerId, winner, chainAuthority), r, State())
    {
      if chainAuthority != config.chainAuthority {
        return Err(AccountConstraint);
      }
      var loaded :- LoadSeated(wagerId);
      var (wager, makerStake, opponentStake) := loaded;
      :- Need(WagerVault(wagerId) in balances, AccountConstraint);
      :- Need(wager.status == MATCHED, WagerNotMatched);
      :- Need(wager.payoutMode == WINNER_TAKE_ALL, InvalidPayoutMode);
      :- Need(winner == wager.maker || winner == wager.opponent, InvalidWagerWinner);
      var payout :- CheckedMul64(wager.amount, 2);
      :- Transfer(WagerVault(wagerId), Wallet(winner, config.usdcMint), payout);
      wager := wager.(winner := winner);
      wager := wager.(status := SETTLED);
      wager := wager.(makerRemaining := 0, opponentRemaining := 0);
      r := ReleaseAndExit(wagerId, wager, makerStake, opponentStake);
    }

    // ----- Increments -----

    /** The guards and amounts of an increment, which both assets repeat line by line. */
    method CheckIncrement(wager: Wager, beneficiary: Pubkey, sequence: u32) returns (r: Result<(u64, u64), Error>)
      ensures match PayIncrement(wager, beneficiary, sequence)
              case Ok(paid) => r == Ok((paid.payout, paid.transferred))
              case Err(e) => r == Err(e)
    {
      if wager.status != MATCHED {
        return Err(WagerNotMatched);
      }
      :- Need(wager.payoutMode == INCREMENTAL, InvalidPayoutMode);
      :- Need(beneficiary == wager.maker || beneficiary == wager.opponent, InvalidWagerWinner);
      var expected :- CheckedAdd32(wager.makerScore, wager.opponentScore);
      expected :- CheckedAdd32(expected, 1);
      :- Need(sequence == expected, InvalidScoreSequence);

      var beneficiaryIsMaker := beneficiary == wager.maker;
      var debitedRemaining := if beneficiaryIsMaker then wager.opponentRemaining else wager.makerRemaining;
      var beneficiaryRemaining := if beneficiaryIsMaker then wager.makerRemaining else wager.opponentRemaining;
      var payout: u64 := if wager.incrementValue < debitedRemaining then wager.incrementValue else debitedRemaining;
      :- Need(payout > 0, InvalidIncrementValue);
      var settled := payout == debitedRemaining;
      var transferAmount := payout;
      if settled {
        transferAmount :- CheckedAdd64(payout, beneficiaryRemaining);
      }
      return Ok((payout, transferAmount));
    }

    /** Counts the score and debits the loser's reserve; an exhausted reserve settles the wager. */
    method RecordScore(loaded: Wager, beneficiary: Pubkey, sequence: u32, payout: u64) returns (wager: Wager)
      requires PayIncrement(loaded, beneficiary, sequence).Ok?
      requires payout == PayIncrement(loaded, beneficiary, sequence).value.payout
      ensures wager == PayIncrement(loaded, beneficiary, sequence).value.wager
    {
      wager := loaded;
      var settled: bool;
      if beneficiary == wager.maker {
        settled := payout == wager.opponentRemaining;
        wager := wager.(makerScore := wager.makerScore + 1);
        wager := wager.(opponentRemaining := wager.opponentRemaining - payout);
      } else {
        settled := payout == wager.makerRemaining;
        wager := wager.(opponentScore := wager.opponentScore + 1);
        wager := wager.(makerRemaining := wager.makerRemaining - payout);
      }
      if settled {
        wager := wager.(makerRemaining := 0, opponentRemaining := 0);
        wager := wager.(winner := beneficiary, status := SETTLED);
      }
    }

    /** What an increment writes once its transfer has been made. */
    method FinishIncrement(wagerId: u64, loaded: Wager, makerLoaded: UserStake, opponentLoaded: UserStake,
                           beneficiary: Pubkey, sequence: u32, payout: u64, settled: bool)
      returns (r: Result<(), Error>)
      requires PayIncrement(loaded, beneficiary, sequence).Ok?
      requires payout == PayIncrement(loaded, beneficiary, sequence).value.payout
      requires settled <==> PayIncrement(loaded, beneficiary, sequence).value.wager.status == SETTLED
      requires loaded.maker in stakes && loaded.opponent in stakes
      requires makerLoaded == stakes[loaded.maker] && opponentLoaded == stakes[loaded.opponent]
      modifies this`wagers, this`stakes
      ensures var paid := PayIncrement(loaded, beneficiary, sequence).value;
              match if settled then ReleaseBoth(old(stakes), loaded) else Ok(old(stakes))
              case Ok(s) => r.Ok? && stakes == s && wagers == old(wagers)[wagerId := paid.wager]
              case Err(e) => r == Err(e)
    {
      var wager := RecordScore(loaded, beneficiary, sequence, payout);
      if settled {
        r := ReleaseAndExit(wagerId, wager, makerLoaded, opponentLoaded);
      } else {
        Exit(wagerId, wager, makerLoaded, opponentLoaded);
        assert stakes == old(stakes);
        r := Ok(());
      }
    }

    method SettleSolIncrement(wagerId: u64, beneficiary: Pubkey, sequence: u32, chainAuthority: Pubkey)
      returns (r: Result<(), Error>)
      requires chainAuthority != DEFAULT_KEY
      modifies this
      ensures Performs(old(State()), EscrowSpec.SettleIncrement(Sol, wagerId, beneficiary, sequence, chainAuthority), r,
                       State())
    {
      if chainAuthority != config.chainAuthority {
        return Err(AccountConstraint);
      }
      var loaded :- LoadSeated(wagerId);
      var (wager, makerStake, opponentStake) := loaded;
      :- Need(wager.tokenMint == DEFAULT_KEY, AccountConstraint);
      var amounts :- CheckIncrement(wager, beneficiary, sequence);
      var (payout, transferAmount) := amounts;
      var beneficiaryIsMaker := beneficiary == wager.maker;
      var settled := payout == if beneficiaryIsMaker then wager.opponentRemaining else wager.makerRemaining;
      var destination := if beneficiaryIsMaker then Wallet(wager.maker, DEFAULT_KEY)
                         else Wallet(wager.opponent, DEFAULT_KEY);
      :- MoveLamports(WagerEscrow(wagerId), destination, transferAmount);

      r := FinishIncrement(wagerId, wager, makerStake, opponentStake, beneficiary, sequence, payout, settled);
    }

    method SettleTokenIncrement(wagerId: u64, beneficiary: Pubkey, sequence: u32, chainAuthority: Pubkey)
      returns (r: Result<(), Error>)
      requires VaultAgrees(State(), wagerId)
      requires chainAuthority != DEFAULT_KEY
      modifies this
      ensures Performs(old(State()), EscrowSpec.SettleIncrement(Usdc, wagerId, beneficiary, sequence, chainAuthority),
                       r, State())
    {
      if chainAuthority != config.chainAuthority {
        return Err(AccountConstraint);
      }
      var loaded :- LoadSeated(wagerId);
      var (wager, makerStake, opponentStake) := loaded;
      :- Need(WagerVault(wagerId) in balances, AccountConstraint);
      var amounts :- CheckIncrement(wager, beneficiary, sequence);
      var (payout, transferAmount) := amounts;
      var beneficiaryIsMaker := beneficiary == wager.maker;
      var settled := payout == if beneficiaryIsMaker then wager.opponentRemaining else wager.makerRemaining;
      var destination := if beneficiaryIsMaker then Wallet(wager.maker, config.usdcMint)
                         else Wallet(wager.opponent, config.usdcMint);
      :- Transfer(WagerVault(wagerId), destination, transferAmount);

      r := FinishIncrement(wagerId, wager, makerStake, opponentStake, beneficiary, sequence, payout, settled);
    }

    // ----- Invalidation -----

    method InvalidateSolWager(wagerId: u64, signer: Pubkey) returns (r: Result<(), Error>)
      requires signer != DEFAULT_KEY
      modifies this
      ensures Performs(old(State()), InvalidateWager(Sol, wagerId, signer), r, State())
    {
      var loaded :- LoadSeated(wagerId);
      var (wager, makerStake, opponentStake) := loaded;
      :- Need(wager.tokenMint == DEFAULT_KEY, AccountConstraint);
      :- Need(signer == config.authority || signer == config.chainAuthority, Unauthorized);
      :- Need(wager.status == MATCHED, WagerNotMatched);
      var makerRefund, opponentRefund := wager.makerRemaining, wager.opponentRemaining;
      :- MoveLamports(WagerEscrow(wagerId), Wallet(wager.maker, DEFAULT_KEY), makerRefund);
      :- MoveLamports(WagerEscrow(wagerId), Wallet(wager.opponent, DEFAULT_KEY), opponentRefund);
      wager := wager.(status := CANCELLED);
      wager := wager.(makerRemaining := 0, opponentRemaining := 0);
      r := ReleaseAndExit(wagerId, wager, makerStake, opponentStake);
    }

    /** Pays out of a vault to each destination in turn, skipping empty amounts. */
    method RefundAll(from: Account, refunds: seq<(Account, u64)>) returns (r: Check<Error>)
      requires forall i :: 0 <= i < |refunds| ==> refunds[i].0 != from
      modifies this`balances
      ensures match PaidAll(old(balances), from, refunds)
              case Ok(b) => r == Pass && balances == b
              case Err(e) => r == Fail(e)
    {
      var i := 0;
      while i < |refunds|
        invariant 0 <= i <= |refunds|
        invariant PaidAll(old(balances), from, refunds) == PaidAll(balances, from, refunds[i..])
      {
        var (to, amount) := refunds[i];
        assert refunds[i..][1..] == refunds[i + 1..];
        i := i + 1;
        if amount == 0 {
          continue;
        }
        r := Transfer(from, to, amount);
        if r.Fail? {
          return;
        }
      }
      return Pass;
    }

    method InvalidateTokenWager(wagerId: u64, signer: Pubkey) returns (r: Result<(), Error>)
      requires VaultAgrees(State(), wagerId) && ReservesPositive(State(), wagerId)
      requires signer != DEFAULT_KEY
      modifies this
      ensures Performs(old(State()), InvalidateWager(Usdc, wagerId, signer), r, State())
    {
      var loaded :- LoadSeated(wagerId);
      var (wager, makerStake, opponentStake) := loaded;
      :- Need(WagerVault(wagerId) in balances, AccountConstraint);
      :- Need(signer == config.authority || signer == config.chainAuthority, Unauthorized);
      :- Need(wager.status == MATCHED, WagerNotMatched);
      var toMaker, toOpponent := Wallet(wager.maker, config.usdcMint), Wallet(wager.opponent, config.usdcMint);
      TwoRefunds(balances, WagerVault(wagerId), toMaker, wager.makerRemaining, toOpponent, wager.opponentRemaining);
      :- RefundAll(WagerVault(wagerId), [(toMaker, wager.makerRemaining), (toOpponent, wager.opponentRemaining)]);
      wager := wager.(status := CANCELLED);
      wager := wager.(makerRemaining := 0, opponentRemaining := 0);
      r := ReleaseAndExit(wagerId, wager, makerStake, opponentStake);
    }

    // ----- Access stakes and configuration -----

    method StakeTokens(user: Pubkey, amount: u64) returns (r: Result<(), Error>)
      requires user != DEFAULT_KEY
      modifies this
      ensures Performs(old(State()), EscrowSpec.StakeTokens(user, amount), r, State())
    {
      var stake := if user in stakes then stakes[user] else NEW_STAKE;
      :- Need(config.stakingEnabled, StakingDisabled);
      :- Need(amount > 0, InvalidWagerAmount);
      if stake.owner == DEFAULT_KEY {
        stake := stake.(owner := user);
      }
      :- Need(!stake.banned, UserBanned);
      :- Transfer(Wallet(user, config.tokenMint), StakeVault(user), amount);
      var staked :- CheckedAdd64(stake.amount, amount);
      stakes := stakes[user := stake.(amount := staked)];
      return Ok(());
    }

    method UnstakeTokens(user: Pubkey, amount: u64) returns (r: Result<(), Error>)
      requires user != DEFAULT_KEY
      modifies this
      ensures Performs(old(State()), EscrowSpec.UnstakeTokens(user, amount), r, State())
    {
      if user !in stakes || stakes[user].owner != user {
        return Err(AccountConstraint);
      }
      :- Need(StakeVault(user) in balances, AccountConstraint);
      var stake := stakes[user];
      :- Need(!stake.banned, UserBanned);
      :- Need(stake.activeWagers == 0, ActiveWagers);
      :- Need(amount > 0, InvalidWagerAmount);
      :- Need(stake.amount >= amount, InsufficientStake);
      :- Transfer(StakeVault(user), Wallet(user, config.tokenMint), amount);
      stakes := stakes[user := stake.(amount := stake.amount - amount)];
      return Ok(());
    }

    method BanUser(user: Pubkey, treasury: Pubkey, authority: Pubkey) returns (r: Result<(), Error>)
      requires authority != DEFAULT_KEY
      modifies this
      ensures Performs(old(State()), EscrowSpec.BanUser(user, treasury, authority), r, State())
    {
      if authority != config.authority {
        return Err(AccountConstraint);
      }
      :- Need(user in stakes && stakes[user].owner == user, AccountConstraint);
      :- Need(StakeVault(user) in balances, AccountConstraint);
      var amount := stakes[user].amount;
      if amount > 0 {
        :- Transfer(StakeVault(user), Wallet(treasury, config.tokenMint), amount);
      }
      stakes := stakes[user := stakes[user].(amount := 0, banned := true)];
      return Ok(());
    }

    method UpdateConfig(signer: Pubkey, authority: Pubkey, chainAuthority: Pubkey,
                        requiredStake: u64, stakingEnabled: bool) returns (r: Result<(), Error>)
      requires signer != DEFAULT_KEY
      modifies this
      ensures Performs(old(State()),
                       EscrowSpec.UpdateConfig(signer, authority, chainAuthority, requiredStake, stakingEnabled), r,
                       State())
    {
      if signer != config.authority {
        return Err(AccountConstraint);
      }
      :- Need(!stakingEnabled || requiredStake > 0, InvalidWagerAmount);
      config := config.(authority := authority);
      config := config.(chainAuthority := chainAuthority);
      config := config.(requiredStake := requiredStake);
      config := config.(stakingEnabled := stakingEnabled);
      return Ok(());
    }

    // ----- Transactions -----

    method DispatchSol(ix: Instruction) returns (r: Result<(), Error>)
      requires SignerOf(ix) != DEFAULT_KEY && ConcernsWager(ix) && ix.asset.Sol?
      modifies this
      ensures Performs(old(State()), ix, r, State())
    {
      match ix {
        case CreateWager(_, maker, id, challenger, amount, mode, value, bump) =>
          r := CreateSolWager(maker, id, challenger, amount, mode, value, bump);
        case JoinWager(_, id, opponent) => r := JoinSolWager(id, opponent);
        case CancelWager(_, id, maker) => r := CancelSolWager(id, maker);
        case DeclineWager(_, id, signer) => r := DeclineSolWager(id, signer);
        case SettleWager(_, id, winner, signer) => r := SettleSolWager(id, winner, signer);
        case SettleIncrement(_, id, beneficiary, sequence, signer) =>
          r := SettleSolIncrement(id, beneficiary, sequence, signer);
        case InvalidateWager(_, id, signer) => r := InvalidateSolWager(id, signer);
      }
    }

    method DispatchToken(ix: Instruction) returns (r: Result<(), Error>)
      requires SignerOf(ix) != DEFAULT_KEY && ConcernsWager(ix) && ix.asset.Usdc?
      requires VaultAgrees(State(), ix.wagerId) && ReservesPositive(State(), ix.wagerId)
      modifies this
      ensures Performs(old(State()), ix, r, State())
    {
      match ix {
        case CreateWager(_, maker, id, challenger, amount, mode, value, bump) =>
          r := CreateTokenWager(maker, id, challenger, amount, mode, value, bump);
        case JoinWager(_, id, opponent) => r := JoinTokenWager(id, opponent);
        case CancelWager(_, id, maker) => r := CancelTokenWager(id, maker);
        case DeclineWager(_, id, signer) => r := DeclineTokenWager(id, signer);
        case SettleWager(_, id, winner, signer) => r := SettleTokenWager(id, winner, signer);
        case SettleIncrement(_, id, beneficiary, sequence, signer) =>
          r := SettleTokenIncrement(id, beneficiary, sequence, signer);
        case InvalidateWager(_, id, signer) => r := InvalidateTokenWager(id, signer);
      }
    }

    method Dispatch(ix: Instruction) returns (r: Result<(), Error>)
      requires SignerOf(ix) != DEFAULT_KEY
      requires ConcernsWager(ix) ==> VaultAgrees(State(), ix.wagerId) && ReservesPositive(State(), ix.wagerId)
      modifies this
      ensures Performs(old(State()), ix, r, State())
    {
      match ix {
        case StakeTokens(user, amount) => r := StakeTokens(user, amount);
        case UnstakeTokens(user, amount) => r := UnstakeTokens(user, amount);
        case BanUser(user, treasury, signer) => r := BanUser(user, treasury, signer);
        case UpdateConfig(signer, authority, chainAuthority, requiredStake, stakingEnabled) =>
          r := UpdateConfig(signer, authority, chainAuthority, requiredStake, stakingEnabled);
        case Deposit(from, to, amount) =>
          var payer := Wallet(from, Denomination(config, to));
          :- Need(Depositable(State(), to) && payer != to, AccountConstraint);
          :- Transfer(payer, to, amount);
          r := Ok(());
        case _ =>
          if ix.asset.Sol? {
            r := DispatchSol(ix);
          } else {
            r := DispatchToken(ix);
          }
      }
    }

    /** One transaction, atomically: a failure leaves every account as it was. */
    method Execute(ix: Instruction) returns (r: Result<(), Error>)
      requires Valid(State())
      modifies this
      ensures State() == Apply(old(State()), ix)
      ensures r.Ok? <==> Step(old(State()), ix).Ok?
      ensures r.Err? ==> r.error == Step(old(State()), ix).error
      ensures Valid(State())
    {
      if Step(State(), ix).Ok? {
        StepKeeps(State(), ix);
      }
      if ConcernsWager(ix) {
        ValidAt(State(), ix.wagerId);
      }
      if SignerOf(ix) == DEFAULT_KEY {
        return Err(AccountConstraint);
      }
      var snapshot := State();
      r := Dispatch(ix);
      if r.Err? {
        config, wagers, stakes, balances := snapshot.config, snapshot.wagers, snapshot.stakes, snapshot.balances;
      }
    }
  }

  /** Successive payments out of one account. */
  function PaidAll(b: Balances, from: Account, refunds: seq<(Account, u64)>): Result<Balances, Error>
    requires forall i :: 0 <= i < |refunds| ==> refunds[i].0 != from
    decreases |refunds|
  {
    if refunds == [] then Ok(b)
    else if refunds[0].1 == 0 then PaidAll(b, from, refunds[1..])
    else
      var b' :- Move(b, from, refunds[0].0, refunds[0].1);
      PaidAll(b', from, refunds[1..])
  }

  /** In a valid ledger both refunds are positive, so skipping empty ones never matters. */
  lemma TwoRefunds(b: Balances, from: Account, to1: Account, amount1: u64, to2: Account, amount2: u64)
    requires from != to1 && from != to2 && amount1 > 0 && amount2 > 0
    ensures PaidAll(b, from, [(to1, amount1), (to2, amount2)])
         == (var b1 := Move(b, from, to1, amount1);
             if b1.Ok? then Move(b1.value, from, to2, amount2) else b1)
  {
    var refunds: seq<(Account, u64)> := [(to1, amount1), (to2, amount2)];
    var last: seq<(Account, u64)> := [(to2, amount2)];
    assert refunds[1..] == last;
    forall b': Balances
      ensures PaidAll(b', from, last) == Move(b', from, to2, amount2)
    {
      var none: seq<(Account, u64)> := [];
      assert last[1..] == none;
    }
  }
}
