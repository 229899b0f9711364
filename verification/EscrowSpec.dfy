/** The escrow program as one wager machine over ledger values. A single set of transitions,
  * parameterised by the asset, specifies both the native-SOL and the USDC instructions.
  */
module EscrowSpec {
  import opened Basics
  import opened ProgramState

  datatype Instruction =
    | CreateWager(asset: Asset, maker: Pubkey, wagerId: u64, challenger: Pubkey, amount: u64,
                  payoutMode: u8, incrementValue: u64, bump: u8)
    | JoinWager(asset: Asset, wagerId: u64, opponent: Pubkey)
    | CancelWager(asset: Asset, wagerId: u64, maker: Pubkey)
    | DeclineWager(asset: Asset, wagerId: u64, signer: Pubkey)
    | SettleWager(asset: Asset, wagerId: u64, winner: Pubkey, signer: Pubkey)
    | SettleIncrement(asset: Asset, wagerId: u64, beneficiary: Pubkey, sequence: u32, signer: Pubkey)
    | InvalidateWager(asset: Asset, wagerId: u64, signer: Pubkey)
    | StakeTokens(user: Pubkey, amount: u64)
    | UnstakeTokens(user: Pubkey, amount: u64)
    | BanUser(user: Pubkey, treasury: Pubkey, signer: Pubkey)
    | UpdateConfig(signer: Pubkey, authority: Pubkey, chainAuthority: Pubkey,
                   requiredStake: u64, stakingEnabled: bool)
    // A plain transfer that does not go through the program.
    | Deposit(from: Pubkey, to: Account, amount: u64)

  function SignerOf(ix: Instruction): Pubkey {
    match ix
    case CreateWager(_, maker, _, _, _, _, _, _) => maker
    case JoinWager(_, _, opponent) => opponent
    case CancelWager(_, _, maker) => maker
    case DeclineWager(_, _, signer) => signer
    case SettleWager(_, _, _, signer) => signer
    case SettleIncrement(_, _, _, _, signer) => signer
    case InvalidateWager(_, _, signer) => signer
    case StakeTokens(user, _) => user
    case UnstakeTokens(user, _) => user
    case BanUser(_, _, signer) => signer
    case UpdateConfig(signer, _, _, _, _) => signer
    case Deposit(from, _, _) => from
  }

  // ----- Balances -----

  function Move(b: Balances, from: Account, to: Account, amount: u64): Result<Balances, Error>
    requires from != to
  {
    if amount > BalanceOf(b, from) then Err(InsufficientFunds)
    else if BalanceOf(b, to) + amount > U64_MAX then Err(BalanceOverflow)
    else Ok(b[from := BalanceOf(b, from) - amount][to := BalanceOf(b, to) + amount])
  }

  // ----- Shared rules -----

  function WagerTerms(amount: u64, payoutMode: u8, incrementValue: u64): Check<Error> {
    if amount == 0 then Fail(InvalidWagerAmount)
    else if payoutMode == WINNER_TAKE_ALL then
      if incrementValue == 0 then Pass else Fail(InvalidIncrementValue)
    else if payoutMode == INCREMENTAL then
      if 0 < incrementValue <= amount then Pass else Fail(InvalidIncrementValue)
    else Fail(InvalidPayoutMode)
  }

  /** The user's stake account after `init_if_needed`, claimed if nobody owns it yet. */
  function ClaimedStake(stakes: Stakes, user: Pubkey): UserStake {
    if user !in stakes then NEW_STAKE.(owner := user)
    else if stakes[user].owner == DEFAULT_KEY then stakes[user].(owner := user)
    else stakes[user]
  }

  /** The same with the owner constraint of the wager instructions. */
  function StakeFor(stakes: Stakes, user: Pubkey): Result<UserStake, Error> {
    var stake := ClaimedStake(stakes, user);
    if stake.owner == user then Ok(stake) else Err(AccountConstraint)
  }

  function WagerAccess(c: Config, stake: UserStake): Check<Error> {
    if stake.banned then Fail(UserBanned)
    else if c.stakingEnabled && stake.amount < c.requiredStake then Fail(StakeRequired)
    else Pass
  }

  function Occupy(stakes: Stakes, user: Pubkey, stake: UserStake): Result<Stakes, Error> {
    if stake.activeWagers == U32_MAX then Err(MathOverflow)
    else Ok(stakes[user := stake.(activeWagers := stake.activeWagers + 1)])
  }

  function Release(stakes: Stakes, user: Pubkey): Result<Stakes, Error>
    requires user in stakes
  {
    if stakes[user].activeWagers == 0 then Err(MathOverflow)
    else Ok(stakes[user := stakes[user].(activeWagers := stakes[user].activeWagers - 1)])
  }

  function ReleaseBoth(stakes: Stakes, w: Wager): Result<Stakes, Error>
    requires w.maker in stakes && w.opponent in stakes
  {
    var makerStake, opponentStake := stakes[w.maker], stakes[w.opponent];
    :- Need(makerStake.activeWagers > 0 && opponentStake.activeWagers > 0, MathOverflow);
    Ok(stakes[w.maker := makerStake.(activeWagers := makerStake.activeWagers - 1)]
             [w.opponent := opponentStake.(activeWagers := opponentStake.activeWagers - 1)])
  }

  // ----- Wager records -----

  function Opened(ix: Instruction, mint: Pubkey): Wager
    requires ix.CreateWager?
  {
    Wager(ix.wagerId, ix.maker, ix.challenger, DEFAULT_KEY, ix.amount, mint, DEFAULT_KEY, OPEN,
          ix.payoutMode, ix.incrementValue, ix.amount, ix.amount, 0, 0, ix.bump)
  }

  function Closed(w: Wager, status: u8, winner: Pubkey): Wager {
    w.(status := status, winner := winner, makerRemaining := 0, opponentRemaining := 0)
  }

  datatype Increment = Increment(wager: Wager, payout: u64, transferred: u64)

  /** One accepted score: the debited reserve shrinks by the capped increment, and an exhausted
    * reserve settles the wager and sweeps the beneficiary's own reserve along.
    */
  function PayIncrement(w: Wager, beneficiary: Pubkey, sequence: u32): Result<Increment, Error> {
    var forMaker := beneficiary == w.maker;
    :- Need(w.status == MATCHED, WagerNotMatched);
    :- Need(w.payoutMode == INCREMENTAL, InvalidPayoutMode);
    :- Need(IsParticipant(w, beneficiary), InvalidWagerWinner);
    :- Need(w.makerScore + w.opponentScore < U32_MAX, MathOverflow);
    :- Need(sequence == w.makerScore + w.opponentScore + 1, InvalidScoreSequence);
    var debited := if forMaker then w.opponentRemaining else w.makerRemaining;
    var kept := if forMaker then w.makerRemaining else w.opponentRemaining;
    var payout: u64 := Min(w.incrementValue, debited);
    var scored := if forMaker
                  then w.(makerScore := w.makerScore + 1, opponentRemaining := debited - payout)
                  else w.(opponentScore := w.opponentScore + 1, makerRemaining := debited - payout);
    :- Need(payout > 0, InvalidIncrementValue);
    if payout < debited then Ok(Increment(scored, payout, payout))
    else
      :- Need(payout + kept <= U64_MAX, MathOverflow);
      Ok(Increment(Closed(scored, SETTLED, beneficiary), payout, payout + kept))
  }

  // ----- Instructions -----

  /** The wager exists and is escrowed in this asset. */
  predicate Loads(l: Ledger, asset: Asset, wagerId: u64) {
    && wagerId in l.wagers
    && l.wagers[wagerId].tokenMint == MintOf(l.config, asset)
  }

  predicate HasStake(stakes: Stakes, user: Pubkey) {
    user in stakes && stakes[user].owner == user
  }

  predicate LoadsSeated(l: Ledger, asset: Asset, wagerId: u64) {
    && Loads(l, asset, wagerId)
    && HasStake(l.stakes, l.wagers[wagerId].maker)
    && HasStake(l.stakes, l.wagers[wagerId].opponent)
  }

  function Create(l: Ledger, ix: Instruction): Result<Ledger, Error>
    requires ix.CreateWager?
  {
    var mint := MintOf(l.config, ix.asset);
    :- Need(ix.wagerId !in l.wagers, AccountConstraint);
    var stake :- StakeFor(l.stakes, ix.maker);
    :- WagerTerms(ix.amount, ix.payoutMode, ix.incrementValue);
    :- WagerAccess(l.config, stake);
    var b :- Move(l.balances, Wallet(ix.maker, mint), EscrowOf(ix.asset, ix.wagerId), ix.amount);
    var s :- Occupy(l.stakes, ix.maker, stake);
    Ok(l.(wagers := l.wagers[ix.wagerId := Opened(ix, mint)], stakes := s, balances := b))
  }

  function Join(l: Ledger, ix: Instruction): Result<Ledger, Error>
    requires ix.JoinWager?
  {
    var mint := MintOf(l.config, ix.asset);
    :- Need(Loads(l, ix.asset, ix.wagerId), AccountConstraint);
    var w := l.wagers[ix.wagerId];
    var stake :- StakeFor(l.stakes, ix.opponent);
    :- Need(w.status == OPEN, WagerNotOpen);
    :- Need(w.maker != ix.opponent, InvalidWagerParticipants);
    :- Need(w.challenger == DEFAULT_KEY || w.challenger == ix.opponent, WagerReserved);
    :- WagerAccess(l.config, stake);
    var b :- Move(l.balances, Wallet(ix.opponent, mint), EscrowOf(ix.asset, ix.wagerId), w.amount);
    var s :- Occupy(l.stakes, ix.opponent, stake);
    Ok(l.(wagers := l.wagers[ix.wagerId := w.(opponent := ix.opponent, status := MATCHED)],
          stakes := s, balances := b))
  }

  /** Cancelling and declining refund the whole stake of an open wager to its maker. */
  function Refund(l: Ledger, asset: Asset, wagerId: u64, makerRemaining: u64): Result<Ledger, Error>
    requires Loads(l, asset, wagerId) && l.wagers[wagerId].maker in l.stakes
  {
    var w := l.wagers[wagerId];
    var b :- Move(l.balances, EscrowOf(asset, wagerId), Wallet(w.maker, w.tokenMint), w.amount);
    var s :- Release(l.stakes, w.maker);
    Ok(l.(wagers := l.wagers[wagerId := w.(status := CANCELLED, makerRemaining := makerRemaining)],
          stakes := s, balances := b))
  }

  function Cancel(l: Ledger, ix: Instruction): Result<Ledger, Error>
    requires ix.CancelWager?
  {
    var id := ix.wagerId;
    :- Need(Loads(l, ix.asset, id) && HasStake(l.stakes, ix.maker), AccountConstraint);
    :- Need(l.wagers[id].maker == ix.maker, AccountConstraint);
    :- Need(l.wagers[id].status == OPEN, WagerNotOpen);
    Refund(l, ix.asset, id, l.wagers[id].makerRemaining)
  }

  function Decline(l: Ledger, ix: Instruction): Result<Ledger, Error>
    requires ix.DeclineWager?
  {
    var id := ix.wagerId;
    :- Need(ix.signer == l.config.chainAuthority, AccountConstraint);
    :- Need(Loads(l, ix.asset, id), AccountConstraint);
    :- Need(HasStake(l.stakes, l.wagers[id].maker), AccountConstraint);
    :- Need(l.wagers[id].status == OPEN, WagerNotOpen);
    :- Need(l.wagers[id].challenger != DEFAULT_KEY, WagerNotReserved);
    Refund(l, ix.asset, id, 0)
  }

  function Settle(l: Ledger, ix: Instruction): Result<Ledger, Error>
    requires ix.SettleWager?
  {
    var id := ix.wagerId;
    :- Need(ix.signer == l.config.chainAuthority, AccountConstraint);
    :- Need(LoadsSeated(l, ix.asset, id), AccountConstraint);
    var w := l.wagers[id];
    :- Need(w.status == MATCHED, WagerNotMatched);
    :- Need(w.payoutMode == WINNER_TAKE_ALL, InvalidPayoutMode);
    :- Need(IsParticipant(w, ix.winner), InvalidWagerWinner);
    :- Need(w.amount * 2 <= U64_MAX, MathOverflow);
    var b :- Move(l.balances, EscrowOf(ix.asset, id), Wallet(ix.winner, w.tokenMint), w.amount * 2);
    var s :- ReleaseBoth(l.stakes, w);
    Ok(l.(wagers := l.wagers[id := Closed(w, SETTLED, ix.winner)], stakes := s, balances := b))
  }

  function Score(l: Ledger, ix: Instruction): Result<Ledger, Error>
    requires ix.SettleIncrement?
  {
    var id := ix.wagerId;
    :- Need(ix.signer == l.config.chainAuthority, AccountConstraint);
    :- Need(LoadsSeated(l, ix.asset, id), AccountConstraint);
    var w := l.wagers[id];
    var paid :- PayIncrement(w, ix.beneficiary, ix.sequence);
    var b :- Move(l.balances, EscrowOf(ix.asset, id), Wallet(ix.beneficiary, w.tokenMint),
                  paid.transferred);
    var s :- if paid.wager.status == SETTLED then ReleaseBoth(l.stakes, w) else Ok(l.stakes);
    Ok(l.(wagers := l.wagers[id := paid.wager], stakes := s, balances := b))
  }

  function Invalidate(l: Ledger, ix: Instruction): Result<Ledger, Error>
    requires ix.InvalidateWager?
  {
    var id := ix.wagerId;
    :- Need(LoadsSeated(l, ix.asset, id), AccountConstraint);
    :- Need(ix.signer == l.config.authority || ix.signer == l.config.chainAuthority, Unauthorized);
    var w := l.wagers[id];
    var escrow := EscrowOf(ix.asset, id);
    :- Need(w.status == MATCHED, WagerNotMatched);
    var b1 :- Move(l.balances, escrow, Wallet(w.maker, w.tokenMint), w.makerRemaining);
    var b2 :- Move(b1, escrow, Wallet(w.opponent, w.tokenMint), w.opponentRemaining);
    var s :- ReleaseBoth(l.stakes, w);
    Ok(l.(wagers := l.wagers[id := Closed(w, CANCELLED, w.winner)], stakes := s, balances := b2))
  }

  function Stake(l: Ledger, ix: Instruction): Result<Ledger, Error>
    requires ix.StakeTokens?
  {
    var stake := ClaimedStake(l.stakes, ix.user);
    :- Need(l.config.stakingEnabled, StakingDisabled);
    :- Need(ix.amount > 0, InvalidWagerAmount);
    :- Need(!stake.banned, UserBanned);
    var b :- Move(l.balances, Wallet(ix.user, l.config.tokenMint), StakeVault(ix.user), ix.amount);
    :- Need(stake.amount + ix.amount <= U64_MAX, MathOverflow);
    Ok(l.(stakes := l.stakes[ix.user := stake.(amount := stake.amount + ix.amount)], balances := b))
  }

  function Unstake(l: Ledger, ix: Instruction): Result<Ledger, Error>
    requires ix.UnstakeTokens?
  {
    var user := ix.user;
    :- Need(HasStake(l.stakes, user), AccountConstraint);
    :- Need(StakeVault(user) in l.balances, AccountConstraint);
    var stake := l.stakes[user];
    :- Need(!stake.banned, UserBanned);
    :- Need(stake.activeWagers == 0, ActiveWagers);
    :- Need(ix.amount > 0, InvalidWagerAmount);
    :- Need(stake.amount >= ix.amount, InsufficientStake);
    var b :- Move(l.balances, StakeVault(user), Wallet(user, l.config.tokenMint), ix.amount);
    Ok(l.(stakes := l.stakes[user := stake.(amount := stake.amount - ix.amount)], balances := b))
  }

  function Ban(l: Ledger, ix: Instruction): Result<Ledger, Error>
    requires ix.BanUser?
  {
    var user := ix.user;
    :- Need(ix.signer == l.config.authority, AccountConstraint);
    :- Need(HasStake(l.stakes, user), AccountConstraint);
    :- Need(StakeVault(user) in l.balances, AccountConstraint);
    var stake := l.stakes[user];
    var b :- if stake.amount == 0 then Ok(l.balances)
             else Move(l.balances, StakeVault(user), Wallet(ix.treasury, l.config.tokenMint), stake.amount);
    Ok(l.(stakes := l.stakes[user := stake.(amount := 0, banned := true)], balances := b))
  }

  function Reconfigure(l: Ledger, ix: Instruction): Result<Ledger, Error>
    requires ix.UpdateConfig?
  {
    var c := l.config;
    :- Need(ix.signer == c.authority, AccountConstraint);
    :- Need(!ix.stakingEnabled || ix.requiredStake > 0, InvalidWagerAmount);
    Ok(l.(config := c.(authority := ix.authority, chainAuthority := ix.chainAuthority,
                          requiredStake := ix.requiredStake, stakingEnabled := ix.stakingEnabled)))
  }

  predicate Depositable(l: Ledger, to: Account) {
    match to
    case Wallet(_, _) => true
    case WagerEscrow(id) => id in l.wagers
    case WagerVault(_) => to in l.balances
    case StakeVault(_) => to in l.balances
  }

  /** Anyone may send funds of the right mint to another wallet or to an existing program account. */
  function Send(l: Ledger, ix: Instruction): Result<Ledger, Error>
    requires ix.Deposit?
  {
    var from := Wallet(ix.from, Denomination(l.config, ix.to));
    :- Need(Depositable(l, ix.to) && from != ix.to, AccountConstraint);
    var b :- Move(l.balances, from, ix.to, ix.amount);
    Ok(l.(balances := b))
  }

  /** One transaction. The default key signs nothing. */
  function Step(l: Ledger, ix: Instruction): Result<Ledger, Error> {
    var signer := SignerOf(ix);
    :- Need(signer != DEFAULT_KEY, AccountConstraint);
    match ix
    case CreateWager(_, _, _, _, _, _, _, _) => Create(l, ix)
    case JoinWager(_, _, _) => Join(l, ix)
    case CancelWager(_, _, _) => Cancel(l, ix)
    case DeclineWager(_, _, _) => Decline(l, ix)
    case SettleWager(_, _, _, _) => Settle(l, ix)
    case SettleIncrement(_, _, _, _, _) => Score(l, ix)
    case InvalidateWager(_, _, _) => Invalidate(l, ix)
    case StakeTokens(_, _) => Stake(l, ix)
    case UnstakeTokens(_, _) => Unstake(l, ix)
    case BanUser(_, _, _) => Ban(l, ix)
    case UpdateConfig(_, _, _, _, _) => Reconfigure(l, ix)
    case Deposit(_, _, _) => Send(l, ix)
  }
}
