/** The accounts of the escrow program: configuration, wagers, access stakes and balances. */
module ProgramState {
  import opened Basics

  const ZERO_BYTES: seq<u8> :=
    [0, 0, 0, 0, 0, 0, 0, 0, 0, 0, 0, 0, 0, 0, 0, 0, 0, 0, 0, 0, 0, 0, 0, 0, 0, 0, 0, 0, 0, 0, 0, 0]

  type Bytes32 = b: seq<u8> | |b| == 32 witness ZERO_BYTES

  datatype Pubkey = Pubkey(bytes: Bytes32)

  /** The all-zero key. As a mint it stands for native SOL, as a participant for "nobody". */
  const DEFAULT_KEY: Pubkey := Pubkey(ZERO_BYTES)

  const OPEN: u8 := 0
  const MATCHED: u8 := 1
  const SETTLED: u8 := 2
  const CANCELLED: u8 := 3

  const WINNER_TAKE_ALL: u8 := 0
  const INCREMENTAL: u8 := 1

  datatype Config = Config(
    authority: Pubkey,
    chainAuthority: Pubkey,
    tokenMint: Pubkey,
    usdcMint: Pubkey,
    requiredStake: u64,
    stakingEnabled: bool)

  datatype UserStake = UserStake(
    owner: Pubkey,
    amount: u64,
    activeWagers: u32,
    banned: bool)

  /** A stake account that `init_if_needed` has just created. */
  const NEW_STAKE: UserStake := UserStake(DEFAULT_KEY, 0, 0, false)

  datatype Wager = Wager(
    wagerId: u64,
    maker: Pubkey,
    challenger: Pubkey,
    opponent: Pubkey,
    amount: u64,
    tokenMint: Pubkey,
    winner: Pubkey,
    status: u8,
    payoutMode: u8,
    incrementValue: u64,
    makerRemaining: u64,
    opponentRemaining: u64,
    makerScore: u32,
    opponentScore: u32,
    bump: u8)

  datatype Asset = Sol | Usdc

  /** Everything that can hold money. Program addresses are injective in their seeds, so an
    * escrow is named by its wager id and a stake vault by its owner. An escrow of lamports is
    * what the wager account holds above its rent.
    */
  datatype Account =
    | Wallet(owner: Pubkey, mint: Pubkey)
    | WagerEscrow(wagerId: u64)
    | WagerVault(wagerId: u64)
    | StakeVault(staker: Pubkey)

  type Wagers = map<u64, Wager>
  type Stakes = map<Pubkey, UserStake>
  type Balances = map<Account, u64>

  datatype Ledger = Ledger(
    config: Config,
    wagers: Wagers,
    stakes: Stakes,
    balances: Balances)

  datatype Error =
    | AccountConstraint
    | InsufficientFunds
    | BalanceOverflow
    | InvalidWagerAmount
    | InvalidWagerParticipants
    | InvalidWagerWinner
    | Unauthorized
    | UserBanned
    | StakeRequired
    | StakingDisabled
    | InsufficientStake
    | ActiveWagers
    | WagerNotOpen
    | WagerNotMatched
    | WagerReserved
    | WagerNotReserved
    | MathOverflow
    | InvalidPayoutMode
    | InvalidIncrementValue
    | InvalidScoreSequence

  function BalanceOf(b: Balances, a: Account): u64 {
    if a in b then b[a] else 0
  }

  function MintOf(c: Config, asset: Asset): Pubkey {
    if asset.Sol? then DEFAULT_KEY else c.usdcMint
  }

  function EscrowOf(asset: Asset, wagerId: u64): Account {
    if asset.Sol? then WagerEscrow(wagerId) else WagerVault(wagerId)
  }

  /** The mint an account holds. */
  function Denomination(c: Config, a: Account): Pubkey {
    match a
    case Wallet(_, mint) => mint
    case WagerEscrow(_) => DEFAULT_KEY
    case WagerVault(_) => c.usdcMint
    case StakeVault(_) => c.tokenMint
  }

  predicate IsParticipant(w: Wager, user: Pubkey) {
    user == w.maker || user == w.opponent
  }

  /** The wager occupies one of the user's active slots. */
  predicate IsLive(w: Wager, user: Pubkey) {
    || (w.status == OPEN && w.maker == user)
    || (w.status == MATCHED && IsParticipant(w, user))
  }
}
