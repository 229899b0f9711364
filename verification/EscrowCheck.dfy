/** Where the API reads the chain: a player's access, and the comparison of an escrow account with its row
  * before a wager goes live.
  */
module EscrowCheck {
  import opened Basics
  import opened ProgramState
  import opened EscrowSpec
  import opened EscrowInvariant
  import opened EscrowSteps
  import opened EscrowEffects
  import opened EscrowRuns
  import opened EscrowExits
  import opened AccountLayout
  import opened WagerRows
  import JobQueue
  import Settlement

  // ----- Access -----

  datatype Environment = Environment(tokenMint: Pubkey, usdcMint: Pubkey, stakingEnabled: bool)

  datatype Access = Access(amount: nat, requiredStake: nat, banned: bool, active: bool)

  datatype AccessError = NotInitialized | MintMismatch | StakingMismatch

  predicate HasPlatformAccess(amount: nat, requiredStake: nat, banned: bool, stakingEnabled: bool) {
    !banned && (!stakingEnabled || amount >= requiredStake)
  }

  /** getAccess, from the raw accounts. */
  function GetAccess(env: Environment, stake: Option<Bytes>, config: Option<Bytes>): Result<Access, AccessError> {
    var initialized := config.Some? && DecodeConfig(config.value).Some?;
    :- Need(initialized, NotInitialized);
    var c := DecodeConfig(config.value).value;
    :- Need(c.tokenMint == env.tokenMint && c.usdcMint == env.usdcMint, MintMismatch);
    :- Need(c.stakingEnabled == env.stakingEnabled, StakingMismatch);
    if stake == None || DecodeStake(stake.value) == None then
      Ok(Access(0, c.requiredStake, false, !env.stakingEnabled))
    else
      var s := DecodeStake(stake.value).value;
      Ok(Access(s.amount, c.requiredStake, s.banned,
                HasPlatformAccess(s.amount, c.requiredStake, s.banned, env.stakingEnabled)))
  }

  /** Staking is never required at zero. */
  predicate StakingRule(c: Config) {
    c.stakingEnabled ==> c.requiredStake > 0
  }

  lemma StepKeepsStakingRule(l: Ledger, ix: Instruction)
    requires StakingRule(l.config) && Step(l, ix).Ok?
    ensures StakingRule(Step(l, ix).value.config)
  {
  }

  lemma {:induction false} RunKeepsStakingRule(l: Ledger, ixs: seq<Instruction>)
    requires StakingRule(l.config)
    ensures StakingRule(Run(l, ixs).config)
  {
    if ixs != [] {
      var before := Run(l, ixs[..|ixs| - 1]);
      RunKeepsStakingRule(l, ixs[..|ixs| - 1]);
      if Step(before, ixs[|ixs| - 1]).Ok? {
        StepKeepsStakingRule(before, ixs[|ixs| - 1]);
      }
    }
  }

  /** The stake account of a user as raw account data; its discriminator and its bump are its own. */
  predicate StakeData(stakes: Stakes, user: Pubkey, tag: Discriminator, bump: u8, data: Option<Bytes>) {
    if user in stakes then data.Some? && Holds(data.value, StakeFields(tag, stakes[user], bump)) else data == None
  }

  lemma AccessFollows(l: Ledger, user: Pubkey, env: Environment, stakeTag: Discriminator, stakeBump: u8,
                      configTag: Discriminator, configBump: u8, stake: Option<Bytes>, config: Bytes)
    requires StakingRule(l.config) && (user in l.stakes ==> l.stakes[user].owner == user != DEFAULT_KEY)
    requires StakeData(l.stakes, user, stakeTag, stakeBump, stake)
    requires Holds(config, ConfigFields(configTag, l.config, configBump))
    ensures GetAccess(env, stake, Some(config)).Ok? <==>
              env == Environment(l.config.tokenMint, l.config.usdcMint, l.config.stakingEnabled)
    ensures GetAccess(env, stake, Some(config)).Ok? ==>
              && GetAccess(env, stake, Some(config)).value.amount == StakedBy(l, user)
              && GetAccess(env, stake, Some(config)).value.requiredStake == l.config.requiredStake
              && (GetAccess(env, stake, Some(config)).value.banned <==> user in l.stakes && l.stakes[user].banned)
              && (GetAccess(env, stake, Some(config)).value.active <==>
                    WagerAccess(l.config, ClaimedStake(l.stakes, user)).Pass?)
  {
    ConfigDecodes(configTag, l.config, configBump, config);
    if user in l.stakes {
      StakeDecodes(stakeTag, l.stakes[user], stakeBump, stake.value);
    }
  }

  /** The API and the program agree on who may play: with matching settings, the access that the API computes
    * from the raw accounts is active exactly when the program's own check would pass, in every ledger that a
    * properly configured program can reach.
    */
  lemma AccessAgrees(l: Ledger, ixs: seq<Instruction>, user: Pubkey, env: Environment,
                     stakeTag: Discriminator, stakeBump: u8, configTag: Discriminator, configBump: u8,
                     stake: Option<Bytes>, config: Bytes)
    requires Valid(l) && StakingRule(l.config)
    requires StakeData(Run(l, ixs).stakes, user, stakeTag, stakeBump, stake)
    requires Holds(config, ConfigFields(configTag, Run(l, ixs).config, configBump))
    requires env == Environment(l.config.tokenMint, l.config.usdcMint, Run(l, ixs).config.stakingEnabled)
    ensures var access := GetAccess(env, stake, Some(config));
            && access.Ok? && access.value.amount == StakedBy(Run(l, ixs), user)
            && access.value.requiredStake == Run(l, ixs).config.requiredStake
            && (access.value.banned <==> user in Run(l, ixs).stakes && Run(l, ixs).stakes[user].banned)
            && (access.value.active <==>
                  WagerAccess(Run(l, ixs).config, ClaimedStake(Run(l, ixs).stakes, user)).Pass?)
  {
    RunKeepsValid(l, ixs);
    RunKeepsStakingRule(l, ixs);
    AccessFollows(Run(l, ixs), user, env, stakeTag, stakeBump, configTag, configBump, stake, config);
  }

  // ----- Going live -----

  /** assertOnChainWager: does the escrow account match the row? */
  predicate EscrowMatches(onChain: Option<DecodedWager>, r: Row, mint: Pubkey, expectedStatus: u8,
                          expectedOpponent: Option<Pubkey>)
  {
    && onChain.Some?
    && var w := onChain.value;
       && w.maker == r.maker
       && (expectedStatus == OPEN || expectedOpponent == Some(w.opponent))
       && w.amount == r.amount && w.tokenMint == mint && w.status == expectedStatus
       && w.payoutMode == (if r.incremental then INCREMENTAL else WINNER_TAKE_ALL)
       && w.makerRemaining == r.amount && w.opponentRemaining == r.amount
  }

  /** The record shows the row's terms, in this mint. */
  predicate SameTerms(w: Wager, r: Row, mint: Pubkey) {
    && w.maker == r.maker && w.amount == r.amount && w.tokenMint == mint
    && (w.payoutMode == INCREMENTAL <==> r.incremental)
  }

  lemma RecordMatches(w: Wager, r: Row, mint: Pubkey, opponent: Option<Pubkey>)
    requires RecordOk(w)
    ensures var onChain := Some(DecodedWager(w.maker, w.challenger, w.opponent, w.amount, w.tokenMint, w.status,
                                             w.payoutMode, w.makerRemaining, w.opponentRemaining));
            && (EscrowMatches(onChain, r, mint, OPEN, opponent) <==> w.status == OPEN && SameTerms(w, r, mint))
            && (EscrowMatches(onChain, r, mint, MATCHED, opponent) <==>
                  && w.status == MATCHED && SameTerms(w, r, mint) && opponent == Some(w.opponent)
                  && w.makerScore == w.opponentScore == 0)
  {
    if w.makerScore > 0 {
      assert Won(w, w.maker) >= w.incrementValue;
    }
    if w.opponentScore > 0 && Seated(w) {
      assert Won(w, w.opponent) >= w.incrementValue;
    }
  }

  /** From the account bytes of any ledger that the program can reach the check passes exactly for an open wager with
    * the row's terms, or, when a live one is expected, for a matched one with the expected opponent and no score yet.
    */
  lemma CheckPassesIff(l: Ledger, ixs: seq<Instruction>, id: u64, r: Row, mint: Pubkey, opponent: Option<Pubkey>,
                       tag: Discriminator, data: Bytes)
    requires Valid(l) && id in Run(l, ixs).wagers && Holds(data, WagerFields(tag, Run(l, ixs).wagers[id]))
    ensures var w := Run(l, ixs).wagers[id];
            && (EscrowMatches(DecodeWager(data), r, mint, OPEN, opponent) <==>
                  w.status == OPEN && SameTerms(w, r, mint))
            && (EscrowMatches(DecodeWager(data), r, mint, MATCHED, opponent) <==>
                  && w.status == MATCHED && SameTerms(w, r, mint) && opponent == Some(w.opponent)
                  && w.makerScore == w.opponentScore == 0)
  {
    RunKeepsValid(l, ixs);
    WagerDecodes(tag, Run(l, ixs).wagers[id], data);
    RecordMatches(Run(l, ixs).wagers[id], r, mint, opponent);
  }

  /** A row as it was inserted, but for its opponent and its signatures. */
  predicate Untouched(r: Row) {
    && r.winner == None && r.makerRemaining == r.amount && r.makerScore == r.opponentScore == 0
    && r.cashoutRequestedBy == None && r.makerFinal == None && r.opponentFinal == None
  }

  predicate LobbyOk(r: Row) {
    r.status in {Open, Accepted, MakerFunded} ==> Untouched(r)
  }

  /** Until a wager goes live no API call touches its balances or scores, and none leads back. */
  lemma LobbyStays(r: Row, s: Statement)
    requires IsApi(s) && LobbyOk(r)
    ensures LobbyOk(After(r, s))
  {
  }

  function NewWorld(w: Wager, r: Row): Settlement.World {
    Settlement.World(Settlement.Chain(w, 0, 0, []), r, map[], {}, {}, JobQueue.Absent, false,
                     Settlement.NoEvent, Settlement.Idle, {}, false)
  }

  lemma EscrowFits(l: Ledger, asset: Asset, id: u64)
    requires Valid(l) && Loads(l, asset, id)
    ensures RecordOk(l.wagers[id]) && Owed(l.wagers[id]) <= U64_MAX
  {
    EscrowPays(l, asset, id, l.wagers[id].maker, 0);
  }

  /** When the check passes and the acceptance is committed, row and escrow are funded alike: the state from
    * which the settlement protocol is proved, but for the increment value, which the check does not compare.
    */
  lemma CheckedWagerStarts(l: Ledger, asset: Asset, id: u64, r: Row, opponent: Pubkey, tag: Discriminator, data: Bytes)
    requires Valid(l) && Loads(l, asset, id) && Holds(data, WagerFields(tag, l.wagers[id]))
    requires LobbyOk(r) && r.incremental && 0 < r.incrementValue <= r.amount && Updated(r, Accept(opponent)).Some?
    requires EscrowMatches(DecodeWager(data), r, MintOf(l.config, asset), MATCHED, Some(opponent))
    ensures Settlement.FundedAlike(NewWorld(l.wagers[id], After(r, Accept(opponent))))
  {
    WagerDecodes(tag, l.wagers[id], data);
    EscrowFits(l, asset, id);
    RowStarts(l.wagers[id], r, MintOf(l.config, asset), opponent);
  }

  /** The row's own calls on the chain pass it: the maker's creation with the row's terms passes the check for an open
    * wager, and the opponent's joining then passes the check for a live one.
    */
  lemma OwnCallsPass(l: Ledger, r: Row, create: Instruction, join: Instruction, tag: Discriminator, before: Bytes,
                     after: Bytes)
    requires Valid(l) && create.CreateWager? && join.JoinWager? && join.wagerId == create.wagerId
    requires join.asset == create.asset
    requires create.maker == r.maker && create.amount == r.amount
    requires create.payoutMode == (if r.incremental then INCREMENTAL else WINNER_TAKE_ALL)
    requires Step(l, create).Ok? && ShowsWager(Step(l, create).value, create.wagerId, tag, before)
    requires Step(Step(l, create).value, join).Ok?
    requires ShowsWager(Step(Step(l, create).value, join).value, create.wagerId, tag, after)
    ensures var mint := MintOf(l.config, create.asset);
            && EscrowMatches(DecodeWager(before), r, mint, OPEN, None)
            && EscrowMatches(DecodeWager(after), r, mint, MATCHED, Some(join.opponent))
  {
    var created := Step(l, create).value;
    StepKeeps(l, create);
    CreateEffect(l, create);
    PassesOpen(created, create.wagerId, r, MintOf(l.config, create.asset), tag, before);
    StepKeeps(created, join);
    JoinEffect(created, join);
    PassesMatched(Step(created, join).value, create.wagerId, r, MintOf(l.config, create.asset), join.opponent, tag,
                  after);
  }

  predicate ShowsWager(l: Ledger, id: u64, tag: Discriminator, data: Bytes) {
    id in l.wagers && Holds(data, WagerFields(tag, l.wagers[id]))
  }

  lemma PassesOpen(l: Ledger, id: u64, r: Row, mint: Pubkey, tag: Discriminator, data: Bytes)
    requires Valid(l) && ShowsWager(l, id, tag, data) && l.wagers[id].status == OPEN && SameTerms(l.wagers[id], r, mint)
    ensures EscrowMatches(DecodeWager(data), r, mint, OPEN, None)
  {
    CheckPassesIff(l, [], id, r, mint, None, tag, data);
  }

  lemma PassesMatched(l: Ledger, id: u64, r: Row, mint: Pubkey, opponent: Pubkey, tag: Discriminator, data: Bytes)
    requires Valid(l) && ShowsWager(l, id, tag, data) && l.wagers[id].status == MATCHED
    requires SameTerms(l.wagers[id], r, mint) && l.wagers[id].opponent == opponent
    requires l.wagers[id].makerScore == l.wagers[id].opponentScore == 0
    ensures EscrowMatches(DecodeWager(data), r, mint, MATCHED, Some(opponent))
  {
    CheckPassesIff(l, [], id, r, mint, Some(opponent), tag, data);
  }

  lemma RowStarts(w: Wager, r: Row, mint: Pubkey, opponent: Pubkey)
    requires RecordOk(w) && Owed(w) <= U64_MAX
    requires LobbyOk(r) && r.incremental && 0 < r.incrementValue <= r.amount && Updated(r, Accept(opponent)).Some?
    requires EscrowMatches(Some(DecodedWager(w.maker, w.challenger, w.opponent, w.amount, w.tokenMint, w.status,
                                             w.payoutMode, w.makerRemaining, w.opponentRemaining)),
                           r, mint, MATCHED, Some(opponent))
    ensures Settlement.FundedAlike(NewWorld(w, After(r, Accept(opponent))))
  {
  }
}
