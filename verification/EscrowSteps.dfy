/** Every instruction keeps the ledger invariant, the supply of every mint, and the surplus of
  * every custodial account.
  */
module EscrowSteps {
  import opened Basics
  import opened ProgramState
  import opened EscrowSpec
  import opened LedgerSums
  import opened EscrowInvariant

  /** What a plain transfer adds to a custodial account. */
  function Gift(ix: Instruction, a: Account): nat {
    if ix.Deposit? && ix.to == a then ix.amount else 0
  }

  ghost predicate SameSupply(c: Config, b: Balances, b': Balances) {
    forall mint :: Total(c, b', mint) == Total(c, b, mint)
  }

  ghost predicate SurplusFollows(l: Ledger, ix: Instruction, l': Ledger) {
    forall a :: Custodial(a) ==> Surplus(l', a) == Surplus(l, a) + Gift(ix, a)
  }

  ghost predicate Keeps(l: Ledger, ix: Instruction, l': Ledger) {
    && Valid(l')
    && l'.config.usdcMint == l.config.usdcMint && l'.config.tokenMint == l.config.tokenMint
    && SameSupply(l.config, l.balances, l'.balances)
    && SurplusFollows(l, ix, l')
  }

  lemma SolventFollows(l: Ledger, ix: Instruction, l': Ledger)
    requires SolventOk(l) && SurplusFollows(l, ix, l')
    ensures SolventOk(l')
  {
  }

  lemma SupplyFollows(c: Config, b: Balances, b': Balances)
    requires SupplyOk(c, b) && SameSupply(c, b, b')
    ensures SupplyOk(c, b')
  {
  }

  // ----- Writing one wager -----

  /** Each stake account changes at most its counter, and that by the change in its owner's
    * liveness in the written wager.
    */
  ghost predicate StakesFollow(wagers: Wagers, stakes: Stakes, id: u64, w: Wager, stakes': Stakes) {
    && stakes.Keys <= stakes'.Keys
    && forall u :: u in stakes' ==>
         && (if u in stakes then
               && stakes'[u].owner == stakes[u].owner
               && stakes'[u].amount == stakes[u].amount
               && stakes'[u].banned == stakes[u].banned
             else u != DEFAULT_KEY && stakes'[u].owner == u && stakes'[u].amount == 0 && !stakes'[u].banned)
         && stakes'[u].activeWagers
            == ActiveOf(stakes, u) - One(id in wagers && IsLive(wagers[id], u)) + One(IsLive(w, u))
  }

  function OwedAt(wagers: Wagers, id: u64): nat {
    if id in wagers then Owed(wagers[id]) else 0
  }

  /** Among custodial accounts only the wager's own escrow moves, by the change in what is owed. */
  ghost predicate EscrowFollows(wagers: Wagers, b: Balances, escrow: Account, id: u64, w: Wager, b': Balances) {
    forall a :: Custodial(a) ==>
      && (a in b' <==> a in b || a == escrow)
      && BalanceOf(b', a) - BalanceOf(b, a) == if a == escrow then Owed(w) - OwedAt(wagers, id) else 0
  }

  ghost predicate Writes(l: Ledger, asset: Asset, id: u64, w: Wager, l': Ledger) {
    && l'.config == l.config
    && l'.wagers == l.wagers[id := w]
    && RecordOk(w) && w.wagerId == id && w.tokenMint == MintOf(l.config, asset)
    && (id in l.wagers ==> l.wagers[id].tokenMint == w.tokenMint)
    && w.maker in l'.stakes && (w.opponent != DEFAULT_KEY ==> w.opponent in l'.stakes)
    && StakesFollow(l.wagers, l.stakes, id, w, l'.stakes)
    && EscrowFollows(l.wagers, l.balances, EscrowOf(asset, id), id, w, l'.balances)
    && SameSupply(l.config, l.balances, l'.balances)
  }

  lemma CountersFollow(wagers: Wagers, stakes: Stakes, id: u64, w: Wager, stakes': Stakes)
    requires SeatsOk(wagers, stakes) && CountersOk(wagers, stakes)
    requires StakesFollow(wagers, stakes, id, w, stakes')
    ensures CountersOk(wagers[id := w], stakes')
  {
    forall u | u in stakes'
      ensures stakes'[u].activeWagers == |LiveWagers(wagers[id := w], u)|
    {
      CountsLive(wagers, stakes, u);
      LiveAfterUpdate(wagers, id, w, u);
    }
  }

  lemma SurplusUnmoved(l: Ledger, asset: Asset, id: u64, w: Wager, l': Ledger, a: Account)
    requires l.config.usdcMint != DEFAULT_KEY
    requires Writes(l, asset, id, w, l') && Custodial(a)
    ensures Surplus(l', a) == Surplus(l, a)
  {
  }

  lemma VaultsFollow(l: Ledger, asset: Asset, id: u64, w: Wager, l': Ledger)
    requires l.config.usdcMint != DEFAULT_KEY
    requires VaultsOk(l.wagers, l.balances) && Writes(l, asset, id, w, l')
    ensures VaultsOk(l'.wagers, l'.balances)
  {
  }

  lemma RecordsFollow(l: Ledger, asset: Asset, id: u64, w: Wager, l': Ledger)
    requires RecordsOk(l.config, l.wagers) && SeatsOk(l.wagers, l.stakes) && Writes(l, asset, id, w, l')
    ensures RecordsOk(l'.config, l'.wagers) && SeatsOk(l'.wagers, l'.stakes)
  {
  }

  /** A transaction that writes one wager keeps everything. */
  lemma WritesKeeps(l: Ledger, ix: Instruction, asset: Asset, id: u64, w: Wager, l': Ledger)
    requires Valid(l) && !ix.Deposit? && Writes(l, asset, id, w, l')
    ensures Keeps(l, ix, l')
  {
    RecordsFollow(l, asset, id, w, l');
    CountersFollow(l.wagers, l.stakes, id, w, l'.stakes);
    VaultsFollow(l, asset, id, w, l');
    SupplyFollows(l.config, l.balances, l'.balances);
    forall a | Custodial(a)
      ensures Surplus(l', a) == Surplus(l, a) + Gift(ix, a)
    {
      SurplusUnmoved(l, asset, id, w, l', a);
    }
    SolventFollows(l, ix, l');
  }

  // ----- The wager instructions -----

  /** Paying out of an escrow exactly what is no longer owed. */
  lemma MoveFollows(l: Ledger, asset: Asset, id: u64, to: Pubkey, amount: u64, w: Wager)
    requires id in l.wagers
    requires var escrow, wallet := EscrowOf(asset, id), Wallet(to, MintOf(l.config, asset));
             Move(l.balances, escrow, wallet, amount).Ok?
    requires Owed(l.wagers[id]) - Owed(w) == amount
    ensures var escrow, wallet := EscrowOf(asset, id), Wallet(to, MintOf(l.config, asset));
            var b' := Move(l.balances, escrow, wallet, amount).value;
            EscrowFollows(l.wagers, l.balances, escrow, id, w, b') && SameSupply(l.config, l.balances, b')
  {
    MoveKeepsSupply(l.config, l.balances, EscrowOf(asset, id), Wallet(to, MintOf(l.config, asset)), amount);
  }

  lemma ScoreOwed(w: Wager, beneficiary: Pubkey, sequence: u32)
    requires RecordOk(w) && PayIncrement(w, beneficiary, sequence).Ok?
    ensures var paid := PayIncrement(w, beneficiary, sequence).value;
            Owed(w) - Owed(paid.wager) == paid.transferred
  {
  }

  lemma ScoreStakes(wagers: Wagers, stakes: Stakes, id: u64, w: Wager)
    requires id in wagers && wagers[id].status == MATCHED && Seated(wagers[id])
    requires wagers[id].maker in stakes && wagers[id].opponent in stakes
    requires w.maker == wagers[id].maker && w.opponent == wagers[id].opponent
    ensures w.status == MATCHED ==> StakesFollow(wagers, stakes, id, w, stakes)
    ensures w.status == SETTLED && ReleaseBoth(stakes, wagers[id]).Ok? ==>
              StakesFollow(wagers, stakes, id, w, ReleaseBoth(stakes, wagers[id]).value)
  {
  }

  lemma CreateWrites(l: Ledger, ix: Instruction)
    requires ix.CreateWager? && Step(l, ix).Ok?
    requires ix.maker in l.stakes ==> l.stakes[ix.maker].owner == ix.maker
    ensures Writes(l, ix.asset, ix.wagerId, Opened(ix, MintOf(l.config, ix.asset)), Step(l, ix).value)
  {
    var mint := MintOf(l.config, ix.asset);
    MoveKeepsSupply(l.config, l.balances, Wallet(ix.maker, mint), EscrowOf(ix.asset, ix.wagerId), ix.amount);
  }

  predicate GoodAt(l: Ledger, id: u64) {
    id in l.wagers && l.wagers[id].wagerId == id && RecordOk(l.wagers[id])
  }

  lemma JoinWrites(l: Ledger, ix: Instruction)
    requires ix.JoinWager? && Step(l, ix).Ok? && GoodAt(l, ix.wagerId)
    requires l.wagers[ix.wagerId].maker in l.stakes
    requires ix.opponent in l.stakes ==> l.stakes[ix.opponent].owner == ix.opponent
    ensures Writes(l, ix.asset, ix.wagerId, Step(l, ix).value.wagers[ix.wagerId], Step(l, ix).value)
  {
    var w := l.wagers[ix.wagerId];
    MoveKeepsSupply(l.config, l.balances, Wallet(ix.opponent, w.tokenMint), EscrowOf(ix.asset, ix.wagerId), w.amount);
  }

  lemma RefundWrites(l: Ledger, asset: Asset, id: u64, remaining: u64)
    requires Loads(l, asset, id) && GoodAt(l, id) && l.wagers[id].status == OPEN
    requires l.wagers[id].maker in l.stakes && Refund(l, asset, id, remaining).Ok?
    ensures Writes(l, asset, id, Refund(l, asset, id, remaining).value.wagers[id],
                   Refund(l, asset, id, remaining).value)
  {
    var w := l.wagers[id];
    MoveFollows(l, asset, id, w.maker, w.amount, w.(status := CANCELLED, makerRemaining := remaining));
  }

  lemma SettleWrites(l: Ledger, ix: Instruction)
    requires ix.SettleWager? && Step(l, ix).Ok? && GoodAt(l, ix.wagerId)
    ensures Writes(l, ix.asset, ix.wagerId, Closed(l.wagers[ix.wagerId], SETTLED, ix.winner), Step(l, ix).value)
  {
    var w := l.wagers[ix.wagerId];
    ScoreStakes(l.wagers, l.stakes, ix.wagerId, Closed(w, SETTLED, ix.winner));
    MoveFollows(l, ix.asset, ix.wagerId, ix.winner, w.amount * 2, Closed(w, SETTLED, ix.winner));
  }

  lemma ScoreWrites(l: Ledger, ix: Instruction)
    requires ix.SettleIncrement? && Step(l, ix).Ok? && GoodAt(l, ix.wagerId)
    ensures Writes(l, ix.asset, ix.wagerId,
                   PayIncrement(l.wagers[ix.wagerId], ix.beneficiary, ix.sequence).value.wager, Step(l, ix).value)
  {
    var w := l.wagers[ix.wagerId];
    var paid := PayIncrement(w, ix.beneficiary, ix.sequence).value;
    PayIncrementKeepsRecord(w, ix.beneficiary, ix.sequence);
    ScoreStakes(l.wagers, l.stakes, ix.wagerId, paid.wager);
    ScoreOwed(w, ix.beneficiary, ix.sequence);
    MoveFollows(l, ix.asset, ix.wagerId, ix.beneficiary, paid.transferred, paid.wager);
  }

  lemma InvalidateWrites(l: Ledger, ix: Instruction)
    requires ix.InvalidateWager? && Step(l, ix).Ok? && GoodAt(l, ix.wagerId)
    ensures Writes(l, ix.asset, ix.wagerId, Closed(l.wagers[ix.wagerId], CANCELLED, l.wagers[ix.wagerId].winner),
                   Step(l, ix).value)
  {
    var w := l.wagers[ix.wagerId];
    var escrow := EscrowOf(ix.asset, ix.wagerId);
    var toMaker, toOpponent := Wallet(w.maker, w.tokenMint), Wallet(w.opponent, w.tokenMint);
    var b1 := Move(l.balances, escrow, toMaker, w.makerRemaining).value;
    MoveKeepsSupply(l.config, l.balances, escrow, toMaker, w.makerRemaining);
    MoveKeepsSupply(l.config, b1, escrow, toOpponent, w.opponentRemaining);
  }

  lemma OpenStepKeeps(l: Ledger, ix: Instruction)
    requires Valid(l) && Step(l, ix).Ok?
    requires ix.CreateWager? || ix.JoinWager? || ix.CancelWager? || ix.DeclineWager?
    ensures Keeps(l, ix, Step(l, ix).value)
  {
    var l' := Step(l, ix).value;
    match ix {
      case CreateWager(_, _, _, _, _, _, _, _) => CreateWrites(l, ix);
      case JoinWager(_, _, _) => JoinWrites(l, ix);
      case CancelWager(asset, id, _) => RefundWrites(l, asset, id, l.wagers[id].makerRemaining);
      case DeclineWager(asset, id, _) => RefundWrites(l, asset, id, 0);
    }
    WritesKeeps(l, ix, ix.asset, ix.wagerId, l'.wagers[ix.wagerId], l');
  }

  lemma MatchedStepKeeps(l: Ledger, ix: Instruction)
    requires Valid(l) && Step(l, ix).Ok?
    requires ix.SettleWager? || ix.SettleIncrement? || ix.InvalidateWager?
    ensures Keeps(l, ix, Step(l, ix).value)
  {
    var l' := Step(l, ix).value;
    match ix {
      case SettleWager(_, _, _, _) => SettleWrites(l, ix);
      case SettleIncrement(_, _, _, _, _) => ScoreWrites(l, ix);
      case InvalidateWager(_, _, _) => InvalidateWrites(l, ix);
    }
    WritesKeeps(l, ix, ix.asset, ix.wagerId, l'.wagers[ix.wagerId], l');
  }

  // ----- The other instructions -----

  /** Wagers and counters stay; one user's staked amount and vault move together. */
  ghost predicate Stakes1(l: Ledger, user: Pubkey, l': Ledger) {
    && l'.config == l.config && l'.wagers == l.wagers
    && user in l'.stakes
    && l'.stakes == l.stakes[user := l'.stakes[user]]
    && user != DEFAULT_KEY && l'.stakes[user].owner == user
    && l'.stakes[user].activeWagers == ActiveOf(l.stakes, user)
    && (l'.stakes[user].banned ==> l'.stakes[user].amount == 0)
    && (forall a :: Custodial(a) && a != StakeVault(user) ==>
          (a in l'.balances <==> a in l.balances) && BalanceOf(l'.balances, a) == BalanceOf(l.balances, a))
    && Surplus(l', StakeVault(user)) == Surplus(l, StakeVault(user))
    && SameSupply(l.config, l.balances, l'.balances)
  }

  lemma StakesSurplus(l: Ledger, user: Pubkey, l': Ledger, a: Account)
    requires Stakes1(l, user, l') && Custodial(a)
    ensures Surplus(l', a) == Surplus(l, a)
  {
  }

  lemma StakesRecords(l: Ledger, user: Pubkey, l': Ledger)
    requires SeatsOk(l.wagers, l.stakes) && CountersOk(l.wagers, l.stakes) && Stakes1(l, user, l')
    requires VaultsOk(l.wagers, l.balances)
    ensures SeatsOk(l'.wagers, l'.stakes) && CountersOk(l'.wagers, l'.stakes)
    ensures VaultsOk(l'.wagers, l'.balances)
  {
    CountsLive(l.wagers, l.stakes, user);
    assert CountersOk(l'.wagers, l'.stakes) by {
      forall u | u in l'.stakes
        ensures l'.stakes[u].activeWagers == |LiveWagers(l'.wagers, u)|
      {
        assert u != user ==> u in l.stakes && l'.stakes[u] == l.stakes[u];
      }
    }
  }

  lemma StakesKeeps(l: Ledger, ix: Instruction, user: Pubkey, l': Ledger)
    requires Valid(l) && !ix.Deposit? && Stakes1(l, user, l')
    ensures Keeps(l, ix, l')
  {
    StakesRecords(l, user, l');
    SupplyFollows(l.config, l.balances, l'.balances);
    forall a | Custodial(a)
      ensures Surplus(l', a) == Surplus(l, a) + Gift(ix, a)
    {
      StakesSurplus(l, user, l', a);
    }
    SolventFollows(l, ix, l');
  }

  lemma StakingWrites(l: Ledger, ix: Instruction)
    requires (ix.StakeTokens? || ix.UnstakeTokens? || ix.BanUser?) && Step(l, ix).Ok?
    requires ix.user != DEFAULT_KEY && (ix.user in l.stakes ==> l.stakes[ix.user].owner == ix.user)
    ensures Stakes1(l, ix.user, Step(l, ix).value)
  {
    var vault, wallet := StakeVault(ix.user), Wallet(ix.user, l.config.tokenMint);
    match ix {
      case StakeTokens(user, amount) =>
        MoveKeepsSupply(l.config, l.balances, wallet, vault, amount);
      case UnstakeTokens(user, amount) =>
        MoveKeepsSupply(l.config, l.balances, vault, wallet, amount);
      case BanUser(user, treasury, _) =>
        if l.stakes[user].amount > 0 {
          MoveKeepsSupply(l.config, l.balances, vault, Wallet(treasury, l.config.tokenMint), l.stakes[user].amount);
        }
    }
  }

  lemma SendKeeps(l: Ledger, ix: Instruction)
    requires Valid(l) && ix.Deposit? && Step(l, ix).Ok?
    ensures Keeps(l, ix, Step(l, ix).value)
  {
    var l' := Send(l, ix).value;
    var from := Wallet(ix.from, Denomination(l.config, ix.to));
    MoveKeepsSupply(l.config, l.balances, from, ix.to, ix.amount);
    SupplyFollows(l.config, l.balances, l'.balances);
    assert VaultsOk(l'.wagers, l'.balances);
    forall a | Custodial(a)
      ensures Surplus(l', a) == Surplus(l, a) + Gift(ix, a)
    {
      assert Obligation(l', a) == Obligation(l, a);
    }
    SolventFollows(l, ix, l');
  }

  lemma SameSupplyElsewhere(c: Config, c': Config, b: Balances)
    requires SupplyOk(c, b)
    requires forall mint :: Total(c', b, mint) == Total(c, b, mint)
    ensures SupplyOk(c', b)
  {
  }

  lemma ReconfigureKeeps(l: Ledger, ix: Instruction)
    requires Valid(l) && ix.UpdateConfig? && Step(l, ix).Ok?
    ensures Keeps(l, ix, Step(l, ix).value)
  {
    var l' := Step(l, ix).value;
    forall mint
      ensures Total(l'.config, l.balances, mint) == Total(l.config, l.balances, mint)
    {
      assert Holders(l'.config, l.balances, mint) == Holders(l.config, l.balances, mint);
    }
    SameSupplyElsewhere(l.config, l'.config, l.balances);
    forall a | Custodial(a)
      ensures Surplus(l', a) == Surplus(l, a) + Gift(ix, a)
    {
      assert Obligation(l', a) == Obligation(l, a);
    }
    SolventFollows(l, ix, l');
  }

  /** Every accepted transaction keeps the invariant, moves no money between mints, and changes the
    * surplus of a custodial account only by what outsiders send to it.
    */
  lemma StepKeeps(l: Ledger, ix: Instruction)
    requires Valid(l) && Step(l, ix).Ok?
    ensures Keeps(l, ix, Step(l, ix).value)
  {
    match ix
    case StakeTokens(user, _) => StakingWrites(l, ix); StakesKeeps(l, ix, user, Step(l, ix).value);
    case UnstakeTokens(user, _) => StakingWrites(l, ix); StakesKeeps(l, ix, user, Step(l, ix).value);
    case BanUser(user, _, _) => StakingWrites(l, ix); StakesKeeps(l, ix, user, Step(l, ix).value);
    case UpdateConfig(_, _, _, _, _) => ReconfigureKeeps(l, ix);
    case Deposit(_, _, _) => SendKeeps(l, ix);
    case SettleWager(_, _, _, _) => MatchedStepKeeps(l, ix);
    case SettleIncrement(_, _, _, _, _) => MatchedStepKeeps(l, ix);
    case InvalidateWager(_, _, _) => MatchedStepKeeps(l, ix);
    case _ => OpenStepKeeps(l, ix);
  }
}
