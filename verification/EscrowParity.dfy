/** SOL and USDC are one machine: exchange the two assets everywhere in a ledger, and every run maps to the run
  * with the assets exchanged, step by step, with the same errors.
  */
module EscrowParity {
  import opened Basics
  import opened ProgramState
  import opened EscrowSpec
  import opened EscrowRuns

  // ----- The exchange -----

  function SwapMint(usdc: Pubkey, mint: Pubkey): Pubkey {
    if mint == DEFAULT_KEY then usdc else if mint == usdc then DEFAULT_KEY else mint
  }

  function Swap(usdc: Pubkey, a: Account): Account {
    match a
    case Wallet(owner, mint) => Wallet(owner, SwapMint(usdc, mint))
    case WagerEscrow(id) => WagerVault(id)
    case WagerVault(id) => WagerEscrow(id)
    case StakeVault(_) => a
  }

  function Other(asset: Asset): Asset {
    if asset.Sol? then Usdc else Sol
  }

  function SwapIx(usdc: Pubkey, ix: Instruction): Instruction {
    match ix
    case CreateWager(asset, maker, id, challenger, amount, mode, value, bump) =>
      CreateWager(Other(asset), maker, id, challenger, amount, mode, value, bump)
    case JoinWager(asset, id, opponent) => JoinWager(Other(asset), id, opponent)
    case CancelWager(asset, id, maker) => CancelWager(Other(asset), id, maker)
    case DeclineWager(asset, id, signer) => DeclineWager(Other(asset), id, signer)
    case SettleWager(asset, id, winner, signer) => SettleWager(Other(asset), id, winner, signer)
    case SettleIncrement(asset, id, beneficiary, sequence, signer) =>
      SettleIncrement(Other(asset), id, beneficiary, sequence, signer)
    case InvalidateWager(asset, id, signer) => InvalidateWager(Other(asset), id, signer)
    case Deposit(from, to, amount) => Deposit(from, Swap(usdc, to), amount)
    case _ => ix
  }

  /** Money that outsiders send into escrows is left out: lamports can be sent to any wager account, USDC only
    * to a vault that exists.
    */
  predicate Plain(ix: Instruction) {
    ix.Deposit? ==> ix.to.Wallet? || ix.to.StakeVault?
  }

  /** The three mints of a configuration are different. */
  predicate ThreeMints(c: Config) {
    c.usdcMint != DEFAULT_KEY && c.tokenMint != DEFAULT_KEY && c.tokenMint != c.usdcMint
  }

  ghost predicate SwappedFunds(usdc: Pubkey, b: Balances, b': Balances) {
    && (forall a {:trigger Swap(usdc, a)} :: BalanceOf(b', Swap(usdc, a)) == BalanceOf(b, a))
    && (forall u :: StakeVault(u) in b' <==> StakeVault(u) in b)
  }

  function SwapWager(usdc: Pubkey, w: Wager): Wager {
    w.(tokenMint := SwapMint(usdc, w.tokenMint))
  }

  predicate SwappedWagers(usdc: Pubkey, wagers: Wagers, wagers': Wagers) {
    && wagers'.Keys == wagers.Keys
    && (forall id :: id in wagers ==>
          wagers[id].tokenMint in {DEFAULT_KEY, usdc} && wagers'[id] == SwapWager(usdc, wagers[id]))
  }

  ghost predicate Mirrored(l: Ledger, m: Ledger) {
    && ThreeMints(l.config) && m.config == l.config && m.stakes == l.stakes
    && SwappedWagers(l.config.usdcMint, l.wagers, m.wagers)
    && SwappedFunds(l.config.usdcMint, l.balances, m.balances)
  }

  /** Equal outcomes: both succeed and leave mirrored ledgers, or both fail with one error. */
  ghost predicate SameOutcome(r: Result<Ledger, Error>, r': Result<Ledger, Error>) {
    match r
    case Ok(l) => r'.Ok? && Mirrored(l, r'.value)
    case Err(e) => r' == Err(e)
  }

  ghost predicate SameMove(usdc: Pubkey, r: Result<Balances, Error>, r': Result<Balances, Error>) {
    match r
    case Ok(b) => r'.Ok? && SwappedFunds(usdc, b, r'.value)
    case Err(e) => r' == Err(e)
  }

  // ----- One step -----

  lemma SwapTwice(usdc: Pubkey, a: Account)
    requires usdc != DEFAULT_KEY
    ensures Swap(usdc, Swap(usdc, a)) == a
  {
  }

  lemma MoveSwaps(usdc: Pubkey, b: Balances, b': Balances, from: Account, to: Account, amount: u64)
    requires usdc != DEFAULT_KEY && SwappedFunds(usdc, b, b') && from != to && Swap(usdc, from) != Swap(usdc, to)
    ensures SameMove(usdc, Move(b, from, to, amount), Move(b', Swap(usdc, from), Swap(usdc, to), amount))
  {
    var r := Move(b, from, to, amount);
    assert BalanceOf(b', Swap(usdc, from)) == BalanceOf(b, from) && BalanceOf(b', Swap(usdc, to)) == BalanceOf(b, to);
    if r.Ok? {
      var r' := Move(b', Swap(usdc, from), Swap(usdc, to), amount);
      forall a
        ensures BalanceOf(r'.value, Swap(usdc, a)) == BalanceOf(r.value, a)
      {
        SwapTwice(usdc, a);
        SwapTwice(usdc, from);
        SwapTwice(usdc, to);
      }
    }
  }

  lemma IncrementSwaps(usdc: Pubkey, w: Wager, beneficiary: Pubkey, sequence: u32)
    ensures var r := PayIncrement(w, beneficiary, sequence);
            var r' := PayIncrement(SwapWager(usdc, w), beneficiary, sequence);
            match r
            case Ok(paid) => r' == Ok(paid.(wager := SwapWager(usdc, paid.wager)))
            case Err(e) => r' == Err(e)
  {
  }

  /** A wager is found on one side exactly when its mirror image is found on the other. */
  ghost predicate Prepared(l: Ledger, m: Ledger, asset: Asset, id: u64) {
    && ThreeMints(l.config) && m.config == l.config && m.stakes == l.stakes
    && (Loads(m, Other(asset), id) <==> Loads(l, asset, id))
    && (Loads(l, asset, id) ==> m.wagers[id] == SwapWager(l.config.usdcMint, l.wagers[id]))
  }

  lemma LoadsSwap(l: Ledger, m: Ledger, asset: Asset, id: u64)
    requires Mirrored(l, m)
    ensures Prepared(l, m, asset, id)
  {
  }

  lemma WritesSwap(usdc: Pubkey, wagers: Wagers, wagers': Wagers, id: u64, w: Wager)
    requires SwappedWagers(usdc, wagers, wagers') && w.tokenMint in {DEFAULT_KEY, usdc}
    ensures SwappedWagers(usdc, wagers[id := w], wagers'[id := SwapWager(usdc, w)])
  {
  }

  lemma CreateSwaps(l: Ledger, m: Ledger, ix: Instruction)
    requires ix.CreateWager? && Mirrored(l, m)
    ensures SameOutcome(Create(l, ix), Create(m, SwapIx(l.config.usdcMint, ix)))
  {
    var usdc := l.config.usdcMint;
    MoveSwaps(usdc, l.balances, m.balances, Wallet(ix.maker, MintOf(l.config, ix.asset)),
              EscrowOf(ix.asset, ix.wagerId), ix.amount);
    WritesSwap(usdc, l.wagers, m.wagers, ix.wagerId, Opened(ix, MintOf(l.config, ix.asset)));
  }

  lemma JoinPrepared(l: Ledger, m: Ledger, ix: Instruction)
    requires ix.JoinWager? && Prepared(l, m, ix.asset, ix.wagerId)
    requires Loads(l, ix.asset, ix.wagerId) ==>
               var usdc, w := l.config.usdcMint, l.wagers[ix.wagerId];
               var from, escrow := Wallet(ix.opponent, MintOf(l.config, ix.asset)), EscrowOf(ix.asset, ix.wagerId);
               var w' := w.(opponent := ix.opponent, status := MATCHED);
               && SameMove(usdc, Move(l.balances, from, escrow, w.amount),
                           Move(m.balances, Swap(usdc, from), Swap(usdc, escrow), w.amount))
               && SwappedWagers(usdc, l.wagers[ix.wagerId := w'], m.wagers[ix.wagerId := SwapWager(usdc, w')])
    ensures SameOutcome(Join(l, ix), Join(m, SwapIx(l.config.usdcMint, ix)))
  {
  }

  lemma JoinSwaps(l: Ledger, m: Ledger, ix: Instruction)
    requires ix.JoinWager? && Mirrored(l, m)
    ensures SameOutcome(Join(l, ix), Join(m, SwapIx(l.config.usdcMint, ix)))
  {
    var usdc, id := l.config.usdcMint, ix.wagerId;
    LoadsSwap(l, m, ix.asset, id);
    if Loads(l, ix.asset, id) {
      MoveSwaps(usdc, l.balances, m.balances, Wallet(ix.opponent, MintOf(l.config, ix.asset)), EscrowOf(ix.asset, id),
                l.wagers[id].amount);
      WritesSwap(usdc, l.wagers, m.wagers, id, l.wagers[id].(opponent := ix.opponent, status := MATCHED));
    }
    JoinPrepared(l, m, ix);
  }

  lemma RefundSwaps(l: Ledger, m: Ledger, asset: Asset, id: u64, makerRemaining: u64)
    requires Mirrored(l, m) && Loads(l, asset, id) && Loads(m, Other(asset), id) && l.wagers[id].maker in l.stakes
    ensures SameOutcome(Refund(l, asset, id, makerRemaining), Refund(m, Other(asset), id, makerRemaining))
  {
    var usdc, w := l.config.usdcMint, l.wagers[id];
    MoveSwaps(usdc, l.balances, m.balances, EscrowOf(asset, id), Wallet(w.maker, w.tokenMint), w.amount);
    WritesSwap(usdc, l.wagers, m.wagers, id, w.(status := CANCELLED, makerRemaining := makerRemaining));
  }

  lemma CancelSwaps(l: Ledger, m: Ledger, ix: Instruction)
    requires ix.CancelWager? && Mirrored(l, m)
    ensures SameOutcome(Cancel(l, ix), Cancel(m, SwapIx(l.config.usdcMint, ix)))
  {
    LoadsSwap(l, m, ix.asset, ix.wagerId);
    if Loads(l, ix.asset, ix.wagerId) && l.wagers[ix.wagerId].maker in l.stakes {
      RefundSwaps(l, m, ix.asset, ix.wagerId, l.wagers[ix.wagerId].makerRemaining);
    }
  }

  lemma DeclineSwaps(l: Ledger, m: Ledger, ix: Instruction)
    requires ix.DeclineWager? && Mirrored(l, m)
    ensures SameOutcome(Decline(l, ix), Decline(m, SwapIx(l.config.usdcMint, ix)))
  {
    LoadsSwap(l, m, ix.asset, ix.wagerId);
    if Loads(l, ix.asset, ix.wagerId) && l.wagers[ix.wagerId].maker in l.stakes {
      RefundSwaps(l, m, ix.asset, ix.wagerId, 0);
    }
  }

  lemma SettlePrepared(l: Ledger, m: Ledger, ix: Instruction)
    requires ix.SettleWager? && Prepared(l, m, ix.asset, ix.wagerId)
    requires Loads(l, ix.asset, ix.wagerId) && l.wagers[ix.wagerId].amount * 2 <= U64_MAX ==>
               var usdc, w := l.config.usdcMint, l.wagers[ix.wagerId];
               var escrow, to := EscrowOf(ix.asset, ix.wagerId), Wallet(ix.winner, w.tokenMint);
               && SameMove(usdc, Move(l.balances, escrow, to, w.amount * 2),
                           Move(m.balances, Swap(usdc, escrow), Swap(usdc, to), w.amount * 2))
               && SwappedWagers(usdc, l.wagers[ix.wagerId := Closed(w, SETTLED, ix.winner)],
                                m.wagers[ix.wagerId := SwapWager(usdc, Closed(w, SETTLED, ix.winner))])
    ensures SameOutcome(Settle(l, ix), Settle(m, SwapIx(l.config.usdcMint, ix)))
  {
  }

  lemma SettleSwaps(l: Ledger, m: Ledger, ix: Instruction)
    requires ix.SettleWager? && Mirrored(l, m)
    ensures SameOutcome(Settle(l, ix), Settle(m, SwapIx(l.config.usdcMint, ix)))
  {
    var usdc, id := l.config.usdcMint, ix.wagerId;
    LoadsSwap(l, m, ix.asset, id);
    if Loads(l, ix.asset, id) && l.wagers[id].amount * 2 <= U64_MAX {
      var w := l.wagers[id];
      MoveSwaps(usdc, l.balances, m.balances, EscrowOf(ix.asset, id), Wallet(ix.winner, w.tokenMint), w.amount * 2);
      WritesSwap(usdc, l.wagers, m.wagers, id, Closed(w, SETTLED, ix.winner));
    }
    SettlePrepared(l, m, ix);
  }

  lemma ScoreRefused(l: Ledger, m: Ledger, ix: Instruction)
    requires ix.SettleIncrement? && Prepared(l, m, ix.asset, ix.wagerId)
    requires Loads(l, ix.asset, ix.wagerId) ==>
               var usdc, w := l.config.usdcMint, l.wagers[ix.wagerId];
               var r := PayIncrement(w, ix.beneficiary, ix.sequence);
               r.Err? && PayIncrement(SwapWager(usdc, w), ix.beneficiary, ix.sequence) == r
    ensures SameOutcome(Score(l, ix), Score(m, SwapIx(l.config.usdcMint, ix)))
  {
  }

  lemma ScorePaid(l: Ledger, m: Ledger, ix: Instruction, paid: Increment)
    requires ix.SettleIncrement? && Prepared(l, m, ix.asset, ix.wagerId) && Loads(l, ix.asset, ix.wagerId)
    requires var usdc, w := l.config.usdcMint, l.wagers[ix.wagerId];
             var escrow, to := EscrowOf(ix.asset, ix.wagerId), Wallet(ix.beneficiary, w.tokenMint);
             && PayIncrement(w, ix.beneficiary, ix.sequence) == Ok(paid)
             && PayIncrement(SwapWager(usdc, w), ix.beneficiary, ix.sequence)
                == Ok(paid.(wager := SwapWager(usdc, paid.wager)))
             && SameMove(usdc, Move(l.balances, escrow, to, paid.transferred),
                         Move(m.balances, Swap(usdc, escrow), Swap(usdc, to), paid.transferred))
             && SwappedWagers(usdc, l.wagers[ix.wagerId := paid.wager],
                              m.wagers[ix.wagerId := SwapWager(usdc, paid.wager)])
    ensures SameOutcome(Score(l, ix), Score(m, SwapIx(l.config.usdcMint, ix)))
  {
  }

  lemma ScoreSwaps(l: Ledger, m: Ledger, ix: Instruction)
    requires ix.SettleIncrement? && Mirrored(l, m)
    ensures SameOutcome(Score(l, ix), Score(m, SwapIx(l.config.usdcMint, ix)))
  {
    var id := ix.wagerId;
    LoadsSwap(l, m, ix.asset, id);
    if Loads(l, ix.asset, id) {
      IncrementSwaps(l.config.usdcMint, l.wagers[id], ix.beneficiary, ix.sequence);
      var paid := PayIncrement(l.wagers[id], ix.beneficiary, ix.sequence);
      if paid.Ok? {
        PaidSwaps(l, m, ix.asset, id, ix.beneficiary, paid.value);
        ScorePaid(l, m, ix, paid.value);
        return;
      }
    }
    ScoreRefused(l, m, ix);
  }

  lemma PaidSwaps(l: Ledger, m: Ledger, asset: Asset, id: u64, beneficiary: Pubkey, paid: Increment)
    requires Mirrored(l, m) && Loads(l, asset, id) && paid.wager.tokenMint == l.wagers[id].tokenMint
    ensures var usdc, escrow := l.config.usdcMint, EscrowOf(asset, id);
            var to := Wallet(beneficiary, l.wagers[id].tokenMint);
            && SameMove(usdc, Move(l.balances, escrow, to, paid.transferred),
                        Move(m.balances, Swap(usdc, escrow), Swap(usdc, to), paid.transferred))
            && SwappedWagers(usdc, l.wagers[id := paid.wager], m.wagers[id := SwapWager(usdc, paid.wager)])
  {
    MoveSwaps(l.config.usdcMint, l.balances, m.balances, EscrowOf(asset, id),
              Wallet(beneficiary, l.wagers[id].tokenMint), paid.transferred);
    WritesSwap(l.config.usdcMint, l.wagers, m.wagers, id, paid.wager);
  }

  /** Two payments out of one account, the second only after the first. */
  function TwoMoves(b: Balances, from: Account, to1: Account, amount1: u64, to2: Account, amount2: u64):
      Result<Balances, Error>
    requires from != to1 && from != to2
  {
    var b1 := Move(b, from, to1, amount1);
    if b1.Ok? then Move(b1.value, from, to2, amount2) else b1
  }

  /** An invalidation in terms of them. */
  function Refunded(l: Ledger, asset: Asset, id: u64, signer: Pubkey): Result<Ledger, Error> {
    var seated := LoadsSeated(l, asset, id);
    :- Need(seated, AccountConstraint);
    :- Need(signer == l.config.authority || signer == l.config.chainAuthority, Unauthorized);
    var w := l.wagers[id];
    :- Need(w.status == MATCHED, WagerNotMatched);
    var b :- TwoMoves(l.balances, EscrowOf(asset, id), Wallet(w.maker, w.tokenMint), w.makerRemaining,
                      Wallet(w.opponent, w.tokenMint), w.opponentRemaining);
    var s :- ReleaseBoth(l.stakes, w);
    Ok(l.(wagers := l.wagers[id := Closed(w, CANCELLED, w.winner)], stakes := s, balances := b))
  }

  lemma InvalidateRefunds(l: Ledger, ix: Instruction)
    requires ix.InvalidateWager?
    ensures Invalidate(l, ix) == Refunded(l, ix.asset, ix.wagerId, ix.signer)
  {
  }

  lemma TwoMovesSwap(usdc: Pubkey, b: Balances, b': Balances, from: Account, to1: Account, amount1: u64, to2: Account,
                     amount2: u64)
    requires usdc != DEFAULT_KEY && SwappedFunds(usdc, b, b') && from != to1 && from != to2
    requires Swap(usdc, from) != Swap(usdc, to1) && Swap(usdc, from) != Swap(usdc, to2)
    ensures SameMove(usdc, TwoMoves(b, from, to1, amount1, to2, amount2),
                     TwoMoves(b', Swap(usdc, from), Swap(usdc, to1), amount1, Swap(usdc, to2), amount2))
  {
    MoveSwaps(usdc, b, b', from, to1, amount1);
    var b1 := Move(b, from, to1, amount1);
    if b1.Ok? {
      MoveSwaps(usdc, b1.value, Move(b', Swap(usdc, from), Swap(usdc, to1), amount1).value, from, to2, amount2);
    }
  }

  lemma RefundedPrepared(l: Ledger, m: Ledger, asset: Asset, id: u64, signer: Pubkey)
    requires Prepared(l, m, asset, id)
    requires Loads(l, asset, id) ==>
               var usdc, w := l.config.usdcMint, l.wagers[id];
               var escrow := EscrowOf(asset, id);
               var to1, to2 := Wallet(w.maker, w.tokenMint), Wallet(w.opponent, w.tokenMint);
               && SameMove(usdc, TwoMoves(l.balances, escrow, to1, w.makerRemaining, to2, w.opponentRemaining),
                           TwoMoves(m.balances, Swap(usdc, escrow), Swap(usdc, to1), w.makerRemaining, Swap(usdc, to2),
                                    w.opponentRemaining))
               && SwappedWagers(usdc, l.wagers[id := Closed(w, CANCELLED, w.winner)],
                                m.wagers[id := SwapWager(usdc, Closed(w, CANCELLED, w.winner))])
    ensures SameOutcome(Refunded(l, asset, id, signer), Refunded(m, Other(asset), id, signer))
  {
  }

  lemma InvalidateSwaps(l: Ledger, m: Ledger, ix: Instruction)
    requires ix.InvalidateWager? && Mirrored(l, m)
    ensures SameOutcome(Invalidate(l, ix), Invalidate(m, SwapIx(l.config.usdcMint, ix)))
  {
    var usdc, id := l.config.usdcMint, ix.wagerId;
    LoadsSwap(l, m, ix.asset, id);
    if Loads(l, ix.asset, id) {
      var w := l.wagers[id];
      TwoMovesSwap(usdc, l.balances, m.balances, EscrowOf(ix.asset, id), Wallet(w.maker, w.tokenMint), w.makerRemaining,
                   Wallet(w.opponent, w.tokenMint), w.opponentRemaining);
      WritesSwap(usdc, l.wagers, m.wagers, id, Closed(w, CANCELLED, w.winner));
    }
    RefundedPrepared(l, m, ix.asset, id, ix.signer);
    InvalidateRefunds(l, ix);
    InvalidateRefunds(m, SwapIx(usdc, ix));
  }

  lemma StakeSwaps(l: Ledger, m: Ledger, ix: Instruction)
    requires ix.StakeTokens? && Mirrored(l, m)
    ensures SameOutcome(Step(l, ix), Step(m, ix))
  {
    MoveSwaps(l.config.usdcMint, l.balances, m.balances, Wallet(ix.user, l.config.tokenMint), StakeVault(ix.user),
              ix.amount);
  }

  lemma UnstakeSwaps(l: Ledger, m: Ledger, ix: Instruction)
    requires ix.UnstakeTokens? && Mirrored(l, m)
    ensures SameOutcome(Step(l, ix), Step(m, ix))
  {
    MoveSwaps(l.config.usdcMint, l.balances, m.balances, StakeVault(ix.user), Wallet(ix.user, l.config.tokenMint),
              ix.amount);
  }

  lemma BanSwaps(l: Ledger, m: Ledger, ix: Instruction)
    requires ix.BanUser? && Mirrored(l, m)
    ensures SameOutcome(Step(l, ix), Step(m, ix))
  {
    if ix.user in l.stakes {
      MoveSwaps(l.config.usdcMint, l.balances, m.balances, StakeVault(ix.user), Wallet(ix.treasury, l.config.tokenMint),
                l.stakes[ix.user].amount);
    }
  }

  lemma SendSwaps(l: Ledger, m: Ledger, ix: Instruction)
    requires ix.Deposit? && Plain(ix) && Mirrored(l, m)
    ensures SameOutcome(Send(l, ix), Send(m, SwapIx(l.config.usdcMint, ix)))
  {
    var from := Wallet(ix.from, Denomination(l.config, ix.to));
    SenderSwaps(l, m, ix);
    if from != ix.to {
      MoveSwaps(l.config.usdcMint, l.balances, m.balances, from, ix.to, ix.amount);
    }
    SendPrepared(l, m, ix, from);
  }

  /** The wallet that pays a deposit, and whether there is anything to pay into. */
  lemma SenderSwaps(l: Ledger, m: Ledger, ix: Instruction)
    requires ix.Deposit? && Plain(ix) && Mirrored(l, m)
    ensures var usdc := l.config.usdcMint;
            var from := Wallet(ix.from, Denomination(l.config, ix.to));
            && Wallet(ix.from, Denomination(m.config, Swap(usdc, ix.to))) == Swap(usdc, from)
            && (from == ix.to <==> Swap(usdc, from) == Swap(usdc, ix.to))
            && (Depositable(l, ix.to) <==> Depositable(m, Swap(usdc, ix.to)))
  {
    SwapTwice(l.config.usdcMint, Wallet(ix.from, Denomination(l.config, ix.to)));
    SwapTwice(l.config.usdcMint, ix.to);
  }

  lemma SendPrepared(l: Ledger, m: Ledger, ix: Instruction, from: Account)
    requires ix.Deposit? && from == Wallet(ix.from, Denomination(l.config, ix.to))
    requires ThreeMints(l.config) && m.config == l.config && m.stakes == l.stakes
    requires SwappedWagers(l.config.usdcMint, l.wagers, m.wagers)
    requires var usdc := l.config.usdcMint;
             && Wallet(ix.from, Denomination(m.config, Swap(usdc, ix.to))) == Swap(usdc, from)
             && (from == ix.to <==> Swap(usdc, from) == Swap(usdc, ix.to))
             && (Depositable(l, ix.to) <==> Depositable(m, Swap(usdc, ix.to)))
             && (from != ix.to ==> SameMove(usdc, Move(l.balances, from, ix.to, ix.amount),
                                            Move(m.balances, Swap(usdc, from), Swap(usdc, ix.to), ix.amount)))
    ensures SameOutcome(Send(l, ix), Send(m, SwapIx(l.config.usdcMint, ix)))
  {
  }

  lemma WagerParity(l: Ledger, m: Ledger, ix: Instruction)
    requires ix.CreateWager? || ix.JoinWager? || ix.CancelWager? || ix.DeclineWager?
    requires Mirrored(l, m)
    ensures SameOutcome(Step(l, ix), Step(m, SwapIx(l.config.usdcMint, ix)))
  {
    match ix
    case CreateWager(_, _, _, _, _, _, _, _) => CreateSwaps(l, m, ix);
    case JoinWager(_, _, _) => JoinSwaps(l, m, ix);
    case CancelWager(_, _, _) => CancelSwaps(l, m, ix);
    case DeclineWager(_, _, _) => DeclineSwaps(l, m, ix);
  }

  lemma EndParity(l: Ledger, m: Ledger, ix: Instruction)
    requires ix.SettleWager? || ix.SettleIncrement? || ix.InvalidateWager?
    requires Mirrored(l, m)
    ensures SameOutcome(Step(l, ix), Step(m, SwapIx(l.config.usdcMint, ix)))
  {
    match ix
    case SettleWager(_, _, _, _) => SettleSwaps(l, m, ix);
    case SettleIncrement(_, _, _, _, _) => ScoreSwaps(l, m, ix);
    case InvalidateWager(_, _, _) => InvalidateSwaps(l, m, ix);
  }

  lemma ReconfigureSwaps(l: Ledger, m: Ledger, ix: Instruction)
    requires Mirrored(l, m) && ix.UpdateConfig?
    ensures SameOutcome(Step(l, ix), Step(m, SwapIx(l.config.usdcMint, ix)))
  {
  }

  lemma DepositParity(l: Ledger, m: Ledger, ix: Instruction)
    requires ix.Deposit? && Plain(ix) && Mirrored(l, m)
    ensures SameOutcome(Step(l, ix), Step(m, SwapIx(l.config.usdcMint, ix)))
  {
    SendSwaps(l, m, ix);
  }

  lemma StakingParity(l: Ledger, m: Ledger, ix: Instruction)
    requires ix.StakeTokens? || ix.UnstakeTokens? || ix.BanUser?
    requires Mirrored(l, m)
    ensures SameOutcome(Step(l, ix), Step(m, SwapIx(l.config.usdcMint, ix)))
  {
    match ix
    case StakeTokens(_, _) => StakeSwaps(l, m, ix);
    case UnstakeTokens(_, _) => UnstakeSwaps(l, m, ix);
    case BanUser(_, _, _) => BanSwaps(l, m, ix);
  }

  /** A call and its mirror image both succeed and leave mirrored ledgers, or fail with one error. */
  lemma StepParity(l: Ledger, m: Ledger, ix: Instruction)
    requires Mirrored(l, m) && Plain(ix)
    ensures SameOutcome(Step(l, ix), Step(m, SwapIx(l.config.usdcMint, ix)))
  {
    if ix.CreateWager? || ix.JoinWager? || ix.CancelWager? || ix.DeclineWager? {
      WagerParity(l, m, ix);
    } else if ix.SettleWager? || ix.SettleIncrement? || ix.InvalidateWager? {
      EndParity(l, m, ix);
    } else if ix.StakeTokens? || ix.UnstakeTokens? || ix.BanUser? {
      StakingParity(l, m, ix);
    } else if ix.UpdateConfig? {
      ReconfigureSwaps(l, m, ix);
    } else {
      DepositParity(l, m, ix);
    }
  }

  // ----- Whole runs -----

  function AllSwapped(usdc: Pubkey, ixs: seq<Instruction>): (r: seq<Instruction>)
    ensures |r| == |ixs|
  {
    if ixs == [] then [] else AllSwapped(usdc, ixs[..|ixs| - 1]) + [SwapIx(usdc, ixs[|ixs| - 1])]
  }

  /** Whole runs, with any mixture of wagers in both assets, stakes, bans and reconfigurations: exchanging the
    * assets in the calls exchanges them in the outcome, record by record and balance by balance.
    */
  lemma {:induction false} RunParity(l: Ledger, m: Ledger, ixs: seq<Instruction>)
    requires Mirrored(l, m)
    requires forall i :: 0 <= i < |ixs| ==> Plain(ixs[i])
    ensures Mirrored(Run(l, ixs), Run(m, AllSwapped(l.config.usdcMint, ixs)))
    ensures Run(l, ixs).config.usdcMint == l.config.usdcMint
  {
    if ixs != [] {
      var init, ix := ixs[..|ixs| - 1], ixs[|ixs| - 1];
      RunParity(l, m, init);
      StepParity(Run(l, init), Run(m, AllSwapped(l.config.usdcMint, init)), ix);
      MintStands(Run(l, init), ix);
      assert AllSwapped(l.config.usdcMint, ixs)[..|ixs| - 1] == AllSwapped(l.config.usdcMint, init);
    }
  }

  lemma MintStands(l: Ledger, ix: Instruction)
    ensures Apply(l, ix).config.usdcMint == l.config.usdcMint
  {
  }
}
