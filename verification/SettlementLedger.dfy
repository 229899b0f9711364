/** The chain of the settlement protocol is the escrow program: what the protocol's steps do to its wager
  * record, and what they pay, is what the corresponding transactions do on the ledger, in the middle of
  * everybody else's.
  */
module SettlementLedger {
  import opened Basics
  import opened ProgramState
  import opened EscrowSpec
  import opened EscrowInvariant
  import EscrowSteps
  import EscrowRuns
  import opened EscrowExits
  import opened EscrowReceipts
  import opened EscrowPlay
  import opened WagerRows
  import opened Settlement
  import opened SettlementInvariant
  import opened SettlementSteps
  import opened SettlementCashOut
  import opened SettlementRuns

  /** One wager's place on the ledger. */
  datatype Site = Site(asset: Asset, wagerId: u64)

  /** The ledger holds the protocol's wager, and the signing keys are set. */
  ghost predicate Linked(l: Ledger, site: Site, c: Chain) {
    && Valid(l) && Loads(l, site.asset, site.wagerId) && l.wagers[site.wagerId] == c.wager && ChainOk(c)
    && l.config.chainAuthority != DEFAULT_KEY && l.config.authority != DEFAULT_KEY
  }

  /** The transaction of an increment. */
  function IncrementIx(l: Ledger, site: Site, c: Chain, e: Event, sequence: u32): Instruction {
    SettleIncrement(site.asset, site.wagerId, Beneficiary(e, c.wager), sequence, l.config.chainAuthority)
  }

  /** What a transaction pays to both players is what the protocol books for them. */
  predicate BooksWhatIsPaid(l: Ledger, ix: Instruction, id: u64, c: Chain, c': Chain) {
    && c'.wager.maker == c.wager.maker && c'.wager.opponent == c.wager.opponent
    && PaidBy(l, ix, id, c.wager.maker) == c'.makerGot - c.makerGot
    && PaidBy(l, ix, id, c.wager.opponent) == c'.opponentGot - c.opponentGot
  }

  lemma IncrementAgrees(l: Ledger, site: Site, c: Chain, e: Event, sequence: u32)
    requires Linked(l, site, c)
    ensures Step(l, IncrementIx(l, site, c, e, sequence)).Ok? <==> ChainScores(c, e, sequence).Some?
  {
    ScoreSucceedsIff(l, IncrementIx(l, site, c, e, sequence));
    ChainScoresIff(c, e, sequence);
  }

  lemma IncrementRecord(l: Ledger, site: Site, c: Chain, e: Event, sequence: u32)
    requires Loads(l, site.asset, site.wagerId) && l.wagers[site.wagerId] == c.wager
    requires ChainScores(c, e, sequence).Some? && Step(l, IncrementIx(l, site, c, e, sequence)).Ok?
    ensures var l' := Step(l, IncrementIx(l, site, c, e, sequence)).value;
            site.wagerId in l'.wagers && l'.wagers[site.wagerId] == ChainScores(c, e, sequence).value.wager
  {
  }

  /** Book-keeping by the closed form of the record on either side. */
  lemma DueBooks(l: Ledger, ix: Instruction, id: u64, c: Chain, c': Chain)
    requires ChainOk(c) && ChainOk(c') && id in l.wagers && l.wagers[id] == c.wager
    requires Step(l, ix).Ok? && id in Step(l, ix).value.wagers && Step(l, ix).value.wagers[id] == c'.wager
    requires c'.wager.maker == c.wager.maker && c'.wager.opponent == c.wager.opponent
    requires forall user :: Due(c'.wager, user) == Due(c.wager, user) + PaidBy(l, ix, id, user)
    ensures BooksWhatIsPaid(l, ix, id, c, c')
  {
  }

  lemma IncrementLinks(l: Ledger, site: Site, c: Chain, e: Event, sequence: u32)
    requires Linked(l, site, c) && ChainScores(c, e, sequence).Some?
    ensures var ix, c' := IncrementIx(l, site, c, e, sequence), ChainScores(c, e, sequence).value;
            Step(l, ix).Ok? && Linked(Step(l, ix).value, site, c') && BooksWhatIsPaid(l, ix, site.wagerId, c, c')
  {
    var ix, c' := IncrementIx(l, site, c, e, sequence), ChainScores(c, e, sequence).value;
    IncrementAgrees(l, site, c, e, sequence);
    ChainScoresOk(c, e, sequence);
    IncrementRecord(l, site, c, e, sequence);
    Stays(l, site, c, ix, c');
    GoodLinked(l, site, c);
    forall user
      ensures Due(c'.wager, user) == Due(c.wager, user) + PaidBy(l, ix, site.wagerId, user)
    {
      ScorePays(l, ix, user);
    }
    DueBooks(l, ix, site.wagerId, c, c');
  }

  lemma GoodLinked(l: Ledger, site: Site, c: Chain)
    requires Linked(l, site, c)
    ensures EscrowSteps.GoodAt(l, site.wagerId)
  {
  }

  /** A reconfiguration sets keys that somebody can sign with. */
  predicate KeysSet(ix: Instruction) {
    ix.UpdateConfig? ==> ix.authority != DEFAULT_KEY && ix.chainAuthority != DEFAULT_KEY
  }

  /** An accepted transaction keeps the link, once the records agree. */
  lemma Stays(l: Ledger, site: Site, c: Chain, ix: Instruction, c': Chain)
    requires Linked(l, site, c) && ChainOk(c') && KeysSet(ix) && c'.wager.tokenMint == c.wager.tokenMint
    requires Step(l, ix).Ok? && site.wagerId in Step(l, ix).value.wagers
    requires Step(l, ix).value.wagers[site.wagerId] == c'.wager
    ensures Linked(Step(l, ix).value, site, c')
  {
    EscrowSteps.StepKeeps(l, ix);
    KeysStand(l, ix);
  }

  lemma KeysStand(l: Ledger, ix: Instruction)
    requires Step(l, ix).Ok? && KeysSet(ix)
    requires l.config.chainAuthority != DEFAULT_KEY && l.config.authority != DEFAULT_KEY
    ensures var c := Step(l, ix).value.config;
            && c.chainAuthority != DEFAULT_KEY && c.authority != DEFAULT_KEY
            && c.usdcMint == l.config.usdcMint && c.tokenMint == l.config.tokenMint
  {
    if !ix.UpdateConfig? {
      ConfigStands(l, ix);
    }
  }

  lemma ConfigStands(l: Ledger, ix: Instruction)
    requires Step(l, ix).Ok? && !ix.UpdateConfig?
    ensures Step(l, ix).value.config == l.config
  {
  }

  lemma RefundAgrees(l: Ledger, site: Site, c: Chain, signer: Pubkey)
    requires Linked(l, site, c) && signer in {l.config.authority, l.config.chainAuthority}
    ensures Step(l, InvalidateWager(site.asset, site.wagerId, signer)).Ok? <==> ChainInvalidates(c).Some?
  {
    InvalidateSucceedsIff(l, InvalidateWager(site.asset, site.wagerId, signer));
  }

  lemma RefundRecord(l: Ledger, site: Site, c: Chain, signer: Pubkey)
    requires Loads(l, site.asset, site.wagerId) && l.wagers[site.wagerId] == c.wager && ChainInvalidates(c).Some?
    requires Step(l, InvalidateWager(site.asset, site.wagerId, signer)).Ok?
    ensures var l' := Step(l, InvalidateWager(site.asset, site.wagerId, signer)).value;
            site.wagerId in l'.wagers && l'.wagers[site.wagerId] == ChainInvalidates(c).value.wager
  {
  }

  lemma RefundLinks(l: Ledger, site: Site, c: Chain, signer: Pubkey)
    requires Linked(l, site, c) && ChainInvalidates(c).Some? && signer in {l.config.authority, l.config.chainAuthority}
    ensures var ix, c' := InvalidateWager(site.asset, site.wagerId, signer), ChainInvalidates(c).value;
            Step(l, ix).Ok? && Linked(Step(l, ix).value, site, c') && BooksWhatIsPaid(l, ix, site.wagerId, c, c')
  {
    var ix, c' := InvalidateWager(site.asset, site.wagerId, signer), ChainInvalidates(c).value;
    RefundAgrees(l, site, c, signer);
    ChainInvalidatesOk(c);
    RefundRecord(l, site, c, signer);
    Stays(l, site, c, ix, c');
    GoodLinked(l, site, c);
    forall user
      ensures Due(c'.wager, user) == Due(c.wager, user) + PaidBy(l, ix, site.wagerId, user)
    {
      InvalidatePays(l, ix, user);
    }
    DueBooks(l, ix, site.wagerId, c, c');
  }

  // ----- Runs in the middle of other transactions -----

  /** A step of the protocol, or a transaction of somebody else. */
  datatype Label = Ours(action: Action) | Others(ix: Instruction)

  /** Not an increment or a refund of this wager. */
  predicate Foreign(ix: Instruction, id: u64) {
    !((ix.SettleIncrement? || ix.InvalidateWager?) && ix.wagerId == id) && KeysSet(ix)
  }

  function OurActions(labels: seq<Label>): seq<Action> {
    if labels == [] then []
    else
      OurActions(labels[..|labels| - 1])
      + (match labels[|labels| - 1]
         case Ours(a) => [a]
         case Others(_) => [])
  }

  /** The protocol's side of a mixed run. */
  function OurWorld(s: World, labels: seq<Label>): World {
    if labels == [] then s
    else
      var before := OurWorld(s, labels[..|labels| - 1]);
      match labels[|labels| - 1]
      case Ours(a) => Do(before, a)
      case Others(_) => before
  }

  function TxIx(l: Ledger, site: Site, c: Chain, tx: Tx): Option<Instruction> {
    match tx
    case IncrementTx(e, n) => if n <= U32_MAX then Some(IncrementIx(l, site, c, e, n)) else None
    case InvalidateTx => Some(InvalidateWager(site.asset, site.wagerId, l.config.chainAuthority))
  }

  /** What a step of the protocol puts on the chain. */
  datatype Call = NoCall | ByWorker(tx: Tx) | ByAuthority

  function CallOf(s: World, a: Action): Call {
    match a
    case PaySend =>
      if s.job.PayLoaded? && s.job.event.id in s.payouts
      then ByWorker(IncrementTx(s.job.event, s.payouts[s.job.event.id].sequence)) else NoCall
    case CashSend => if s.job.CashRead? then ByWorker(InvalidateTx) else NoCall
    case Land(tx) => if tx in s.inFlight then ByWorker(tx) else NoCall
    case AuthorityInvalidates => ByAuthority
    case _ => NoCall
  }

  /** The transaction of a call. */
  function IxOf(l: Ledger, site: Site, c: Chain, call: Call): Option<Instruction> {
    match call
    case NoCall => None
    case ByWorker(tx) => TxIx(l, site, c, tx)
    case ByAuthority => Some(InvalidateWager(site.asset, site.wagerId, l.config.authority))
  }

  /** The chain after a call, executed or refused. */
  function ChainBy(c: Chain, call: Call): Chain {
    match call
    case NoCall => c
    case ByWorker(tx) => ChainWith(c, tx)
    case ByAuthority => ChainWith(c, InvalidateTx)
  }

  function ChainWith(c: Chain, tx: Tx): Chain {
    if ChainExecutes(c, tx).Some? then ChainExecutes(c, tx).value else c
  }

  /** A step of the protocol moves the chain by its call and by nothing else. */
  lemma CallMoves(s: World, a: Action)
    ensures Do(s, a).chain == ChainBy(s.chain, CallOf(s, a))
  {
  }

  /** The transactions of a mixed run, in order. */
  function Transactions(l: Ledger, site: Site, s: World, labels: seq<Label>): seq<Instruction> {
    if labels == [] then []
    else
      var before := Transactions(l, site, s, labels[..|labels| - 1]);
      var ix := LabelIx(EscrowRuns.Run(l, before), site, OurWorld(s, labels[..|labels| - 1]), labels[|labels| - 1]);
      before + (if ix.Some? then [ix.value] else [])
  }

  function LabelIx(l: Ledger, site: Site, s: World, last: Label): Option<Instruction> {
    match last
    case Ours(a) => IxOf(l, site, s.chain, CallOf(s, a))
    case Others(ix) => Some(ix)
  }

  /** One label: the ledger stays linked, and pays what the protocol books. */
  ghost predicate Follows(l: Ledger, ix: Option<Instruction>, site: Site, c: Chain, c': Chain) {
    match ix
    case None => c' == c
    case Some(ix) => Linked(EscrowRuns.Apply(l, ix), site, c') && BooksWhatIsPaid(l, ix, site.wagerId, c, c')
  }

  lemma RefusedPays(l: Ledger, ix: Instruction, id: u64, user: Pubkey)
    requires Step(l, ix).Err?
    ensures EscrowRuns.Apply(l, ix) == l && PaidBy(l, ix, id, user) == 0
  {
  }

  lemma RefusedFollows(l: Ledger, ix: Instruction, site: Site, c: Chain)
    requires Linked(l, site, c) && Step(l, ix).Err?
    ensures Follows(l, Some(ix), site, c, c)
  {
    RefusedPays(l, ix, site.wagerId, c.wager.maker);
    RefusedPays(l, ix, site.wagerId, c.wager.opponent);
  }

  lemma AcceptedFollows(l: Ledger, ix: Instruction, site: Site, c: Chain, c': Chain)
    requires Step(l, ix).Ok? && Linked(Step(l, ix).value, site, c') && BooksWhatIsPaid(l, ix, site.wagerId, c, c')
    ensures Follows(l, Some(ix), site, c, c')
  {
  }

  lemma IncrementFollows(l: Ledger, site: Site, c: Chain, e: Event, n: u32)
    requires Linked(l, site, c)
    ensures Follows(l, Some(IncrementIx(l, site, c, e, n)), site, c, ChainWith(c, IncrementTx(e, n)))
  {
    IncrementAgrees(l, site, c, e, n);
    if ChainScores(c, e, n).Some? {
      IncrementLinks(l, site, c, e, n);
      AcceptedFollows(l, IncrementIx(l, site, c, e, n), site, c, ChainScores(c, e, n).value);
    } else {
      RefusedFollows(l, IncrementIx(l, site, c, e, n), site, c);
    }
  }

  lemma RefundAccepted(l: Ledger, site: Site, c: Chain, signer: Pubkey)
    requires Linked(l, site, c) && signer in {l.config.authority, l.config.chainAuthority} && ChainInvalidates(c).Some?
    ensures Follows(l, Some(InvalidateWager(site.asset, site.wagerId, signer)), site, c, ChainInvalidates(c).value)
  {
    RefundLinks(l, site, c, signer);
    AcceptedFollows(l, InvalidateWager(site.asset, site.wagerId, signer), site, c, ChainInvalidates(c).value);
  }

  lemma RefundFollows(l: Ledger, site: Site, c: Chain, signer: Pubkey)
    requires Linked(l, site, c) && signer in {l.config.authority, l.config.chainAuthority}
    ensures Follows(l, Some(InvalidateWager(site.asset, site.wagerId, signer)), site, c, ChainWith(c, InvalidateTx))
  {
    if ChainInvalidates(c).Some? {
      RefundAccepted(l, site, c, signer);
    } else {
      RefundAgrees(l, site, c, signer);
      RefusedFollows(l, InvalidateWager(site.asset, site.wagerId, signer), site, c);
    }
  }

  lemma WorkerFollows(l: Ledger, site: Site, c: Chain, tx: Tx)
    requires Linked(l, site, c)
    ensures Follows(l, TxIx(l, site, c, tx), site, c, ChainWith(c, tx))
  {
    match tx
    case InvalidateTx => RefundFollows(l, site, c, l.config.chainAuthority);
    case IncrementTx(e, n) =>
      if n <= U32_MAX {
        IncrementFollows(l, site, c, e, n);
      } else {
        UnencodableScores(c, e, n);
      }
  }

  lemma UnencodableScores(c: Chain, e: Event, n: nat)
    requires n > U32_MAX
    ensures ChainWith(c, IncrementTx(e, n)) == c
  {
  }

  lemma CallFollows(l: Ledger, site: Site, c: Chain, call: Call)
    requires Linked(l, site, c)
    ensures Follows(l, IxOf(l, site, c, call), site, c, ChainBy(c, call))
  {
    match call
    case NoCall =>
    case ByWorker(tx) => WorkerFollows(l, site, c, tx);
    case ByAuthority => RefundFollows(l, site, c, l.config.authority);
  }

  lemma OthersFollow(l: Ledger, site: Site, c: Chain, ix: Instruction)
    requires Linked(l, site, c) && Foreign(ix, site.wagerId)
    ensures Follows(l, Some(ix), site, c, c)
  {
    OnlyScoresMove(l, ix, site.wagerId);
    if Step(l, ix).Ok? {
      Stays(l, site, c, ix, c);
    }
  }

  lemma RunMore(l: Ledger, ixs: seq<Instruction>, ix: Instruction, id: u64, user: Pubkey)
    ensures EscrowRuns.Run(l, ixs + [ix]) == EscrowRuns.Apply(EscrowRuns.Run(l, ixs), ix)
    ensures Received(l, ixs + [ix], id, user)
         == Received(l, ixs, id, user) + PaidBy(EscrowRuns.Run(l, ixs), ix, id, user)
  {
    assert (ixs + [ix])[..|ixs|] == ixs;
  }

  /** The ledger after some transactions holds the protocol's wager, and has paid what the protocol booked. */
  ghost predicate Followed(l: Ledger, ixs: seq<Instruction>, site: Site, start: Chain, now: Chain) {
    && Linked(EscrowRuns.Run(l, ixs), site, now)
    && now.wager.maker == start.wager.maker && now.wager.opponent == start.wager.opponent
    && Received(l, ixs, site.wagerId, start.wager.maker) == now.makerGot
    && Received(l, ixs, site.wagerId, start.wager.opponent) == now.opponentGot
  }

  lemma ReceivedMore(l: Ledger, ixs: seq<Instruction>, ix: Instruction, id: u64, start: Chain, c: Chain, c': Chain)
    requires BooksWhatIsPaid(EscrowRuns.Run(l, ixs), ix, id, c, c')
    requires c.wager.maker == start.wager.maker && c.wager.opponent == start.wager.opponent
    requires Received(l, ixs, id, start.wager.maker) == c.makerGot
    requires Received(l, ixs, id, start.wager.opponent) == c.opponentGot
    ensures Received(l, ixs + [ix], id, start.wager.maker) == c'.makerGot
    ensures Received(l, ixs + [ix], id, start.wager.opponent) == c'.opponentGot
  {
    RunMore(l, ixs, ix, id, start.wager.maker);
    RunMore(l, ixs, ix, id, start.wager.opponent);
  }

  lemma FollowedMore(l: Ledger, ixs: seq<Instruction>, ix: Option<Instruction>, site: Site, start: Chain, c: Chain,
                     c': Chain)
    requires Followed(l, ixs, site, start, c) && Follows(EscrowRuns.Run(l, ixs), ix, site, c, c')
    ensures Followed(l, ixs + (if ix.Some? then [ix.value] else []), site, start, c')
  {
    if ix.Some? {
      ReceivedMore(l, ixs, ix.value, site.wagerId, start, c, c');
      RunMore(l, ixs, ix.value, site.wagerId, start.wager.maker);
    } else {
      assert ixs + [] == ixs;
    }
  }

  /** The link, and with it every statement about the protocol's chain, over every mixed run: the wager on the
    * ledger is the protocol's, and what the protocol has booked for each player is what that player's wallet
    * has received out of the escrow.
    */
  lemma {:induction false} LedgerFollows(l: Ledger, site: Site, s: World, labels: seq<Label>)
    requires Linked(l, site, s.chain) && s.chain.makerGot == s.chain.opponentGot == 0
    requires forall ix :: Others(ix) in labels ==> Foreign(ix, site.wagerId)
    ensures Followed(l, Transactions(l, site, s, labels), site, s.chain, OurWorld(s, labels).chain)
  {
    if labels != [] {
      var init, last := labels[..|labels| - 1], labels[|labels| - 1];
      var ixs, world := Transactions(l, site, s, init), OurWorld(s, init);
      LedgerFollows(l, site, s, init);
      var ix := LabelIx(EscrowRuns.Run(l, ixs), site, world, last);
      assert last.Others? ==> Others(last.ix) in labels;
      LabelFollows(EscrowRuns.Run(l, ixs), site, world, last);
      FollowedMore(l, ixs, ix, site, s.chain, world.chain, LabelChain(world, last));
      LabelMoves(s, labels);
    }
  }

  function LabelChain(s: World, last: Label): Chain {
    match last
    case Ours(a) => ChainBy(s.chain, CallOf(s, a))
    case Others(_) => s.chain
  }

  lemma LabelFollows(l: Ledger, site: Site, s: World, last: Label)
    requires Linked(l, site, s.chain) && (last.Others? ==> Foreign(last.ix, site.wagerId))
    ensures Follows(l, LabelIx(l, site, s, last), site, s.chain, LabelChain(s, last))
  {
    match last
    case Ours(a) => CallFollows(l, site, s.chain, CallOf(s, a));
    case Others(ix) => OthersFollow(l, site, s.chain, ix);
  }

  lemma LabelMoves(s: World, labels: seq<Label>)
    requires labels != []
    ensures OurWorld(s, labels).chain == LabelChain(OurWorld(s, labels[..|labels| - 1]), labels[|labels| - 1])
  {
    var last := labels[|labels| - 1];
    if last.Ours? {
      CallMoves(OurWorld(s, labels[..|labels| - 1]), last.action);
    }
  }

  // ----- What follows for the players' wallets -----

  lemma {:induction false} OurRun(s: World, labels: seq<Label>)
    ensures OurWorld(s, labels) == Run(s, OurActions(labels))
  {
    if labels != [] {
      var init := labels[..|labels| - 1];
      OurRun(s, init);
      match labels[|labels| - 1]
      case Ours(a) =>
        RunConcat(s, OurActions(init), [a]);
        RunOne(Run(s, OurActions(init)), a);
      case Others(_) =>
        assert OurActions(init) + [] == OurActions(init);
    }
  }

  /** The recorded balances of a cash-out against the wallets: in every mixed run they are what the players
    * have received out of the escrow if and only if the increments since the snapshot cancel each other out.
    */
  lemma CashOutWalletsIff(l: Ledger, site: Site, s: World, labels: seq<Label>) returns (m: nat, n: nat)
    requires Started(s) && Valid(l) && Loads(l, site.asset, site.wagerId) && l.wagers[site.wagerId] == s.chain.wager
    requires l.config.chainAuthority != DEFAULT_KEY && l.config.authority != DEFAULT_KEY
    requires forall ix :: Others(ix) in labels ==> Foreign(ix, site.wagerId)
    requires OurWorld(s, labels).row.status == CashedOut
    ensures m < n < |OurActions(labels)| && OurActions(labels)[m] == CashSnapshot && OurActions(labels)[n] == CashCommit
    ensures var ixs, now := Transactions(l, site, s, labels), OurWorld(s, labels);
            var read := Run(s, OurActions(labels)[..m]).chain.wager;
            (now.row.makerFinal == Some(Received(l, ixs, site.wagerId, s.chain.wager.maker))
             && now.row.opponentFinal == Some(Received(l, ixs, site.wagerId, s.chain.wager.opponent)))
            <==> read.makerScore - read.opponentScore == now.chain.wager.makerScore - now.chain.wager.opponentScore
  {
    StartedInv(s);
    OurRun(s, labels);
    m, n := CashOutExactIff(s, OurActions(labels));
    LedgerFollows(l, site, s, labels);
  }
}
