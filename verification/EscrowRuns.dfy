/** Safety over whole runs: any sequence of transactions, each of which commits or changes nothing. */
module EscrowRuns {
  import opened Basics
  import opened ProgramState
  import opened EscrowSpec
  import opened LedgerSums
  import opened EscrowInvariant
  import opened EscrowSteps

  function Apply(l: Ledger, ix: Instruction): Ledger {
    if Step(l, ix).Ok? then Step(l, ix).value else l
  }

  function Run(l: Ledger, ixs: seq<Instruction>): Ledger {
    if ixs == [] then l else Apply(Run(l, ixs[..|ixs| - 1]), ixs[|ixs| - 1])
  }

  /** The program right after its configuration was initialised. */
  ghost predicate Genesis(l: Ledger) {
    && l.config.usdcMint != DEFAULT_KEY && l.config.tokenMint != DEFAULT_KEY
    && l.wagers == map[] && l.stakes == map[]
    && (forall a :: a in l.balances ==> a.Wallet?)
    && SupplyOk(l.config, l.balances)
  }

  lemma GenesisValid(l: Ledger)
    requires Genesis(l)
    ensures Valid(l)
  {
  }

  /** What outsiders have sent to an account in the accepted transactions of a run. */
  function Gifts(l: Ledger, ixs: seq<Instruction>, a: Account): nat {
    if ixs == [] then 0
    else
      var before := Run(l, ixs[..|ixs| - 1]);
      var ix := ixs[|ixs| - 1];
      Gifts(l, ixs[..|ixs| - 1], a) + (if Step(before, ix).Ok? then Gift(ix, a) else 0)
  }

  lemma {:induction false} RunKeepsValid(l: Ledger, ixs: seq<Instruction>)
    requires Valid(l)
    ensures Valid(Run(l, ixs))
    ensures Run(l, ixs).config.usdcMint == l.config.usdcMint
    ensures Run(l, ixs).config.tokenMint == l.config.tokenMint
  {
    if ixs != [] {
      var before := Run(l, ixs[..|ixs| - 1]);
      RunKeepsValid(l, ixs[..|ixs| - 1]);
      if Step(before, ixs[|ixs| - 1]).Ok? {
        StepKeeps(before, ixs[|ixs| - 1]);
      }
    }
  }

  lemma SameMintsSameTotal(c: Config, c': Config, b: Balances, mint: Pubkey)
    requires c.usdcMint == c'.usdcMint && c.tokenMint == c'.tokenMint
    ensures Total(c, b, mint) == Total(c', b, mint)
  {
    assert Holders(c, b, mint) == Holders(c', b, mint);
  }

  /** Conservation: no run creates or destroys money of any mint. */
  lemma {:induction false} RunConserves(l: Ledger, ixs: seq<Instruction>, mint: Pubkey)
    requires Valid(l)
    ensures Total(Run(l, ixs).config, Run(l, ixs).balances, mint) == Total(l.config, l.balances, mint)
  {
    if ixs != [] {
      var before := Run(l, ixs[..|ixs| - 1]);
      var ix := ixs[|ixs| - 1];
      RunKeepsValid(l, ixs[..|ixs| - 1]);
      RunConserves(l, ixs[..|ixs| - 1], mint);
      if Step(before, ix).Ok? {
        var after := Step(before, ix).value;
        StepKeeps(before, ix);
        assert Total(before.config, after.balances, mint) == Total(before.config, before.balances, mint);
        SameMintsSameTotal(before.config, after.config, after.balances, mint);
      }
    }
  }

  /** The surplus of a custodial account is exactly what outsiders sent there. */
  lemma {:induction false} RunSurplus(l: Ledger, ixs: seq<Instruction>, a: Account)
    requires Valid(l) && Custodial(a)
    ensures Surplus(Run(l, ixs), a) == Surplus(l, a) + Gifts(l, ixs, a)
  {
    if ixs != [] {
      var before := Run(l, ixs[..|ixs| - 1]);
      RunKeepsValid(l, ixs[..|ixs| - 1]);
      RunSurplus(l, ixs[..|ixs| - 1], a);
      if Step(before, ixs[|ixs| - 1]).Ok? {
        StepKeeps(before, ixs[|ixs| - 1]);
      }
    }
  }

  /** Exact solvency from the start of the program: a wager's escrow holds its stake while open, both
    * reserves while matched, and nothing once it is over, plus whatever outsiders sent to it.
    */
  lemma ExactEscrow(l: Ledger, ixs: seq<Instruction>, asset: Asset, id: u64)
    requires Genesis(l)
    requires var now := Run(l, ixs); id in now.wagers && now.wagers[id].tokenMint == MintOf(now.config, asset)
    ensures var w := Run(l, ixs).wagers[id];
            BalanceOf(Run(l, ixs).balances, EscrowOf(asset, id))
            == (if w.status == OPEN then w.amount
                else if w.status == MATCHED then w.makerRemaining + w.opponentRemaining
                else 0)
               + Gifts(l, ixs, EscrowOf(asset, id))
  {
    GenesisValid(l);
    RunKeepsValid(l, ixs);
    RunSurplus(l, ixs, EscrowOf(asset, id));
  }

  lemma DisjointSizes(a: set<u64>, b: set<u64>, c: set<u64>)
    ensures a !! b && a !! c && b !! c ==> |a + b + c| == |a| + |b| + |c|
  {
  }

  function OpenBy(wagers: Wagers, u: Pubkey): set<u64> {
    set id | id in wagers && wagers[id].status == OPEN && wagers[id].maker == u
  }

  function MatchedAsMaker(wagers: Wagers, u: Pubkey): set<u64> {
    set id | id in wagers && wagers[id].status == MATCHED && wagers[id].maker == u
  }

  function MatchedAsOpponent(wagers: Wagers, u: Pubkey): set<u64> {
    set id | id in wagers && wagers[id].status == MATCHED && wagers[id].opponent == u
  }

  lemma LiveByRole(wagers: Wagers, u: Pubkey)
    requires forall id :: id in wagers && wagers[id].status == MATCHED ==> Seated(wagers[id])
    ensures |LiveWagers(wagers, u)|
         == |OpenBy(wagers, u)| + |MatchedAsMaker(wagers, u)| + |MatchedAsOpponent(wagers, u)|
  {
    var open, made, joined := OpenBy(wagers, u), MatchedAsMaker(wagers, u), MatchedAsOpponent(wagers, u);
    assert LiveWagers(wagers, u) == open + made + joined;
    assert open !! made && open !! joined && made !! joined;
    DisjointSizes(open, made, joined);
  }

  /** Counter agreement from the start of the program: a user's counter is the number of open or
    * matched wagers they made plus the matched wagers they joined.
    */
  lemma CounterAgreement(l: Ledger, ixs: seq<Instruction>, u: Pubkey)
    requires Genesis(l) && u != DEFAULT_KEY
    ensures var now := Run(l, ixs);
            ActiveOf(now.stakes, u)
            == |OpenBy(now.wagers, u)| + |MatchedAsMaker(now.wagers, u)| + |MatchedAsOpponent(now.wagers, u)|
  {
    GenesisValid(l);
    RunKeepsValid(l, ixs);
    var now := Run(l, ixs);
    CountsLive(now.wagers, now.stakes, u);
    LiveByRole(now.wagers, u);
  }
}
