/** The settlement of one winner-take-all wager as interleaved atomic steps: the winner-take-all job, its queue and
  * the chain. The job may throw or be killed between any two statements, and its transaction may land after the
  * job gave up on it.
  */
module WinnerTakeAll {
  import opened Basics
  import opened ProgramState
  import opened EscrowSpec
  import opened EscrowInvariant
  import opened EscrowSteps
  import opened EscrowExits
  import opened EscrowReceipts
  import opened JobQueue
  import opened WagerRows

  /** The wager account, and what its escrow has paid to each player. */
  datatype Chain = Chain(wager: Wager, makerGot: int, opponentGot: int)

  /** Where the worker is inside processWinner. */
  datatype WinnerJob =
    | Idle
    | Claimed(winner: Pubkey)
    | Landed(winner: Pubkey)
    | RollingBack

  datatype World = World(
    chain: Chain,
    row: Row,
    queued: Job,
    wanted: Pubkey,        // the winner that the stored job names
    job: WinnerJob,
    inFlight: set<Pubkey>) // the winners of transactions still on their way

  datatype Action =
    | Announce(winner: Pubkey)
    | Claim
    | Send
    | SendFails(submitted: bool)
    | Finish(reported: bool)
    | FinishThrows
    | RollBack(works: bool)
    | WorkerCrash
    | GivenUp
    | Forgotten
    | Land(winner: Pubkey)
    | AuthorityInvalidates

  // ----- The chain -----

  function ChainSettles(c: Chain, winner: Pubkey): Option<Chain> {
    var w := c.wager;
    if w.status != MATCHED || w.payoutMode != WINNER_TAKE_ALL || !IsParticipant(w, winner) then None
    else Some(Chain(Closed(w, SETTLED, winner),
                    c.makerGot + (if winner == w.maker then 2 * w.amount else 0),
                    c.opponentGot + (if winner == w.maker then 0 else 2 * w.amount)))
  }

  function ChainInvalidates(c: Chain): Option<Chain> {
    if c.wager.status != MATCHED then None
    else Some(Chain(Closed(c.wager, CANCELLED, c.wager.winner), c.makerGot + c.wager.makerRemaining,
                    c.opponentGot + c.wager.opponentRemaining))
  }

  // ----- Steps -----

  /** The job throws and the queue counts a failed attempt. */
  function Throws(s: World): World {
    s.(job := Idle, queued := JobQueue.Failed(s.queued))
  }

  /** The claiming UPDATE. Where it selects no row the job returns; the check that the winner plays stands before
    * the try block, so that a failure there leaves the claim.
    */
  function ClaimRow(s: World): World {
    if s.job != Idle || !s.queued.Waiting? then s
    else
      match Updated(s.row, BeginSettling)
      case None => s.(queued := Finished(s.queued))
      case Some(r) =>
        if RowParticipant(r, s.wanted) then s.(row := r, job := Claimed(s.wanted)) else Throws(s.(row := r))
  }

  function Do(s: World, a: Action): World {
    match a
    case Announce(winner) =>
      if s.queued == Absent then s.(queued := Added(s.queued), wanted := winner) else s
    case Claim => ClaimRow(s)
    case Send =>
      if !s.job.Claimed? then s
      else
        (match ChainSettles(s.chain, s.job.winner)
        case Some(c) => s.(chain := c, job := Landed(s.job.winner))
        case None => s.(job := RollingBack))
    case SendFails(submitted) =>
      if !s.job.Claimed? then s
      else s.(inFlight := if submitted then s.inFlight + {s.job.winner} else s.inFlight, job := RollingBack)
    case Finish(reported) =>
      if !s.job.Landed? then s
      else
        var row := After(s.row, FinishSettling(s.job.winner));
        if reported then s.(row := row, job := Idle, queued := Finished(s.queued))
        else s.(row := row, job := RollingBack)
    case FinishThrows => if s.job.Landed? then s.(job := RollingBack) else s
    case RollBack(works) =>
      if !s.job.RollingBack? then s
      else Throws(s.(row := if works then After(s.row, RollBackSettling) else s.row))
    case WorkerCrash => s.(job := Idle)
    case GivenUp => if s.job == Idle then s.(queued := Finished(s.queued)) else s
    case Forgotten => s.(queued := JobQueue.Forgotten(s.queued))
    case Land(winner) =>
      if winner !in s.inFlight then s
      else
        (match ChainSettles(s.chain, winner)
        case Some(c) => s.(chain := c)
        case None => s)
    case AuthorityInvalidates =>
      (match ChainInvalidates(s.chain)
      case Some(c) => s.(chain := c)
      case None => s)
  }

  function Run(s: World, actions: seq<Action>): World {
    if actions == [] then s else Do(Run(s, actions[..|actions| - 1]), actions[|actions| - 1])
  }

  /** Both sides funded, nothing announced. */
  predicate Started(s: World) {
    var w, r := s.chain.wager, s.row;
    && RecordOk(w) && w.status == MATCHED && w.payoutMode == WINNER_TAKE_ALL
    && s.chain.makerGot == s.chain.opponentGot == 0
    && r.maker == w.maker && r.opponent == Some(w.opponent) && r.amount == w.amount
    && !r.incremental && r.status == Matched && r.winner == None
    && r.makerRemaining == r.opponentRemaining == r.amount && r.makerFinal == None && r.opponentFinal == None
    && s.queued == Absent && s.job == Idle && s.inFlight == {}
  }

  // ----- What every reachable state keeps -----

  predicate ChainOk(c: Chain) {
    && RecordOk(c.wager) && c.wager.payoutMode == WINNER_TAKE_ALL && c.wager.status != OPEN && Seated(c.wager)
    && c.makerGot == Due(c.wager, c.wager.maker) && c.opponentGot == Due(c.wager, c.wager.opponent)
  }

  /** The table is never ahead of the chain, and says what the chain says. */
  predicate Mirrors(r: Row, w: Wager) {
    && r.maker == w.maker && r.opponent == Some(w.opponent) && r.amount == w.amount && !r.incremental
    && r.status in {Matched, RowStatus.Settling, RowStatus.Settled}
    && (if r.status == RowStatus.Settled then w.status == SETTLED && r.winner == Some(w.winner) else r.winner == None)
  }

  predicate JobOk(job: WinnerJob, r: Row, w: Wager) {
    match job
    case Idle => true
    case Claimed(winner) => r.status == RowStatus.Settling && IsParticipant(w, winner)
    case Landed(winner) => r.status == RowStatus.Settling && w.status == SETTLED && w.winner == winner
    case RollingBack => true
  }

  predicate Inv(s: World) {
    ChainOk(s.chain) && Mirrors(s.row, s.chain.wager) && JobOk(s.job, s.row, s.chain.wager)
  }

  lemma StartedInv(s: World)
    requires Started(s)
    ensures Inv(s)
  {
  }

  lemma SettlesOk(c: Chain, winner: Pubkey)
    requires ChainOk(c) && ChainSettles(c, winner).Some?
    ensures ChainOk(ChainSettles(c, winner).value)
  {
  }

  lemma InvalidatesOk(c: Chain)
    requires ChainOk(c) && ChainInvalidates(c).Some?
    ensures ChainOk(ChainInvalidates(c).value)
  {
  }

  lemma SendKeeps(s: World)
    requires Inv(s) && s.job.Claimed? && ChainSettles(s.chain, s.job.winner).Some?
    ensures Inv(s.(chain := ChainSettles(s.chain, s.job.winner).value, job := Landed(s.job.winner)))
  {
    SettlesOk(s.chain, s.job.winner);
  }

  /** The chain ends the wager behind the worker's back. */
  lemma ElsewhereKeeps(s: World, c: Chain)
    requires Inv(s) && ChainOk(c) && s.chain.wager.status == MATCHED
    requires c.wager.maker == s.chain.wager.maker && c.wager.opponent == s.chain.wager.opponent
    requires c.wager.amount == s.chain.wager.amount
    ensures Inv(s.(chain := c))
  {
  }

  lemma ChainKeeps(s: World, a: Action)
    requires Inv(s) && (a.Land? || a.AuthorityInvalidates?)
    ensures Inv(Do(s, a))
  {
    if a.Land? {
      if a.winner in s.inFlight && ChainSettles(s.chain, a.winner).Some? {
        SettlesOk(s.chain, a.winner);
        ElsewhereKeeps(s, ChainSettles(s.chain, a.winner).value);
      }
    } else if ChainInvalidates(s.chain).Some? {
      InvalidatesOk(s.chain);
      ElsewhereKeeps(s, ChainInvalidates(s.chain).value);
    }
  }

  /** Steps of the worker and of the queue. */
  lemma WorkerKeeps(s: World, a: Action)
    requires Mirrors(s.row, s.chain.wager) && JobOk(s.job, s.row, s.chain.wager)
    requires !a.Send? && !a.Land? && !a.AuthorityInvalidates?
    ensures var s' := Do(s, a);
            s'.chain == s.chain && Mirrors(s'.row, s.chain.wager) && JobOk(s'.job, s'.row, s.chain.wager)
  {
  }

  lemma StepKeeps(s: World, a: Action)
    requires Inv(s)
    ensures Inv(Do(s, a))
  {
    if a.Send? {
      if s.job.Claimed? && ChainSettles(s.chain, s.job.winner).Some? {
        SendKeeps(s);
      }
    } else if a.Land? || a.AuthorityInvalidates? {
      ChainKeeps(s, a);
    } else {
      WorkerKeeps(s, a);
    }
  }

  lemma {:induction false} RunKeeps(s: World, actions: seq<Action>)
    requires Inv(s)
    ensures Inv(Run(s, actions))
  {
    if actions != [] {
      RunKeeps(s, actions[..|actions| - 1]);
      StepKeeps(Run(s, actions[..|actions| - 1]), actions[|actions| - 1]);
    }
  }

  /** Whoever is announced how often, and whatever lands when: the chain pays both stakes at most once, to one
    * winner or back; a settled row names the player who got them.
    */
  lemma WinnerAgrees(s: World, actions: seq<Action>)
    requires Started(s)
    ensures var now := Run(s, actions);
            var w := now.chain.wager;
            && (w.status == MATCHED ==> now.chain.makerGot == now.chain.opponentGot == 0)
            && (w.status != MATCHED ==> now.chain.makerGot + now.chain.opponentGot == 2 * w.amount)
            && (now.row.status == RowStatus.Settled ==>
                  && w.status == SETTLED && now.row.winner == Some(w.winner) && IsParticipant(w, w.winner)
                  && (w.winner == w.maker ==> now.chain.makerGot == 2 * w.amount)
                  && (w.winner == w.opponent ==> now.chain.opponentGot == 2 * w.amount))
  {
    StartedInv(s);
    RunKeeps(s, actions);
    var w := Run(s, actions).chain.wager;
    assert Times(0, w.incrementValue) == 0;
  }

  /** A row shows both stakes until it is settled, and then nothing. */
  predicate ShowsStakes(r: Row) {
    && r.makerFinal == None && r.opponentFinal == None
    && (if r.status == RowStatus.Settled then r.makerRemaining == r.opponentRemaining == 0
        else r.makerRemaining == r.opponentRemaining == r.amount)
  }

  lemma StakesStep(s: World, a: Action)
    requires Inv(s) && ShowsStakes(s.row)
    ensures ShowsStakes(Do(s, a).row) && Do(s, a).row.amount == s.row.amount && Do(s, a).row.maker == s.row.maker
  {
  }

  lemma {:induction false} StakesStand(s: World, actions: seq<Action>)
    requires Started(s)
    ensures ShowsStakes(Run(s, actions).row) && Inv(Run(s, actions))
    ensures Run(s, actions).row.amount == s.row.amount && Run(s, actions).row.maker == s.row.maker
    decreases |actions|
  {
    StartedInv(s);
    if actions != [] {
      StakesStand(s, actions[..|actions| - 1]);
      RunKeeps(s, actions);
      StakesStep(Run(s, actions[..|actions| - 1]), actions[|actions| - 1]);
    }
  }

  // ----- When a row can still be settled -----

  /** The chain is done with the wager, and the worker is not about to say so. */
  predicate Outrun(s: World) {
    s.row.status != RowStatus.Settled && s.chain.wager.status != MATCHED && !s.job.Landed?
  }

  lemma OutrunStep(s: World, a: Action)
    requires Outrun(s)
    ensures Outrun(Do(s, a))
  {
  }

  lemma {:induction false} OutrunRun(s: World, actions: seq<Action>)
    requires Outrun(s)
    ensures Outrun(Run(s, actions))
  {
    if actions != [] {
      OutrunRun(s, actions[..|actions| - 1]);
      OutrunStep(Run(s, actions[..|actions| - 1]), actions[|actions| - 1]);
    }
  }

  lemma {:induction false} RunConcat(s: World, first: seq<Action>, second: seq<Action>)
    ensures Run(s, first + second) == Run(Run(s, first), second)
  {
    if second == [] {
      assert first + second == first;
    } else {
      var n := |second| - 1;
      assert (first + second)[..|first + second| - 1] == first + second[..n];
      RunConcat(s, first, second[..n]);
    }
  }

  lemma RunOne(s: World, a: Action)
    ensures Run(s, [a]) == Do(s, a)
  {
    assert [a][..0] == [];
  }

  lemma RunTwo(s: World, a: Action, b: Action)
    ensures Run(s, [a, b]) == Do(Do(s, a), b)
  {
    assert [a, b] == [a] + [b];
    RunConcat(s, [a], [b]);
    RunOne(s, a);
    RunOne(Do(s, a), b);
  }

  lemma RunThree(s: World, a: Action, b: Action, c: Action)
    ensures Run(s, [a, b, c]) == Do(Do(Do(s, a), b), c)
  {
    assert [a, b, c] == [a, b] + [c];
    RunConcat(s, [a, b], [c]);
    RunTwo(s, a, b);
    RunOne(Do(Do(s, a), b), c);
  }

  predicate Unsettled(s: World) {
    s.row.status in {Matched, RowStatus.Settling} && s.row.winner == None && !s.row.incremental
  }

  lemma JobSettles(s: World)
    requires Inv(s) && Unsettled(s) && s.job == Idle && s.queued.Waiting? && IsParticipant(s.chain.wager, s.wanted)
    requires s.chain.wager.status == MATCHED
    ensures Run(s, [Claim, Send, Finish(true)]).row.status == RowStatus.Settled
  {
    RunThree(s, Claim, Send, Finish(true));
  }

  /** The queue drops what it holds, the maker is announced, and the job runs through. */
  function StartOver(maker: Pubkey): seq<Action> {
    [WorkerCrash, GivenUp] + ([Forgotten, Announce(maker)] + [Claim, Send, Finish(true)])
  }

  lemma Dropped(s: World)
    ensures Run(s, [WorkerCrash, GivenUp]).(queued := Absent) == s.(job := Idle, queued := Absent)
    ensures Run(s, [WorkerCrash, GivenUp]).queued in {Absent, Over}
  {
    RunTwo(s, WorkerCrash, GivenUp);
  }

  lemma Announced(s: World, maker: Pubkey)
    requires s.queued in {Absent, Over}
    ensures Run(s, [Forgotten, Announce(maker)]) == s.(queued := Waiting(0), wanted := maker)
  {
    RunTwo(s, Forgotten, Announce(maker));
  }

  lemma StartsOver(s: World)
    requires Inv(s) && Unsettled(s) && s.chain.wager.status == MATCHED
    ensures Run(s, StartOver(s.row.maker)).row.status == RowStatus.Settled
  {
    var maker := s.row.maker;
    var dropped := Run(s, [WorkerCrash, GivenUp]);
    Dropped(s);
    Announced(dropped, maker);
    JobSettles(dropped.(queued := Waiting(0), wanted := maker));
    RunConcat(dropped, [Forgotten, Announce(maker)], [Claim, Send, Finish(true)]);
    RunConcat(s, [WorkerCrash, GivenUp], [Forgotten, Announce(maker)] + [Claim, Send, Finish(true)]);
  }

  /** In every reachable state a row that is not settled can still be if and only if the escrow is still there or
    * the worker is about to commit the settlement that it has just seen land.
    */
  lemma SettlesIff(s: World)
    requires Inv(s) && s.row.status != RowStatus.Settled
    ensures (exists actions :: Run(s, actions).row.status == RowStatus.Settled)
            <==> s.chain.wager.status == MATCHED || s.job.Landed?
  {
    if s.job.Landed? {
      RunOne(s, Finish(true));
    } else if s.chain.wager.status == MATCHED {
      StartsOver(s);
    } else {
      forall actions
        ensures Run(s, actions).row.status != RowStatus.Settled
      {
        OutrunRun(s, actions);
      }
    }
  }

  // ----- As long as the queue forgets nothing -----

  /** A job that is over, or that names somebody who does not play, settles nothing. */
  predicate Spent(s: World) {
    && s.job == Idle && s.row.status != RowStatus.Settled
    && (s.queued.Over? || (s.queued.Waiting? && !RowParticipant(s.row, s.wanted)))
  }

  lemma SpentStep(s: World, a: Action)
    requires Spent(s) && a != Forgotten
    ensures Spent(Do(s, a))
  {
  }

  lemma {:induction false} SpentRun(s: World, actions: seq<Action>)
    requires Spent(s) && Forgotten !in actions
    ensures Spent(Run(s, actions))
  {
    if actions != [] {
      SpentRun(s, actions[..|actions| - 1]);
      SpentStep(Run(s, actions[..|actions| - 1]), actions[|actions| - 1]);
    }
  }

  lemma AnnouncedSettles(s: World)
    requires Inv(s) && Unsettled(s) && s.job == Idle && s.queued == Absent && s.chain.wager.status == MATCHED
    ensures Run(s, [Announce(s.row.maker)] + [Claim, Send, Finish(true)]).row.status == RowStatus.Settled
  {
    RunOne(s, Announce(s.row.maker));
    JobSettles(Do(s, Announce(s.row.maker)));
    RunConcat(s, [Announce(s.row.maker)], [Claim, Send, Finish(true)]);
  }

  ghost predicate SettlesBy(s: World, actions: seq<Action>) {
    Forgotten !in actions && Run(s, actions).row.status == RowStatus.Settled
  }

  /** Between two jobs, as long as the queue forgets nothing, it takes an attempt that is left for a winner who
    * plays, or no job at all: announcing a winner again does not revive a job that has used up its attempts.
    */
  lemma SettlesUnforgottenIff(s: World)
    requires Inv(s) && s.row.status != RowStatus.Settled && s.job == Idle
    ensures (exists actions :: SettlesBy(s, actions))
            <==> && s.chain.wager.status == MATCHED
                 && (s.queued.Absent? || (s.queued.Waiting? && IsParticipant(s.chain.wager, s.wanted)))
  {
    if s.chain.wager.status != MATCHED {
      forall actions
        ensures !SettlesBy(s, actions)
      {
        OutrunRun(s, actions);
      }
    } else if s.queued.Absent? {
      AnnouncedSettles(s);
      assert SettlesBy(s, [Announce(s.row.maker)] + [Claim, Send, Finish(true)]);
    } else if s.queued.Waiting? && IsParticipant(s.chain.wager, s.wanted) {
      JobSettles(s);
      assert SettlesBy(s, [Claim, Send, Finish(true)]);
    } else {
      forall actions
        ensures !SettlesBy(s, actions)
      {
        if Forgotten !in actions {
          SpentRun(s, actions);
        }
      }
    }
  }

  // ----- Runs into the dead end -----

  /** The settlement lands, the final UPDATE throws, and the rollback works or is lost as well. */
  function PaidButRolledBack(winner: Pubkey, works: bool): seq<Action> {
    [Announce(winner), Claim, Send] + [FinishThrows, RollBack(works)]
  }

  /** Then the winner has both stakes, the row says MATCHED, or SETTLING where the rollback was lost, and no retry
    * and no later announcement ever changes that.
    */
  lemma PaidButNeverSettled(s: World, winner: Pubkey, works: bool)
    requires Started(s) && IsParticipant(s.chain.wager, winner)
    ensures var now := Run(s, PaidButRolledBack(winner, works));
            && now.row.status == (if works then Matched else RowStatus.Settling)
            && now.chain.wager.status == SETTLED && now.chain.wager.winner == winner
            && (forall more :: Run(now, more).row.status != RowStatus.Settled)
  {
    StartedInv(s);
    RunThree(s, Announce(winner), Claim, Send);
    var landed := s.(chain := ChainSettles(s.chain, winner).value, row := s.row.(status := RowStatus.Settling),
                     queued := Waiting(0), wanted := winner, job := Landed(winner));
    assert Run(s, [Announce(winner), Claim, Send]) == landed;
    RunTwo(landed, FinishThrows, RollBack(works));
    RunConcat(s, [Announce(winner), Claim, Send], [FinishThrows, RollBack(works)]);
    var now := Run(s, PaidButRolledBack(winner, works));
    forall more
      ensures Run(now, more).row.status != RowStatus.Settled
    {
      OutrunRun(now, more);
    }
  }

  // ----- The ledger -----

  /** The protocol's chain is the escrow program: it accepts the same settlements, leaves the same record and books
    * what the wallets receive.
    */
  lemma SettlementLinks(l: Ledger, asset: Asset, id: u64, c: Chain, winner: Pubkey)
    requires Valid(l) && Loads(l, asset, id) && l.wagers[id] == c.wager && ChainOk(c)
    requires l.config.chainAuthority != DEFAULT_KEY
    ensures var ix := SettleWager(asset, id, winner, l.config.chainAuthority);
            && (Step(l, ix).Ok? <==> ChainSettles(c, winner).Some?)
            && (Step(l, ix).Ok? ==> Booked(l, ix, id, c, ChainSettles(c, winner).value))
  {
    var ix := SettleWager(asset, id, winner, l.config.chainAuthority);
    SettleSucceedsIff(l, ix);
    if Step(l, ix).Ok? {
      SettledRecord(l, ix);
      SettlesOk(c, winner);
      PaysBothStakes(l, ix, id, c, ChainSettles(c, winner).value);
    }
  }

  predicate Booked(l: Ledger, ix: Instruction, id: u64, c: Chain, c': Chain)
    requires Step(l, ix).Ok?
  {
    && id in Step(l, ix).value.wagers && Step(l, ix).value.wagers[id] == c'.wager
    && PaidBy(l, ix, id, c.wager.maker) == c'.makerGot - c.makerGot
    && PaidBy(l, ix, id, c.wager.opponent) == c'.opponentGot - c.opponentGot
  }

  lemma SettledRecord(l: Ledger, ix: Instruction)
    requires ix.SettleWager? && Step(l, ix).Ok?
    ensures ix.wagerId in l.wagers && ix.wagerId in Step(l, ix).value.wagers
    ensures Step(l, ix).value.wagers[ix.wagerId] == Closed(l.wagers[ix.wagerId], SETTLED, ix.winner)
  {
  }

  lemma PaysBothStakes(l: Ledger, ix: Instruction, id: u64, c: Chain, c': Chain)
    requires ix.SettleWager? && ix.wagerId == id && Step(l, ix).Ok? && GoodAt(l, id) && l.wagers[id] == c.wager
    requires id in Step(l, ix).value.wagers && Step(l, ix).value.wagers[id] == c'.wager
    requires ChainOk(c) && ChainOk(c') && c'.wager.maker == c.wager.maker && c'.wager.opponent == c.wager.opponent
    ensures Booked(l, ix, id, c, c')
  {
    WholePays(l, ix, c.wager.maker);
    WholePays(l, ix, c.wager.opponent);
  }
}
