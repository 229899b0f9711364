/** The wagers table in place: the API's lifecycle handlers as guarded UPDATEs, and the winner-take-all job. */
module WagersTable {
  import opened Basics
  import opened ProgramState
  import opened WagerRows
  import opened QuakeServer

  datatype Reply = Done | Unavailable | Occupied

  /** What a guarded UPDATE promises: the row it selects is rewritten, unless the unique index refuses. */
  predicate Performed(before: Rows, id: nat, s: Statement, reply: Reply, after: Rows) {
    match Exec(before, id, s)
    case Written(rows) => reply == Done && after == rows
    case NoRow => reply == Unavailable && after == before
    case UniqueViolation => reply == Occupied && after == before
  }

  class Table {
    var rows: Rows

    /** The invariant of the unique index. */
    predicate Valid()
      reads this
    {
      AtMostOneReserved(rows)
    }

    constructor ()
      ensures Valid() && rows == map[]
    {
      rows := map[];
    }

    /** Writes a row through the unique index on reserved Quake wagers. */
    method Write(id: nat, r: Row) returns (reply: Reply)
      requires id in rows
      modifies this
      ensures reply == if IndexAllows(old(rows), id, r) then Done else Occupied
      ensures rows == if reply == Done then old(rows)[id := r] else old(rows)
    {
      if !IndexAllows(rows, id, r) {
        return Occupied;
      }
      rows := rows[id := r];
      return Done;
    }

    // ----- Challenge lifecycle -----

    method AcceptIntent(id: nat, opponent: Pubkey) returns (reply: Reply)
      requires Valid()
      modifies this
      ensures Valid() && Performed(old(rows), id, WagerRows.AcceptIntent(opponent), reply, rows)
    {
      if id !in rows {
        return Unavailable;
      }
      var r := rows[id];
      if !(r.status == Open && !r.createSigned && r.maker != opponent
           && (r.challenger == None || r.challenger == Some(opponent))) {
        return Unavailable;
      }
      r := r.(opponent := Some(opponent), status := Accepted);
      reply := Write(id, r);
    }

    method Chain(id: nat, maker: Pubkey, signed: bool) returns (reply: Reply)
      requires Valid()
      modifies this
      ensures Valid() && Performed(old(rows), id, FundByMaker(maker, signed), reply, rows)
    {
      if id !in rows {
        return Unavailable;
      }
      var r := rows[id];
      if !(r.maker == maker && r.status == Accepted && r.opponent != None) {
        return Unavailable;
      }
      if signed {
        r := r.(createSigned := true);
      }
      r := r.(status := MakerFunded);
      reply := Write(id, r);
    }

    method Accept(id: nat, opponent: Pubkey) returns (reply: Reply)
      requires Valid()
      modifies this
      ensures Valid() && Performed(old(rows), id, WagerRows.Accept(opponent), reply, rows)
    {
      if id !in rows {
        return Unavailable;
      }
      var r := rows[id];
      if !((r.status == MakerFunded || (r.status == Open && r.createSigned)) && r.maker != opponent
           && (r.opponent == Some(opponent)
               || (r.opponent == None && (r.challenger == None || r.challenger == Some(opponent))))) {
        return Unavailable;
      }
      r := r.(opponent := Some(opponent), status := Matched);
      r := r.(opponentRemaining := r.amount);
      reply := Write(id, r);
    }

    method Decline(id: nat, challenger: Pubkey) returns (reply: Reply)
      requires Valid()
      modifies this
      ensures Valid() && Performed(old(rows), id, WagerRows.Decline(challenger), reply, rows)
    {
      if id !in rows {
        return Unavailable;
      }
      var r := rows[id];
      var reserved := r.status == Open && r.challenger == Some(challenger) && r.opponent == None;
      var accepted := r.status == Accepted && r.opponent == Some(challenger);
      if r.createSigned || !(reserved || accepted) {
        return Unavailable;
      }
      r := r.(status := Declined, makerRemaining := 0);
      reply := Write(id, r);
    }

    method CancelIntent(id: nat, maker: Pubkey) returns (reply: Reply)
      requires Valid()
      modifies this
      ensures Valid() && Performed(old(rows), id, WagerRows.CancelIntent(maker), reply, rows)
    {
      if id !in rows {
        return Unavailable;
      }
      var r := rows[id];
      if !(r.maker == maker && r.status == Accepted && !r.createSigned) {
        return Unavailable;
      }
      r := r.(status := Cancelled);
      reply := Write(id, r);
    }

    method Cancel(id: nat, maker: Pubkey) returns (reply: Reply)
      requires Valid()
      modifies this
      ensures Valid() && Performed(old(rows), id, WagerRows.Cancel(maker), reply, rows)
    {
      if id !in rows {
        return Unavailable;
      }
      var r := rows[id];
      if !(r.maker == maker && (r.status == Open || r.status == MakerFunded) && r.createSigned) {
        return Unavailable;
      }
      r := r.(status := Cancelled, makerRemaining := 0);
      reply := Write(id, r);
    }

    // ----- Winner-take-all settlement -----

    /** processWinner, uninterrupted. The settlement lands or not, and if it does the final UPDATE commits or
      * throws; the job finishes or rolls its claim back, also when the chain has settled. For a winner who does
      * not play it fails with the row still claimed.
      */
    method ProcessWinner(id: nat, winner: Pubkey, landed: bool, committed: bool) returns (settled: bool)
      requires Valid()
      modifies this
      ensures Valid()
      ensures Database(rows, Idle)
           == Run(Database(old(rows), Idle), WinnerSteps(id, winner, landed, committed))
      ensures settled ==> landed && committed
      ensures settled ==> id in rows && rows[id].status == RowStatus.Settled && rows[id].winner == Some(winner)
    {
      WinnerJob(rows, id, winner, landed, committed);
      settled := false;
      if id !in rows {
        return;
      }
      var r := rows[id];
      if !((r.status == Matched || r.status == Settling) && r.winner == None && !r.incremental) {
        return;
      }
      r := r.(status := Settling);
      var reply := Write(id, r);
      assert reply == Done;
      if !(winner == r.maker || Some(winner) == r.opponent) {
        return;
      }
      if landed && committed {
        r := r.(status := RowStatus.Settled, winner := Some(winner));
        r := r.(makerRemaining := 0, opponentRemaining := 0);
        reply := Write(id, r);
        settled := true;
      } else {
        r := r.(status := Matched);
        reply := Write(id, r);
      }
      assert reply == Done;
    }
  }

  /** The job's statements: claim, then finish or roll back. */
  function WinnerSteps(id: nat, winner: Pubkey, landed: bool, committed: bool): seq<Action> {
    [StartSettling(id, winner), if landed && committed then FinishWinner else RollBackWinner, WorkerCrash]
  }

  lemma RunThree(d: Database, a: Action, b: Action, c: Action, d1: Database, d2: Database)
    requires Next(d, a) == d1 && Next(d1, b) == d2
    ensures Run(d, [a, b, c]) == Next(d2, c)
  {
    var one, two, three := [a], [a, b], [a, b, c];
    assert one[..0] == [] && two[..1] == one && three[..2] == two;
    assert Run(d, one) == d1;
    assert Run(d, two) == d2;
  }

  predicate Claimable(r: Row) {
    r.status in {Matched, Settling} && r.winner == None && !r.incremental
  }

  function WinnerRow(r: Row, winner: Pubkey, landed: bool, committed: bool): Row {
    if !Claimable(r) then r
    else if !RowParticipant(r, winner) then r.(status := Settling)
    else if landed && committed then
      r.(status := RowStatus.Settled, winner := Some(winner), makerRemaining := 0, opponentRemaining := 0)
    else r.(status := Matched)
  }

  /** The row after the claim. */
  function ClaimedRows(rows: Rows, id: nat): Rows
    requires id in rows
  {
    rows[id := rows[id].(status := Settling)]
  }

  lemma ClaimStep(rows: Rows, id: nat, winner: Pubkey)
    requires AtMostOneReserved(rows) && id in rows && Claimable(rows[id])
    ensures AtMostOneReserved(ClaimedRows(rows, id))
    ensures Next(Database(rows, Idle), StartSettling(id, winner))
         == Database(ClaimedRows(rows, id),
                     if RowParticipant(rows[id], winner) then SettlingWager(id, winner) else Idle)
  {
  }

  lemma NoClaim(rows: Rows, id: nat, winner: Pubkey)
    requires id !in rows || !Claimable(rows[id])
    ensures Next(Database(rows, Idle), StartSettling(id, winner)) == Database(rows, Idle)
  {
  }

  lemma FinishStep(rows: Rows, id: nat, winner: Pubkey)
    requires AtMostOneReserved(rows) && id in rows && rows[id].status == Settling
    ensures Next(Database(rows, SettlingWager(id, winner)), FinishWinner)
         == Database(rows[id := rows[id].(status := RowStatus.Settled, winner := Some(winner),
                                          makerRemaining := 0, opponentRemaining := 0)], SettlingWager(id, winner))
  {
  }

  lemma RollBackStep(rows: Rows, id: nat, winner: Pubkey)
    requires AtMostOneReserved(rows) && id in rows && rows[id].status == Settling && rows[id].winner == None
    ensures Next(Database(rows, SettlingWager(id, winner)), RollBackWinner)
         == Database(rows[id := rows[id].(status := Matched)], Idle)
  {
  }

  lemma IdleSteps(rows: Rows, a: Action)
    requires a == FinishWinner || a == RollBackWinner
    ensures Next(Database(rows, Idle), a) == Database(rows, Idle)
  {
  }

  lemma CrashStep(d: Database)
    ensures Next(d, WorkerCrash) == Database(d.rows, Idle)
  {
  }

  lemma WinnerJob(rows: Rows, id: nat, winner: Pubkey, landed: bool, committed: bool)
    requires AtMostOneReserved(rows)
    ensures Run(Database(rows, Idle), WinnerSteps(id, winner, landed, committed))
         == Database(if id in rows then rows[id := WinnerRow(rows[id], winner, landed, committed)] else rows, Idle)
  {
    var a, b := StartSettling(id, winner), if landed && committed then FinishWinner else RollBackWinner;
    var d1 := Next(Database(rows, Idle), a);
    var d2 := Next(d1, b);
    RunThree(Database(rows, Idle), a, b, WorkerCrash, d1, d2);
    CrashStep(d2);
    if id in rows && Claimable(rows[id]) {
      ClaimedJob(rows, id, winner, landed && committed);
    } else {
      NoClaim(rows, id, winner);
      IdleSteps(rows, b);
    }
  }

  lemma ClaimedJob(rows: Rows, id: nat, winner: Pubkey, finish: bool)
    requires AtMostOneReserved(rows) && id in rows && Claimable(rows[id])
    ensures var d1 := Next(Database(rows, Idle), StartSettling(id, winner));
            Next(d1, if finish then FinishWinner else RollBackWinner).rows
            == rows[id := WinnerRow(rows[id], winner, finish, true)]
  {
    var claimed := ClaimedRows(rows, id);
    ClaimStep(rows, id, winner);
    if !RowParticipant(rows[id], winner) {
      IdleSteps(claimed, if finish then FinishWinner else RollBackWinner);
    } else if finish {
      FinishStep(claimed, id, winner);
    } else {
      RollBackStep(claimed, id, winner);
    }
  }
}
