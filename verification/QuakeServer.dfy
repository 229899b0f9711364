/** The wagers table as a whole: its unique index reserves the one shared Quake server. */
module QuakeServer {
  import opened Basics
  import opened ProgramState
  import opened WagerRows

  type Rows = map<nat, Row>

  predicate Reserved(r: Row) {
    r.game == Quake3 && r.status in {Accepted, MakerFunded, Matched, Settling, CashingOut}
  }

  predicate AtMostOneReserved(rows: Rows) {
    forall i, j :: i in rows && j in rows && Reserved(rows[i]) && Reserved(rows[j]) ==> i == j
  }

  /** wagers_one_active_quake_idx on the row that a statement is about to write. */
  predicate IndexAllows(rows: Rows, id: nat, r: Row) {
    Reserved(r) ==> forall j :: j in rows && j != id ==> !Reserved(rows[j])
  }

  datatype Outcome = Written(rows: Rows) | NoRow | UniqueViolation

  function Exec(rows: Rows, id: nat, s: Statement): Outcome {
    if id !in rows || Updated(rows[id], s) == None then NoRow
    else
      var r := Updated(rows[id], s).value;
      if IndexAllows(rows, id, r) then Written(rows[id := r]) else UniqueViolation
  }

  /** What the single chain worker is doing between two of its statements. */
  datatype Busy =
    | Idle
    | SettlingWager(id: nat, winner: Pubkey)
    | PayingIncrement(id: nat)
    | CashingOutWager(id: nat)

  /** A processWinner job runs its final update or its rollback, or first the one and then the other when
    * the update is applied but reported as failed; WorkerCrash also ends a job that is done.
    */
  datatype Database = Database(rows: Rows, busy: Busy)

  datatype Action =
    | Insert(id: nat, row: Row)
    | Api(id: nat, statement: Statement)
    | StartSettling(id: nat, winner: Pubkey)
    | FinishWinner
    | RollBackWinner
    | StartPaying(id: nat)
    | Paid(forMaker: bool, amount: int, final: bool)
    | StartCashOut(id: nat)
    | PaidOut(makerBalance: int, opponentBalance: int)
    | WorkerCrash

  /** The statement an action runs, if any. */
  function StatementOf(d: Database, a: Action): Option<(nat, Statement)> {
    match a
    case Insert(_, _) => None
    case Api(id, s) => if IsApi(s) then Some((id, s)) else None
    case StartSettling(id, _) => if d.busy == Idle then Some((id, BeginSettling)) else None
    case FinishWinner =>
      if d.busy.SettlingWager? then Some((d.busy.id, FinishSettling(d.busy.winner))) else None
    case RollBackWinner =>
      if d.busy.SettlingWager? then Some((d.busy.id, RollBackSettling)) else None
    case StartPaying(_) => None
    case Paid(forMaker, amount, final) =>
      if d.busy.PayingIncrement? then Some((d.busy.id, CommitIncrement(forMaker, amount, final))) else None
    case StartCashOut(_) => None
    case PaidOut(makerBalance, opponentBalance) =>
      if d.busy.CashingOutWager? then Some((d.busy.id, CommitCashOut(makerBalance, opponentBalance))) else None
    case WorkerCrash => None
  }

  predicate RowHas(d: Database, id: nat, status: RowStatus) {
    id in d.rows && d.rows[id].status == status && d.rows[id].incremental
  }

  /** What the worker does next; processWinner goes on only for a participant of the row it claimed. */
  function BusyAfter(d: Database, a: Action): Busy {
    match a
    case StartSettling(id, winner) =>
      if d.busy == Idle && id in d.rows && Updated(d.rows[id], BeginSettling).Some?
         && RowParticipant(d.rows[id], winner)
      then SettlingWager(id, winner) else d.busy
    case StartPaying(id) => if d.busy == Idle && RowHas(d, id, Matched) then PayingIncrement(id) else d.busy
    case StartCashOut(id) => if d.busy == Idle && RowHas(d, id, CashingOut) then CashingOutWager(id) else d.busy
    case RollBackWinner => if d.busy.SettlingWager? then Idle else d.busy
    case Paid(_, _, _) => if d.busy.PayingIncrement? then Idle else d.busy
    case PaidOut(_, _) => if d.busy.CashingOutWager? then Idle else d.busy
    case WorkerCrash => Idle
    case _ => d.busy
  }

  /** A new row is open and nobody has accepted it. */
  predicate Insertable(d: Database, a: Action)
    requires a.Insert?
  {
    a.id !in d.rows && a.row.status == Open && a.row.opponent == None && a.row.winner == None
  }

  function Next(d: Database, a: Action): Database {
    if a.Insert? then
      if Insertable(d, a) then d.(rows := d.rows[a.id := a.row]) else d
    else match StatementOf(d, a)
      case None => d.(busy := BusyAfter(d, a))
      case Some((id, s)) =>
        var rows := match Exec(d.rows, id, s)
                    case Written(rows) => rows
                    case NoRow => d.rows
                    case UniqueViolation => d.rows;
        Database(rows, BusyAfter(d, a))
  }

  function Run(d: Database, actions: seq<Action>): Database {
    if actions == [] then d else Next(Run(d, actions[..|actions| - 1]), actions[|actions| - 1])
  }

  /** While the worker settles a wager its row stays claimed or already carries a winner. */
  predicate Claimed(d: Database) {
    d.busy.SettlingWager? ==>
      && d.busy.id in d.rows
      && (d.rows[d.busy.id].status == RowStatus.Settling || d.rows[d.busy.id].winner.Some?)
  }

  predicate Valid(d: Database) {
    AtMostOneReserved(d.rows) && Claimed(d)
  }

  lemma ExecKeepsIndex(rows: Rows, id: nat, s: Statement)
    requires AtMostOneReserved(rows) && Exec(rows, id, s).Written?
    ensures AtMostOneReserved(Exec(rows, id, s).rows)
  {
  }

  /** No API statement touches a row that is being settled. */
  lemma ApiLeavesSettling(r: Row, s: Statement)
    requires IsApi(s) && (r.status == RowStatus.Settling || r.winner.Some?)
    ensures var r' := After(r, s);
            (r.status == RowStatus.Settling ==> r' == r) && r'.winner == r.winner
  {
  }

  lemma NextKeepsValid(d: Database, a: Action)
    requires Valid(d)
    ensures Valid(Next(d, a))
  {
    var o := StatementOf(d, a);
    if o.Some? && Exec(d.rows, o.value.0, o.value.1).Written? {
      ExecKeepsIndex(d.rows, o.value.0, o.value.1);
      if a.Api? && d.busy.SettlingWager? && d.busy.id == a.id {
        ApiLeavesSettling(d.rows[a.id], a.statement);
      }
    }
  }

  /** In every reachable table at most one Quake wager is reserved. */
  lemma {:induction false} RunKeepsValid(d: Database, actions: seq<Action>)
    requires Valid(d)
    ensures Valid(Run(d, actions))
  {
    if actions != [] {
      RunKeepsValid(d, actions[..|actions| - 1]);
      NextKeepsValid(Run(d, actions[..|actions| - 1]), actions[|actions| - 1]);
    }
  }

  /** A statement that takes a row out of a reserved status, or moves it between reserved ones, is never
    * refused: only an entry from OPEN can be.
    */
  lemma ReservedMovesFreely(rows: Rows, id: nat, s: Statement)
    requires AtMostOneReserved(rows) && id in rows && Reserved(rows[id])
    ensures Exec(rows, id, s) != UniqueViolation
  {
  }

  predicate EntersFromOpen(rows: Rows, id: nat, s: Statement) {
    && id in rows && rows[id].status == Open
    && (s.AcceptIntent? || (s.Accept? && rows[id].createSigned))
  }

  /** The unique index refuses a statement of any reachable table if and only if it is an acceptance of
    * an open Quake wager while another one holds the server; later lifecycle updates and the worker's
    * commits and rollbacks are never refused.
    */
  lemma RefusedIff(d: Database, actions: seq<Action>, a: Action, id: nat, s: Statement)
    requires Valid(d)
    requires StatementOf(Run(d, actions), a) == Some((id, s))
    ensures var rows := Run(d, actions).rows;
            Exec(rows, id, s) == UniqueViolation <==>
              && EntersFromOpen(rows, id, s) && Updated(rows[id], s).Some? && rows[id].game == Quake3
              && exists j :: j in rows && j != id && Reserved(rows[j])
  {
    RunKeepsValid(d, actions);
    var now := Run(d, actions);
    if id in now.rows && Reserved(now.rows[id]) {
      ReservedMovesFreely(now.rows, id, s);
    }
  }
}
