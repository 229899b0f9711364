/** A row of the wagers table and the guarded UPDATE statements that the API and the worker run on it. */
module WagerRows {
  import opened Basics
  import opened ProgramState

  datatype Game = Cs2 | Quake3

  datatype RowStatus =
    | Open
    | Accepted
    | MakerFunded
    | Matched
    | Settling
    | Settled
    | CashingOut
    | CashedOut
    | Declined
    | Cancelled

  datatype Row = Row(
    maker: Pubkey,
    challenger: Option<Pubkey>,
    opponent: Option<Pubkey>,
    amount: nat,
    game: Game,
    status: RowStatus,
    winner: Option<Pubkey>,
    incremental: bool,
    incrementValue: nat,
    makerRemaining: int,
    opponentRemaining: int,
    makerScore: nat,
    opponentScore: nat,
    createSigned: bool,
    cashoutRequestedBy: Option<Pubkey>,
    makerFinal: Option<int>,
    opponentFinal: Option<int>)

  datatype Statement =
    // API
    | AcceptIntent(opponent: Pubkey)
    | FundByMaker(maker: Pubkey, signed: bool)
    | Accept(opponent: Pubkey)
    | Decline(challenger: Pubkey)
    | CancelIntent(maker: Pubkey)
    | Cancel(maker: Pubkey)
    | RequestCashOut(wallet: Pubkey)
    | RollBackCashOut
    | CancelCashOut(wallet: Pubkey)
    // Worker
    | BeginSettling
    | FinishSettling(winner: Pubkey)
    | RollBackSettling
    | CommitIncrement(forMaker: bool, amount: int, final: bool)
    | CommitCashOut(makerBalance: int, opponentBalance: int)

  /** The statements the API runs; the others are the worker's. */
  predicate IsApi(s: Statement) {
    || s.AcceptIntent? || s.FundByMaker? || s.Accept? || s.Decline? || s.CancelIntent? || s.Cancel?
    || s.RequestCashOut? || s.RollBackCashOut? || s.CancelCashOut?
  }

  predicate RowParticipant(r: Row, wallet: Pubkey) {
    wallet == r.maker || r.opponent == Some(wallet)
  }

  /** The row after a statement, or None where its WHERE clause does not select the row. */
  function Updated(r: Row, s: Statement): Option<Row> {
    match s
    case AcceptIntent(opponent) =>
      if r.status == Open && !r.createSigned && r.maker != opponent && r.challenger in {None, Some(opponent)}
      then Some(r.(opponent := Some(opponent), status := Accepted)) else None
    case FundByMaker(maker, signed) =>
      if r.maker == maker && r.status == Accepted && r.opponent.Some?
      then Some(r.(createSigned := r.createSigned || signed, status := MakerFunded)) else None
    case Accept(opponent) =>
      if (r.status == MakerFunded || (r.status == Open && r.createSigned)) && r.maker != opponent
         && (r.opponent == Some(opponent) || (r.opponent == None && r.challenger in {None, Some(opponent)}))
      then Some(r.(opponent := Some(opponent), status := Matched, opponentRemaining := r.amount)) else None
    case Decline(challenger) =>
      if !r.createSigned && ((r.status == Open && r.challenger == Some(challenger) && r.opponent == None)
                             || (r.status == Accepted && r.opponent == Some(challenger)))
      then Some(r.(status := Declined, makerRemaining := 0)) else None
    case CancelIntent(maker) =>
      if r.maker == maker && r.status == Accepted && !r.createSigned
      then Some(r.(status := Cancelled)) else None
    case Cancel(maker) =>
      if r.maker == maker && r.status in {Open, MakerFunded} && r.createSigned
      then Some(r.(status := Cancelled, makerRemaining := 0)) else None
    case RequestCashOut(wallet) =>
      if r.status == Matched && r.incremental && RowParticipant(r, wallet)
      then Some(if r.cashoutRequestedBy == None then r.(cashoutRequestedBy := Some(wallet))
                else if r.cashoutRequestedBy != Some(wallet) then r.(status := CashingOut)
                else r)
      else None
    case RollBackCashOut =>
      if r.status == CashingOut then Some(r.(status := Matched)) else None
    case CancelCashOut(wallet) =>
      if r.status == Matched && r.cashoutRequestedBy == Some(wallet)
      then Some(r.(cashoutRequestedBy := None)) else None
    case BeginSettling =>
      if r.status in {Matched, Settling} && r.winner == None && !r.incremental
      then Some(r.(status := Settling)) else None
    case FinishSettling(winner) =>
      Some(r.(status := Settled, winner := Some(winner), makerRemaining := 0, opponentRemaining := 0))
    case RollBackSettling =>
      if r.winner == None then Some(r.(status := Matched)) else None
    case CommitIncrement(forMaker, amount, final) =>
      Some(if forMaker then
             r.(makerScore := r.makerScore + 1,
                opponentRemaining := if final then 0 else r.opponentRemaining - amount,
                makerRemaining := if final then 0 else r.makerRemaining,
                status := if final then Settled else r.status,
                winner := if final then Some(r.maker) else r.winner)
           else
             r.(opponentScore := r.opponentScore + 1,
                makerRemaining := if final then 0 else r.makerRemaining - amount,
                opponentRemaining := if final then 0 else r.opponentRemaining,
                status := if final then Settled else r.status,
                winner := if final then r.opponent else r.winner))
    case CommitCashOut(makerBalance, opponentBalance) =>
      if r.status == CashingOut
      then Some(r.(status := CashedOut, makerRemaining := 0, opponentRemaining := 0,
                   makerFinal := Some(makerBalance), opponentFinal := Some(opponentBalance)))
      else None
  }

  /** The row a statement leaves behind, changed or not. */
  function After(r: Row, s: Statement): Row {
    match Updated(r, s)
    case Some(r') => r'
    case None => r
  }
}
