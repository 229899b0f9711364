/** The settlement of one incremental wager as interleaved atomic steps: the game worker, the chain
  * worker, the API's cash-out calls and the chain itself. Each SQL statement or transaction and each
  * chain call is one step. Jobs may be retried, duplicated, reordered, killed between any two steps and given
  * up by the queue, and a submitted transaction may land after its sender gave up on it.
  */
module Settlement {
  import opened Basics
  import opened ProgramState
  import opened EscrowSpec
  import opened EscrowInvariant
  import opened JobQueue
  import opened WagerRows

  /** A scoring event as a job carries it: its id, and the side that was found to be debited. */
  datatype Event = Event(id: nat, victimIsMaker: bool)

  /** A row of kill_payouts, with the victim it was recorded for. */
  datatype Payout = Payout(victimIsMaker: bool, amount: int, sequence: nat, paid: bool)

  /** kill_payouts, by its primary key, the event id. */
  type Payouts = map<nat, Payout>

  /** The wager account, what its escrow has paid to each player, and the ids of the events whose increments
    * were accepted, in order.
    */
  datatype Chain = Chain(wager: Wager, makerGot: int, opponentGot: int, accepted: seq<nat>)

  datatype Tx = IncrementTx(event: Event, sequence: nat) | InvalidateTx

  /** Where the game worker is inside processScoringEvent. */
  datatype GameJob = NoEvent | Scored(event: Event, amount: int) | Recorded(event: Event)

  /** Where the chain worker is inside processIncrementPayout or processCashOut. */
  datatype ChainJob =
    | Idle
    | PayLoaded(event: Event, row: Row, amount: int)
    | PayLanded(event: Event, row: Row, amount: int)
    | CashLoaded
    | CashRead(snapshot: Wager)
    | CashLanded(snapshot: Wager)

  datatype World = World(
    chain: Chain,
    row: Row,
    payouts: Payouts,
    jobs: set<Event>,      // the payout jobs ever queued
    spent: set<nat>,       // the ids of those that the queue has given up
    cashOut: Job,          // the cash-out job
    cashOutPending: bool,  // an API call moved the row to CASHING_OUT and has not queued the job yet
    game: GameJob,
    job: ChainJob,
    inFlight: set<Tx>,
    lost: bool)            // the chain has taken a step that the table will never record

  datatype Action =
    // Game worker
    | GameRead(event: Event)
    | GameRecord
    | GameEnqueue
    | GameFails
    // Chain worker, settle-increment job
    | PayLoad(event: Event)
    | PaySend
    | PayTimesOut
    | PayCommit
    | PayGivenUp(event: Event)
    | PayForgotten(id: nat)
    // Chain worker, cash-out job
    | CashLoad
    | CashSnapshot
    | CashSend
    | CashTimesOut
    | CashCommit
    | CashFails
    | CashGivenUp
    | CashForgotten
    | WorkerCrash
    // API
    | AskCashOut(wallet: Pubkey)
    | WithdrawCashOut(wallet: Pubkey)
    | QueueCashOut
    | QueueFails(queued: bool)
    | ApiCrash
    // Chain, outside the worker's control
    | Land(tx: Tx)
    | AuthorityInvalidates

  // ----- Pure helpers of the worker -----

  function KillPayout(killValue: int, victimRemaining: int): int {
    if killValue < victimRemaining then killValue else victimRemaining
  }

  /** remainingBalancesAfterIncrement; None where it throws. */
  function RemainingAfterIncrement(makerRemaining: int, opponentRemaining: int, beneficiaryIsMaker: bool,
                                   amount: int, finalIncrement: bool): Option<(int, int)>
  {
    if finalIncrement then Some((0, 0))
    else
      var nextMaker := makerRemaining - (if beneficiaryIsMaker then 0 else amount);
      var nextOpponent := opponentRemaining - (if beneficiaryIsMaker then amount else 0);
      if nextMaker < 0 || nextOpponent < 0 then None else Some((nextMaker, nextOpponent))
  }

  function RowLeft(r: Row, ofMaker: bool): int {
    if ofMaker then r.makerRemaining else r.opponentRemaining
  }

  function ChainLeft(w: Wager, ofMaker: bool): int {
    if ofMaker then w.makerRemaining else w.opponentRemaining
  }

  function Beneficiary(e: Event, w: Wager): Pubkey {
    if e.victimIsMaker then w.opponent else w.maker
  }

  function IsFinal(e: Event, r: Row, amount: int): bool {
    amount >= RowLeft(r, e.victimIsMaker)
  }

  // ----- The chain -----

  /** One settle_increment transaction; the client cannot even encode a sequence beyond u32. */
  function ChainScores(c: Chain, e: Event, sequence: nat): Option<Chain> {
    if sequence > U32_MAX then None
    else
      match PayIncrement(c.wager, Beneficiary(e, c.wager), sequence)
      case Err(_) => None
      case Ok(paid) =>
        Some(Chain(paid.wager,
                   c.makerGot + (if e.victimIsMaker then 0 else paid.transferred),
                   c.opponentGot + (if e.victimIsMaker then paid.transferred else 0),
                   c.accepted + [e.id]))
  }

  function ChainInvalidates(c: Chain): Option<Chain> {
    if c.wager.status != MATCHED then None
    else Some(c.(wager := Closed(c.wager, CANCELLED, c.wager.winner),
                 makerGot := c.makerGot + c.wager.makerRemaining,
                 opponentGot := c.opponentGot + c.wager.opponentRemaining))
  }

  function ChainExecutes(c: Chain, tx: Tx): Option<Chain> {
    match tx
    case IncrementTx(e, sequence) => ChainScores(c, e, sequence)
    case InvalidateTx => ChainInvalidates(c)
  }

  // ----- Steps -----

  function ReadEvent(s: World, e: Event): World {
    if s.game != NoEvent || s.row.status != Matched then s
    else
      var amount := KillPayout(s.row.incrementValue, RowLeft(s.row, e.victimIsMaker));
      if amount <= 0 then s else s.(game := Scored(e, amount))
  }

  /** The transaction that deduplicates the event by its id and numbers its payout; None where the number does
    * not fit its column and the transaction is rolled back.
    */
  function RecordPayout(payouts: Payouts, e: Event, amount: int): Option<Payouts> {
    if e.id in payouts then Some(payouts)
    else if |payouts| + 1 > INTEGER_MAX then None
    else Some(payouts[e.id := Payout(e.victimIsMaker, amount, |payouts| + 1, false)])
  }

  function LoadPayout(s: World, e: Event): World {
    if s.job == Idle && e in s.jobs && e.id !in s.spent && e.id in s.payouts && !s.payouts[e.id].paid
       && s.row.status == Matched && s.row.incremental
    then s.(job := PayLoaded(e, s.row, s.payouts[e.id].amount)) else s
  }

  /** The score that an increment adds to still fits its column. */
  predicate ScoreFits(r: Row, e: Event) {
    (if e.victimIsMaker then r.opponentScore else r.makerScore) < INTEGER_MAX
  }

  /** The final transaction of processIncrementPayout; where the score overflows its column it throws and is
    * rolled back.
    */
  function CommitPayout(s: World): World
    requires s.job.PayLanded? && s.job.event.id in s.payouts
  {
    var e := s.job.event;
    if !ScoreFits(s.row, e) then s.(job := Idle, lost := true)
    else
      s.(job := Idle,
         payouts := s.payouts[e.id := s.payouts[e.id].(paid := true)],
         row := After(s.row, CommitIncrement(!e.victimIsMaker, s.job.amount, IsFinal(e, s.job.row, s.job.amount))))
  }

  function MakerBalance(w: Wager): int {
    w.makerRemaining + (w.amount - w.opponentRemaining)
  }

  function OpponentBalance(w: Wager): int {
    w.opponentRemaining + (w.amount - w.makerRemaining)
  }

  function CommitFinals(s: World): World
    requires s.job.CashLanded?
  {
    var row' := Updated(s.row, CommitCashOut(MakerBalance(s.job.snapshot), OpponentBalance(s.job.snapshot)));
    match row'
    case Some(r) => s.(job := Idle, row := r, cashOut := Finished(s.cashOut))
    case None => s.(job := Idle, lost := true, cashOut := Finished(s.cashOut))
  }

  predicate Landed(job: ChainJob) {
    job.PayLanded? || job.CashLanded?
  }

  predicate CashingOutNow(job: ChainJob) {
    job.CashLoaded? || job.CashRead? || job.CashLanded?
  }

  /** The SELECT of processCashOut: it goes on with a row in CASHING_OUT, returns for one that is cashed out, and
    * throws for any other.
    */
  function LoadCashOut(s: World): World {
    if s.job != Idle || !s.cashOut.Waiting? then s
    else if s.row.status == CashedOut then s.(cashOut := Finished(s.cashOut))
    else if s.row.status == CashingOut && s.row.incremental then s.(job := CashLoaded)
    else s.(cashOut := Failed(s.cashOut))
  }

  /** The job throws. */
  function FailCashOut(s: World): World {
    s.(job := Idle, lost := s.lost || Landed(s.job), cashOut := Failed(s.cashOut))
  }

  function Do(s: World, a: Action): World {
    match a
    case GameRead(e) => ReadEvent(s, e)
    case GameRecord =>
      if !s.game.Scored? then s
      else
        (match RecordPayout(s.payouts, s.game.event, s.game.amount)
        case Some(payouts) => s.(payouts := payouts, game := Recorded(s.game.event))
        case None => s.(game := NoEvent))
    case GameEnqueue =>
      if !s.game.Recorded? then s else s.(jobs := s.jobs + {s.game.event}, game := NoEvent)
    case GameFails => s.(game := NoEvent)

    case PayLoad(e) => LoadPayout(s, e)
    case PaySend =>
      if !s.job.PayLoaded? || s.job.event.id !in s.payouts then s
      else
        (match ChainScores(s.chain, s.job.event, s.payouts[s.job.event.id].sequence)
        case Some(c) => s.(chain := c, job := PayLanded(s.job.event, s.job.row, s.job.amount))
        case None => s.(job := Idle))
    case PayTimesOut =>
      if !s.job.PayLoaded? || s.job.event.id !in s.payouts then s
      else s.(inFlight := s.inFlight + {IncrementTx(s.job.event, s.payouts[s.job.event.id].sequence)}, job := Idle)
    case PayCommit =>
      if s.job.PayLanded? && s.job.event.id in s.payouts then CommitPayout(s) else s

    case PayGivenUp(e) =>
      if s.job == Idle && e in s.jobs then s.(spent := s.spent + {e.id}) else s
    case PayForgotten(id) => s.(spent := s.spent - {id})

    case CashLoad => LoadCashOut(s)
    case CashSnapshot =>
      if s.job != CashLoaded then s
      else if s.chain.wager.status == MATCHED && s.chain.wager.payoutMode == INCREMENTAL
      then s.(job := CashRead(s.chain.wager)) else FailCashOut(s)
    case CashSend =>
      if !s.job.CashRead? then s
      else
        (match ChainInvalidates(s.chain)
        case Some(c) => s.(chain := c, job := CashLanded(s.job.snapshot))
        case None => FailCashOut(s))
    case CashTimesOut =>
      if !s.job.CashRead? then s else FailCashOut(s.(inFlight := s.inFlight + {InvalidateTx}))
    case CashCommit => if s.job.CashLanded? then CommitFinals(s) else s
    case CashFails => if CashingOutNow(s.job) then FailCashOut(s) else s
    case CashGivenUp => if s.job == Idle then s.(cashOut := Finished(s.cashOut)) else s
    case CashForgotten => s.(cashOut := Forgotten(s.cashOut))
    case WorkerCrash => s.(job := Idle, lost := s.lost || Landed(s.job))

    case AskCashOut(wallet) =>
      var row := After(s.row, RequestCashOut(wallet));
      s.(row := row, cashOutPending := s.cashOutPending || (s.row.status == Matched && row.status == CashingOut))
    case WithdrawCashOut(wallet) => s.(row := After(s.row, CancelCashOut(wallet)))
    case QueueCashOut =>
      if !s.cashOutPending then s else s.(cashOutPending := false, cashOut := Added(s.cashOut))
    case QueueFails(queued) =>
      if !s.cashOutPending then s
      else
        s.(cashOutPending := false, cashOut := if queued then Added(s.cashOut) else s.cashOut,
           row := After(s.row, RollBackCashOut))
    case ApiCrash => s.(cashOutPending := false)

    case Land(tx) =>
      if tx !in s.inFlight then s
      else
        (match ChainExecutes(s.chain, tx)
        case Some(c) => s.(chain := c, lost := true)
        case None => s)
    case AuthorityInvalidates =>
      (match ChainInvalidates(s.chain)
      case Some(c) => s.(chain := c, lost := true)
      case None => s)
  }

  function Run(s: World, actions: seq<Action>): World {
    if actions == [] then s else Do(Run(s, actions[..|actions| - 1]), actions[|actions| - 1])
  }

  /** Both sides funded: the API has just compared the escrow account with the row. It does not compare the
    * increment values.
    */
  predicate FundedAlike(s: World) {
    var w, r := s.chain.wager, s.row;
    && RecordOk(w) && w.status == MATCHED && w.payoutMode == INCREMENTAL && w.makerScore == w.opponentScore == 0
    && 2 * w.amount <= U64_MAX
    && s.chain.makerGot == s.chain.opponentGot == 0 && s.chain.accepted == []
    && r.maker == w.maker && r.opponent == Some(w.opponent) && r.amount == w.amount
    && r.incremental && 0 < r.incrementValue <= r.amount && r.status == Matched && r.winner == None
    && r.makerRemaining == r.opponentRemaining == r.amount && r.makerScore == r.opponentScore == 0
    && r.cashoutRequestedBy == None && r.makerFinal == None && r.opponentFinal == None
    && s.payouts == map[] && s.jobs == {} && s.spent == {} && s.cashOut == Absent && !s.cashOutPending
    && s.game == NoEvent && s.job == Idle && s.inFlight == {} && !s.lost
  }

  predicate Started(s: World) {
    FundedAlike(s) && s.row.incrementValue == s.chain.wager.incrementValue
  }
}
