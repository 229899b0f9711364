/** The life of a wager row under the API's statements, in any order and from anyone. */
module WagerLifecycle {
  import opened Basics
  import opened ProgramState
  import opened WagerRows

  /** How far a row has come; a running wager may still move between its three states. */
  function Stage(status: RowStatus): nat {
    match status
    case Open => 0
    case Accepted => 1
    case MakerFunded => 2
    case Matched => 3
    case Settling => 3
    case CashingOut => 3
    case Settled => 4
    case CashedOut => 4
    case Declined => 4
    case Cancelled => 4
  }

  /** Who sits at a row: never its maker twice, only the challenger of a reserved challenge, and whoever asks
    * for a cash-out plays.
    */
  predicate SeatedRow(r: Row) {
    && (r.opponent.Some? ==> r.opponent != Some(r.maker) && r.challenger in {None, r.opponent})
    && (r.status == Open ==> r.opponent == None)
    && (r.status == Accepted ==> !r.createSigned)
    && (1 <= Stage(r.status) <= 3 ==> r.opponent.Some?)
    && (r.cashoutRequestedBy.Some? ==>
          Stage(r.status) >= 3 && r.incremental && RowParticipant(r, r.cashoutRequestedBy.value))
    && (r.status == CashingOut ==> r.cashoutRequestedBy.Some?)
  }

  /** The agreed terms, and an opponent once there is one, never change; a row only moves forward. */
  predicate Forward(r: Row, r': Row) {
    && r' == r.(opponent := r'.opponent, status := r'.status, createSigned := r'.createSigned,
                makerRemaining := r'.makerRemaining, opponentRemaining := r'.opponentRemaining,
                cashoutRequestedBy := r'.cashoutRequestedBy)
    && (r.opponent.Some? ==> r'.opponent == r.opponent)
    && Stage(r.status) <= Stage(r'.status)
    && (r.createSigned ==> r'.createSigned)
    && (Stage(r.status) == 4 ==> r' == r)
  }

  lemma StatementForward(r: Row, s: Statement)
    requires IsApi(s) && SeatedRow(r)
    ensures SeatedRow(After(r, s)) && Forward(r, After(r, s))
  {
  }

  function AfterAll(r: Row, statements: seq<Statement>): Row {
    if statements == [] then r
    else After(AfterAll(r, statements[..|statements| - 1]), statements[|statements| - 1])
  }

  /** From an inserted row on every sequence of calls keeps the seats and only moves forward. */
  lemma {:induction false} RunForward(r: Row, statements: seq<Statement>)
    requires SeatedRow(r)
    requires forall s :: s in statements ==> IsApi(s)
    ensures SeatedRow(AfterAll(r, statements)) && Forward(r, AfterAll(r, statements))
  {
    if statements != [] {
      var before := statements[..|statements| - 1];
      RunForward(r, before);
      StatementForward(AfterAll(r, before), statements[|statements| - 1]);
    }
  }

  /** Both players' consent: a row becomes MATCHED only by a call of its opponent, after its maker funded it. */
  lemma MatchedByOpponent(r: Row, s: Statement)
    requires IsApi(s) && SeatedRow(r)
    requires Stage(r.status) < 3 && Stage(After(r, s).status) == 3
    ensures s.Accept? && After(r, s).status == Matched && After(r, s).opponent == Some(s.opponent)
    ensures r.status == MakerFunded || r.createSigned
    ensures After(r, s).opponentRemaining == r.amount && After(r, s).makerRemaining == r.makerRemaining
  {
  }

  /** A funded row without a creation signature can no longer be taken back: whatever is called, only its
    * opponent's acceptance selects it.
    */
  lemma UnsignedFundingOnlyAccepts(r: Row, s: Statement)
    requires IsApi(s) && SeatedRow(r) && r.status == MakerFunded
    ensures !r.createSigned ==> (Updated(r, s).Some? <==> s == Accept(r.opponent.value))
    ensures r.createSigned ==> (Updated(r, s).Some? <==> s == Accept(r.opponent.value) || s == Cancel(r.maker))
  {
  }

  /** Whether a row that has not gone live can still be declined or cancelled by someone. */
  predicate Endable(r: Row) {
    match r.status
    case Open => r.createSigned || r.challenger.Some?
    case Accepted => true
    case MakerFunded => r.createSigned
    case _ => false
  }

  /** Before it goes live a row can be ended by some call if and only if it is accepted, funded with a creation
    * signature, or open and either funded or reserved for a challenger. An open public challenge without a
    * creation signature cannot be taken back, nor can a row funded without one.
    */
  lemma EndableIff(r: Row)
    requires SeatedRow(r) && Stage(r.status) < 3
    ensures (exists s :: IsApi(s) && Stage(After(r, s).status) == 4) <==> Endable(r)
  {
    if Endable(r) {
      var s := if r.status == Accepted then CancelIntent(r.maker)
               else if r.createSigned then Cancel(r.maker)
               else Decline(r.challenger.value);
      assert IsApi(s) && Stage(After(r, s).status) == 4;
    }
  }

  /** A row as POST /wagers inserts it. */
  predicate Inserted(r: Row) {
    && r.status == Open && r.opponent == None && r.winner == None && !r.createSigned
    && r.makerRemaining == r.amount && r.makerScore == r.opponentScore == 0
    && r.cashoutRequestedBy == None && r.makerFinal == None && r.opponentFinal == None
  }

  /** A run into each of the two dead ends: an inserted public challenge is one at once, and every inserted row
    * becomes one when it is accepted and then funded without a signature.
    */
  lemma DeadEnds(r: Row, opponent: Pubkey)
    requires Inserted(r) && r.maker != opponent && r.challenger in {None, Some(opponent)}
    ensures r.challenger == None ==> !Endable(r)
    ensures var funded := AfterAll(r, [AcceptIntent(opponent), FundByMaker(r.maker, false)]);
            SeatedRow(funded) && funded.status == MakerFunded && !funded.createSigned && !Endable(funded)
  {
    var one, two := [AcceptIntent(opponent)], [AcceptIntent(opponent), FundByMaker(r.maker, false)];
    assert one[..0] == [] && two[..1] == one;
    assert AfterAll(r, one) == After(r, AcceptIntent(opponent));
  }

  // ----- Who can end a row -----

  /** The wallet that a call is made by. */
  function Caller(s: Statement): Option<Pubkey> {
    match s
    case AcceptIntent(opponent) => Some(opponent)
    case FundByMaker(maker, _) => Some(maker)
    case Accept(opponent) => Some(opponent)
    case Decline(challenger) => Some(challenger)
    case CancelIntent(maker) => Some(maker)
    case Cancel(maker) => Some(maker)
    case RequestCashOut(wallet) => Some(wallet)
    case CancelCashOut(wallet) => Some(wallet)
    case _ => None
  }

  ghost predicate CanEnd(r: Row, wallet: Pubkey) {
    exists s :: IsApi(s) && Caller(s) == Some(wallet) && Stage(After(r, s).status) == 4
  }

  /** The player that an unfunded row is waiting for: the opponent who accepted it, or the challenger it is reserved
    * for.
    */
  function Invited(r: Row): Option<Pubkey> {
    if r.status == Accepted then r.opponent else if r.status == Open then r.challenger else None
  }

  /** A row that is not live yet can be ended by its maker, when it is accepted or funded with a creation signature, and
    * without such a signature by the player it is waiting for; by nobody else.
    */
  lemma CanEndIff(r: Row, wallet: Pubkey)
    requires SeatedRow(r) && Stage(r.status) < 3
    ensures CanEnd(r, wallet) <==>
              || (wallet == r.maker && (r.status == Accepted || r.createSigned))
              || (!r.createSigned && Invited(r) == Some(wallet))
  {
    if wallet == r.maker && r.status == Accepted {
      assert Stage(After(r, CancelIntent(wallet)).status) == 4;
    } else if wallet == r.maker && r.createSigned {
      assert Stage(After(r, Cancel(wallet)).status) == 4;
    } else if !r.createSigned && Invited(r) == Some(wallet) {
      assert Stage(After(r, Decline(wallet)).status) == 4;
    }
  }

  /** How it ends tells who ended it: the maker cancels, the other one declines. A declined row and a cancelled funded
    * one show nothing left of the maker's stake, a withdrawn intent still shows it.
    */
  lemma EndsAs(r: Row, s: Statement)
    requires SeatedRow(r) && Stage(r.status) < 3 && IsApi(s) && Stage(After(r, s).status) == 4
    ensures var r' := After(r, s);
            && ((r'.status == Cancelled && Caller(s) == Some(r.maker))
                || (r'.status == Declined && Caller(s) == Invited(r) && !r.createSigned))
            && r'.makerRemaining == (if r.status == Accepted && r'.status == Cancelled then r.makerRemaining else 0)
            && r' == r.(status := r'.status, makerRemaining := r'.makerRemaining)
  {
  }

  // ----- Who takes a row forward -----

  /** A row is accepted by a wallet that may play it, which becomes its opponent; nobody has funded it then. */
  lemma AcceptedBy(r: Row, s: Statement)
    requires SeatedRow(r) && IsApi(s) && r.status != Accepted && After(r, s).status == Accepted
    ensures r.status == Open && !r.createSigned
    ensures Caller(s).Some? && After(r, s).opponent == Caller(s)
    ensures Caller(s) != Some(r.maker) && r.challenger in {None, Caller(s)}
  {
  }

  /** An accepted row is funded by its maker alone, and the row then carries a creation signature exactly when the call
    * did.
    */
  lemma FundedBy(r: Row, s: Statement)
    requires SeatedRow(r) && IsApi(s) && r.status != MakerFunded && After(r, s).status == MakerFunded
    ensures r.status == Accepted && s.FundByMaker? && s.maker == r.maker
    ensures After(r, s).createSigned <==> s.signed
    ensures After(r, s).opponent == r.opponent
  {
  }

  ghost predicate CanMove(r: Row, wallet: Pubkey, to: RowStatus) {
    exists s :: IsApi(s) && Caller(s) == Some(wallet) && r.status != to && After(r, s).status == to
  }

  /** Anybody but the maker can accept an open row without a creation signature, unless it is reserved for another
    * challenger; the maker can fund an accepted row; the opponent can take a funded row live, and so can whoever may
    * play an open row that carries a signature. Nobody else can do any of it.
    */
  lemma CanMoveIff(r: Row, wallet: Pubkey)
    requires SeatedRow(r) && Stage(r.status) < 3
    ensures CanMove(r, wallet, Accepted) <==>
              r.status == Open && !r.createSigned && wallet != r.maker && r.challenger in {None, Some(wallet)}
    ensures CanMove(r, wallet, MakerFunded) <==> r.status == Accepted && wallet == r.maker
    ensures CanMove(r, wallet, Matched) <==>
              && wallet != r.maker
              && ((r.status == MakerFunded && r.opponent == Some(wallet))
                  || (r.status == Open && r.createSigned && r.challenger in {None, Some(wallet)}))
  {
    if r.status == Open && !r.createSigned && wallet != r.maker && r.challenger in {None, Some(wallet)} {
      assert After(r, AcceptIntent(wallet)).status == Accepted;
    }
    if r.status == Accepted && wallet == r.maker {
      assert After(r, FundByMaker(wallet, false)).status == MakerFunded;
    }
    if wallet != r.maker && ((r.status == MakerFunded && r.opponent == Some(wallet))
                             || (r.status == Open && r.createSigned && r.challenger in {None, Some(wallet)})) {
      assert After(r, Accept(wallet)).status == Matched;
    }
  }

  /** The k-th call funded the row. */
  predicate FundedAt(r: Row, statements: seq<Statement>, k: nat) {
    && k < |statements| && statements[k].FundByMaker? && statements[k].maker == r.maker
    && AfterAll(r, statements[..k]).status == Accepted && AfterAll(r, statements[..k + 1]).status == MakerFunded
  }

  /** A funded row is only accepted, or cancelled with its signature. */
  lemma FundedStays(r: Row, s: Statement)
    requires IsApi(s) && SeatedRow(r)
    ensures After(r, s).createSigned != r.createSigned ==> r.status == Accepted && After(r, s).status == MakerFunded
    ensures After(r, s).status == MakerFunded ==> r.status == MakerFunded || r.status == Accepted
  {
  }

  lemma {:induction false} MakerStands(r: Row, statements: seq<Statement>)
    requires SeatedRow(r) && forall s :: s in statements ==> IsApi(s)
    ensures AfterAll(r, statements).maker == r.maker
  {
    RunForward(r, statements);
  }

  /** In every sequence of calls on an inserted row: once it is funded, it carries a creation signature if and only if
    * the funding call that took effect did; and no row has one without such a call.
    */
  lemma {:induction false} SignedByFunding(r: Row, statements: seq<Statement>) returns (k: nat)
    requires Inserted(r) && SeatedRow(r) && forall s :: s in statements ==> IsApi(s)
    requires AfterAll(r, statements).status == MakerFunded || AfterAll(r, statements).createSigned
    ensures FundedAt(r, statements, k)
    ensures AfterAll(r, statements).createSigned <==> statements[k].signed
    decreases |statements|
  {
    var before, s := statements[..|statements| - 1], statements[|statements| - 1];
    var now := AfterAll(r, before);
    RunForward(r, before);
    MakerStands(r, before);
    FundedStays(now, s);
    if now.status == MakerFunded || now.createSigned {
      k := SignedByFunding(r, before);
      assert before[..k] == statements[..k] && before[..k + 1] == statements[..k + 1];
    } else {
      FundedBy(now, s);
      k := |before|;
      assert statements[..k + 1] == statements;
    }
  }

  /** Beside the dead ends: a row that is accepted and then funded with a signature can be ended, and its maker's
    * cancellation does.
    */
  lemma SignedFundingCancels(r: Row, opponent: Pubkey)
    requires Inserted(r) && r.maker != opponent && r.challenger in {None, Some(opponent)}
    ensures var funded := AfterAll(r, [AcceptIntent(opponent), FundByMaker(r.maker, true)]);
            && SeatedRow(funded) && funded.status == MakerFunded && funded.createSigned && Endable(funded)
            && After(funded, Cancel(r.maker)).status == Cancelled
  {
    var one, two := [AcceptIntent(opponent)], [AcceptIntent(opponent), FundByMaker(r.maker, true)];
    assert one[..0] == [] && two[..1] == one;
    assert AfterAll(r, one) == After(r, AcceptIntent(opponent));
  }
}
