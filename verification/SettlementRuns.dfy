/** The settlement protocol over whole runs, under every interleaving and every retry, crash and late
  * transaction.
  */
module SettlementRuns {
  import opened Basics
  import opened ProgramState
  import opened EscrowSpec
  import opened JobQueue
  import opened WagerRows
  import opened Settlement
  import opened SettlementInvariant
  import opened SettlementSteps

  lemma {:induction false} RunKeeps(s: World, actions: seq<Action>)
    requires Started(s)
    ensures Inv(Run(s, actions))
  {
    if actions == [] {
      StartedInv(s);
    } else {
      RunKeeps(s, actions[..|actions| - 1]);
      StepKeeps(Run(s, actions[..|actions| - 1]), actions[|actions| - 1]);
    }
  }

  /** One-sided simulation: the table never shows less than the escrow still holds for a running wager;
    * when it says SETTLED or CASHED_OUT the chain says so too, with the same winner.
    */
  lemma TableNeverAhead(s: World, actions: seq<Action>)
    requires Started(s)
    ensures var now := Run(s, actions);
            && (Running(now.row) ==>
                  && now.row.makerRemaining >= now.chain.wager.makerRemaining
                  && now.row.opponentRemaining >= now.chain.wager.opponentRemaining)
            && (now.row.status == RowStatus.Settled ==>
                  now.chain.wager.status == SETTLED && now.row.winner == Some(now.chain.wager.winner))
            && (now.row.status == CashedOut ==> now.chain.wager.status == CANCELLED)
  {
    RunKeeps(s, actions);
  }

  /** With no step of the chain lost, and every queued job debiting the player that its payout was recorded
    * for, the table is exact whenever the worker owes it no commit.
    */
  lemma TableExact(s: World, actions: seq<Action>)
    requires Started(s)
    requires var now := Run(s, actions); !now.lost && !Landed(now.job) && SidesAgree(now.jobs, now.payouts)
    ensures var now := Run(s, actions);
            if Running(now.row) then
              && now.chain.wager.status == MATCHED
              && now.row.makerRemaining == now.chain.wager.makerRemaining
              && now.row.opponentRemaining == now.chain.wager.opponentRemaining
            else
              now.chain.wager.status == (if now.row.status == RowStatus.Settled then SETTLED else CANCELLED)
  {
    RunKeeps(s, actions);
  }

  /** However often an event is read again, it is found to debit the same player. */
  ghost predicate OneEventPerId(actions: seq<Action>) {
    forall e, f :: GameRead(e) in actions && GameRead(f) in actions && e.id == f.id ==> e == f
  }

  /** Where the events in the queues and the sides in the table come from. */
  predicate FromReads(s: World, actions: seq<Action>) {
    && (forall e :: e in s.jobs ==> GameRead(e) in actions)
    && (s.game.Scored? || s.game.Recorded? ==> GameRead(s.game.event) in actions)
    && (forall id :: id in s.payouts ==> GameRead(Event(id, s.payouts[id].victimIsMaker)) in actions)
  }

  /** Steps that neither read, record nor queue an event. */
  lemma ReadsFrame(s: World, s': World, before: seq<Action>, a: Action)
    requires FromReads(s, before)
    requires s'.jobs == s.jobs && s'.game in {s.game, NoEvent}
    requires forall id :: id in s'.payouts ==>
               id in s.payouts && s'.payouts[id].victimIsMaker == s.payouts[id].victimIsMaker
    ensures FromReads(s', before + [a])
  {
  }

  lemma QueuesFramed(s: World, a: Action)
    requires !a.GameRead? && !a.GameRecord? && !a.GameEnqueue? && !a.PayCommit?
    ensures Do(s, a).jobs == s.jobs && Do(s, a).payouts == s.payouts && Do(s, a).game in {s.game, NoEvent}
  {
  }

  lemma EventReads(s: World, before: seq<Action>, a: Action)
    requires FromReads(s, before) && (a.GameRead? || a.GameRecord? || a.GameEnqueue?)
    ensures FromReads(Do(s, a), before + [a])
  {
  }

  lemma CommitReads(s: World, before: seq<Action>)
    requires FromReads(s, before)
    ensures FromReads(Do(s, PayCommit), before + [PayCommit])
  {
    ReadsFrame(s, Do(s, PayCommit), before, PayCommit);
  }

  lemma ReadsStep(s: World, before: seq<Action>, a: Action)
    requires FromReads(s, before)
    ensures FromReads(Do(s, a), before + [a])
  {
    if a.GameRead? || a.GameRecord? || a.GameEnqueue? {
      EventReads(s, before, a);
    } else if a == PayCommit {
      CommitReads(s, before);
    } else {
      QueuesFramed(s, a);
      ReadsFrame(s, Do(s, a), before, a);
    }
  }

  lemma {:induction false} RunReads(s: World, actions: seq<Action>)
    requires Started(s)
    ensures FromReads(Run(s, actions), actions)
  {
    if actions != [] {
      var before, a := actions[..|actions| - 1], actions[|actions| - 1];
      RunReads(s, before);
      ReadsStep(Run(s, before), before, a);
      assert actions == before + [a];
    }
  }

  /** Then the sides agree. */
  lemma ReadsAgree(s: World, actions: seq<Action>)
    requires Started(s) && OneEventPerId(actions)
    ensures SidesAgree(Run(s, actions).jobs, Run(s, actions).payouts)
  {
    RunKeeps(s, actions);
    RunReads(s, actions);
  }

  /** At most one accepted increment for each event id, even if the event was found to debit one player first
    * and the other one later: the ids of the accepted increments are distinct, in the order of their payout
    * numbers, whose numbering has no gaps; a payout is marked paid only after its increment was accepted.
    */
  lemma PaidAtMostOnce(s: World, actions: seq<Action>)
    requires Started(s)
    ensures var now := Run(s, actions);
            && (forall i, j :: 0 <= i < j < |now.chain.accepted| ==> now.chain.accepted[i] != now.chain.accepted[j])
            && (forall i :: 0 <= i < |now.chain.accepted| ==>
                  && now.chain.accepted[i] in now.payouts
                  && now.payouts[now.chain.accepted[i]].sequence == i + 1)
            && (forall i, j :: i in now.payouts && j in now.payouts && i != j ==>
                  now.payouts[i].sequence != now.payouts[j].sequence)
            && (forall n :: 1 <= n <= |now.payouts| ==> InUse(now.payouts, n))
            && (forall id :: id in now.payouts && now.payouts[id].paid ==> id in now.chain.accepted)
            && |now.chain.accepted| == now.chain.wager.makerScore + now.chain.wager.opponentScore
  {
    RunKeeps(s, actions);
    PaidAccepted(Run(s, actions));
  }

  lemma PaidAccepted(s: World)
    requires BooksOk(s.payouts, s.chain.accepted, s.row)
    ensures forall id :: id in s.payouts && s.payouts[id].paid ==> id in s.chain.accepted
  {
    assert forall id :: id in s.payouts && s.payouts[id].paid ==> id in PaidIds(s.payouts);
  }

  // ----- Composing runs -----

  lemma {:induction false} RunConcat(s: World, first: seq<Action>, second: seq<Action>)
    ensures Run(s, first + second) == Run(Run(s, first), second)
  {
    if second == [] {
      assert first + second == first;
    } else {
      var n := |second| - 1;
      assert (first + second)[..|first + second| - 1] == first + second[..n];
      RunConcat(s, first, second[..n]);
    }
  }

  lemma RunOne(s: World, a: Action)
    ensures Run(s, [a]) == Do(s, a)
  {
    assert [a][..0] == [];
  }

  lemma RunTwo(s: World, a: Action, b: Action, s1: World, s2: World)
    requires Do(s, a) == s1 && Do(s1, b) == s2
    ensures Run(s, [a, b]) == s2
  {
    assert [a, b] == [a] + [b];
    RunConcat(s, [a], [b]);
    RunOne(s, a);
    RunOne(s1, b);
  }

  lemma RunThree(s: World, a: Action, b: Action, c: Action, s1: World, s2: World, s3: World)
    requires Do(s, a) == s1 && Do(s1, b) == s2 && Do(s2, c) == s3
    ensures Run(s, [a, b, c]) == s3
  {
    assert [a, b, c] == [a, b] + [c];
    RunTwo(s, a, b, s1, s2);
    RunOne(s2, c);
    RunConcat(s, [a, b], [c]);
  }

  // ----- Settling and cashing out exclude each other -----

  /** The steps that write the row. */
  predicate WritesRow(a: Action) {
    a.PayCommit? || a.CashCommit? || a.AskCashOut? || a.WithdrawCashOut? || a.QueueFails?
  }

  lemma RowFramed(s: World, a: Action)
    requires !WritesRow(a)
    ensures Do(s, a).row == s.row
  {
  }

  /** A finished row stays as it is: no later step can turn a settled wager into a cashed-out one or
    * back, or pay it again.
    */
  lemma FinishedStepStands(s: World, a: Action)
    requires Inv(s) && !Running(s.row)
    ensures Do(s, a).row == s.row
  {
    if WritesRow(a) {
      FinishedRow(s, a);
    } else {
      RowFramed(s, a);
    }
  }

  lemma FinishedRow(s: World, a: Action)
    requires Inv(s) && !Running(s.row) && WritesRow(a)
    ensures Do(s, a).row == s.row
  {
    assert !Landed(s.job);
  }

  lemma {:induction false} FinishedStands(s: World, actions: seq<Action>, n: nat)
    requires Started(s) && n <= |actions| && !Running(Run(s, actions[..n]).row)
    ensures Run(s, actions).row == Run(s, actions[..n]).row
    decreases |actions|
  {
    if n == |actions| {
      assert actions[..n] == actions;
    } else {
      var before := actions[..|actions| - 1];
      assert before[..n] == actions[..n];
      FinishedStands(s, before, n);
      RunKeeps(s, before);
      FinishedStepStands(Run(s, before), actions[|actions| - 1]);
    }
  }

  /** Once a final increment is committed the cash-out job has nothing to do: it never reaches the chain, and its
    * attempts fail at once.
    */
  lemma SettledRefusesCashOut(s: World, actions: seq<Action>)
    requires Started(s) && Run(s, actions).row.status == RowStatus.Settled
    ensures var now := Run(s, actions);
            !now.job.CashLoaded? && !now.job.CashRead? && !now.job.CashLanded?
            && Do(now, CashLoad) == (if now.job == Idle then now.(cashOut := Failed(now.cashOut)) else now)
  {
    RunKeeps(s, actions);
  }

  /** A pending request survives every step but its owner's withdrawal. */
  lemma RequestStepStands(s: World, a: Action, wallet: Pubkey)
    ensures Do(s, a).row.cashoutRequestedBy == Some(wallet) ==>
              s.row.cashoutRequestedBy == Some(wallet) || (a == AskCashOut(wallet) && s.row.cashoutRequestedBy == None)
  {
    if !WritesRow(a) {
      RowFramed(s, a);
    }
  }

  /** The request now on record was made by its wallet and has stood ever since. */
  predicate StandingSince(s: World, actions: seq<Action>, i: nat, wallet: Pubkey) {
    && i < |actions| && actions[i] == AskCashOut(wallet)
    && forall k :: i < k <= |actions| ==> Run(s, actions[..k]).row.cashoutRequestedBy == Some(wallet)
  }

  lemma {:induction false} RequestWasMade(s: World, actions: seq<Action>, wallet: Pubkey) returns (i: nat)
    requires Started(s) && Run(s, actions).row.cashoutRequestedBy == Some(wallet)
    ensures StandingSince(s, actions, i, wallet)
  {
    var before := actions[..|actions| - 1];
    RequestStepStands(Run(s, before), actions[|actions| - 1], wallet);
    if Run(s, before).row.cashoutRequestedBy == Some(wallet) {
      i := RequestWasMade(s, before, wallet);
    } else {
      i := |actions| - 1;
    }
    forall k | i < k <= |actions|
      ensures Run(s, actions[..k]).row.cashoutRequestedBy == Some(wallet)
    {
      if k == |actions| {
        assert actions[..k] == actions;
      } else {
        assert actions[..k] == before[..k];
      }
    }
  }

  lemma EntersByCall(s: World, a: Action)
    requires s.row.status != CashingOut && !a.AskCashOut?
    ensures Do(s, a).row.status != CashingOut
  {
    match a
    case PayCommit =>
    case CashCommit =>
    case WithdrawCashOut(_) =>
    case QueueFails(_) =>
    case _ => RowFramed(s, a);
  }

  /** A row enters CASHING_OUT only by a call of one participant while a request of the other stands. */
  lemma CashingOutStep(s: World, a: Action)
    requires s.row.status != CashingOut && Do(s, a).row.status == CashingOut
    ensures a.AskCashOut? && RowParticipant(s.row, a.wallet)
    ensures s.row.cashoutRequestedBy.Some? && s.row.cashoutRequestedBy.value != a.wallet
  {
    if !a.AskCashOut? {
      EntersByCall(s, a);
    } else {
      assert Do(s, AskCashOut(a.wallet)).row == After(s.row, RequestCashOut(a.wallet));
    }
  }

  /** Both players agreed: the i-th action was an uncancelled request of the first one, the j-th a call of
    * the second one.
    */
  predicate Agreed(s: World, actions: seq<Action>, i: nat, j: nat, first: Pubkey, second: Pubkey) {
    && i < j < |actions| && first != second
    && actions[i] == AskCashOut(first) && actions[j] == AskCashOut(second)
    && (forall k :: i < k <= j ==> Run(s, actions[..k]).row.cashoutRequestedBy == Some(first))
    && RowParticipant(Run(s, actions[..j]).row, second)
  }

  lemma AgreedStays(s: World, before: seq<Action>, a: Action, i: nat, j: nat, first: Pubkey, second: Pubkey)
    requires Agreed(s, before, i, j, first, second)
    ensures Agreed(s, before + [a], i, j, first, second)
  {
    assert forall k :: 0 <= k <= |before| ==> (before + [a])[..k] == before[..k];
  }

  lemma AgreesNow(s: World, before: seq<Action>, i: nat, first: Pubkey, second: Pubkey)
    requires StandingSince(s, before, i, first) && first != second && RowParticipant(Run(s, before).row, second)
    ensures Agreed(s, before + [AskCashOut(second)], i, |before|, first, second)
  {
    assert forall k :: 0 <= k <= |before| ==> (before + [AskCashOut(second)])[..k] == before[..k];
    assert before[..|before|] == before;
  }

  /** Whenever a row is in CASHING_OUT, an uncancelled request of one player was answered by a call of the
    * other.
    */
  lemma {:induction false} CashingOutNeedsBoth(s: World, actions: seq<Action>)
    returns (i: nat, j: nat, first: Pubkey, second: Pubkey)
    requires Started(s) && Run(s, actions).row.status == CashingOut
    ensures Agreed(s, actions, i, j, first, second)
  {
    var before, a := actions[..|actions| - 1], actions[|actions| - 1];
    assert actions == before + [a];
    if Run(s, before).row.status == CashingOut {
      i, j, first, second := CashingOutNeedsBoth(s, before);
      AgreedStays(s, before, a, i, j, first, second);
    } else {
      CashingOutStep(Run(s, before), a);
      j, second, first := |before|, a.wallet, Run(s, before).row.cashoutRequestedBy.value;
      i := RequestWasMade(s, before, first);
      AgreesNow(s, before, i, first, second);
    }
  }

  /** A first request of a player who plays is on record from then on, and starts nothing by itself. */
  lemma RequestStands(s: World, actions: seq<Action>, wallet: Pubkey)
    requires Started(s) && Run(s, actions).row.status == Matched && Run(s, actions).row.cashoutRequestedBy == None
    ensures var r := Do(Run(s, actions), AskCashOut(wallet)).row;
            && r.status == Matched
            && r.cashoutRequestedBy
               == if wallet in {s.chain.wager.maker, s.chain.wager.opponent} then Some(wallet) else None
  {
    RunKeeps(s, actions);
    ParticipantsStand(s, actions);
  }

  lemma {:induction false} ParticipantsStand(s: World, actions: seq<Action>)
    requires Started(s)
    ensures Run(s, actions).row.maker == s.chain.wager.maker
    ensures Run(s, actions).row.opponent == Some(s.chain.wager.opponent)
    ensures Run(s, actions).row.incremental
    decreases |actions|
  {
    if actions != [] {
      ParticipantsStand(s, actions[..|actions| - 1]);
      SeatsStand(Run(s, actions[..|actions| - 1]), actions[|actions| - 1]);
    }
  }

  lemma SeatsStand(s: World, a: Action)
    ensures Do(s, a).row.maker == s.row.maker && Do(s, a).row.opponent == s.row.opponent
    ensures Do(s, a).row.incremental == s.row.incremental
  {
    if !WritesRow(a) {
      RowFramed(s, a);
    }
  }

  /** A withdrawn request is gone: the other player's next call does not start the cash-out but is a request of its
    * own.
    */
  lemma WithdrawnCannotBeAnswered(s: World, actions: seq<Action>, wallet: Pubkey, other: Pubkey)
    requires Started(s) && Run(s, actions).row.status == Matched
    requires Run(s, actions).row.cashoutRequestedBy == Some(wallet)
    ensures var withdrawn := Do(Run(s, actions), WithdrawCashOut(wallet));
            && withdrawn.row == Run(s, actions).row.(cashoutRequestedBy := None)
            && Do(withdrawn, AskCashOut(other)).row.status == Matched
            && (other in {s.chain.wager.maker, s.chain.wager.opponent} ==>
                  Do(withdrawn, AskCashOut(other)).row.cashoutRequestedBy == Some(other))
  {
    ParticipantsStand(s, actions);
  }

  // ----- Single steps of the worker -----

  /** The commit never throws: what it computes in memory is not negative and is what the UPDATE writes, and no
    * score outgrows its column, because payout numbers already fit theirs.
    */
  lemma CommitNeverThrows(s: World)
    requires Inv(s) && s.job.PayLanded?
    ensures var e, r, amount := s.job.event, s.job.row, s.job.amount;
            var left := RemainingAfterIncrement(r.makerRemaining, r.opponentRemaining, !e.victimIsMaker, amount,
                                                IsFinal(e, r, amount));
            && ScoreFits(s.row, e)
            && left == Some((CommitPayout(s).row.makerRemaining, CommitPayout(s).row.opponentRemaining))
  {
    ScoresFit(s.payouts, s.chain.accepted, s.row, s.job.event);
    assert Capped(s.payouts[s.job.event.id].amount, s.payouts[s.job.event.id].victimIsMaker, s.row);
    CommitComputes(s);
  }

  lemma CommitComputes(s: World)
    requires s.job.PayLanded? && s.job.event.id in s.payouts && ScoreFits(s.row, s.job.event)
    requires Running(s.row) && SameLeft(s.job.row, s.row) && s.row.makerRemaining > 0 && s.row.opponentRemaining > 0
    ensures var e, r, amount := s.job.event, s.job.row, s.job.amount;
            RemainingAfterIncrement(r.makerRemaining, r.opponentRemaining, !e.victimIsMaker, amount,
                                    IsFinal(e, r, amount))
            == Some((CommitPayout(s).row.makerRemaining, CommitPayout(s).row.opponentRemaining))
  {
  }

  /** As long as the row is running, every event has something to pay. */
  lemma RunningPays(s: World, e: Event)
    requires Inv(s) && s.row.status == Matched && s.game == NoEvent
    ensures Do(s, GameRead(e)).game.Scored?
  {
  }
}
