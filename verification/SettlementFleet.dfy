/** Several incremental wagers at once. They share the game server, one after the other, the table of payouts
  * with its one key over all wagers, and the game worker; each of them goes through the protocol of one wager.
  */
module SettlementFleet {
  import opened Basics
  import opened ProgramState
  import opened WagerRows
  import opened QuakeServer
  import opened Settlement
  import opened SettlementInvariant
  import opened SettlementSteps
  import opened SettlementRuns

  /** A job, queued or about to be, that names one wager for an event whose payout belongs to another one. */
  datatype Stray = Stray(event: nat, wager: nat)

  datatype Fleet = Fleet(
    worlds: map<nat, World>,
    held: Option<Stray>,     // the game worker has found such a payout and has not queued the job yet
    strays: set<Stray>,
    misdirected: bool)       // an increment was sent to one wager for the payout of another

  datatype Step =
    | GoLive(wager: nat, world: World)
    | On(wager: nat, action: Settlement.Action)
    | QueueStray
    | DropStray
    | RunStray(stray: Stray)

  predicate RecordedAt(worlds: map<nat, World>, event: nat, wager: nat) {
    wager in worlds && event in worlds[wager].payouts
  }

  /** The row of kill_payouts for an event belongs to another wager. */
  predicate RecordedElsewhere(worlds: map<nat, World>, event: nat, wager: nat) {
    exists w :: w in worlds && w != wager && event in worlds[w].payouts
  }

  /** The one game worker is free. */
  predicate GameIdle(f: Fleet) {
    f.held == None && forall w :: w in f.worlds ==> f.worlds[w].game == NoEvent
  }

  function Rows(worlds: map<nat, World>): QuakeServer.Rows {
    map w | w in worlds :: worlds[w].row
  }

  /** A wager goes live in the way that the protocol starts, and the unique index has let its row in. */
  predicate MayGoLive(f: Fleet, wager: nat, world: World) {
    wager !in f.worlds && Started(world) && world.row.game == Quake3 && IndexAllows(Rows(f.worlds), wager, world.row)
  }

  function OnWager(f: Fleet, wager: nat, a: Settlement.Action): Fleet
    requires wager in f.worlds
  {
    f.(worlds := f.worlds[wager := Do(f.worlds[wager], a)])
  }

  /** What the game worker has read is recorded for another wager already: it takes that payout's number along. */
  predicate FindsForeign(f: Fleet, wager: nat, a: Settlement.Action)
    requires wager in f.worlds
  {
    var game := f.worlds[wager].game;
    a.GameRecord? && game.Scored? && RecordedElsewhere(f.worlds, game.event.id, wager)
  }

  /** The payout of another wager is unpaid and payable: the job would send its number to its own wager. */
  predicate Payable(f: Fleet, stray: Stray) {
    exists w :: w in f.worlds && w != stray.wager && stray.event in f.worlds[w].payouts
                && !f.worlds[w].payouts[stray.event].paid && f.worlds[w].row.status == Matched
  }

  function Next(f: Fleet, step: Step): Fleet {
    match step
    case GoLive(wager, world) =>
      if MayGoLive(f, wager, world) then f.(worlds := f.worlds[wager := world]) else f
    case On(wager, a) =>
      if wager !in f.worlds || (a.GameRead? && !GameIdle(f)) then f
      else if FindsForeign(f, wager, a) then
        OnWager(f, wager, GameFails).(held := Some(Stray(f.worlds[wager].game.event.id, wager)))
      else OnWager(f, wager, a)
    case QueueStray => if f.held.Some? then f.(strays := f.strays + {f.held.value}, held := None) else f
    case DropStray => f.(held := None)
    case RunStray(stray) => if stray in f.strays && Payable(f, stray) then f.(misdirected := true) else f
  }

  function Run(f: Fleet, steps: seq<Step>): Fleet {
    if steps == [] then f else Next(Run(f, steps[..|steps| - 1]), steps[|steps| - 1])
  }

  const NO_WAGERS := Fleet(map[], None, {}, false)

  // ----- What every reachable state keeps -----

  /** A row that has gone live as a Quake wager. */
  predicate LiveRow(r: Row) {
    r.game == Quake3 && (Running(r) || r.status == RowStatus.Settled || r.status == CashedOut)
  }

  predicate RowsLive(worlds: map<nat, World>) {
    forall w :: w in worlds ==> LiveRow(worlds[w].row)
  }

  /** At most one wager runs. */
  predicate OneRuns(worlds: map<nat, World>) {
    forall v, w :: v in worlds && w in worlds && Running(worlds[v].row) && Running(worlds[w].row) ==> v == w
  }

  /** An event is recorded for one wager only. */
  ghost predicate OneRecord(worlds: map<nat, World>) {
    forall v, w, event :: RecordedAt(worlds, event, v) && RecordedAt(worlds, event, w) ==> v == w
  }

  /** The game worker works on one event at a time. */
  predicate OneEvent(f: Fleet) {
    && (forall v, w :: v in f.worlds && w in f.worlds && f.worlds[v].game != NoEvent && f.worlds[w].game != NoEvent ==>
          v == w)
    && (f.held.Some? ==> forall w :: w in f.worlds ==> f.worlds[w].game == NoEvent)
  }

  /** Wherever an event was recorded for another wager, that wager is over. */
  ghost predicate OverElsewhere(worlds: map<nat, World>, event: nat, wager: nat) {
    forall w :: RecordedAt(worlds, event, w) && w != wager ==> !Running(worlds[w].row)
  }

  ghost predicate ReadsOk(worlds: map<nat, World>) {
    forall w :: w in worlds && worlds[w].game.Scored? ==> OverElsewhere(worlds, worlds[w].game.event.id, w)
  }

  ghost predicate StrayOk(worlds: map<nat, World>, stray: Stray) {
    RecordedElsewhere(worlds, stray.event, stray.wager) && OverElsewhere(worlds, stray.event, stray.wager)
  }

  ghost predicate StraysOk(f: Fleet) {
    && (forall stray :: stray in f.strays ==> StrayOk(f.worlds, stray))
    && (f.held.Some? ==> StrayOk(f.worlds, f.held.value))
    && !f.misdirected
  }

  ghost predicate FleetOk(f: Fleet) {
    RowsLive(f.worlds) && OneRuns(f.worlds) && OneRecord(f.worlds) && OneEvent(f) && ReadsOk(f.worlds) && StraysOk(f)
  }

  // ----- One step of one wager -----

  /** What a step can do to one wager, as far as the others care. */
  predicate Moves(s: World, s': World) {
    && (Running(s'.row) ==> Running(s.row)) && LiveRow(s'.row)
    && (forall event :: event in s.payouts ==> event in s'.payouts)
  }

  lemma GameStands(s: World, a: Settlement.Action)
    ensures Do(s, a).row.game == s.row.game
  {
    if !WritesRow(a) {
      RowFramed(s, a);
    }
  }

  lemma PayoutsGrow(s: World, a: Settlement.Action)
    ensures forall event :: event in s.payouts ==> event in Do(s, a).payouts
    ensures !a.GameRecord? ==> Do(s, a).payouts.Keys == s.payouts.Keys
  {
  }

  lemma DoMoves(s: World, a: Settlement.Action)
    requires Inv(s) && s.row.game == Quake3
    ensures Moves(s, Do(s, a))
  {
    StepKeeps(s, a);
    GameStands(s, a);
    PayoutsGrow(s, a);
    if !Running(s.row) {
      FinishedStepStands(s, a);
    }
  }

  /** Only a reading occupies the game worker, and only its own wager's. */
  lemma GameMoves(s: World, a: Settlement.Action)
    ensures Do(s, a).game != NoEvent ==> s.game != NoEvent || a.GameRead?
    ensures Do(s, a).game.Scored? ==> Do(s, a).game == s.game || (a.GameRead? && s.row.status == Matched)
  {
  }

  lemma RecordAdds(s: World)
    ensures forall event :: event in Do(s, GameRecord).payouts ==>
              event in s.payouts || (s.game.Scored? && event == s.game.event.id)
  {
  }

  // ----- Steps of the fleet -----

  /** The other wagers of a fleet in which one has moved. */
  lemma RunsStand(worlds: map<nat, World>, w: nat, s': World)
    requires w in worlds && RowsLive(worlds) && OneRuns(worlds) && Moves(worlds[w], s')
    ensures RowsLive(worlds[w := s']) && OneRuns(worlds[w := s'])
  {
  }

  /** A step that adds at most one event to its wager's payouts, recorded nowhere else. */
  predicate Adds(worlds: map<nat, World>, w: nat, s': World)
    requires w in worlds
  {
    forall event :: event in s'.payouts && event !in worlds[w].payouts ==>
      && worlds[w].game.Scored? && event == worlds[w].game.event.id && !RecordedElsewhere(worlds, event, w)
  }

  lemma RecordsStand(worlds: map<nat, World>, w: nat, s': World)
    requires w in worlds && OneRecord(worlds) && Adds(worlds, w, s')
    ensures OneRecord(worlds[w := s'])
  {
    var worlds' := worlds[w := s'];
    forall u, v, event | RecordedAt(worlds', event, u) && RecordedAt(worlds', event, v)
      ensures u == v
    {
      assert u != w ==> RecordedAt(worlds, event, u);
      assert v != w ==> RecordedAt(worlds, event, v);
      assert event in s'.payouts && !RecordedAt(worlds, event, w) ==> !RecordedElsewhere(worlds, event, w);
    }
  }

  /** Where an event is over elsewhere it stays so, unless the step records it. */
  lemma OverStands(worlds: map<nat, World>, w: nat, s': World, event: nat, wager: nat)
    requires w in worlds && Moves(worlds[w], s') && OverElsewhere(worlds, event, wager)
    requires w == wager || event !in s'.payouts || event in worlds[w].payouts
    ensures OverElsewhere(worlds[w := s'], event, wager)
  {
    var worlds' := worlds[w := s'];
    forall v | RecordedAt(worlds', event, v) && v != wager
      ensures !Running(worlds'[v].row)
    {
      assert RecordedAt(worlds, event, v);
    }
  }

  lemma StrayStands(worlds: map<nat, World>, w: nat, s': World, stray: Stray)
    requires w in worlds && Moves(worlds[w], s') && Adds(worlds, w, s') && StrayOk(worlds, stray)
    ensures StrayOk(worlds[w := s'], stray)
  {
    var v :| v in worlds && v != stray.wager && stray.event in worlds[v].payouts;
    assert v in worlds[w := s'] && stray.event in worlds[w := s'][v].payouts;
    OverStands(worlds, w, s', stray.event, stray.wager);
  }

  lemma MovedReads(f: Fleet, w: nat, s': World)
    requires w in f.worlds && Moves(f.worlds[w], s') && Adds(f.worlds, w, s') && OneRuns(f.worlds) && ReadsOk(f.worlds)
    requires OneEvent(f)
    requires s'.game.Scored? ==> s'.game == f.worlds[w].game || (GameIdle(f) && f.worlds[w].row.status == Matched)
    ensures ReadsOk(f.worlds[w := s'])
  {
    var worlds' := f.worlds[w := s'];
    forall v | v in worlds' && worlds'[v].game.Scored?
      ensures OverElsewhere(worlds', worlds'[v].game.event.id, v)
    {
      if v == w && s'.game != f.worlds[w].game {
        assert OverElsewhere(f.worlds, s'.game.event.id, w);
      }
      OverStands(f.worlds, w, s', worlds'[v].game.event.id, v);
    }
  }

  lemma MovedEvents(f: Fleet, w: nat, s': World)
    requires w in f.worlds && OneEvent(f)
    requires s'.game != NoEvent ==> f.worlds[w].game != NoEvent || GameIdle(f)
    ensures OneEvent(f.(worlds := f.worlds[w := s']))
  {
  }

  lemma MovedKeeps(f: Fleet, w: nat, s': World)
    requires FleetOk(f) && w in f.worlds && Moves(f.worlds[w], s') && Adds(f.worlds, w, s')
    requires s'.game.Scored? ==> s'.game == f.worlds[w].game || (GameIdle(f) && f.worlds[w].row.status == Matched)
    requires s'.game != NoEvent ==> f.worlds[w].game != NoEvent || GameIdle(f)
    ensures FleetOk(f.(worlds := f.worlds[w := s']))
  {
    RunsStand(f.worlds, w, s');
    RecordsStand(f.worlds, w, s');
    MovedReads(f, w, s');
    MovedEvents(f, w, s');
    forall stray | stray in f.strays || f.held == Some(stray)
      ensures StrayOk(f.worlds[w := s'], stray)
    {
      StrayStands(f.worlds, w, s', stray);
    }
  }

  lemma OwnStepKeeps(f: Fleet, w: nat, a: Settlement.Action)
    requires FleetOk(f) && w in f.worlds && Inv(f.worlds[w])
    requires !(a.GameRead? && !GameIdle(f)) && !FindsForeign(f, w, a)
    ensures FleetOk(OnWager(f, w, a))
  {
    var s := f.worlds[w];
    DoMoves(s, a);
    GameMoves(s, a);
    OwnAdds(f, w, a);
    MovedKeeps(f, w, Do(s, a));
  }

  lemma OwnAdds(f: Fleet, w: nat, a: Settlement.Action)
    requires w in f.worlds && !FindsForeign(f, w, a)
    ensures Adds(f.worlds, w, Do(f.worlds[w], a))
  {
    PayoutsGrow(f.worlds[w], a);
    if a == GameRecord {
      RecordAdds(f.worlds[w]);
    }
  }

  lemma ForeignKeeps(f: Fleet, w: nat)
    requires FleetOk(f) && w in f.worlds && Inv(f.worlds[w]) && FindsForeign(f, w, GameRecord)
    ensures FleetOk(OnWager(f, w, GameFails).(held := Some(Stray(f.worlds[w].game.event.id, w))))
  {
    var stray := Stray(f.worlds[w].game.event.id, w);
    assert StrayOk(f.worlds, stray);
    OwnStepKeeps(f, w, GameFails);
    DoMoves(f.worlds[w], GameFails);
    OwnAdds(f, w, GameFails);
    StrayStands(f.worlds, w, Do(f.worlds[w], GameFails), stray);
    HeldKeeps(f, OnWager(f, w, GameFails), w, stray);
  }

  lemma HeldKeeps(f: Fleet, f': Fleet, w: nat, stray: Stray)
    requires OneEvent(f) && w in f.worlds && f.worlds[w].game != NoEvent && FleetOk(f') && StrayOk(f'.worlds, stray)
    requires w in f'.worlds && f'.worlds[w].game == NoEvent && f'.worlds == f.worlds[w := f'.worlds[w]]
    ensures FleetOk(f'.(held := Some(stray)))
  {
  }

  lemma GoLiveKeeps(f: Fleet, w: nat, world: World)
    requires FleetOk(f) && MayGoLive(f, w, world)
    ensures FleetOk(f.(worlds := f.worlds[w := world]))
  {
    assert Reserved(world.row);
    forall v | v in f.worlds
      ensures !Running(f.worlds[v].row)
    {
      assert v in Rows(f.worlds) && Rows(f.worlds)[v] == f.worlds[v].row;
    }
    NewcomerKeeps(f, w, world);
  }

  lemma NewcomerKeeps(f: Fleet, w: nat, world: World)
    requires FleetOk(f) && w !in f.worlds && LiveRow(world.row)
    requires world.payouts == map[] && world.game == NoEvent
    requires forall v :: v in f.worlds ==> !Running(f.worlds[v].row)
    ensures FleetOk(f.(worlds := f.worlds[w := world]))
  {
    var worlds' := f.worlds[w := world];
    forall event, v
      ensures RecordedAt(worlds', event, v) ==> RecordedAt(f.worlds, event, v)
    {
    }
    forall stray: Stray | RecordedElsewhere(f.worlds, stray.event, stray.wager)
      ensures RecordedElsewhere(worlds', stray.event, stray.wager)
    {
      var v :| v in f.worlds && v != stray.wager && stray.event in f.worlds[v].payouts;
      assert v in worlds' && stray.event in worlds'[v].payouts;
    }
  }

  lemma NotPayable(f: Fleet, stray: Stray)
    requires StrayOk(f.worlds, stray)
    ensures !Payable(f, stray)
  {
    forall w | w in f.worlds && w != stray.wager && stray.event in f.worlds[w].payouts
      ensures f.worlds[w].row.status != Matched
    {
      assert RecordedAt(f.worlds, stray.event, w);
    }
  }

  lemma NextKeeps(f: Fleet, step: Step)
    requires FleetOk(f) && (step.On? && step.wager in f.worlds ==> Inv(f.worlds[step.wager]))
    ensures FleetOk(Next(f, step))
  {
    match step
    case GoLive(w, world) =>
      if MayGoLive(f, w, world) {
        GoLiveKeeps(f, w, world);
      }
    case On(w, a) =>
      if w in f.worlds && !(a.GameRead? && !GameIdle(f)) {
        if FindsForeign(f, w, a) {
          ForeignKeeps(f, w);
        } else {
          OwnStepKeeps(f, w, a);
        }
      }
    case QueueStray =>
    case DropStray =>
    case RunStray(stray) =>
      if stray in f.strays {
        NotPayable(f, stray);
      }
  }

  /** A wager comes in as the protocol starts. */
  lemma ComesInStarted(f: Fleet, step: Step, w: nat)
    requires w !in f.worlds && w in Next(f, step).worlds
    ensures Started(Next(f, step).worlds[w])
  {
  }

  /** Afterwards it moves by its own steps or not at all. */
  lemma MovesByItself(f: Fleet, step: Step, w: nat) returns (moves: bool, a: Settlement.Action)
    requires w in f.worlds
    ensures w in Next(f, step).worlds
    ensures Next(f, step).worlds[w] == if moves then Do(f.worlds[w], a) else f.worlds[w]
  {
    moves, a := false, GameFails;
    if step.On? && step.wager == w && !(step.action.GameRead? && !GameIdle(f)) {
      moves := true;
      if !FindsForeign(f, w, step.action) {
        a := step.action;
      }
    }
  }

  /** Every wager goes through a run of its own protocol, so everything proved about one wager holds for each. */
  lemma {:induction false} EachRunsAlone(steps: seq<Step>, w: nat)
    returns (start: World, actions: seq<Settlement.Action>)
    requires w in Run(NO_WAGERS, steps).worlds
    ensures Started(start) && Run(NO_WAGERS, steps).worlds[w] == Settlement.Run(start, actions)
  {
    var before, step := Run(NO_WAGERS, steps[..|steps| - 1]), steps[|steps| - 1];
    if w !in before.worlds {
      ComesInStarted(before, step, w);
      start, actions := Next(before, step).worlds[w], [];
    } else {
      start, actions := EachRunsAlone(steps[..|steps| - 1], w);
      var moves, a := MovesByItself(before, step, w);
      if moves {
        RunConcat(start, actions, [a]);
        RunOne(before.worlds[w], a);
        actions := actions + [a];
      }
    }
  }

  lemma EachKeeps(steps: seq<Step>, w: nat)
    requires w in Run(NO_WAGERS, steps).worlds
    ensures Inv(Run(NO_WAGERS, steps).worlds[w])
  {
    var start, actions := EachRunsAlone(steps, w);
    SettlementRuns.RunKeeps(start, actions);
  }

  lemma {:induction false} RunKeeps(steps: seq<Step>)
    ensures FleetOk(Run(NO_WAGERS, steps))
  {
    if steps != [] {
      var init, step := steps[..|steps| - 1], steps[|steps| - 1];
      RunKeeps(init);
      if step.On? && step.wager in Run(NO_WAGERS, init).worlds {
        EachKeeps(init, step.wager);
      }
      NextKeeps(Run(NO_WAGERS, init), step);
    }
  }

  // ----- What follows for all wagers -----

  /** However readings, wagers and crashes follow each other, no increment is ever sent to one wager for the payout
    * of another: a wager that an event was recorded for earlier is over before another one can be scored.
    */
  lemma NeverMisdirected(steps: seq<Step>)
    ensures !Run(NO_WAGERS, steps).misdirected
  {
    RunKeeps(steps);
  }

  /** At most one accepted increment for each event, over all wagers together. */
  lemma PaidOnceOverall(steps: seq<Step>, v: nat, i: nat, w: nat, j: nat)
    requires v in Run(NO_WAGERS, steps).worlds && i < |Run(NO_WAGERS, steps).worlds[v].chain.accepted|
    requires w in Run(NO_WAGERS, steps).worlds && j < |Run(NO_WAGERS, steps).worlds[w].chain.accepted|
    requires Run(NO_WAGERS, steps).worlds[v].chain.accepted[i] == Run(NO_WAGERS, steps).worlds[w].chain.accepted[j]
    ensures v == w && i == j
  {
    RunKeeps(steps);
    EachKeeps(steps, v);
    EachKeeps(steps, w);
    AcceptedOnce(Run(NO_WAGERS, steps).worlds, v, i, w, j);
  }

  lemma AcceptedOnce(worlds: map<nat, World>, v: nat, i: nat, w: nat, j: nat)
    requires OneRecord(worlds)
    requires v in worlds && AcceptedInTurn(worlds[v].chain.accepted, worlds[v].payouts)
    requires w in worlds && AcceptedInTurn(worlds[w].chain.accepted, worlds[w].payouts)
    requires i < |worlds[v].chain.accepted| && j < |worlds[w].chain.accepted|
    requires worlds[v].chain.accepted[i] == worlds[w].chain.accepted[j]
    ensures v == w && i == j
  {
    var event := worlds[v].chain.accepted[i];
    assert RecordedAt(worlds, event, v) && RecordedAt(worlds, event, w);
  }

  /** The server is one wager's at a time. */
  lemma OneAtATime(steps: seq<Step>)
    ensures AtMostOneReserved(Rows(Run(NO_WAGERS, steps).worlds))
  {
    RunKeeps(steps);
    RowsReserved(Run(NO_WAGERS, steps).worlds);
  }

  lemma RowsReserved(worlds: map<nat, World>)
    requires RowsLive(worlds) && OneRuns(worlds)
    ensures AtMostOneReserved(Rows(worlds))
  {
  }
}
