/** In-game notifications: an immediate message and timed repeats, each notify superseding the last one for
  * its key. The event loop runs one callback at a time, so every call, every resumption after a send and every
  * timer is one atomic step; sends complete and timers fire in any order.
  */
module NotificationScheduler {

  type Key = string

  type Commands = seq<string>

  datatype Plan = Plan(immediate: Commands, repeats: seq<Commands>)

  /** One call of notify; it also names the set that holds the call's timers. */
  datatype Notice = Notice(key: Key, generation: nat)

  datatype Timer = Timer(notice: Notice, index: nat, commands: Commands)

  /** What happened to a key, in order. */
  datatype Entry = Superseded(generation: nat) | Immediate(generation: nat, plan: Plan) | Repeated(timer: Timer)

  type Log = seq<Entry>

  datatype State = State(
    generations: map<Key, nat>,
    timers: map<Key, Notice>,
    sets: map<Notice, set<Timer>>,
    armed: set<Timer>,
    pending: map<Notice, Plan>,
    logs: map<Key, Log>)

  datatype Action =
    | Notify(key: Key, plan: Plan)
    | SendDone(notice: Notice, enabled: bool)
    | SendFails(notice: Notice)
    | Fire(timer: Timer)
    | Cancel(key: Key)
    | Close

  const EMPTY: State := State(map[], map[], map[], {}, map[], map[])

  function Generation(s: State, key: Key): nat {
    if key in s.generations then s.generations[key] else 0
  }

  function LogOf(s: State, key: Key): Log {
    if key in s.logs then s.logs[key] else []
  }

  function SetOf(s: State, n: Notice): set<Timer> {
    if n in s.sets then s.sets[n] else {}
  }

  function TimersOn(s: State, key: Key): set<Timer> {
    if key in s.timers then SetOf(s, s.timers[key]) else {}
  }

  function Logged(s: State, key: Key, e: Entry): State {
    s.(logs := s.logs[key := LogOf(s, key) + [e]])
  }

  function AfterSupersede(s: State, key: Key): State {
    var generation := Generation(s, key) + 1;
    Logged(s.(generations := s.generations[key := generation],
              timers := s.timers - {key},
              armed := s.armed - TimersOn(s, key)),
           key, Superseded(generation))
  }

  function TimersFor(n: Notice, repeats: seq<Commands>): set<Timer> {
    set i | 0 <= i < |repeats| :: Timer(n, i, repeats[i])
  }

  function Begin(s: State, key: Key, plan: Plan): State {
    var s1 := AfterSupersede(s, key);
    var generation := Generation(s1, key);
    Logged(s1.(pending := s1.pending[Notice(key, generation) := plan]), key, Immediate(generation, plan))
  }

  function Resume(s: State, n: Notice, enabled: bool): State {
    if n !in s.pending then s
    else
      var s1 := s.(pending := s.pending - {n});
      if !enabled || Generation(s, n.key) != n.generation then s1
      else
        var timers := TimersFor(n, s.pending[n].repeats);
        s1.(timers := s.timers[n.key := n], sets := s.sets[n := timers], armed := s.armed + timers)
  }

  function Fired(s: State, t: Timer): State {
    if t !in s.armed then s
    else
      var left := SetOf(s, t.notice) - {t};
      var s1 := s.(armed := s.armed - {t}, sets := s.sets[t.notice := left]);
      if Generation(s, t.notice.key) != t.notice.generation then s1
      else
        Logged(if left == {} then s1.(timers := s.timers - {t.notice.key}) else s1, t.notice.key, Repeated(t))
  }

  function Bumped(s: State, keys: set<Key>): map<Key, nat> {
    map k | k in keys :: Generation(s, k) + 1
  }

  function Noted(s: State, keys: set<Key>): map<Key, Log> {
    map k | k in keys :: LogOf(s, k) + [Superseded(Generation(s, k) + 1)]
  }

  /** Supersedes some of the keys that have timers. */
  function ClosedOn(s: State, keys: set<Key>): State {
    s.(generations := s.generations + Bumped(s, keys),
       timers := s.timers - keys,
       armed := (set t | t in s.armed && !(exists k :: k in keys && t in TimersOn(s, k))),
       logs := s.logs + Noted(s, keys))
  }

  function Closed(s: State): State {
    ClosedOn(s, s.timers.Keys)
  }

  function Do(s: State, a: Action): State {
    match a
    case Notify(key, plan) => Begin(s, key, plan)
    case SendDone(n, enabled) => Resume(s, n, enabled)
    case SendFails(n) => s.(pending := s.pending - {n})
    case Fire(t) => Fired(s, t)
    case Cancel(key) => AfterSupersede(s, key)
    case Close => Closed(s)
  }

  function Run(s: State, actions: seq<Action>): State {
    if actions == [] then s else Do(Run(s, actions[..|actions| - 1]), actions[|actions| - 1])
  }

  // ----- Invariant -----

  predicate Current(s: State, n: Notice) {
    n.key in s.generations && s.generations[n.key] == n.generation
  }

  /** The latest generation of a key. */
  function Latest(log: Log): nat {
    if log == [] then 0
    else if log[|log| - 1].Superseded? then log[|log| - 1].generation
    else Latest(log[..|log| - 1])
  }

  /** The notify whose repeat this timer is. */
  predicate Announced(log: Log, t: Timer) {
    exists e :: e in log && AnnouncedBy(e, t)
  }

  predicate AnnouncedBy(e: Entry, t: Timer) {
    && e.Immediate? && e.generation == t.notice.generation
    && t.index < |e.plan.repeats| && t.commands == e.plan.repeats[t.index]
  }

  /** Every repeat in a log comes from the latest notify before it, which nothing has superseded since. */
  predicate FromLatest(log: Log) {
    forall j :: 0 <= j < |log| && log[j].Repeated? ==>
      Latest(log[..j]) == log[j].timer.notice.generation && Announced(log[..j], log[j].timer)
  }

  predicate NoneTwice(log: Log) {
    forall i, j :: 0 <= i < j < |log| && log[i].Repeated? ==> log[i] != log[j]
  }

  /** A log of a key that is at this generation. */
  predicate LogFits(log: Log, key: Key, generation: nat) {
    && FromLatest(log) && NoneTwice(log) && Latest(log) == generation
    && forall e :: e in log && e.Repeated? ==>
         e.timer.notice.key == key && e.timer.notice.generation <= generation
  }

  predicate LogOk(s: State, key: Key) {
    LogFits(LogOf(s, key), key, Generation(s, key))
  }

  /** An armed timer belongs to its key's current generation and to the set the scheduler would clear. */
  predicate ArmedOk(s: State, t: Timer) {
    var log := LogOf(s, t.notice.key);
    && Current(s, t.notice) && t in TimersOn(s, t.notice.key)
    && t.notice.key in s.timers && s.timers[t.notice.key] == t.notice
    && Repeated(t) !in log && Announced(log, t)
  }

  predicate PendingOk(s: State, n: Notice)
    requires n in s.pending
  {
    var log := LogOf(s, n.key);
    && n.generation <= Generation(s, n.key)
    && (Current(s, n) ==> n.key !in s.timers)
    && Immediate(n.generation, s.pending[n]) in log
    && n.key in s.generations
    && forall e :: e in log && e.Repeated? ==> e.timer.notice != n
  }

  predicate SetOk(s: State, key: Key)
    requires key in s.timers
  {
    && s.timers[key].key == key && Current(s, s.timers[key])
    && forall t :: t in TimersOn(s, key) ==> t in s.armed && t.notice == s.timers[key]
  }

  ghost predicate LogsOk(s: State) {
    forall key :: LogOk(s, key)
  }

  predicate AllArmedOk(s: State) {
    forall t :: t in s.armed ==> ArmedOk(s, t)
  }

  predicate SetsOk(s: State) {
    forall key :: key in s.timers ==> SetOk(s, key)
  }

  predicate AllPendingOk(s: State) {
    forall n :: n in s.pending ==> PendingOk(s, n)
  }

  ghost predicate Inv(s: State) {
    LogsOk(s) && AllArmedOk(s) && SetsOk(s) && AllPendingOk(s)
  }

  // ----- Logs -----

  lemma LogGrows(log: Log, e: Entry)
    requires FromLatest(log) && NoneTwice(log)
    requires e.Repeated? ==> e !in log && Latest(log) == e.timer.notice.generation && Announced(log, e.timer)
    ensures FromLatest(log + [e]) && NoneTwice(log + [e])
    ensures Latest(log + [e]) == if e.Superseded? then e.generation else Latest(log)
  {
    var more := log + [e];
    assert more[..|log|] == log;
    forall j | 0 <= j < |more| && more[j].Repeated?
      ensures Latest(more[..j]) == more[j].timer.notice.generation && Announced(more[..j], more[j].timer)
    {
      if j < |log| {
        assert more[..j] == log[..j];
      }
    }
  }

  lemma AnnouncedStays(log: Log, e: Entry, t: Timer)
    requires Announced(log, t)
    ensures Announced(log + [e], t)
  {
  }

  // ----- Steps -----

  lemma SupersedeLogs(s: State, key: Key)
    requires LogsOk(s)
    ensures LogsOk(AfterSupersede(s, key))
  {
    var s' := AfterSupersede(s, key);
    assert LogOk(s, key);
    LogGrows(LogOf(s, key), Superseded(Generation(s, key) + 1));
    forall k
      ensures LogOk(s', k)
    {
      assert LogOk(s, k);
    }
  }

  lemma SupersedeArmed(s: State, key: Key)
    requires AllArmedOk(s)
    ensures AllArmedOk(AfterSupersede(s, key))
  {
    var s' := AfterSupersede(s, key);
    forall t | t in s'.armed
      ensures ArmedOk(s', t)
    {
      assert ArmedOk(s, t);
    }
  }

  lemma SupersedeSets(s: State, key: Key)
    requires SetsOk(s)
    ensures SetsOk(AfterSupersede(s, key))
  {
    var s' := AfterSupersede(s, key);
    assert key in s.timers ==> SetOk(s, key);
    forall k | k in s'.timers
      ensures SetOk(s', k)
    {
      assert SetOk(s, k);
      assert TimersOn(s', k) == TimersOn(s, k);
    }
  }

  lemma SupersedePending(s: State, key: Key)
    requires AllPendingOk(s)
    ensures AllPendingOk(AfterSupersede(s, key))
    ensures Notice(key, Generation(AfterSupersede(s, key), key)) !in s.pending
  {
    var s' := AfterSupersede(s, key);
    forall n | n in s.pending
      ensures PendingOk(s', n) && n != Notice(key, Generation(s', key))
    {
      assert PendingOk(s, n);
    }
  }

  lemma SupersedeKeeps(s: State, key: Key)
    requires Inv(s)
    ensures Inv(AfterSupersede(s, key))
    ensures key !in AfterSupersede(s, key).timers
    ensures Notice(key, Generation(AfterSupersede(s, key), key)) !in s.pending
  {
    SupersedeLogs(s, key);
    SupersedeArmed(s, key);
    SupersedeSets(s, key);
    SupersedePending(s, key);
  }

  /** A send that may be logged: an immediate one, or a repeat of the current generation that is spent. */
  predicate Loggable(s: State, key: Key, e: Entry) {
    && !e.Superseded?
    && (e.Repeated? ==>
          && e !in LogOf(s, key) && e.timer.notice.key == key && e.timer.notice.generation == Generation(s, key)
          && Announced(LogOf(s, key), e.timer) && e.timer !in s.armed && e.timer.notice !in s.pending)
  }

  lemma FitsGrown(log: Log, key: Key, generation: nat, e: Entry)
    requires LogFits(log, key, generation) && !e.Superseded?
    requires e.Repeated? ==>
               && e !in log && e.timer.notice.key == key && e.timer.notice.generation == generation
               && Announced(log, e.timer)
    ensures LogFits(log + [e], key, generation)
  {
    LogGrows(log, e);
  }

  lemma LoggedOwn(s: State, key: Key, e: Entry)
    requires LogOk(s, key) && Loggable(s, key, e)
    ensures LogOk(Logged(s, key, e), key)
  {
    FitsGrown(LogOf(s, key), key, Generation(s, key), e);
    LoggedIs(s, key, e);
  }

  lemma LoggedIs(s: State, key: Key, e: Entry)
    ensures LogOf(Logged(s, key, e), key) == LogOf(s, key) + [e]
    ensures Generation(Logged(s, key, e), key) == Generation(s, key)
  {
  }

  lemma LoggedElsewhere(s: State, key: Key, e: Entry, other: Key)
    requires other != key && LogOk(s, other)
    ensures LogOk(Logged(s, key, e), other)
  {
    assert LogOf(Logged(s, key, e), other) == LogOf(s, other);
  }

  lemma LoggedLogs(s: State, key: Key, e: Entry)
    requires LogsOk(s) && Loggable(s, key, e)
    ensures LogsOk(Logged(s, key, e))
  {
    forall k
      ensures LogOk(Logged(s, key, e), k)
    {
      assert LogOk(s, k);
      if k == key {
        LoggedOwn(s, key, e);
      } else {
        LoggedElsewhere(s, key, e, k);
      }
    }
  }

  lemma LoggedArmed(s: State, key: Key, e: Entry)
    requires AllArmedOk(s) && Loggable(s, key, e)
    ensures AllArmedOk(Logged(s, key, e))
  {
    var s' := Logged(s, key, e);
    forall t | t in s'.armed
      ensures ArmedOk(s', t)
    {
      assert ArmedOk(s, t);
      if t.notice.key == key {
        AnnouncedStays(LogOf(s, key), e, t);
      }
    }
  }

  lemma LoggedPending(s: State, key: Key, e: Entry)
    requires AllPendingOk(s) && Loggable(s, key, e)
    ensures AllPendingOk(Logged(s, key, e))
  {
    var s' := Logged(s, key, e);
    forall n | n in s'.pending
      ensures PendingOk(s', n)
    {
      assert PendingOk(s, n);
    }
  }

  lemma LoggedSets(s: State, key: Key, e: Entry)
    requires SetsOk(s)
    ensures SetsOk(Logged(s, key, e))
  {
    forall k | k in s.timers
      ensures SetOk(Logged(s, key, e), k)
    {
      assert SetOk(s, k);
    }
  }

  /** Logging a send. */
  lemma LogKeeps(s: State, key: Key, e: Entry)
    requires Inv(s) && Loggable(s, key, e)
    ensures Inv(Logged(s, key, e))
  {
    LoggedLogs(s, key, e);
    LoggedArmed(s, key, e);
    LoggedPending(s, key, e);
    LoggedSets(s, key, e);
  }

  /** What is left of Begin once the key is superseded. */
  lemma BeginKeeps(s: State, key: Key, plan: Plan)
    requires Inv(s) && key in s.generations && key !in s.timers && Notice(key, s.generations[key]) !in s.pending
    requires forall e :: e in LogOf(s, key) && e.Repeated? ==> e.timer.notice.generation < s.generations[key]
    requires Immediate(s.generations[key], plan) in LogOf(s, key)
    ensures Inv(s.(pending := s.pending[Notice(key, s.generations[key]) := plan]))
  {
    var s' := s.(pending := s.pending[Notice(key, s.generations[key]) := plan]);
    forall k
      ensures LogOk(s', k)
    {
      assert LogOk(s, k);
    }
    forall t | t in s'.armed
      ensures ArmedOk(s', t)
    {
      assert ArmedOk(s, t);
    }
    forall k | k in s'.timers
      ensures SetOk(s', k)
    {
      assert SetOk(s, k);
    }
    forall n | n in s'.pending
      ensures PendingOk(s', n)
    {
      if n in s.pending {
        assert PendingOk(s, n);
      }
    }
  }

  lemma NotifyKeeps(s: State, key: Key, plan: Plan)
    requires Inv(s)
    ensures Inv(Begin(s, key, plan))
  {
    assert LogOk(s, key);
    SupersedeKeeps(s, key);
    var s1 := AfterSupersede(s, key);
    var e := Immediate(s1.generations[key], plan);
    LogKeeps(s1, key, e);
    BeginKeeps(Logged(s1, key, e), key, plan);
  }

  lemma DropKeeps(s: State, n: Notice)
    requires Inv(s)
    ensures Inv(s.(pending := s.pending - {n}))
  {
    var s' := s.(pending := s.pending - {n});
    forall k
      ensures LogOk(s', k)
    {
      assert LogOk(s, k);
    }
    forall t | t in s'.armed
      ensures ArmedOk(s', t)
    {
      assert ArmedOk(s, t);
    }
    forall k | k in s'.timers
      ensures SetOk(s', k)
    {
      assert SetOk(s, k);
    }
    forall m | m in s'.pending
      ensures PendingOk(s', m)
    {
      assert PendingOk(s, m);
    }
  }

  lemma TimerAnnounced(log: Log, n: Notice, plan: Plan, t: Timer)
    requires Immediate(n.generation, plan) in log && t in TimersFor(n, plan.repeats)
    ensures t.notice == n && Announced(log, t)
  {
  }

  lemma ArmKeeps(s: State, n: Notice, plan: Plan)
    requires Inv(s) && n !in s.pending && Current(s, n) && n.key !in s.timers
    requires Immediate(n.generation, plan) in LogOf(s, n.key)
    requires forall e :: e in LogOf(s, n.key) && e.Repeated? ==> e.timer.notice != n
    requires forall m :: m in s.pending && m.key == n.key ==> m.generation != n.generation
    ensures Inv(s.(timers := s.timers[n.key := n], sets := s.sets[n := TimersFor(n, plan.repeats)],
                   armed := s.armed + TimersFor(n, plan.repeats)))
  {
    var timers := TimersFor(n, plan.repeats);
    var s' := s.(timers := s.timers[n.key := n], sets := s.sets[n := timers], armed := s.armed + timers);
    forall k
      ensures LogOk(s', k)
    {
      assert LogOk(s, k);
    }
    forall t | t in s'.armed
      ensures ArmedOk(s', t)
    {
      if t in timers {
        TimerAnnounced(LogOf(s, n.key), n, plan, t);
      } else {
        assert ArmedOk(s, t);
      }
    }
    forall k | k in s'.timers
      ensures SetOk(s', k)
    {
      if k != n.key {
        assert SetOk(s, k);
        assert s.timers[k] != n;
      }
    }
    forall m | m in s'.pending
      ensures PendingOk(s', m)
    {
      assert PendingOk(s, m);
    }
  }

  lemma SendDoneKeeps(s: State, n: Notice, enabled: bool)
    requires Inv(s)
    ensures Inv(Resume(s, n, enabled))
  {
    if n in s.pending {
      assert PendingOk(s, n);
      DropKeeps(s, n);
      if enabled && Generation(s, n.key) == n.generation {
        ArmKeeps(s.(pending := s.pending - {n}), n, s.pending[n]);
      }
    }
  }

  /** A timer that leaves the event loop and its set, and the set the map when it was the last one. */
  function Disarmed(s: State, t: Timer): State {
    var left := SetOf(s, t.notice) - {t};
    s.(armed := s.armed - {t},
       sets := s.sets[t.notice := left],
       timers := if left == {} then s.timers - {t.notice.key} else s.timers)
  }

  lemma DisarmKeeps(s: State, t: Timer)
    requires Inv(s) && t in s.armed
    ensures Inv(Disarmed(s, t))
  {
    var s' := Disarmed(s, t);
    assert ArmedOk(s, t) && SetOk(s, t.notice.key);
    forall k
      ensures LogOk(s', k)
    {
      assert LogOk(s, k);
    }
    forall u | u in s'.armed
      ensures ArmedOk(s', u)
    {
      assert ArmedOk(s, u);
    }
    forall k | k in s'.timers
      ensures SetOk(s', k)
    {
      assert SetOk(s, k);
      if k != t.notice.key {
        assert s.timers[k] != t.notice;
      }
    }
    forall n | n in s'.pending
      ensures PendingOk(s', n)
    {
      assert PendingOk(s, n);
    }
  }

  lemma FireKeeps(s: State, t: Timer)
    requires Inv(s)
    ensures Inv(Fired(s, t))
  {
    if t in s.armed {
      assert ArmedOk(s, t);
      DisarmKeeps(s, t);
      assert t.notice !in s.pending by {
        assert t.notice in s.pending ==> PendingOk(s, t.notice);
      }
      LogKeeps(Disarmed(s, t), t.notice.key, Repeated(t));
    }
  }

  lemma CloseLogs(s: State)
    requires LogsOk(s)
    ensures LogsOk(Closed(s))
  {
    var s' := Closed(s);
    forall k
      ensures LogOk(s', k)
    {
      assert LogOk(s, k);
      LogGrows(LogOf(s, k), Superseded(Generation(s, k) + 1));
    }
  }

  lemma CloseDisarms(s: State)
    requires AllArmedOk(s)
    ensures Closed(s).armed == {} && Closed(s).timers == map[]
  {
    forall t | t in s.armed
      ensures t.notice.key in s.timers && t in TimersOn(s, t.notice.key)
    {
      assert ArmedOk(s, t);
    }
  }

  lemma ClosePending(s: State)
    requires AllPendingOk(s)
    ensures AllPendingOk(Closed(s))
  {
    var s' := Closed(s);
    forall n | n in s'.pending
      ensures PendingOk(s', n)
    {
      assert PendingOk(s, n);
    }
  }

  lemma CloseKeeps(s: State)
    requires Inv(s)
    ensures Inv(Closed(s)) && Closed(s).armed == {}
  {
    CloseLogs(s);
    CloseDisarms(s);
    ClosePending(s);
  }

  lemma StepKeeps(s: State, a: Action)
    requires Inv(s)
    ensures Inv(Do(s, a))
  {
    match a
    case Notify(key, plan) => NotifyKeeps(s, key, plan);
    case SendDone(n, enabled) => SendDoneKeeps(s, n, enabled);
    case SendFails(n) => DropKeeps(s, n);
    case Fire(t) => FireKeeps(s, t);
    case Cancel(key) => SupersedeKeeps(s, key);
    case Close => CloseKeeps(s);
  }

  lemma {:induction false} RunKeeps(s: State, actions: seq<Action>)
    requires Inv(s)
    ensures Inv(Run(s, actions))
  {
    if actions != [] {
      RunKeeps(s, actions[..|actions| - 1]);
      StepKeeps(Run(s, actions[..|actions| - 1]), actions[|actions| - 1]);
    }
  }

  lemma EmptyInv()
    ensures Inv(EMPTY)
  {
  }

  // ----- Whole runs -----

  /** Under every interleaving a timer that is still armed belongs to its key's latest generation, so firing it
    * always delivers: the generation check inside the callback never trips.
    */
  lemma FiringDelivers(actions: seq<Action>, t: Timer)
    requires t in Run(EMPTY, actions).armed
    ensures var s := Run(EMPTY, actions);
            && Current(s, t.notice) && t in TimersOn(s, t.notice.key)
            && LogOf(Do(s, Fire(t)), t.notice.key) == LogOf(s, t.notice.key) + [Repeated(t)]
            && t !in Do(s, Fire(t)).armed
  {
    EmptyInv();
    RunKeeps(EMPTY, actions);
    assert ArmedOk(Run(EMPTY, actions), t);
  }

  /** Each repeat is delivered at most once, with the commands of the notify it belongs to, and only while that
    * notify is the last thing that happened to its key's generation.
    */
  lemma RepeatsAreFresh(actions: seq<Action>, key: Key)
    ensures FromLatest(LogOf(Run(EMPTY, actions), key)) && NoneTwice(LogOf(Run(EMPTY, actions), key))
  {
    EmptyInv();
    RunKeeps(EMPTY, actions);
    assert LogOk(Run(EMPTY, actions), key);
  }

  /** Nothing more will be sent for a key until it is notified again. */
  predicate Silent(s: State, key: Key) {
    && (forall t :: t in s.armed ==> t.notice.key != key)
    && (forall n :: n in s.pending && n.key == key ==> n.generation < Generation(s, key))
  }

  predicate NoNewRepeats(before: Log, after: Log) {
    forall e :: e in after && !e.Superseded? ==> e in before
  }

  lemma SilentFires(s: State, t: Timer, key: Key)
    requires Silent(s, key)
    ensures Silent(Fired(s, t), key) && NoNewRepeats(LogOf(s, key), LogOf(Fired(s, t), key))
  {
  }

  lemma SilentSupersedes(s: State, k: Key, key: Key)
    requires Silent(s, key)
    ensures Silent(AfterSupersede(s, k), key) && NoNewRepeats(LogOf(s, key), LogOf(AfterSupersede(s, k), key))
  {
  }

  lemma SilentCloses(s: State, key: Key)
    requires Silent(s, key)
    ensures Silent(Closed(s), key) && NoNewRepeats(LogOf(s, key), LogOf(Closed(s), key))
  {
  }

  lemma SilentStep(s: State, a: Action, key: Key)
    requires Silent(s, key) && !(a.Notify? && a.key == key)
    ensures Silent(Do(s, a), key) && NoNewRepeats(LogOf(s, key), LogOf(Do(s, a), key))
  {
    match a
    case Notify(k, _) => SilentSupersedes(s, k, key);
    case SendDone(_, _) =>
    case SendFails(_) =>
    case Fire(t) => SilentFires(s, t, key);
    case Cancel(k) => SilentSupersedes(s, k, key);
    case Close => SilentCloses(s, key);
  }

  lemma {:induction false} SilentRun(s: State, actions: seq<Action>, key: Key)
    requires Inv(s) && Silent(s, key)
    requires forall a :: a in actions && a.Notify? ==> a.key != key
    ensures Silent(Run(s, actions), key) && NoNewRepeats(LogOf(s, key), LogOf(Run(s, actions), key))
  {
    if actions != [] {
      var before := actions[..|actions| - 1];
      SilentRun(s, before, key);
      RunKeeps(s, before);
      SilentStep(Run(s, before), actions[|actions| - 1], key);
    }
  }

  lemma CancelSilences(s: State, key: Key)
    requires Inv(s)
    ensures Silent(AfterSupersede(s, key), key)
    ensures NoNewRepeats(LogOf(s, key), LogOf(AfterSupersede(s, key), key))
  {
  }

  /** After a cancel nothing is sent for the key, whatever else happens, until it is notified again. */
  lemma CancelledStaysQuiet(actions: seq<Action>, key: Key, rest: seq<Action>)
    requires forall a :: a in rest && a.Notify? ==> a.key != key
    ensures NoNewRepeats(LogOf(Run(EMPTY, actions), key),
                         LogOf(Run(AfterSupersede(Run(EMPTY, actions), key), rest), key))
  {
    EmptyInv();
    RunKeeps(EMPTY, actions);
    var s := Run(EMPTY, actions);
    CancelSilences(s, key);
    SupersedeKeeps(s, key);
    SilentRun(AfterSupersede(s, key), rest, key);
  }

  /** Closing disarms every timer. Yet a notify that still awaits its immediate send is not superseded: once
    * its send completes it arms its repeats, exactly when it is its key's latest and has any.
    */
  lemma CloseMissesPendingIff(actions: seq<Action>, n: Notice)
    ensures var s := Run(EMPTY, actions);
            && Closed(s).armed == {}
            && (Resume(Closed(s), n, true).armed != {}
                <==> n in s.pending && Current(s, n) && s.pending[n].repeats != [])
  {
    EmptyInv();
    RunKeeps(EMPTY, actions);
    var s := Run(EMPTY, actions);
    CloseKeeps(s);
    if n in s.pending {
      assert PendingOk(s, n);
      if s.pending[n].repeats != [] {
        assert Timer(n, 0, s.pending[n].repeats[0]) in TimersFor(n, s.pending[n].repeats);
      }
    }
  }

  lemma RunThree(s: State, a: Action, b: Action, c: Action, s1: State, s2: State)
    requires Do(s, a) == s1 && Do(s1, b) == s2
    ensures Run(s, [a]) == s1 && Run(s, [a, b, c]) == Do(s2, c)
  {
    var one, two, three := [a], [a, b], [a, b, c];
    assert one[..0] == [] && two[..1] == one && three[..2] == two;
    assert Run(s, one) == s1;
    assert Run(s, two) == s2;
  }

  /** A run in which it does: a notify, a close, and then the completion of the notify's send. */
  lemma RepeatsAfterClose(key: Key, plan: Plan)
    requires plan.repeats != []
    ensures Run(EMPTY, [Notify(key, plan), Close, SendDone(Notice(key, 1), true)]).armed != {}
  {
    var s := Begin(EMPTY, key, plan);
    RunThree(EMPTY, Notify(key, plan), Close, SendDone(Notice(key, 1), true), s, Closed(s));
    assert s.pending == map[Notice(key, 1) := plan] && s.generations == map[key := 1];
    CloseMissesPendingIff([Notify(key, plan)], Notice(key, 1));
  }

  // ----- Every repeat is served -----

  /** The immediate commands of a notify are sent at once, and its whole plan waits for that send. */
  lemma NotifySends(s: State, key: Key, plan: Plan)
    ensures var s' := Do(s, Notify(key, plan));
            var n := Notice(key, Generation(s', key));
            && Generation(s', key) == Generation(s, key) + 1
            && LogOf(s', key) == LogOf(s, key) + [Superseded(n.generation), Immediate(n.generation, plan)]
            && n in s'.pending && s'.pending[n] == plan
            && forall other :: other != key ==> LogOf(s', other) == LogOf(s, other)
  {
  }

  /** When the send of a key's latest notify completes while repeats are enabled, a timer is armed for each of its
    * repeats, with the commands of that repeat, and no other; otherwise none is.
    */
  lemma CompletionArms(s: State, n: Notice, enabled: bool, t: Timer)
    requires n in s.pending
    ensures t in Do(s, SendDone(n, enabled)).armed <==>
              || t in s.armed
              || (&& enabled && Generation(s, n.key) == n.generation && t.notice == n
                  && t.index < |s.pending[n].repeats| && t.commands == s.pending[n].repeats[t.index])
  {
    var repeats := s.pending[n].repeats;
    if t.notice == n && t.index < |repeats| && t.commands == repeats[t.index] {
      assert t in TimersFor(n, repeats);
    }
  }

  /** Nothing else ever arms a timer. */
  lemma OnlyCompletionArms(s: State, a: Action, t: Timer)
    requires t in Do(s, a).armed && t !in s.armed
    ensures a == SendDone(t.notice, true) && t.notice in s.pending
  {
    match a
    case SendDone(_, _) =>
    case Close => ClosesNone(s);
    case Fire(other) => FiresNone(s, other);
    case _ =>
  }

  lemma ClosesNone(s: State)
    ensures Closed(s).armed <= s.armed
  {
  }

  lemma FiresNone(s: State, t: Timer)
    ensures Fired(s, t).armed <= s.armed
  {
  }

  /** Every repeat of a plan is still armed or has been delivered. */
  ghost predicate Served(s: State, n: Notice, plan: Plan) {
    forall i :: 0 <= i < |plan.repeats| ==> ServedOne(s, Timer(n, i, plan.repeats[i]))
  }

  predicate ServedOne(s: State, t: Timer) {
    t in s.armed || Repeated(t) in LogOf(s, t.notice.key)
  }

  lemma CompletionServes(s: State, n: Notice)
    requires n in s.pending && Generation(s, n.key) == n.generation
    ensures Served(Do(s, SendDone(n, true)), n, s.pending[n])
  {
    var plan := s.pending[n];
    forall i | 0 <= i < |plan.repeats|
      ensures ServedOne(Do(s, SendDone(n, true)), Timer(n, i, plan.repeats[i]))
    {
      CompletionArms(s, n, true, Timer(n, i, plan.repeats[i]));
    }
  }

  lemma GenerationsGrow(s: State, a: Action, key: Key)
    ensures Generation(s, key) <= Generation(Do(s, a), key)
    ensures forall e :: e in LogOf(s, key) ==> e in LogOf(Do(s, a), key)
  {
  }

  lemma SupersededOnly(s: State, key: Key, t: Timer)
    requires SetsOk(s) && t in s.armed && t.notice.key != key
    ensures t in AfterSupersede(s, key).armed
  {
    assert key in s.timers ==> SetOk(s, key);
  }

  lemma CloseBumps(s: State, t: Timer)
    requires AllArmedOk(s) && t in s.armed
    ensures Generation(Closed(s), t.notice.key) != Generation(s, t.notice.key)
  {
    assert ArmedOk(s, t);
  }

  /** What takes a timer away without delivering it takes its key to a new generation. */
  lemma ServedStands(s: State, a: Action, t: Timer)
    requires Inv(s) && ServedOne(s, t) && Generation(Do(s, a), t.notice.key) == Generation(s, t.notice.key)
    ensures ServedOne(Do(s, a), t)
  {
    GenerationsGrow(s, a, t.notice.key);
    if t in s.armed {
      assert ArmedOk(s, t);
      match a
      case Notify(key, _) => SupersededOnly(s, key, t);
      case Cancel(key) => SupersededOnly(s, key, t);
      case Close => CloseBumps(s, t);
      case _ =>
    }
  }

  lemma PendingIsOld(s: State, n: Notice)
    requires AllPendingOk(s) && n in s.pending
    ensures n.generation <= Generation(s, n.key)
  {
    assert PendingOk(s, n);
  }

  /** The send of a notify completed at step j, with repeats enabled. */
  predicate CompletedAt(actions: seq<Action>, j: nat, n: Notice) {
    j < |actions| && actions[j] == SendDone(n, true) && n in Run(EMPTY, actions[..j]).pending
  }

  lemma {:induction false} GenerationKept(actions: seq<Action>, j: nat, n: Notice)
    requires CompletedAt(actions, j, n)
    ensures n.generation <= Generation(Run(EMPTY, actions), n.key)
    decreases |actions|
  {
    var before := actions[..|actions| - 1];
    EmptyInv();
    if j == |before| {
      RunKeeps(EMPTY, before);
      PendingIsOld(Run(EMPTY, before), n);
    } else {
      assert before[..j] == actions[..j];
      GenerationKept(before, j, n);
    }
    GenerationsGrow(Run(EMPTY, before), actions[|actions| - 1], n.key);
  }

  /** As long as a notify is its key's latest and its send has completed with repeats enabled, every repeat of its plan
    * is armed or has been delivered; so once none of its timers is armed all have been.
    */
  lemma {:induction false} RepeatsServed(actions: seq<Action>, j: nat, n: Notice)
    requires CompletedAt(actions, j, n) && Generation(Run(EMPTY, actions), n.key) == n.generation
    ensures Served(Run(EMPTY, actions), n, Run(EMPTY, actions[..j]).pending[n])
    decreases |actions|
  {
    var before, a := actions[..|actions| - 1], actions[|actions| - 1];
    var now := Run(EMPTY, before);
    EmptyInv();
    RunKeeps(EMPTY, before);
    GenerationsGrow(now, a, n.key);
    if j == |before| {
      PendingIsOld(now, n);
      CompletionServes(now, n);
    } else {
      assert before[..j] == actions[..j];
      GenerationKept(before, j, n);
      RepeatsServed(before, j, n);
      var plan := Run(EMPTY, actions[..j]).pending[n];
      forall i | 0 <= i < |plan.repeats|
        ensures ServedOne(Do(now, a), Timer(n, i, plan.repeats[i]))
      {
        ServedStands(now, a, Timer(n, i, plan.repeats[i]));
      }
    }
  }

  lemma PendingStep(s: State, a: Action, n: Notice)
    requires n in Do(s, a).pending
    ensures || (n in s.pending && Do(s, a).pending[n] == s.pending[n])
            || (a == Notify(n.key, Do(s, a).pending[n]) && Generation(Do(s, a), n.key) == n.generation)
  {
    if a.Notify? {
      NotifyPends(s, a.key, a.plan);
    } else {
      NoneAdded(s, a);
    }
  }

  lemma NotifyPends(s: State, key: Key, plan: Plan)
    ensures var n := Notice(key, Generation(Begin(s, key, plan), key));
            Begin(s, key, plan).pending == s.pending[n := plan]
  {
  }

  lemma NoneAdded(s: State, a: Action)
    requires !a.Notify?
    ensures forall n :: n in Do(s, a).pending ==> n in s.pending && Do(s, a).pending[n] == s.pending[n]
  {
  }

  /** The k-th action notified the key with this plan, and made this generation. */
  predicate NotifiedAt(actions: seq<Action>, k: nat, n: Notice, plan: Plan) {
    && k < |actions| && actions[k] == Notify(n.key, plan)
    && Generation(Run(EMPTY, actions[..k + 1]), n.key) == n.generation
  }

  lemma NotifiedEarlier(before: seq<Action>, a: Action, k: nat, n: Notice, plan: Plan)
    requires NotifiedAt(before, k, n, plan)
    ensures NotifiedAt(before + [a], k, n, plan)
  {
    assert (before + [a])[..k + 1] == before[..k + 1];
  }

  lemma NotifiedNow(actions: seq<Action>, n: Notice, plan: Plan)
    requires actions != [] && actions[|actions| - 1] == Notify(n.key, plan)
    requires Generation(Run(EMPTY, actions), n.key) == n.generation
    ensures NotifiedAt(actions, |actions| - 1, n, plan)
  {
    assert actions[..|actions|] == actions;
  }

  /** The plan that waits for a send is the one of the notify that made its generation. */
  lemma {:induction false} PendingWasNotified(actions: seq<Action>, n: Notice) returns (k: nat)
    requires n in Run(EMPTY, actions).pending
    ensures NotifiedAt(actions, k, n, Run(EMPTY, actions).pending[n])
    decreases |actions|
  {
    var before, a := actions[..|actions| - 1], actions[|actions| - 1];
    var now, plan := Run(EMPTY, before), Run(EMPTY, actions).pending[n];
    assert actions == before + [a];
    PendingStep(now, a, n);
    if n in now.pending && plan == now.pending[n] {
      k := PendingWasNotified(before, n);
      NotifiedEarlier(before, a, k, n, plan);
    } else {
      NotifiedNow(actions, n, plan);
      k := |before|;
    }
  }

  // ----- The scheduler -----

  class Scheduler {
    var generations: map<Key, nat>
    var timers: map<Key, Notice>
    // The sets of timers, the event loop's armed timers and suspended notifies, and what was sent.
    var sets: map<Notice, set<Timer>>
    var armed: set<Timer>
    var pending: map<Notice, Plan>
    var logs: map<Key, Log>

    function Snapshot(): State
      reads this
    {
      State(generations, timers, sets, armed, pending, logs)
    }

    ghost predicate Valid()
      reads this
    {
      Inv(Snapshot())
    }

    constructor ()
      ensures Valid() && Snapshot() == EMPTY
    {
      generations, timers, sets, armed, pending, logs := map[], map[], map[], {}, map[], map[];
      new;
      EmptyInv();
    }

    /** clearTimeout for every timer of a set. */
    method Disarm(cleared: set<Timer>)
      modifies this`armed
      ensures armed == old(armed) - cleared
    {
      var rest := cleared;
      while rest != {}
        invariant rest <= cleared && armed == old(armed) - (cleared - rest)
        decreases |rest|
      {
        var timer :| timer in rest;
        armed := armed - {timer};
        rest := rest - {timer};
      }
      assert cleared - rest == cleared;
    }

    /** setTimeout for every repeat of a plan. */
    method Arm(notice: Notice, repeats: seq<Commands>)
      modifies this`armed, this`sets
      ensures sets == old(sets)[notice := TimersFor(notice, repeats)]
      ensures armed == old(armed) + TimersFor(notice, repeats)
    {
      sets := sets[notice := {}];
      assert TimersFor(notice, repeats[..0]) == {};
      var i := 0;
      while i < |repeats|
        invariant 0 <= i <= |repeats|
        invariant sets == old(sets)[notice := TimersFor(notice, repeats[..i])]
        invariant armed == old(armed) + TimersFor(notice, repeats[..i])
      {
        var timer := Timer(notice, i, repeats[i]);
        TimersGrow(notice, repeats, i);
        armed := armed + {timer};
        sets := sets[notice := sets[notice] + {timer}];
        i := i + 1;
      }
      assert repeats[..i] == repeats;
    }

    method Supersede(key: Key) returns (generation: nat)
      modifies this
      ensures Snapshot() == AfterSupersede(old(Snapshot()), key) && generation == generations[key]
    {
      Disarm(TimersOn(Snapshot(), key));
      timers := timers - {key};
      generation := (if key in generations then generations[key] else 0) + 1;
      generations := generations[key := generation];
      logs := logs[key := LogOf(Snapshot(), key) + [Superseded(generation)]];
    }

    /** notify, up to the point where it waits for its immediate send. */
    method Notify(key: Key, plan: Plan) returns (notice: Notice)
      requires Valid()
      modifies this
      ensures Valid()
      ensures Snapshot() == Begin(old(Snapshot()), key, plan) && notice in pending && Current(Snapshot(), notice)
    {
      NotifyKeeps(Snapshot(), key, plan);
      var generation := Supersede(key);
      notice := Notice(key, generation);
      logs := logs[key := LogOf(Snapshot(), key) + [Immediate(generation, plan)]];
      pending := pending[notice := plan];
    }

    /** The rest of notify, when its send has completed. */
    method SendCompleted(notice: Notice, enabled: bool)
      requires Valid() && notice in pending
      modifies this
      ensures Valid()
      ensures Snapshot() == Resume(old(Snapshot()), notice, enabled)
    {
      SendDoneKeeps(Snapshot(), notice, enabled);
      var plan := pending[notice];
      pending := pending - {notice};
      if !enabled || Generation(Snapshot(), notice.key) != notice.generation {
        return;
      }
      timers := timers[notice.key := notice];
      Arm(notice, plan.repeats);
    }

    /** The callback of a timer. */
    method OnTimer(timer: Timer)
      requires Valid() && timer in armed
      modifies this
      ensures Valid()
      ensures Snapshot() == Fired(old(Snapshot()), timer)
    {
      FireKeeps(Snapshot(), timer);
      armed := armed - {timer};
      var set' := SetOf(Snapshot(), timer.notice) - {timer};
      sets := sets[timer.notice := set'];
      var key := timer.notice.key;
      if Generation(Snapshot(), key) != timer.notice.generation {
        return;
      }
      logs := logs[key := LogOf(Snapshot(), key) + [Repeated(timer)]];
      if set' == {} {
        timers := timers - {key};
      }
    }

    method Cancel(key: Key)
      requires Valid()
      modifies this
      ensures Valid()
      ensures Snapshot() == AfterSupersede(old(Snapshot()), key)
    {
      SupersedeKeeps(Snapshot(), key);
      var _ := Supersede(key);
    }

    method Close()
      requires Valid()
      modifies this
      ensures Valid()
      ensures Snapshot() == Closed(old(Snapshot())) && armed == {}
    {
      CloseKeeps(Snapshot());
      SupersedeAll(timers.Keys);
    }

    method SupersedeAll(keys: set<Key>)
      requires keys <= timers.Keys
      modifies this
      ensures Snapshot() == ClosedOn(old(Snapshot()), keys)
    {
      var rest := keys;
      ghost var before := Snapshot();
      ghost var done: set<Key> := {};
      ClosedOnNone(before);
      while rest != {}
        invariant rest !! done && rest + done == keys
        invariant Snapshot() == ClosedOn(before, done)
        decreases |rest|
      {
        var key :| key in rest;
        ClosedOnMore(before, done, key);
        var _ := Supersede(key);
        rest, done := rest - {key}, done + {key};
      }
      assert done == keys;
    }
  }

  lemma TimersGrow(n: Notice, repeats: seq<Commands>, i: nat)
    requires i < |repeats|
    ensures TimersFor(n, repeats[..i + 1]) == TimersFor(n, repeats[..i]) + {Timer(n, i, repeats[i])}
  {
  }

  lemma ClosedOnNone(s: State)
    ensures ClosedOn(s, {}) == s
  {
  }

  lemma ClosedArmed(s: State, done: set<Key>, key: Key)
    ensures ClosedOn(s, done + {key}).armed == ClosedOn(s, done).armed - TimersOn(s, key)
  {
  }

  lemma UpdateLast<K, V>(m: map<K, V>, n: map<K, V>, key: K, value: V)
    ensures m + n[key := value] == (m + n)[key := value]
  {
  }

  lemma ClosedMaps(s: State, done: set<Key>, key: Key)
    requires key !in done
    ensures var s1, s2 := ClosedOn(s, done), ClosedOn(s, done + {key});
            && s2.generations == s1.generations[key := Generation(s, key) + 1]
            && s2.logs == s1.logs[key := LogOf(s, key) + [Superseded(Generation(s, key) + 1)]]
            && Generation(s1, key) == Generation(s, key) && LogOf(s1, key) == LogOf(s, key)
  {
    var generation := Generation(s, key) + 1;
    var log := LogOf(s, key) + [Superseded(generation)];
    assert Bumped(s, done + {key}) == Bumped(s, done)[key := generation];
    assert Noted(s, done + {key}) == Noted(s, done)[key := log];
    UpdateLast(s.generations, Bumped(s, done), key, generation);
    UpdateLast(s.logs, Noted(s, done), key, log);
  }

  lemma ClosedTimers(s: State, done: set<Key>, key: Key)
    requires key !in done && key in s.timers
    ensures TimersOn(ClosedOn(s, done), key) == TimersOn(s, key)
    ensures ClosedOn(s, done + {key}).timers == ClosedOn(s, done).timers - {key}
  {
    assert s.timers - (done + {key}) == s.timers - done - {key};
  }

  lemma ClosedOnMore(s: State, done: set<Key>, key: Key)
    requires key !in done && key in s.timers
    ensures ClosedOn(s, done + {key}) == AfterSupersede(ClosedOn(s, done), key)
  {
    ClosedMaps(s, done, key);
    ClosedArmed(s, done, key);
    ClosedTimers(s, done, key);
    SameState(ClosedOn(s, done), key, ClosedOn(s, done + {key}));
  }

  lemma SameState(s: State, key: Key, s': State)
    requires s' == s.(generations := s'.generations, timers := s'.timers, armed := s'.armed, logs := s'.logs)
    requires s'.generations == s.generations[key := Generation(s, key) + 1] && s'.timers == s.timers - {key}
    requires s'.armed == s.armed - TimersOn(s, key)
    requires s'.logs == s.logs[key := LogOf(s, key) + [Superseded(Generation(s, key) + 1)]]
    ensures s' == AfterSupersede(s, key)
  {
  }
}
