/** The life of the ruler's goroutines: Start, the poller, the interval routines, and Stop. */
module RulerLifecycle {
  import opened Sequences
  import opened Ruler

  /** A routine once started: its own context cancelled, its goroutine still there, and inside
      an evaluation. */
  datatype Routine = Routine(interval: int, cancelled: bool, running: bool, busy: bool)

  /** The routines map (interval to routine number), every routine ever started by its number,
      and the wait group. */
  datatype Table = Table(routines: map<int, nat>, all: seq<Routine>, wg: int)

  /** The goroutine that calls Start and then Stop. */
  datatype Main =
    | Fresh
    | Seeding(s: set<int>)   // inside Start's updateRoutines
    | Seeded
    | Started
    | StartFailed
    | Cancelled              // Stop has cancelled the root context
    | Draining               // and every routine in the map; waiting for the wait group
    | Stopped

  datatype Poller = Off | Idle | Updating(s: set<int>) | Gone

  /** rootDone: the context of the manager is cancelled. */
  datatype State = State(table: Table, rootDone: bool, main: Main, poller: Poller, crashed: bool)

  const Init: State := State(Table(map[], [], 0), false, Fresh, Off, false)

  /** time.NewTicker panics on an interval that is not positive. */
  predicate AllPositive(s: set<int>) {
    forall d :: d in s ==> d > 0
  }

  // ----- updateRoutines, inside the lock

  predicate InMap(a: Table, id: nat)
    requires id < |a.all|
  {
    a.all[id].interval in a.routines && a.routines[a.all[id].interval] == id
  }

  /** Routine id of a, after the map was cleared of the intervals in gone. */
  function Cleared(a: Table, gone: set<int>, id: nat): Routine
    requires id < |a.all|
  {
    if InMap(a, id) && a.all[id].interval in gone then a.all[id].(cancelled := true) else a.all[id]
  }

  ghost predicate OldRoutines(a: Table, b: Table, gone: set<int>) {
    |a.all| <= |b.all| && forall id :: 0 <= id < |a.all| ==> b.all[id] == Cleared(a, gone, id)
  }

  ghost predicate NewRoutines(a: Table, b: Table)
    requires |a.all| <= |b.all|
  {
    forall id :: |a.all| <= id < |b.all| ==>
      var d := b.all[id].interval;
      b.all[id] == Routine(d, false, true, false) && d in b.routines && b.routines[d] == id && d !in a.routines
  }

  ghost predicate MapTo(a: Table, b: Table, keys: set<int>) {
    && b.routines.Keys == keys
    && (forall d :: d in keys && d in a.routines ==> b.routines[d] == a.routines[d])
    && (forall d :: d in keys && d !in a.routines ==>
          |a.all| <= b.routines[d] < |b.all| && b.all[b.routines[d]].interval == d)
  }

  /** From a to b the map lost the intervals in gone and then has the intervals keys. */
  ghost predicate Changed(a: Table, b: Table, gone: set<int>, keys: set<int>) {
    && OldRoutines(a, b, gone) && NewRoutines(a, b) && MapTo(a, b, keys)
    && b.wg == a.wg + |b.all| - |a.all|
  }

  /** The map is brought to the intervals s. */
  ghost predicate Updated(a: Table, b: Table, s: set<int>) {
    Changed(a, b, a.routines.Keys - s, s)
  }

  function ClearOne(t: Table, d: int): Table
    requires d in t.routines && t.routines[d] < |t.all|
  {
    var id := t.routines[d];
    Table(t.routines - {d}, t.all[id := t.all[id].(cancelled := true)], t.wg)
  }

  function StartOne(t: Table, d: int): Table {
    Table(t.routines[d := |t.all|], t.all + [Routine(d, false, true, false)], t.wg + 1)
  }

  /** The map holds routines under their own positive intervals. */
  ghost predicate MapOk(t: Table) {
    forall d :: d in t.routines ==> d > 0 && t.routines[d] < |t.all| && t.all[t.routines[d]].interval == d
  }

  lemma {:induction false} ClearStep(a: Table, b: Table, gone: set<int>, d: int)
    requires MapOk(a) && Changed(a, b, gone, a.routines.Keys - gone) && d in b.routines && |b.all| == |a.all|
    ensures b.routines[d] < |b.all|
    ensures Changed(a, ClearOne(b, d), gone + {d}, a.routines.Keys - (gone + {d}))
  {
    var c := ClearOne(b, d);
    forall id | 0 <= id < |a.all| ensures c.all[id] == Cleared(a, gone + {d}, id) {
      assert b.all[id] == Cleared(a, gone, id);
    }
  }

  lemma {:induction false} StartStep(a: Table, b: Table, gone: set<int>, keys: set<int>, d: int)
    requires Changed(a, b, gone, keys) && d !in keys && d !in a.routines
    ensures Changed(a, StartOne(b, d), gone, keys + {d})
  {
  }

  class RuleManager {
    var routines: map<int, nat>
    var all: seq<Routine>
    var wg: int
    var health: map<string, string>

    ghost function Value(): Table
      reads this
    {
      Table(routines, all, wg)
    }

    constructor ()
      ensures Value() == Init.table && health == map[]
    {
      routines, all, wg, health := map[], [], 0, map[];
    }

    method ClearRoutines(s: set<int>)
      requires MapOk(Value())
      modifies this`routines, this`all
      ensures var a := old(Value()); Changed(a, Value(), a.routines.Keys - s, a.routines.Keys * s)
      ensures |all| == |old(all)|
    {
      ghost var a := Value();
      var left := routines.Keys - s;
      ghost var gone: set<int> := {};
      assert a.routines.Keys - gone == a.routines.Keys;
      while left != {}
        invariant left + gone == a.routines.Keys - s && left !! gone && |all| == |a.all|
        invariant Changed(a, Value(), gone, a.routines.Keys - gone)
        decreases left
      {
        NotEmpty(left);
        var d :| d in left;
        ClearStep(a, Value(), gone, d);
        var id := routines[d];
        all := all[id := all[id].(cancelled := true)];
        routines := routines - {d};
        left, gone := left - {d}, gone + {d};
      }
      assert a.routines.Keys - gone == a.routines.Keys * s;
    }

    /** The locked part of updateRoutines. */
    method Reconcile(s: set<int>) returns (panicked: bool)
      requires MapOk(Value())
      modifies this`routines, this`all, this`wg
      ensures panicked <==> !AllPositive(s)
      ensures !panicked ==> Updated(old(Value()), Value(), s)
    {
      ghost var a := Value();
      ghost var gone := a.routines.Keys - s;
      ClearRoutines(s);
      var left, keys := s - routines.Keys, routines.Keys;
      while left != {}
        invariant keys !! left && keys + left == s && left !! a.routines.Keys
        invariant Changed(a, Value(), gone, keys)
        invariant forall d :: d in keys ==> d > 0
        decreases left
      {
        NotEmpty(left);
        var d :| d in left;
        if d <= 0 {
          return true;
        }
        StartStep(a, Value(), gone, keys, d);
        routines, all, wg := routines[d := |all|], all + [Routine(d, false, true, false)], wg + 1;
        left, keys := left - {d}, keys + {d};
      }
      assert keys == s;
      return false;
    }

    /** pruneHealth: the entries of recording rules stay as they are, the others go. */
    method PruneHealth(groups: Groups)
      modifies this`health
      ensures forall key :: key in health <==> key in old(health) && LiveKey(groups, key)
      ensures forall key :: key in health ==> health[key] == old(health)[key]
    {
      var keys := LiveKeys(groups);
      var left := health.Keys;
      while left != {}
        invariant left <= health.Keys
        invariant forall key :: key in health <==> key in old(health) && (key in left || key in keys)
        invariant forall key :: key in health ==> health[key] == old(health)[key]
        decreases left
      {
        var key :| key in left;
        left := left - {key};
        if key !in keys {
          health := health - {key};
        }
      }
    }

    /** updateRoutines: afterwards the map has exactly the valid intervals read. */
    method UpdateRoutines(parse: Parser, groups: Groups) returns (panicked: bool, ghost s: set<int>)
      requires MapOk(Value())
      modifies this
      ensures AreIntervals(parse, groups, s) && (panicked <==> !AllPositive(s))
      ensures !panicked ==> Updated(old(Value()), Value(), s)
      ensures !panicked ==> forall key :: key in health <==> key in old(health) && LiveKey(groups, key)
    {
      var intervals := ReadIntervals(parse, groups);
      s := intervals;
      panicked := Reconcile(intervals);
      if !panicked {
        PruneHealth(groups);
      }
    }

    /** The locked part of Stop: every routine in the map is cancelled; the map is left as it is. */
    method CancelAll()
      requires MapOk(Value())
      modifies this`all
      ensures Value() == AllCleared(old(Value()))
    {
      ghost var a := Value();
      var left := routines.Keys;
      while left != {}
        invariant left <= routines.Keys && |all| == |a.all|
        invariant forall id :: 0 <= id < |a.all| ==> all[id] == Cleared(a, a.routines.Keys - left, id)
        decreases left
      {
        NotEmpty(left);
        var d :| d in left;
        var id := routines[d];
        all := all[id := all[id].(cancelled := true)];
        left := left - {d};
      }
    }
  }

  function AllCleared(a: Table): (b: Table)
    ensures |b.all| == |a.all|
    ensures forall id :: 0 <= id < |a.all| ==> b.all[id] == Cleared(a, a.routines.Keys, id)
  {
    a.(all := seq(|a.all|, id requires 0 <= id < |a.all| => Cleared(a, a.routines.Keys, id)))
  }

  // ----- all goroutines together

  datatype Event =
    | StartReads(s: set<int>)
    | StartReadFails
    | Seed
    | PollerStarts
    | PollReads(s: set<int>)
    | PollReadFails
    | PollUpdates
    | Panics
    | PollerExits
    | Ticks(id: nat)
    | Evaluated(id: nat)
    | Exits(id: nat)
    | ParentCancels
    | StopCancels
    | StopLocks
    | StopReturns

  function WithRoutine(t: Table, id: nat, r: Routine, wg: int): Table
    requires id < |t.all|
  {
    Table(t.routines, t.all[id := r], wg)
  }

  /** One step from a to b. Select may take a tick even when the context is done. */
  ghost predicate Step(a: State, e: Event, b: State) {
    var t := a.table;
    && !a.crashed
    && match e
       case StartReads(s) => a.main.Fresh? && b == a.(main := Seeding(s))
       case StartReadFails => a.main.Fresh? && b == a.(main := StartFailed)
       case Seed =>
         && a.main.Seeding? && AllPositive(a.main.s) && Updated(t, b.table, a.main.s)
         && b == a.(table := b.table, main := Seeded)
       case PollerStarts =>
         a.main.Seeded? && b == a.(main := Started, poller := Idle, table := t.(wg := t.wg + 1))
       case PollReads(s) => a.poller.Idle? && b == a.(poller := Updating(s))
       case PollReadFails => a.poller.Idle? && b == a
       case PollUpdates =>
         && a.poller.Updating? && AllPositive(a.poller.s) && Updated(t, b.table, a.poller.s)
         && b == a.(table := b.table, poller := Idle)
       case Panics =>
         && ((a.main.Seeding? && !AllPositive(a.main.s)) || (a.poller.Updating? && !AllPositive(a.poller.s)))
         && b == a.(crashed := true)
       case PollerExits =>
         a.poller.Idle? && a.rootDone && b == a.(poller := Gone, table := t.(wg := t.wg - 1))
       case Ticks(id) =>
         && id < |t.all| && t.all[id].running && !t.all[id].busy
         && b == a.(table := WithRoutine(t, id, t.all[id].(busy := true), t.wg))
       case Evaluated(id) =>
         && id < |t.all| && t.all[id].busy
         && b == a.(table := WithRoutine(t, id, t.all[id].(busy := false), t.wg))
       case Exits(id) =>
         && id < |t.all| && t.all[id].running && !t.all[id].busy && (t.all[id].cancelled || a.rootDone)
         && b == a.(table := WithRoutine(t, id, t.all[id].(running := false), t.wg - 1))
       case ParentCancels => !a.main.Fresh? && b == a.(rootDone := true)
       case StopCancels => (a.main.Started? || a.main.StartFailed?) && b == a.(main := Cancelled, rootDone := true)
       case StopLocks => a.main.Cancelled? && b == a.(main := Draining, table := AllCleared(t))
       case StopReturns => a.main.Draining? && t.wg == 0 && b == a.(main := Stopped)
  }

  function Running(all: seq<Routine>): nat {
    if all == [] then 0
    else Running(all[..|all| - 1]) + if all[|all| - 1].running then 1 else 0
  }

  /** Every routine not cancelled is the one in the map for its interval. */
  ghost predicate LiveInMap(t: Table) {
    forall id :: 0 <= id < |t.all| && !t.all[id].cancelled ==> InMap(t, id)
  }

  /** Nothing in the map is cancelled. */
  ghost predicate MapIsLive(t: Table) {
    forall d :: d in t.routines && t.routines[d] < |t.all| ==> !t.all[t.routines[d]].cancelled
  }

  ghost predicate LiveRun(t: Table) {
    forall id :: 0 <= id < |t.all| && !t.all[id].cancelled ==> t.all[id].running
  }

  ghost predicate BusyRun(t: Table) {
    forall id :: 0 <= id < |t.all| && t.all[id].busy ==> t.all[id].running
  }

  predicate Polling(s: State) {
    s.poller.Idle? || s.poller.Updating?
  }

  predicate Stopping(s: State) {
    s.main.Cancelled? || s.main.Draining? || s.main.Stopped?
  }

  ghost predicate Phases(s: State) {
    && (s.main.Fresh? || s.main.Seeding? || s.main.Seeded? || s.main.StartFailed? ==> s.poller.Off?)
    && (s.main.Fresh? ==> !s.rootDone) && (Stopping(s) ==> s.rootDone)
    && (s.main.Stopped? ==> s.table.wg == 0)
  }

  ghost predicate Inv(s: State) {
    && MapOk(s.table) && LiveInMap(s.table) && BusyRun(s.table) && Phases(s)
    && (!s.main.Draining? && !s.main.Stopped? ==> MapIsLive(s.table))
    && (!s.rootDone ==> LiveRun(s.table))
    && s.table.wg == Running(s.table.all) + if Polling(s) then 1 else 0
  }

  // ----- what a step keeps

  lemma {:induction false} RunningSame(a: seq<Routine>, b: seq<Routine>)
    requires |a| == |b| && forall id :: 0 <= id < |a| ==> a[id].running == b[id].running
    ensures Running(a) == Running(b)
  {
    if a != [] {
      RunningSame(a[..|a| - 1], b[..|b| - 1]);
    }
  }

  lemma {:induction false} RunningMore(a: seq<Routine>, n: nat)
    requires n <= |a| && forall id :: n <= id < |a| ==> a[id].running
    ensures Running(a) == Running(a[..n]) + |a| - n
  {
    if n < |a| {
      RunningMore(a[..|a| - 1], n);
      assert a[..|a| - 1][..n] == a[..n];
    } else {
      assert a[..n] == a;
    }
  }

  lemma {:induction false} RunningUpdate(a: seq<Routine>, id: nat, r: Routine)
    requires id < |a|
    ensures Running(a[id := r]) ==
            Running(a) - (if a[id].running then 1 else 0) + (if r.running then 1 else 0)
  {
    if id == |a| - 1 {
      assert a[id := r][..id] == a[..id];
    } else {
      assert a[id := r][..|a| - 1] == a[..|a| - 1][id := r];
      RunningUpdate(a[..|a| - 1], id, r);
    }
  }

  lemma {:induction false} NoneRunning(a: seq<Routine>, id: nat)
    requires Running(a) == 0 && id < |a|
    ensures !a[id].running
  {
    if id < |a| - 1 {
      NoneRunning(a[..|a| - 1], id);
    }
  }

  lemma {:induction false} UpdateCounts(a: Table, b: Table, s: set<int>)
    requires Updated(a, b, s)
    ensures b.wg - a.wg == Running(b.all) - Running(a.all)
  {
    var n := |a.all|;
    forall id | 0 <= id < n ensures a.all[id].running == b.all[..n][id].running {
      assert b.all[id] == Cleared(a, a.routines.Keys - s, id);
    }
    RunningSame(a.all, b.all[..n]);
    RunningMore(b.all, n);
  }

  lemma {:induction false} UpdateKeepsMap(a: Table, b: Table, s: set<int>)
    requires Updated(a, b, s) && MapOk(a) && LiveInMap(a) && AllPositive(s)
    ensures MapOk(b) && LiveInMap(b)
    ensures MapIsLive(a) ==> MapIsLive(b)
  {
    var gone := a.routines.Keys - s;
    forall d | d in b.routines
      ensures b.routines[d] < |b.all| && b.all[b.routines[d]].interval == d
      ensures MapIsLive(a) ==> !b.all[b.routines[d]].cancelled
    {
      if d in a.routines {
        assert b.all[a.routines[d]] == Cleared(a, gone, a.routines[d]);
      }
    }
    forall id | 0 <= id < |b.all| && !b.all[id].cancelled ensures InMap(b, id) {
      if id < |a.all| {
        assert b.all[id] == Cleared(a, gone, id);
        assert InMap(a, id);
      }
    }
  }

  lemma {:induction false} UpdateKeepsRuns(a: Table, b: Table, s: set<int>)
    requires Updated(a, b, s)
    ensures LiveRun(a) ==> LiveRun(b)
    ensures BusyRun(a) ==> BusyRun(b)
  {
    var gone := a.routines.Keys - s;
    forall id | 0 <= id < |b.all|
      ensures LiveRun(a) && !b.all[id].cancelled ==> b.all[id].running
      ensures BusyRun(a) && b.all[id].busy ==> b.all[id].running
    {
      if id < |a.all| {
        assert b.all[id] == Cleared(a, gone, id);
      }
    }
  }

  lemma {:induction false} UpdateKeepsInv(a: State, b: State, s: set<int>)
    requires Inv(a) && Updated(a.table, b.table, s) && AllPositive(s)
    requires (a.main.Seeding? && b == a.(table := b.table, main := Seeded)) ||
             (a.poller.Updating? && b == a.(table := b.table, poller := Idle))
    ensures Inv(b)
  {
    UpdateCounts(a.table, b.table, s);
    UpdateKeepsMap(a.table, b.table, s);
    UpdateKeepsRuns(a.table, b.table, s);
  }

  /** A step of one routine keeps its interval and its cancellation. */
  lemma {:induction false} RoutineKeepsInv(a: State, b: State, id: nat, r: Routine)
    requires Inv(a) && id < |a.table.all|
    requires r.interval == a.table.all[id].interval && r.cancelled == a.table.all[id].cancelled
    requires r.busy ==> r.running
    requires !a.rootDone && !r.cancelled ==> r.running
    requires var wg := a.table.wg - (if a.table.all[id].running then 1 else 0) + (if r.running then 1 else 0);
             b == a.(table := WithRoutine(a.table, id, r, wg))
    requires a.main.Stopped? ==> b.table.wg == a.table.wg
    ensures Inv(b)
  {
    RunningUpdate(a.table.all, id, r);
    forall k | 0 <= k < |b.table.all| && !b.table.all[k].cancelled ensures InMap(b.table, k) {
      assert InMap(a.table, k);
    }
  }

  lemma {:induction false} LockKeepsInv(a: State, b: State)
    requires Inv(a) && a.main.Cancelled? && b == a.(main := Draining, table := AllCleared(a.table))
    ensures Inv(b)
    ensures forall id :: 0 <= id < |b.table.all| ==> b.table.all[id].cancelled
  {
    var t, u := a.table, b.table;
    RunningSame(t.all, u.all);
    forall id | 0 <= id < |u.all| ensures u.all[id].cancelled {
      assert u.all[id] == Cleared(t, t.routines.Keys, id);
      if !t.all[id].cancelled {
        assert InMap(t, id);
      }
    }
    forall d | d in u.routines ensures u.all[u.routines[d]].interval == d {
      assert u.all[u.routines[d]] == Cleared(t, t.routines.Keys, u.routines[d]);
    }
  }

  lemma {:induction false} StepKeepsInv(a: State, e: Event, b: State)
    requires Inv(a) && Step(a, e, b)
    ensures Inv(b)
  {
    var t := a.table;
    match e
    case Seed => UpdateKeepsInv(a, b, a.main.s);
    case PollUpdates => UpdateKeepsInv(a, b, a.poller.s);
    case Ticks(id) => RoutineKeepsInv(a, b, id, t.all[id].(busy := true));
    case Evaluated(id) => RoutineKeepsInv(a, b, id, t.all[id].(busy := false));
    case Exits(id) =>
      if a.main.Stopped? {
        NoneRunning(t.all, id);
      }
      RoutineKeepsInv(a, b, id, t.all[id].(running := false));
    case StopLocks => LockKeepsInv(a, b);
    case _ =>
  }

  // ----- whole runs

  datatype Move = Move(e: Event, after: State)

  ghost predicate Moves(run: seq<Move>, k: nat)
    requires k < |run|
  {
    Step(StateAt(run, k), run[k].e, run[k].after)
  }

  /** A run from the start: each step leads from the state before it. */
  ghost predicate IsRun(run: seq<Move>) {
    forall k :: 0 <= k < |run| ==> Moves(run, k)
  }

  function StateAt(run: seq<Move>, k: nat): State
    requires k <= |run|
  {
    if k == 0 then Init else run[k - 1].after
  }

  lemma {:induction false} RunKeepsInv(run: seq<Move>, k: nat)
    requires IsRun(run) && k <= |run|
    ensures Inv(StateAt(run, k))
  {
    if k > 0 {
      RunKeepsInv(run, k - 1);
      assert Moves(run, k - 1);
      StepKeepsInv(StateAt(run, k - 1), run[k - 1].e, StateAt(run, k));
    }
  }

  /** Running and not told to stop. */
  predicate Live(s: State, id: nat) {
    id < |s.table.all| && s.table.all[id].running && !s.table.all[id].cancelled && !s.rootDone
  }

  /** Interval d has a live routine exactly if it is in the map, and then it is one. */
  ghost predicate OneLive(s: State, d: int) {
    && (d in s.table.routines <==> exists id: nat :: Live(s, id) && s.table.all[id].interval == d)
    && forall i: nat, j: nat :: Live(s, i) && Live(s, j) && s.table.all[i].interval == d == s.table.all[j].interval ==> i == j
  }

  lemma {:induction false} InvOneLive(s: State, d: int)
    requires Inv(s) && !s.rootDone
    ensures OneLive(s, d)
  {
    if d in s.table.routines {
      assert !s.table.all[s.table.routines[d]].cancelled;
      assert Live(s, s.table.routines[d]);
    }
    forall id: nat | Live(s, id) ensures InMap(s.table, id) {
    }
  }

  lemma {:induction false} LiveRoutines(run: seq<Move>, k: nat, d: int)
    requires IsRun(run) && k <= |run| && !StateAt(run, k).rootDone
    ensures OneLive(StateAt(run, k), d)
  {
    RunKeepsInv(run, k);
    InvOneLive(StateAt(run, k), d);
  }

  /** No routine and no poller, now and after. */
  ghost predicate Quiet(s: State) {
    !Polling(s) && forall id :: 0 <= id < |s.table.all| ==> !s.table.all[id].running
  }

  /** Stop returns only once everything has ended, also when the poller was in the middle of
      starting routines, and nothing starts later. */
  lemma {:induction false} NothingRunsAfterStop(run: seq<Move>, k: nat, m: nat)
    requires IsRun(run) && k <= m <= |run| && StateAt(run, k).main.Stopped?
    ensures Quiet(StateAt(run, m)) && StateAt(run, m).main.Stopped?
    ensures StateAt(run, m).table == StateAt(run, k).table
  {
    if k < m {
      RunKeepsInv(run, m - 1);
      NothingRunsAfterStop(run, k, m - 1);
      assert Moves(run, m - 1);
      StoppedStays(StateAt(run, m - 1), run[m - 1].e, run[m - 1].after);
    } else {
      RunKeepsInv(run, m);
      var s := StateAt(run, m);
      forall id | 0 <= id < |s.table.all| ensures !s.table.all[id].running {
        NoneRunning(s.table.all, id);
      }
    }
  }

  lemma {:induction false} StoppedStays(a: State, e: Event, b: State)
    requires Inv(a) && Quiet(a) && a.main.Stopped? && Step(a, e, b)
    ensures Quiet(b) && b.main.Stopped? && b.table == a.table
  {
  }

  /** While Stop waits it is never stuck: some goroutine is busy, or can end now, or all have. */
  lemma {:induction false} StopCanAdvance(run: seq<Move>, k: nat) returns (e: Event, b: State)
    requires IsRun(run) && k <= |run| && StateAt(run, k).main.Draining? && !StateAt(run, k).crashed
    requires !StateAt(run, k).poller.Updating?
    requires forall id :: 0 <= id < |StateAt(run, k).table.all| ==> !StateAt(run, k).table.all[id].busy
    ensures Step(StateAt(run, k), e, b) && (e.PollerExits? || e.Exits? || e.StopReturns?)
  {
    RunKeepsInv(run, k);
    var a := StateAt(run, k);
    if a.poller.Idle? {
      e, b := PollerExits, a.(poller := Gone, table := a.table.(wg := a.table.wg - 1));
    } else if a.table.wg == 0 {
      e, b := StopReturns, a.(main := Stopped);
    } else {
      var id := SomeRunning(a.table.all);
      e := Exits(id);
      b := a.(table := WithRoutine(a.table, id, a.table.all[id].(running := false), a.table.wg - 1));
    }
  }

  lemma {:induction false} SomeRunning(a: seq<Routine>) returns (id: nat)
    requires Running(a) > 0
    ensures id < |a| && a[id].running
  {
    if a[|a| - 1].running {
      id := |a| - 1;
    } else {
      id := SomeRunning(a[..|a| - 1]);
    }
  }

  // ----- rules and routines

  /** The live routine id evaluates the rule at p. */
  predicate Serves(s: State, parse: Parser, groups: Groups, id: nat, p: Place) {
    Live(s, id) && Due(parse, groups, s.table.all[id].interval, p)
  }

  /** A recording rule with a valid interval is served by one live routine, any other by none. */
  ghost predicate ServedOnce(s: State, parse: Parser, groups: Groups, p: Place)
    requires IsPlace(groups, p)
  {
    var g := GroupAt(groups, p);
    && (EvalInterval(parse, g).Some? && IsRecording(g.rules[p.rule]) <==> exists id: nat :: Serves(s, parse, groups, id, p))
    && (forall i: nat, j: nat :: Serves(s, parse, groups, i, p) && Serves(s, parse, groups, j, p) ==> i == j)
  }

  lemma {:induction false} InvServedOnce(s: State, parse: Parser, groups: Groups, p: Place)
    requires IsPlace(groups, p) && EvalInterval(parse, GroupAt(groups, p)).Some?
    requires OneLive(s, EvalInterval(parse, GroupAt(groups, p)).value)
    requires AreIntervals(parse, groups, s.table.routines.Keys)
    ensures ServedOnce(s, parse, groups, p)
  {
    var d := EvalInterval(parse, GroupAt(groups, p)).value;
    assert Includes(parse, groups[p.ns], |groups[p.ns]|, s.table.routines.Keys);
    assert d in s.table.routines;
    var id: nat :| Live(s, id) && s.table.all[id].interval == d;
    assert Serves(s, parse, groups, id, p) <==> IsRecording(GroupAt(groups, p).rules[p.rule]);
  }

  /** While the map has the intervals of a rule set, each of its rules is served once or, if it is
      not a recording rule or its interval is malformed, never. */
  lemma {:induction false} OneRoutinePerRule(run: seq<Move>, k: nat, parse: Parser, groups: Groups, p: Place)
    requires IsRun(run) && k <= |run| && !StateAt(run, k).rootDone && IsPlace(groups, p)
    requires AreIntervals(parse, groups, StateAt(run, k).table.routines.Keys)
    ensures ServedOnce(StateAt(run, k), parse, groups, p)
  {
    if EvalInterval(parse, GroupAt(groups, p)).Some? {
      LiveRoutines(run, k, EvalInterval(parse, GroupAt(groups, p)).value);
      InvServedOnce(StateAt(run, k), parse, groups, p);
    }
  }
}
