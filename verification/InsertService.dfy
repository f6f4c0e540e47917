/** One InsertServiceV2: requests append rows and a promise to the current buffers under a
    mutex; the Run loop swaps the buffers, sends one batch, and resolves the batch's promises.
    Every critical section and every step of the loop is one transition. */
module InsertService {
  import opened Sequences

  /** A row, known by a number. */
  type Row = nat

  /** A promise is a write-once cell; rows and size are those of the request it stands for. */
  datatype Promise = Promise(rows: seq<Row>, size: nat, result: Option<bool>)

  /** Where the Run loop is. A portion is what swapBuffers took; while releasing, `waiting`
      lists the promises that still have to be told the result of client.Do. */
  datatype Loop =
    | Idle
    | Flushing(cols: seq<Row>, res: seq<nat>)
    | Releasing(ok: bool, cols: seq<Row>, waiting: seq<nat>)
    | Exited

  /** running and stopped are the flag read by Request and the cancelled context; signalled is
      a done insertCtx; committed lists the batches for which client.Do returned nil. */
  datatype Service = Service(
    running: bool, stopped: bool, loop: Loop, signalled: bool, connected: bool,
    columns: seq<Row>, size: nat, results: seq<nat>,
    promises: seq<Promise>, committed: seq<seq<Row>>)

  function NewService(): Service {
    Service(true, false, Idle, false, false, [], 0, [], [], [])
  }

  datatype Op =
    | Signal             // PlanFlush, or the push interval has passed
    | ConnectFails
    | SwapEmpty          // swapBuffers found size 0
    | Swap
    | DoOk
    | DoFails
    | Release            // the next waiting promise is resolved
    | Stop
    | Drain              // Run sees the stopped context and gives up
    | Reject(rows: seq<Row>, size: nat)   // Request found the service not running
    | Refuse(rows: seq<Row>, size: nat)   // processRequest failed
    | AcceptNothing(size: nat)            // processRequest appended no row
    | Accept(rows: seq<Row>, size: nat)

  // ----- transitions

  function Resolve(ps: seq<Promise>, pid: nat, ok: bool): seq<Promise> {
    if pid < |ps| && ps[pid].result.None? then ps[pid := ps[pid].(result := Some(ok))] else ps
  }

  function ResolveAll(ps: seq<Promise>, pids: seq<nat>, ok: bool): seq<Promise> {
    if pids == [] then ps else Resolve(ResolveAll(ps, pids[..|pids| - 1], ok), pids[|pids| - 1], ok)
  }

  ghost predicate Enabled(s: Service, op: Op) {
    match op
    case Signal => true
    case ConnectFails => s.loop.Idle? && s.signalled && !s.connected
    case SwapEmpty => s.loop.Idle? && s.signalled && s.size == 0
    case Swap => s.loop.Idle? && s.signalled && s.size != 0
    case DoOk => s.loop.Flushing?
    case DoFails => s.loop.Flushing?
    case Release => s.loop.Releasing?
    case Stop => true
    case Drain => s.loop.Idle? && s.stopped
    case Reject(_, _) => !s.running
    case Refuse(_, _) => true
    case AcceptNothing(_) => true
    case Accept(rows, _) => rows != []
  }

  /** The promise of a request is the next one: number |s.promises|. */
  function Apply(s: Service, op: Op, maxQueueSize: int): Service {
    match op
    case Signal => s.(signalled := true)
    case ConnectFails => s
    case SwapEmpty => s.(signalled := false, connected := true)
    case Swap =>
      s.(signalled := false, connected := true, loop := Flushing(s.columns, s.results),
         columns := [], size := 0, results := [])
    case DoOk =>
      if s.loop.Flushing? then
        s.(committed := s.committed + [s.loop.cols], loop := Releasing(true, s.loop.cols, s.loop.res))
      else s
    case DoFails =>
      if s.loop.Flushing? then s.(loop := Releasing(false, s.loop.cols, s.loop.res), connected := false) else s
    case Release =>
      if !s.loop.Releasing? then s
      else if s.loop.waiting == [] then s.(loop := Idle)
      else s.(promises := Resolve(s.promises, s.loop.waiting[0], s.loop.ok),
              loop := s.loop.(waiting := s.loop.waiting[1..]))
    case Stop => s.(stopped := true)
    case Drain => s.(promises := ResolveAll(s.promises, s.results, false), running := false, loop := Exited)
    case Reject(rows, size) => s.(promises := s.promises + [Promise(rows, size, Some(false))])
    case Refuse(rows, size) => s.(promises := s.promises + [Promise(rows, size, Some(false))])
    case AcceptNothing(size) => s.(promises := s.promises + [Promise([], size, Some(true))])
    case Accept(rows, size) =>
      s.(columns := s.columns + rows, size := s.size + size, results := s.results + [|s.promises|],
         promises := s.promises + [Promise(rows, size, None)],
         signalled := s.signalled || (maxQueueSize > 0 && s.size + size > maxQueueSize))
  }

  // ----- the invariant

  /** The rows of a list of promises, in order. */
  function RowsOf(ps: seq<Promise>, pids: seq<nat>): seq<Row>
    requires InRange(ps, pids)
  {
    if pids == [] then [] else RowsOf(ps, pids[..|pids| - 1]) + ps[pids[|pids| - 1]].rows
  }

  function SizeOf(ps: seq<Promise>, pids: seq<nat>): nat
    requires InRange(ps, pids)
  {
    if pids == [] then 0 else SizeOf(ps, pids[..|pids| - 1]) + ps[pids[|pids| - 1]].size
  }

  predicate InRange(ps: seq<Promise>, pids: seq<nat>) {
    forall i :: 0 <= i < |pids| ==> pids[i] < |ps|
  }

  ghost predicate Open(ps: seq<Promise>, pids: seq<nat>) {
    forall i :: 0 <= i < |pids| ==> pids[i] < |ps| && ps[pids[i]].result.None?
  }

  /** The promises the loop has taken and not resolved yet. */
  function InFlight(s: Service): seq<nat> {
    match s.loop
    case Flushing(_, res) => res
    case Releasing(_, _, waiting) => waiting
    case _ => []
  }

  ghost predicate InBatch(batches: seq<seq<Row>>, row: Row) {
    exists k :: 0 <= k < |batches| && row in batches[k]
  }

  /** Every row is in a batch that client.Do accepted. */
  ghost predicate Stored(batches: seq<seq<Row>>, rows: seq<Row>) {
    forall i :: 0 <= i < |rows| ==> InBatch(batches, rows[i])
  }

  /** The buffers hold exactly the pending requests. */
  ghost predicate BuffersOk(s: Service, maxQueueSize: int) {
    && InRange(s.promises, s.results)
    && s.columns == RowsOf(s.promises, s.results) && s.size == SizeOf(s.promises, s.results)
    && (maxQueueSize > 0 && s.size > maxQueueSize ==> s.signalled)
  }

  /** The loop's portion holds the rows of the promises it has still to resolve. */
  ghost predicate LoopOk(s: Service) {
    && InRange(s.promises, InFlight(s))
    && (s.loop.Flushing? ==> s.loop.cols == RowsOf(s.promises, s.loop.res))
    && (s.loop.Releasing? && s.loop.ok ==>
          forall i :: 0 <= i < |s.loop.waiting| ==> Stored(s.committed, s.promises[s.loop.waiting[i]].rows))
  }

  /** Each promise is pending, in flight or resolved, and in one of these only; after the loop
      has exited, the promises it gave up on are still listed, all with an error. */
  ghost predicate PromisesOk(s: Service) {
    PlacesOk(s.promises, s.results, InFlight(s), s.loop.Exited?)
  }

  ghost predicate PlacesOk(ps: seq<Promise>, pending: seq<nat>, flight: seq<nat>, exited: bool) {
    && Distinct(pending + flight)
    && Open(ps, flight)
    && (!exited ==> Open(ps, pending))
    && (forall pid :: 0 <= pid < |ps| && ps[pid].result.None? ==> pid in pending || pid in flight)
    && (forall pid :: 0 <= pid < |ps| && ps[pid].result == Some(true) ==> pid !in pending)
  }

  /** A promise resolved without error stands for rows that were all stored. */
  ghost predicate AckOk(s: Service) {
    forall pid :: 0 <= pid < |s.promises| && s.promises[pid].result == Some(true) ==>
      Stored(s.committed, s.promises[pid].rows)
  }

  ghost predicate Inv(s: Service, maxQueueSize: int) {
    BuffersOk(s, maxQueueSize) && LoopOk(s) && PromisesOk(s) && AckOk(s)
  }

  // ----- what the steps keep

  /** ps' carries the requests of ps unchanged, and never changes a result once written. */
  ghost predicate Extends(ps: seq<Promise>, ps': seq<Promise>) {
    && |ps| <= |ps'|
    && forall i {:trigger ps[i]} {:trigger ps'[i]} :: 0 <= i < |ps| ==>
         && ps'[i].rows == ps[i].rows && ps'[i].size == ps[i].size
         && (ps[i].result.Some? ==> ps'[i].result == ps[i].result)
  }

  lemma {:induction false} RowsOfExtends(ps: seq<Promise>, ps': seq<Promise>, pids: seq<nat>)
    requires Extends(ps, ps') && InRange(ps, pids)
    ensures InRange(ps', pids) && RowsOf(ps', pids) == RowsOf(ps, pids) && SizeOf(ps', pids) == SizeOf(ps, pids)
  {
    if pids != [] {
      RowsOfExtends(ps, ps', pids[..|pids| - 1]);
    }
  }

  lemma {:induction false} RowsOfAppend(ps: seq<Promise>, pids: seq<nat>, pid: nat)
    requires InRange(ps, pids) && pid < |ps|
    ensures InRange(ps, pids + [pid])
    ensures RowsOf(ps, pids + [pid]) == RowsOf(ps, pids) + ps[pid].rows
    ensures SizeOf(ps, pids + [pid]) == SizeOf(ps, pids) + ps[pid].size
  {
    assert (pids + [pid])[..|pids|] == pids;
  }

  lemma {:induction false} RowsOfContains(ps: seq<Promise>, pids: seq<nat>, i: nat, row: Row)
    requires InRange(ps, pids) && i < |pids| && row in ps[pids[i]].rows
    ensures row in RowsOf(ps, pids)
  {
    if i < |pids| - 1 {
      RowsOfContains(ps, pids[..|pids| - 1], i, row);
    }
  }

  lemma {:induction false} StoredGrows(batches: seq<seq<Row>>, batch: seq<Row>, rows: seq<Row>)
    requires Stored(batches, rows)
    ensures Stored(batches + [batch], rows)
  {
    forall i | 0 <= i < |rows| ensures InBatch(batches + [batch], rows[i]) {
      assert InBatch(batches, rows[i]);
      var k :| 0 <= k < |batches| && rows[i] in batches[k];
      assert (batches + [batch])[k] == batches[k];
    }
  }

  lemma {:induction false} ResolveAllEffect(ps: seq<Promise>, pids: seq<nat>, ok: bool)
    ensures |ResolveAll(ps, pids, ok)| == |ps| && Extends(ps, ResolveAll(ps, pids, ok))
    ensures forall i :: 0 <= i < |ps| ==>
      ResolveAll(ps, pids, ok)[i].result ==
        if i in pids && ps[i].result.None? then Some(ok) else ps[i].result
  {
    if pids != [] {
      var n := |pids| - 1;
      ResolveAllEffect(ps, pids[..n], ok);
      assert pids == pids[..n] + [pids[n]];
    }
  }

  /** Promises are resolved at most once, and requests never change. */
  lemma {:induction false} ResolvedOnce(s: Service, op: Op, maxQueueSize: int)
    ensures Extends(s.promises, Apply(s, op, maxQueueSize).promises)
    ensures s.committed <= Apply(s, op, maxQueueSize).committed
  {
    if op.Drain? {
      ResolveAllEffect(s.promises, s.results, false);
    }
  }

  lemma {:induction false} KeepsBuffers(s: Service, op: Op, maxQueueSize: int)
    requires Inv(s, maxQueueSize) && Enabled(s, op)
    ensures BuffersOk(Apply(s, op, maxQueueSize), maxQueueSize)
  {
    if op.Accept? {
      AcceptKeepsBuffers(s, op, maxQueueSize);
    } else if !op.Swap? {
      ResolvedOnce(s, op, maxQueueSize);
      SameBuffers(s, Apply(s, op, maxQueueSize), maxQueueSize);
    }
  }

  lemma {:induction false} SameBuffers(s: Service, t: Service, maxQueueSize: int)
    requires BuffersOk(s, maxQueueSize) && Extends(s.promises, t.promises)
    requires t.columns == s.columns && t.size == s.size && t.results == s.results
    requires maxQueueSize > 0 && s.size > maxQueueSize ==> t.signalled
    ensures BuffersOk(t, maxQueueSize)
  {
    RowsOfExtends(s.promises, t.promises, s.results);
  }

  lemma {:induction false} AcceptKeepsBuffers(s: Service, op: Op, maxQueueSize: int)
    requires BuffersOk(s, maxQueueSize) && op.Accept?
    ensures BuffersOk(Apply(s, op, maxQueueSize), maxQueueSize)
  {
    PendingMore(s.promises, s.results, Promise(op.rows, op.size, None));
  }

  /** One more pending promise. */
  lemma {:induction false} PendingMore(ps: seq<Promise>, pids: seq<nat>, p: Promise)
    requires InRange(ps, pids)
    ensures InRange(ps + [p], pids + [|ps|])
    ensures RowsOf(ps + [p], pids + [|ps|]) == RowsOf(ps, pids) + p.rows
    ensures SizeOf(ps + [p], pids + [|ps|]) == SizeOf(ps, pids) + p.size
  {
    RowsOfExtends(ps, ps + [p], pids);
    RowsOfAppend(ps + [p], pids, |ps|);
  }

  lemma {:induction false} LoopExtends(s: Service, t: Service)
    requires LoopOk(s) && t.loop == s.loop && Extends(s.promises, t.promises) && t.committed == s.committed
    ensures LoopOk(t)
  {
    RowsOfExtends(s.promises, t.promises, InFlight(s));
  }

  lemma {:induction false} LoopReleases(s: Service, maxQueueSize: int)
    requires LoopOk(s) && s.loop.Releasing?
    ensures LoopOk(Apply(s, Release, maxQueueSize))
  {
    if s.loop.waiting != [] {
      var t := s.(promises := Resolve(s.promises, s.loop.waiting[0], s.loop.ok));
      LoopExtends(s, t);
      assert forall i :: 0 <= i < |s.loop.waiting| - 1 ==> s.loop.waiting[1..][i] == s.loop.waiting[i + 1];
    }
  }

  lemma {:induction false} KeepsLoop(s: Service, op: Op, maxQueueSize: int)
    requires Inv(s, maxQueueSize) && Enabled(s, op)
    ensures LoopOk(Apply(s, op, maxQueueSize))
  {
    var t := Apply(s, op, maxQueueSize);
    match op {
      case DoOk =>
        forall i | 0 <= i < |t.loop.waiting| ensures Stored(t.committed, t.promises[t.loop.waiting[i]].rows) {
          BatchHolds(s, i);
        }
      case DoFails =>
      case Swap =>
      case Drain =>
      case Release => LoopReleases(s, maxQueueSize);
      case _ =>
        ResolvedOnce(s, op, maxQueueSize);
        LoopExtends(s, t);
    }
  }

  /** The batch just accepted holds the rows of each promise of the portion. */
  lemma {:induction false} BatchHolds(s: Service, i: nat)
    requires s.loop.Flushing? && LoopOk(s) && i < |s.loop.res|
    ensures Stored(s.committed + [s.loop.cols], s.promises[s.loop.res[i]].rows)
  {
    var rows := s.promises[s.loop.res[i]].rows;
    var batches := s.committed + [s.loop.cols];
    forall j | 0 <= j < |rows| ensures InBatch(batches, rows[j]) {
      RowsOfContains(s.promises, s.loop.res, i, rows[j]);
      assert batches[|s.committed|] == s.loop.cols;
    }
  }

  lemma {:induction false} KeepsAck(s: Service, op: Op, maxQueueSize: int)
    requires Inv(s, maxQueueSize) && Enabled(s, op)
    ensures AckOk(Apply(s, op, maxQueueSize))
  {
    var t := Apply(s, op, maxQueueSize);
    ResolveAllEffect(s.promises, s.results, false);
    forall pid | 0 <= pid < |t.promises| && t.promises[pid].result == Some(true)
      ensures Stored(t.committed, t.promises[pid].rows)
    {
      if pid < |s.promises| && s.promises[pid].result == Some(true) {
        if op.DoOk? {
          StoredGrows(s.committed, s.loop.cols, s.promises[pid].rows);
        }
      } else if op.Release? {
        assert pid == s.loop.waiting[0] && s.loop.ok;
      }
    }
  }

  lemma {:induction false} SplitDistinct(a: seq<nat>, x: nat, b: seq<nat>)
    requires Distinct(a + ([x] + b))
    ensures Distinct(a + b) && x !in a && x !in b
  {
    var all, rest := a + ([x] + b), a + b;
    assert all[|a|] == x;
    forall i | 0 <= i < |a| ensures a[i] != x {
      assert all[i] != all[|a|];
    }
    forall i | 0 <= i < |b| ensures b[i] != x {
      assert all[|a| + 1 + i] == b[i];
    }
    forall i, j | 0 <= i < j < |rest| ensures rest[i] != rest[j] {
      var i', j' := if i < |a| then i else i + 1, if j < |a| then j else j + 1;
      assert rest[i] == all[i'] && rest[j] == all[j'];
    }
  }

  lemma {:induction false} PlacesResolved(ps: seq<Promise>, pending: seq<nat>, x: nat, flight: seq<nat>, ok: bool)
    requires PlacesOk(ps, pending, [x] + flight, false)
    ensures PlacesOk(Resolve(ps, x, ok), pending, flight, false)
  {
    SplitDistinct(pending, x, flight);
    assert ([x] + flight)[0] == x;
    assert forall i :: 0 <= i < |flight| ==> ([x] + flight)[i + 1] == flight[i];
  }

  lemma {:induction false} PlacesSwapped(ps: seq<Promise>, pending: seq<nat>)
    requires PlacesOk(ps, pending, [], false)
    ensures PlacesOk(ps, [], pending, false)
  {
    assert pending + [] == pending && [] + pending == pending;
  }

  lemma {:induction false} PlacesDrained(ps: seq<Promise>, pending: seq<nat>)
    requires PlacesOk(ps, pending, [], false)
    ensures PlacesOk(ResolveAll(ps, pending, false), pending, [], true)
  {
    ResolveAllEffect(ps, pending, false);
  }

  lemma {:induction false} PlacesClosed(ps: seq<Promise>, pending: seq<nat>, flight: seq<nat>, exited: bool, p: Promise)
    requires PlacesOk(ps, pending, flight, exited) && InRange(ps, pending) && p.result.Some?
    ensures PlacesOk(ps + [p], pending, flight, exited)
  {
  }

  lemma {:induction false} PlacesAccepted(ps: seq<Promise>, pending: seq<nat>, flight: seq<nat>, exited: bool, p: Promise)
    requires PlacesOk(ps, pending, flight, exited) && InRange(ps, pending) && p.result.None?
    ensures PlacesOk(ps + [p], pending + [|ps|], flight, exited)
  {
    var all, more := pending + flight, (pending + [|ps|]) + flight;
    forall i, j | 0 <= i < j < |more| ensures more[i] != more[j] {
      var i', j' := if i < |pending| then i else i - 1, if j < |pending| then j else j - 1;
      if i != |pending| && j != |pending| {
        assert more[i] == all[i'] && more[j] == all[j'];
      }
    }
  }

  lemma {:induction false} KeepsPromises(s: Service, op: Op, maxQueueSize: int)
    requires Inv(s, maxQueueSize) && Enabled(s, op)
    ensures PromisesOk(Apply(s, op, maxQueueSize))
  {
    match op {
      case Swap => PlacesSwapped(s.promises, s.results);
      case Release =>
        if s.loop.waiting != [] {
          assert s.loop.waiting == [s.loop.waiting[0]] + s.loop.waiting[1..];
          PlacesResolved(s.promises, s.results, s.loop.waiting[0], s.loop.waiting[1..], s.loop.ok);
        }
      case Drain => PlacesDrained(s.promises, s.results);
      case Reject(rows, size) =>
        PlacesClosed(s.promises, s.results, InFlight(s), s.loop.Exited?, Promise(rows, size, Some(false)));
      case Refuse(rows, size) =>
        PlacesClosed(s.promises, s.results, InFlight(s), s.loop.Exited?, Promise(rows, size, Some(false)));
      case AcceptNothing(size) =>
        PlacesClosed(s.promises, s.results, InFlight(s), s.loop.Exited?, Promise([], size, Some(true)));
      case Accept(rows, size) =>
        PlacesAccepted(s.promises, s.results, InFlight(s), s.loop.Exited?, Promise(rows, size, None));
      case _ =>
    }
  }

  /** The invariant holds after every step that can be taken. */
  lemma {:induction false} StepKeepsInv(s: Service, op: Op, maxQueueSize: int)
    requires Inv(s, maxQueueSize) && Enabled(s, op)
    ensures Inv(Apply(s, op, maxQueueSize), maxQueueSize)
  {
    KeepsBuffers(s, op, maxQueueSize);
    KeepsLoop(s, op, maxQueueSize);
    KeepsAck(s, op, maxQueueSize);
    KeepsPromises(s, op, maxQueueSize);
  }

  /** states[i + 1] follows from states[i] by ops[i], from a new service. */
  ghost predicate IsRun(states: seq<Service>, ops: seq<Op>, maxQueueSize: int) {
    && |states| == |ops| + 1 && states[0] == NewService()
    && forall i {:trigger ops[i]} :: 0 <= i < |ops| ==>
         Enabled(states[i], ops[i]) && states[i + 1] == Apply(states[i], ops[i], maxQueueSize)
  }

  /** Every reachable state: the columns are the pending requests in order, size is the sum of
      their sizes, an overfull buffer has signalled a flush, each promise is in one place, and
      a promise resolved without error stands for stored rows. */
  lemma {:induction false} ReachableInv(states: seq<Service>, ops: seq<Op>, maxQueueSize: int, i: nat)
    requires IsRun(states, ops, maxQueueSize) && i < |states|
    ensures Inv(states[i], maxQueueSize)
  {
    if i > 0 {
      ReachableInv(states, ops, maxQueueSize, i - 1);
      assert Enabled(states[i - 1], ops[i - 1]);
      StepKeepsInv(states[i - 1], ops[i - 1], maxQueueSize);
    }
  }

  /** Over every run a promise, once resolved, keeps its result. */
  lemma {:induction false} ResultIsFinal(states: seq<Service>, ops: seq<Op>, maxQueueSize: int, i: nat, j: nat, pid: nat)
    requires IsRun(states, ops, maxQueueSize) && i <= j < |states|
    requires pid < |states[i].promises| && states[i].promises[pid].result.Some?
    ensures pid < |states[j].promises| && states[j].promises[pid] == states[i].promises[pid]
  {
    if i < j {
      ResultIsFinal(states, ops, maxQueueSize, i, j - 1, pid);
      assert Enabled(states[j - 1], ops[j - 1]);
      ResolvedOnce(states[j - 1], ops[j - 1], maxQueueSize);
    }
  }

  lemma {:induction false} ExitIsFinal(s: Service, op: Op, maxQueueSize: int)
    requires Inv(s, maxQueueSize) && Enabled(s, op) && s.loop.Exited?
    ensures var t := Apply(s, op, maxQueueSize);
            t.loop.Exited? && s.promises <= t.promises && t.committed == s.committed
  {
  }

  /** A request that read `running` before the drain and took the lock after it gets a promise
      that is never resolved: once the loop has exited, nothing resolves what is pending. */
  lemma {:induction false} LateRequestStaysPending(states: seq<Service>, ops: seq<Op>, maxQueueSize: int, i: nat, j: nat, pid: nat)
    requires IsRun(states, ops, maxQueueSize) && i <= j < |states| && states[i].loop.Exited?
    requires pid < |states[i].promises| && states[i].promises[pid].result.None?
    ensures states[j].loop.Exited? && pid < |states[j].promises| && states[j].promises[pid].result.None?
    ensures pid in states[j].results
  {
    if i < j {
      LateRequestStaysPending(states, ops, maxQueueSize, i, j - 1, pid);
      assert Enabled(states[j - 1], ops[j - 1]);
      ReachableInv(states, ops, maxQueueSize, j - 1);
      ExitIsFinal(states[j - 1], ops[j - 1], maxQueueSize);
    }
    ReachableInv(states, ops, maxQueueSize, j);
  }

  lemma {:induction false} PromisesGrow(states: seq<Service>, ops: seq<Op>, maxQueueSize: int, i: nat, j: nat)
    requires IsRun(states, ops, maxQueueSize) && i <= j < |states|
    ensures |states[i].promises| <= |states[j].promises|
  {
    if i < j {
      PromisesGrow(states, ops, maxQueueSize, i, j - 1);
      assert Enabled(states[j - 1], ops[j - 1]);
      ResolvedOnce(states[j - 1], ops[j - 1], maxQueueSize);
    }
  }

  /** The drain leaves no promise without an answer. */
  lemma {:induction false} DrainAnswersAll(s: Service, maxQueueSize: int, pid: nat)
    requires Inv(s, maxQueueSize) && Enabled(s, Drain) && pid < |Apply(s, Drain, maxQueueSize).promises|
    ensures Apply(s, Drain, maxQueueSize).promises[pid].result.Some?
  {
    ResolveAllEffect(s.promises, s.results, false);
  }

  /** Promise pid is that of a request accepted by step i. */
  ghost predicate AcceptedAt(states: seq<Service>, ops: seq<Op>, i: nat, pid: nat)
    requires i < |ops| < |states|
  {
    ops[i].Accept? && |states[i].promises| == pid
  }

  /** It was accepted between the drain and step j. */
  ghost predicate AcceptedLate(states: seq<Service>, ops: seq<Op>, d: nat, j: nat, pid: nat)
    requires j <= |ops| < |states|
  {
    exists i: nat :: d < i < j && AcceptedAt(states, ops, i, pid)
  }

  lemma {:induction false} LateBefore(states: seq<Service>, ops: seq<Op>, maxQueueSize: int, d: nat, j: nat, pid: nat)
    requires IsRun(states, ops, maxQueueSize) && d < j < |ops| && pid < |states[j].promises|
    ensures AcceptedLate(states, ops, d, j + 1, pid) <==> AcceptedLate(states, ops, d, j, pid)
  {
  }

  lemma {:induction false} LateNow(states: seq<Service>, ops: seq<Op>, maxQueueSize: int, d: nat, j: nat, pid: nat)
    requires IsRun(states, ops, maxQueueSize) && d < j < |ops| && pid == |states[j].promises|
    ensures AcceptedLate(states, ops, d, j + 1, pid) <==> ops[j].Accept?
  {
    assert ops[j].Accept? ==> AcceptedAt(states, ops, j, pid);
    forall i: nat | d < i < j ensures !AcceptedAt(states, ops, i, pid) {
      assert Enabled(states[i], ops[i]);
      PromisesGrow(states, ops, maxQueueSize, i + 1, j);
    }
  }

  /** What a step after the exit makes of the promises. */
  lemma {:induction false} ExitedStep(s: Service, op: Op, maxQueueSize: int, pid: nat)
    requires Inv(s, maxQueueSize) && Enabled(s, op) && s.loop.Exited? && pid < |Apply(s, op, maxQueueSize).promises|
    ensures var t := Apply(s, op, maxQueueSize);
            && t.loop.Exited?
            && (pid < |s.promises| ==> t.promises[pid] == s.promises[pid])
            && (pid >= |s.promises| ==> pid == |s.promises| && (t.promises[pid].result.None? <==> op.Accept?))
  {
    ExitIsFinal(s, op, maxQueueSize);
  }

  /** Once the loop has exited, a request is without an answer exactly when it was accepted after
      the drain. */
  lemma {:induction false} UnansweredIffLate(states: seq<Service>, ops: seq<Op>, maxQueueSize: int, d: nat, j: nat, pid: nat)
    requires IsRun(states, ops, maxQueueSize) && d < j <= |ops| && ops[d].Drain? && pid < |states[j].promises|
    ensures states[j].promises[pid].result.None? <==> AcceptedLate(states, ops, d, j, pid)
  {
    var s, op := states[j - 1], ops[j - 1];
    assert Enabled(s, op) && states[j] == Apply(s, op, maxQueueSize);
    ReachableInv(states, ops, maxQueueSize, j - 1);
    if j == d + 1 {
      DrainAnswersAll(s, maxQueueSize, pid);
      assert !AcceptedLate(states, ops, d, j, pid);
    } else {
      AfterDrain(states, ops, maxQueueSize, d, j - 1);
      ExitedStep(s, op, maxQueueSize, pid);
      if pid < |s.promises| {
        UnansweredIffLate(states, ops, maxQueueSize, d, j - 1, pid);
        LateBefore(states, ops, maxQueueSize, d, j - 1, pid);
      } else {
        LateNow(states, ops, maxQueueSize, d, j - 1, pid);
      }
    }
  }

  lemma {:induction false} AfterDrain(states: seq<Service>, ops: seq<Op>, maxQueueSize: int, d: nat, j: nat)
    requires IsRun(states, ops, maxQueueSize) && d < j < |states| && ops[d].Drain?
    ensures states[j].loop.Exited?
  {
    assert Enabled(states[j - 1], ops[j - 1]);
    if d + 1 < j {
      AfterDrain(states, ops, maxQueueSize, d, j - 1);
      ReachableInv(states, ops, maxQueueSize, j - 1);
      ExitIsFinal(states[j - 1], ops[j - 1], maxQueueSize);
    }
  }

  /** Such a run: the service is stopped, its loop gives up, and then a request that had still
      seen it running takes the lock. */
  lemma {:induction false} LateRequestExample(maxQueueSize: int) returns (states: seq<Service>, ops: seq<Op>)
    ensures ops == [Stop, Drain, Accept([7], 1)] && IsRun(states, ops, maxQueueSize)
    ensures |states[3].promises| == 1 && states[3].promises[0].result.None?
  {
    ops := [Stop, Drain, Accept([7], 1)];
    var s0 := NewService();
    var s1 := Apply(s0, Stop, maxQueueSize);
    var s2 := Apply(s1, Drain, maxQueueSize);
    states := [s0, s1, s2, Apply(s2, ops[2], maxQueueSize)];
    forall i | 0 <= i < |ops|
      ensures Enabled(states[i], ops[i]) && states[i + 1] == Apply(states[i], ops[i], maxQueueSize)
    {
    }
  }
}
