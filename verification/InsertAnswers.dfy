/** Which answer each request gets, over every run of an insert service: true for one without rows
    and for one whose batch client.Do took, false for one refused, given up on or in a batch that
    failed, and none as long as it waits. */
module InsertAnswers {
  import opened Sequences
  import opened InsertService

  // ----- the events of a run

  /** Step i answers promise pid at once. */
  ghost predicate NoRowsAt(states: seq<Service>, ops: seq<Op>, i: nat, pid: nat)
    requires i < |ops| < |states|
  {
    ops[i].AcceptNothing? && pid == |states[i].promises|
  }

  ghost predicate RefusedAt(states: seq<Service>, ops: seq<Op>, i: nat, pid: nat)
    requires i < |ops| < |states|
  {
    || ((ops[i].Reject? || ops[i].Refuse?) && pid == |states[i].promises|)
    || (ops[i].Drain? && pid in states[i].results)
  }

  /** Step i is the answer of client.Do for the portion pid is in. */
  ghost predicate SentAt(states: seq<Service>, ops: seq<Op>, i: nat, pid: nat)
    requires i < |ops| < |states|
  {
    ops[i].DoOk? && states[i].loop.Flushing? && pid in states[i].loop.res
  }

  ghost predicate FailedAt(states: seq<Service>, ops: seq<Op>, i: nat, pid: nat)
    requires i < |ops| < |states|
  {
    ops[i].DoFails? && states[i].loop.Flushing? && pid in states[i].loop.res
  }

  // ----- the same, collected along the run

  datatype Trace = Trace(yes: set<nat>, no: set<nat>, sent: set<nat>, failed: set<nat>)

  function SetOf(pids: seq<nat>): set<nat> {
    set i | 0 <= i < |pids| :: pids[i]
  }

  function Portion(s: Service): set<nat> {
    if s.loop.Flushing? then SetOf(s.loop.res) else {}
  }

  function Noted(t: Trace, s: Service, op: Op): Trace {
    match op
    case AcceptNothing(_) => t.(yes := t.yes + {|s.promises|})
    case Reject(_, _) => t.(no := t.no + {|s.promises|})
    case Refuse(_, _) => t.(no := t.no + {|s.promises|})
    case Drain => t.(no := t.no + SetOf(s.results))
    case DoOk => t.(sent := t.sent + Portion(s))
    case DoFails => t.(failed := t.failed + Portion(s))
    case _ => t
  }

  function TraceOf(states: seq<Service>, ops: seq<Op>, j: nat): Trace
    requires j <= |ops| < |states|
  {
    if j == 0 then Trace({}, {}, {}, {}) else Noted(TraceOf(states, ops, j - 1), states[j - 1], ops[j - 1])
  }

  lemma {:induction false} TraceHolds(states: seq<Service>, ops: seq<Op>, j: nat, pid: nat)
    requires j <= |ops| < |states|
    ensures pid in TraceOf(states, ops, j).yes <==> exists i: nat :: i < j && NoRowsAt(states, ops, i, pid)
    ensures pid in TraceOf(states, ops, j).no <==> exists i: nat :: i < j && RefusedAt(states, ops, i, pid)
    ensures pid in TraceOf(states, ops, j).sent <==> exists i: nat :: i < j && SentAt(states, ops, i, pid)
    ensures pid in TraceOf(states, ops, j).failed <==> exists i: nat :: i < j && FailedAt(states, ops, i, pid)
  {
    if j > 0 {
      TraceHolds(states, ops, j - 1, pid);
      TraceStep(states, ops, j - 1, pid);
    }
  }

  lemma {:induction false} TraceStep(states: seq<Service>, ops: seq<Op>, i: nat, pid: nat)
    requires i < |ops| < |states|
    ensures var t, t' := TraceOf(states, ops, i), TraceOf(states, ops, i + 1);
            && (pid in t'.yes <==> pid in t.yes || NoRowsAt(states, ops, i, pid))
            && (pid in t'.no <==> pid in t.no || RefusedAt(states, ops, i, pid))
            && (pid in t'.sent <==> pid in t.sent || SentAt(states, ops, i, pid))
            && (pid in t'.failed <==> pid in t.failed || FailedAt(states, ops, i, pid))
  {
  }

  // ----- what the steps keep

  function Answer(t: Trace, flight: seq<nat>, pid: nat): Option<bool> {
    if pid in t.yes then Some(true)
    else if pid in t.no then Some(false)
    else if pid in flight then None
    else if pid in t.sent then Some(true)
    else if pid in t.failed then Some(false)
    else None
  }

  ghost predicate Known(t: Trace, n: nat) {
    && (forall pid :: pid in t.yes ==> pid < n) && (forall pid :: pid in t.no ==> pid < n)
    && (forall pid :: pid in t.sent ==> pid < n) && (forall pid :: pid in t.failed ==> pid < n)
    && t.yes !! t.no && t.sent !! t.failed && (t.yes + t.no) !! (t.sent + t.failed)
  }

  /** The portion before client.Do is in no list, and afterwards in the one of its outcome. */
  ghost predicate FlightNoted(t: Trace, loop: Loop) {
    && (loop.Flushing? ==> SetOf(loop.res) !! t.yes + t.no + t.sent + t.failed)
    && (loop.Releasing? ==> SetOf(loop.waiting) <= if loop.ok then t.sent else t.failed)
  }

  ghost predicate AllAnswered(ps: seq<Promise>, t: Trace, flight: seq<nat>) {
    forall pid :: 0 <= pid < |ps| ==> ps[pid].result == Answer(t, flight, pid)
  }

  ghost predicate Answered(s: Service, t: Trace) {
    && Known(t, |s.promises|) && FlightNoted(t, s.loop)
    && AllAnswered(s.promises, t, InFlight(s))
  }

  lemma {:induction false} SetOfHas(pids: seq<nat>, x: nat)
    ensures x in SetOf(pids) <==> x in pids
  {
  }

  lemma {:induction false} DistinctApart(a: seq<nat>, b: seq<nat>)
    requires Distinct(a + b)
    ensures forall x :: x in a ==> x !in b
  {
    forall i, k | 0 <= i < |a| && 0 <= k < |b| ensures a[i] != b[k] {
      assert (a + b)[i] != (a + b)[|a| + k];
    }
  }

  /** What is pending is in no list. */
  lemma {:induction false} PendingUnnoted(s: Service, t: Trace, maxQueueSize: int, x: nat)
    requires Inv(s, maxQueueSize) && Answered(s, t) && !s.loop.Exited? && x in s.results
    ensures x < |s.promises| && x !in t.yes + t.no + t.sent + t.failed && x !in InFlight(s)
  {
    var i :| 0 <= i < |s.results| && s.results[i] == x;
    assert s.promises[x].result.None?;
    DistinctApart(s.results, InFlight(s));
  }

  lemma {:induction false} SwapAnswered(s: Service, t: Trace, maxQueueSize: int)
    requires Inv(s, maxQueueSize) && Enabled(s, Swap) && Answered(s, t)
    ensures Answered(Apply(s, Swap, maxQueueSize), t)
  {
    forall x | x in s.results ensures x !in t.yes + t.no + t.sent + t.failed {
      PendingUnnoted(s, t, maxQueueSize, x);
    }
  }

  lemma {:induction false} DoneAnswered(s: Service, t: Trace, ok: bool, maxQueueSize: int)
    requires Inv(s, maxQueueSize) && s.loop.Flushing? && Answered(s, t)
    ensures var op := if ok then DoOk else DoFails; Answered(Apply(s, op, maxQueueSize), Noted(t, s, op))
  {
  }

  /** The first of the waiting promises is told the outcome of its batch. */
  lemma {:induction false} FirstAnswered(ps: seq<Promise>, t: Trace, w: seq<nat>, ok: bool)
    requires Known(t, |ps|) && w != [] && SetOf(w) <= (if ok then t.sent else t.failed) && w[0] !in w[1..]
    requires Open(ps, w) && AllAnswered(ps, t, w)
    ensures AllAnswered(Resolve(ps, w[0], ok), t, w[1..]) && SetOf(w[1..]) <= SetOf(w)
  {
    SetOfHas(w, w[0]);
    assert ps[w[0]].result.None?;
    forall pid | 0 <= pid < |ps| ensures Resolve(ps, w[0], ok)[pid].result == Answer(t, w[1..], pid) {
      assert pid in w <==> pid == w[0] || pid in w[1..];
    }
  }

  lemma {:induction false} FirstApart(pending: seq<nat>, w: seq<nat>)
    requires w != [] && Distinct(pending + w)
    ensures w[0] !in w[1..]
  {
    assert w == [w[0]] + w[1..];
    SplitDistinct(pending, w[0], w[1..]);
  }

  lemma {:induction false} ReleaseAnswered(s: Service, t: Trace, maxQueueSize: int)
    requires PromisesOk(s) && s.loop.Releasing? && Answered(s, t)
    ensures Answered(Apply(s, Release, maxQueueSize), t)
  {
    var w := s.loop.waiting;
    if w != [] {
      FirstApart(s.results, w);
      FirstAnswered(s.promises, t, w, s.loop.ok);
    }
  }

  lemma {:induction false} DrainAnswered(s: Service, t: Trace, maxQueueSize: int)
    requires Inv(s, maxQueueSize) && Enabled(s, Drain) && Answered(s, t)
    ensures Answered(Apply(s, Drain, maxQueueSize), Noted(t, s, Drain))
  {
    ResolveAllEffect(s.promises, s.results, false);
    forall x | x in s.results ensures x < |s.promises| && x !in t.yes + t.no + t.sent + t.failed {
      PendingUnnoted(s, t, maxQueueSize, x);
    }
  }

  /** A step that adds a promise. */
  lemma {:induction false} AddedAnswered(s: Service, t: Trace, p: Promise, t': Trace)
    requires Answered(s, t) && InRange(s.promises, InFlight(s))
    requires t' == if p.result.None? then t
                   else if p.result.value then t.(yes := t.yes + {|s.promises|})
                   else t.(no := t.no + {|s.promises|})
    ensures Answered(s.(promises := s.promises + [p]), t')
  {
    var n, flight := |s.promises|, InFlight(s);
    assert n !in flight;
    forall pid | 0 <= pid <= n ensures (s.promises + [p])[pid].result == Answer(t', flight, pid) {
      assert pid < n ==> s.promises[pid].result == Answer(t, flight, pid);
    }
  }

  lemma {:induction false} RequestAnswered(s: Service, t: Trace, op: Op, maxQueueSize: int)
    requires InRange(s.promises, InFlight(s)) && Enabled(s, op) && Answered(s, t)
    requires op.Reject? || op.Refuse? || op.AcceptNothing? || op.Accept?
    ensures Answered(Apply(s, op, maxQueueSize), Noted(t, s, op))
  {
    var s', t' := Apply(s, op, maxQueueSize), Noted(t, s, op);
    AddedAnswered(s, t, s'.promises[|s.promises|], t');
  }

  lemma {:induction false} StepAnswered(s: Service, t: Trace, op: Op, maxQueueSize: int)
    requires Inv(s, maxQueueSize) && Enabled(s, op) && Answered(s, t)
    ensures Answered(Apply(s, op, maxQueueSize), Noted(t, s, op))
  {
    match op {
      case Swap => SwapAnswered(s, t, maxQueueSize);
      case DoOk => DoneAnswered(s, t, true, maxQueueSize);
      case DoFails => DoneAnswered(s, t, false, maxQueueSize);
      case Release => ReleaseAnswered(s, t, maxQueueSize);
      case Drain => DrainAnswered(s, t, maxQueueSize);
      case Reject(_, _) => RequestAnswered(s, t, op, maxQueueSize);
      case Refuse(_, _) => RequestAnswered(s, t, op, maxQueueSize);
      case AcceptNothing(_) => RequestAnswered(s, t, op, maxQueueSize);
      case Accept(_, _) => RequestAnswered(s, t, op, maxQueueSize);
      case _ =>
    }
  }

  lemma {:induction false} RunAnswered(states: seq<Service>, ops: seq<Op>, maxQueueSize: int, j: nat)
    requires IsRun(states, ops, maxQueueSize) && j <= |ops|
    ensures Answered(states[j], TraceOf(states, ops, j))
  {
    if j > 0 {
      RunAnswered(states, ops, maxQueueSize, j - 1);
      ReachableInv(states, ops, maxQueueSize, j - 1);
      assert Enabled(states[j - 1], ops[j - 1]);
      StepAnswered(states[j - 1], TraceOf(states, ops, j - 1), ops[j - 1], maxQueueSize);
    }
  }

  // ----- the answers

  /** A request is answered without error if and only if it had no rows, or client.Do took the
      batch it was in and its promise has been released. */
  lemma {:induction false} AnsweredTrueIff(states: seq<Service>, ops: seq<Op>, maxQueueSize: int, j: nat, pid: nat)
    requires IsRun(states, ops, maxQueueSize) && j <= |ops| && pid < |states[j].promises|
    ensures states[j].promises[pid].result == Some(true) <==>
            || (exists i: nat :: i < j && NoRowsAt(states, ops, i, pid))
            || (pid !in InFlight(states[j]) && exists i: nat :: i < j && SentAt(states, ops, i, pid))
  {
    RunAnswered(states, ops, maxQueueSize, j);
    TraceHolds(states, ops, j, pid);
  }

  /** It is answered with an error if and only if it was refused or given up on, or the batch it was
      in failed and its promise has been released. */
  lemma {:induction false} AnsweredFalseIff(states: seq<Service>, ops: seq<Op>, maxQueueSize: int, j: nat, pid: nat)
    requires IsRun(states, ops, maxQueueSize) && j <= |ops| && pid < |states[j].promises|
    ensures states[j].promises[pid].result == Some(false) <==>
            || (exists i: nat :: i < j && RefusedAt(states, ops, i, pid))
            || (pid !in InFlight(states[j]) && exists i: nat :: i < j && FailedAt(states, ops, i, pid))
  {
    RunAnswered(states, ops, maxQueueSize, j);
    TraceHolds(states, ops, j, pid);
  }
}
