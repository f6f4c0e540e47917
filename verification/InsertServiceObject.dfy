/** InsertServiceV2 as an object: each method is one critical section, or one stretch of the Run
    loop, and does exactly the transition that InsertService states for it. */
module InsertServiceObject {
  import opened Sequences
  import opened InsertService

  /** n times the release of one waiting promise. */
  function Released(s: Service, n: nat, maxQueueSize: int): Service {
    if n == 0 then s else Apply(Released(s, n - 1, maxQueueSize), Release, maxQueueSize)
  }

  /** Releasing n promises tells them the result and nothing else. */
  lemma {:induction false} ReleasedSome(s: Service, n: nat, maxQueueSize: int)
    requires s.loop.Releasing? && n <= |s.loop.waiting|
    ensures Released(s, n, maxQueueSize) ==
            s.(promises := ResolveAll(s.promises, s.loop.waiting[..n], s.loop.ok),
               loop := s.loop.(waiting := s.loop.waiting[n..]))
  {
    if n > 0 {
      ReleasedSome(s, n - 1, maxQueueSize);
      var w := s.loop.waiting;
      assert w[..n][..n - 1] == w[..n - 1] && w[n - 1..][1..] == w[n..];
    } else {
      assert s.loop.waiting[0..] == s.loop.waiting;
    }
  }

  /** The promises among pids that were open are answered, and no other promise changes. */
  ghost predicate Told(was: seq<Promise>, now: seq<Promise>, pids: seq<nat>, ok: bool) {
    && |now| == |was|
    && forall i :: 0 <= i < |was| ==>
         now[i] == if i in pids && was[i].result.None? then was[i].(result := Some(ok)) else was[i]
  }

  lemma {:induction false} ResolveAllTells(ps: seq<Promise>, pids: seq<nat>, ok: bool)
    ensures Told(ps, ResolveAll(ps, pids, ok), pids, ok)
  {
    ResolveAllEffect(ps, pids, ok);
  }

  lemma {:induction false} ReleasedTells(s: Service, maxQueueSize: int)
    requires s.loop.Releasing?
    ensures var r := Released(s, |s.loop.waiting| + 1, maxQueueSize);
            r == s.(promises := r.promises, loop := Idle) && Told(s.promises, r.promises, s.loop.waiting, s.loop.ok)
  {
    var w := s.loop.waiting;
    ReleasedSome(s, |w|, maxQueueSize);
    ResolveAllTells(s.promises, w, s.loop.ok);
    assert w[..|w|] == w && w[|w|..] == [];
  }

  /** What processRequest made of a request: the rows it appended, or an error. */
  function RequestOp(processed: Option<seq<Row>>, asked: seq<Row>, size: nat): Op {
    if processed.None? then Refuse(asked, size)
    else if processed.value == [] then AcceptNothing(size)
    else Accept(processed.value, size)
  }

  class InsertServiceV2 {
    const maxQueueSize: int
    var running: bool
    var stopped: bool
    var loop: Loop
    var signalled: bool
    var connected: bool
    var columns: seq<Row>
    var size: nat
    var results: seq<nat>
    var promises: seq<Promise>
    ghost var committed: seq<seq<Row>>

    ghost function View(): Service
      reads this
    {
      Service(running, stopped, loop, signalled, connected, columns, size, results, promises, committed)
    }

    constructor (maxQueueSize: int)
      ensures View() == NewService() && this.maxQueueSize == maxQueueSize && Inv(View(), maxQueueSize)
    {
      this.maxQueueSize := maxQueueSize;
      running, stopped, loop, signalled, connected := true, false, Idle, false, false;
      columns, size, results, promises, committed := [], 0, [], [], [];
    }

    /** Promise.Done: only the first call has an effect. */
    method Done(pid: nat, ok: bool)
      modifies `promises
      ensures promises == Resolve(old(promises), pid, ok)
    {
      if pid < |promises| && promises[pid].result.None? {
        promises := promises[pid := promises[pid].(result := Some(ok))];
      }
    }

    method PlanFlush()
      modifies `signalled
      ensures View() == Apply(old(View()), Signal, maxQueueSize)
      ensures signalled
    {
      signalled := true;
    }

    method RequestStopped(rows: seq<Row>, reqSize: nat) returns (pid: nat)
      requires !running
      modifies `promises
      ensures View() == Apply(old(View()), Reject(rows, reqSize), maxQueueSize) && pid == |old(promises)|
      ensures promises == old(promises) + [Promise(rows, reqSize, Some(false))]
    {
      pid := |promises|;
      promises := promises + [Promise(rows, reqSize, None)];
      Done(pid, false);
    }

    /** The locked part of Request. */
    method RequestLocked(processed: Option<seq<Row>>, asked: seq<Row>, reqSize: nat) returns (pid: nat)
      modifies `promises, `columns, `size, `results, `signalled
      ensures View() == Apply(old(View()), RequestOp(processed, asked, reqSize), maxQueueSize)
      ensures pid == |old(promises)|
      ensures promises == old(promises) +
        [if processed.None? then Promise(asked, reqSize, Some(false))
         else Promise(processed.value, reqSize, if processed.value == [] then Some(true) else None)]
      ensures var rows := if processed.None? then [] else processed.value;
              && columns == old(columns) + rows
              && size == old(size) + (if rows == [] then 0 else reqSize)
              && results == old(results) + (if rows == [] then [] else [pid])
              && (signalled <==> old(signalled) || (rows != [] && 0 < maxQueueSize < size))
    {
      pid := |promises|;
      if processed.None? {
        promises := promises + [Promise(asked, reqSize, None)];
        Done(pid, false);
        return;
      }
      columns := columns + processed.value;
      promises := promises + [Promise(processed.value, reqSize, None)];
      if processed.value == [] {
        Done(pid, true);
        return;
      }
      size := size + reqSize;
      if maxQueueSize > 0 && size > maxQueueSize {
        signalled := true;
      }
      results := results + [pid];
    }

    /** swapBuffers; answers whether there is a portion to send. */
    method SwapBuffers() returns (portion: bool)
      requires loop == Idle
      modifies `signalled, `connected, `loop, `columns, `size, `results
      ensures portion <==> old(size) != 0
      ensures View() == Apply(old(View()), if portion then Swap else SwapEmpty, maxQueueSize)
      ensures connected && !signalled
      ensures portion ==> loop == Flushing(old(columns), old(results)) && columns == [] && size == 0 && results == []
      ensures !portion ==> loop == Idle && columns == old(columns) && results == old(results)
    {
      connected := true;
      signalled := false;
      if size == 0 {
        return false;
      }
      loop := Flushing(columns, results);
      columns, size, results := [], 0, [];
      return true;
    }

    /** releaseWaiting: every promise of the portion learns the result, in order. */
    method ReleaseWaiting()
      requires loop.Releasing?
      modifies `promises, `loop
      ensures View() == Released(old(View()), |old(loop).waiting| + 1, maxQueueSize)
      ensures loop == Idle && Told(old(promises), promises, old(loop).waiting, old(loop).ok)
    {
      ReleasedTells(View(), maxQueueSize);
      ghost var n := 0;
      while loop.waiting != []
        invariant loop.Releasing? && n + |loop.waiting| == |old(loop).waiting|
        invariant View() == Released(old(View()), n, maxQueueSize)
        decreases |loop.waiting|
      {
        Done(loop.waiting[0], loop.ok);
        loop := loop.(waiting := loop.waiting[1..]);
        n := n + 1;
      }
      loop := Idle;
    }

    /** The rest of fetchLoopIteration, given what client.Do answered. */
    method SendPortion(ok: bool)
      requires loop.Flushing?
      modifies `promises, `loop, `connected, `committed
      ensures var sent := Apply(old(View()), if ok then DoOk else DoFails, maxQueueSize);
              View() == Released(sent, |old(loop).res| + 1, maxQueueSize)
      ensures loop == Idle && Told(old(promises), promises, old(loop).res, ok)
      ensures committed == if ok then old(committed) + [old(loop).cols] else old(committed)
      ensures connected == (ok && old(connected))
    {
      if ok {
        committed := committed + [loop.cols];
      } else {
        connected := false;
      }
      loop := Releasing(ok, loop.cols, loop.res);
      ReleaseWaiting();
    }

    /** What Run does when the service is stopped. */
    method GiveUp()
      requires loop == Idle && stopped
      modifies `promises, `running, `loop
      ensures View() == Apply(old(View()), Drain, maxQueueSize)
      ensures loop == Exited && !running && Told(old(promises), promises, results, false)
    {
      ResolveAllTells(promises, results, false);
      for i := 0 to |results|
        invariant promises == ResolveAll(old(promises), results[..i], false)
      {
        assert results[..i + 1][..i] == results[..i];
        Done(results[i], false);
      }
      assert results[..|results|] == results;
      running := false;
      loop := Exited;
    }
  }
}
