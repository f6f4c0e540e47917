/** The growth protocol: a refresh loop replaces the published snapshot, and before it publishes
    one with more shards it extends the write fan-out, which routing reads through a pointer. */
module ShardGrowth {
  import opened Sequences
  import opened ShardSnapshot

  /** An insert service, known by a number. */
  type ServiceId = int

  /** LokiShardServices: per shard, one service per replica, for series and for samples. */
  datatype Fanout = Fanout(ts: seq<seq<ServiceId>>, spl: seq<seq<ServiceId>>)

  /** buildReplica: the services made for replica r of shard i. */
  datatype Maker = Maker(ts: (nat, nat, Replica) -> ServiceId, spl: (nat, nat, Replica) -> ServiceId)

  function ShardTs(mk: Maker, i: nat, s: Shard): (r: seq<ServiceId>)
    ensures |r| == |s.replicas|
  {
    seq(|s.replicas|, k requires 0 <= k < |s.replicas| => mk.ts(i, k, s.replicas[k]))
  }

  function ShardSpl(mk: Maker, i: nat, s: Shard): (r: seq<ServiceId>)
    ensures |r| == |s.replicas|
  {
    seq(|s.replicas|, k requires 0 <= k < |s.replicas| => mk.spl(i, k, s.replicas[k]))
  }

  /** What BuildSnapshot guarantees of every snapshot it returns. */
  ghost predicate SnapGood(s: Snapshot) {
    && s.shardCount == |s.shards| && s.shardCount >= 1
    && forall i :: 0 <= i < |s.shards| ==> s.shards[i].replicas != []
  }

  lemma {:induction false} BuiltIsGood(s: Snapshot, name: string, w: WriteSet, rs: seq<Replica>)
    requires SnapshotOk(s, name, w, rs)
    ensures SnapGood(s)
  {
    forall i | 0 <= i < |s.shards| ensures s.shards[i].replicas != [] {
      assert ShardOk(s.shards[i], w, rs, i + 1);
    }
  }

  /** The fan-out extended to the first n shards of a snapshot; existing shards are kept. */
  function Extended(f: Fanout, s: Snapshot, n: nat, mk: Maker): Fanout
    requires n <= |s.shards|
    decreases n
  {
    if n <= |f.ts| then f
    else
      var g := Extended(f, s, n - 1, mk);
      Fanout(g.ts + [ShardTs(mk, n - 1, s.shards[n - 1])], g.spl + [ShardSpl(mk, n - 1, s.shards[n - 1])])
  }

  ghost predicate FanoutOk(f: Fanout) {
    && |f.ts| == |f.spl|
    && (forall i :: 0 <= i < |f.ts| ==> f.ts[i] != [] && f.spl[i] != [])
  }

  lemma {:induction false} ExtendedKeeps(f: Fanout, s: Snapshot, n: nat, mk: Maker)
    requires SnapGood(s) && n <= |s.shards| && FanoutOk(f)
    ensures var g := Extended(f, s, n, mk);
            && FanoutOk(g) && f.ts <= g.ts && f.spl <= g.spl
            && |g.ts| == if n <= |f.ts| then |f.ts| else n
  {
    if n > |f.ts| {
      ExtendedKeeps(f, s, n - 1, mk);
    }
  }

  /** The services of shard i are made one for each of its replicas, in their order. */
  ghost predicate MadeFor(ts: seq<ServiceId>, spl: seq<ServiceId>, i: nat, s: Shard, mk: Maker) {
    && |ts| == |s.replicas| == |spl|
    && forall k :: 0 <= k < |s.replicas| ==> ts[k] == mk.ts(i, k, s.replicas[k]) && spl[k] == mk.spl(i, k, s.replicas[k])
  }

  /** Growth to n shards: what was there stays, and each shard above has a service per replica. */
  ghost predicate GrownTo(f: Fanout, g: Fanout, s: Snapshot, n: int, mk: Maker) {
    && f.ts <= g.ts && f.spl <= g.spl && |g.ts| == |g.spl| && |g.ts| == (if n <= |f.ts| then |f.ts| else n)
    && |g.ts| <= (if |f.ts| < |s.shards| then |s.shards| else |f.ts|)
    && forall i :: |f.ts| <= i < |g.ts| ==> MadeFor(g.ts[i], g.spl[i], i, s.shards[i], mk)
  }

  lemma {:induction false} ExtendedMakes(f: Fanout, s: Snapshot, n: nat, mk: Maker)
    requires n <= |s.shards| && |f.ts| == |f.spl|
    ensures GrownTo(f, Extended(f, s, n, mk), s, n, mk)
  {
    if n > |f.ts| {
      ExtendedMakes(f, s, n - 1, mk);
      var g := Extended(f, s, n - 1, mk);
      assert MadeFor(ShardTs(mk, n - 1, s.shards[n - 1]), ShardSpl(mk, n - 1, s.shards[n - 1]), n - 1, s.shards[n - 1], mk);
    }
  }

  // ----- the protocol as transitions

  datatype Phase =
    | Starting              // New has not returned, or the first fan-out is being built
    | Waiting
    | Growing(next: Snapshot)
    | Storing(next: Snapshot)

  datatype State = State(snap: Option<Snapshot>, fanout: Option<Fanout>, phase: Phase)

  const Start: State := State(None, None, Starting)

  datatype Event =
    | FirstDiscovery(s: Snapshot)
    | FirstPublish
    | DiscoveryFails
    | Refresh(next: Snapshot)
    | GrowFails
    | GrowPublish
    | Store

  ghost predicate Possible(t: State, e: Event) {
    match e
    case FirstDiscovery(s) => t.phase.Starting? && t.snap.None? && SnapGood(s)
    case FirstPublish => t.phase.Starting? && t.snap.Some? && |t.snap.value.shards| == t.snap.value.shardCount
    case DiscoveryFails => t.phase.Waiting?
    case Refresh(next) => t.phase.Waiting? && SnapGood(next)
    case GrowFails => t.phase.Growing?
    case GrowPublish => t.phase.Growing? && |t.phase.next.shards| == t.phase.next.shardCount
    case Store => t.phase.Storing?
  }

  function Current(f: Option<Fanout>): Fanout {
    if f.None? then Fanout([], []) else f.value
  }

  function After(t: State, e: Event, mk: Maker): State
    requires Possible(t, e)
  {
    match e
    case FirstDiscovery(s) => t.(snap := Some(s))
    case FirstPublish =>
      t.(fanout := Some(Extended(Fanout([], []), t.snap.value, t.snap.value.shardCount, mk)), phase := Waiting)
    case DiscoveryFails => t
    case Refresh(next) =>
      if t.snap.None? || next.shardCount == t.snap.value.shardCount then t.(snap := Some(next))
      else if next.shardCount < t.snap.value.shardCount then t
      else t.(phase := Growing(next))
    case GrowFails => t.(phase := Waiting)
    case GrowPublish =>
      var next := t.phase.next;
      t.(fanout := Some(Extended(Current(t.fanout), next, next.shardCount, mk)), phase := Storing(next))
    case Store => t.(snap := Some(t.phase.next), phase := Waiting)
  }

  function Count(t: State): int {
    if t.snap.None? then 0 else t.snap.value.shardCount
  }

  /** Once routing is on, the fan-out covers every published shard, and no shard is without a
      service. */
  ghost predicate Safe(t: State) {
    && (t.snap.Some? ==> SnapGood(t.snap.value))
    && (!t.phase.Starting? ==> t.snap.Some? && t.fanout.Some?)
    && (t.phase.Starting? ==> t.fanout.None?)
    && (t.fanout.Some? ==> t.snap.Some? && FanoutOk(t.fanout.value) && |t.fanout.value.ts| >= Count(t))
    && (t.phase.Growing? ==> SnapGood(t.phase.next) && t.phase.next.shardCount > Count(t))
    && (t.phase.Storing? ==>
          SnapGood(t.phase.next) && t.phase.next.shardCount > Count(t) &&
          |t.fanout.value.ts| >= t.phase.next.shardCount)
  }

  /** What no step undoes. */
  ghost predicate Forward(a: State, b: State) {
    && Count(a) <= Count(b)
    && (a.fanout.Some? ==>
          b.fanout.Some? && a.fanout.value.ts <= b.fanout.value.ts && a.fanout.value.spl <= b.fanout.value.spl)
  }

  lemma {:induction false} StepSafe(t: State, e: Event, mk: Maker)
    requires Safe(t) && Possible(t, e)
    ensures Safe(After(t, e, mk)) && Forward(t, After(t, e, mk))
  {
    match e {
      case FirstPublish => ExtendedKeeps(Fanout([], []), t.snap.value, t.snap.value.shardCount, mk);
      case GrowPublish => ExtendedKeeps(Current(t.fanout), t.phase.next, t.phase.next.shardCount, mk);
      case _ =>
    }
  }

  ghost predicate IsRun(states: seq<State>, events: seq<Event>, mk: Maker) {
    && |states| == |events| + 1 && states[0] == Start
    && forall i {:trigger events[i]} :: 0 <= i < |events| ==>
         Possible(states[i], events[i]) && states[i + 1] == After(states[i], events[i], mk)
  }

  lemma {:induction false} RunSafe(states: seq<State>, events: seq<Event>, mk: Maker, i: nat)
    requires IsRun(states, events, mk) && i < |states|
    ensures Safe(states[i])
  {
    if i > 0 {
      RunSafe(states, events, mk, i - 1);
      assert Possible(states[i - 1], events[i - 1]);
      StepSafe(states[i - 1], events[i - 1], mk);
    }
  }

  /** Over every run of refreshes, failed discoveries and failed growth: the published shard
      count never decreases, shards keep their services and their index, and a fan-out that was
      set is never taken away. */
  lemma {:induction false} RunMovesForward(states: seq<State>, events: seq<Event>, mk: Maker, i: nat, j: nat)
    requires IsRun(states, events, mk) && i <= j < |states|
    ensures Forward(states[i], states[j])
  {
    if i < j {
      RunMovesForward(states, events, mk, i, j - 1);
      RunSafe(states, events, mk, j - 1);
      assert Possible(states[j - 1], events[j - 1]);
      StepSafe(states[j - 1], events[j - 1], mk);
    }
  }

  /** In every reachable state with routing on, every shard the snapshot publishes has a place
      in the fan-out, and every place has a replica to pick. */
  lemma {:induction false} RoutingAlwaysPossible(states: seq<State>, events: seq<Event>, mk: Maker, i: nat, shard: nat)
    requires IsRun(states, events, mk) && i < |states| && states[i].fanout.Some?
    requires shard < Count(states[i])
    ensures shard < |states[i].fanout.value.ts| && |states[i].fanout.value.ts[shard]| > 0
    ensures shard < |states[i].fanout.value.spl| && |states[i].fanout.value.spl[shard]| > 0
  {
    RunSafe(states, events, mk, i);
  }

  // ----- the program

  class Topology {
    var snap: Option<Snapshot>
    var fanout: Option<Fanout>
    const mk: Maker

    constructor (mk: Maker)
      ensures snap == None && fanout == None && this.mk == mk
    {
      this.mk := mk;
      snap, fanout := None, None;
    }

    /** onGrow: copies the current lists, appends the new shards, publishes the result. */
    method OnGrow(next: Snapshot)
      requires next.shardCount == |next.shards|
      requires |Current(fanout).ts| == |Current(fanout).spl|
      modifies `fanout
      ensures fanout == Some(Extended(Current(old(fanout)), next, next.shardCount, mk))
      ensures GrownTo(Current(old(fanout)), fanout.value, next, next.shardCount, mk)
    {
      ExtendedMakes(Current(fanout), next, next.shardCount, mk);
      var f := Current(fanout);
      var ts, spl := f.ts, f.spl;
      var i := |ts|;
      assert Extended(f, next, if i < next.shardCount then i else next.shardCount, mk) == f;
      while i < next.shardCount
        invariant |f.ts| <= i && |ts| == i && (i <= next.shardCount || i == |f.ts|)
        invariant i <= next.shardCount ==> Fanout(ts, spl) == Extended(f, next, i, mk)
        invariant i > next.shardCount ==> Fanout(ts, spl) == f
      {
        ts := ts + [ShardTs(mk, i, next.shards[i])];
        spl := spl + [ShardSpl(mk, i, next.shards[i])];
        i := i + 1;
      }
      fanout := Some(Fanout(ts, spl));
    }

    /** applyRefresh, with the answer of onGrow; a failing onGrow publishes nothing. */
    method ApplyRefresh(next: Snapshot, growOk: bool) returns (live: Snapshot, swapped: bool)
      requires SnapGood(next) && Safe(State(snap, fanout, Waiting))
      modifies `snap, `fanout
      ensures var before := State(old(snap), old(fanout), Waiting);
              var seen := After(before, Refresh(next), mk);
              var end :=
                if !seen.phase.Growing? then seen
                else if !growOk then After(seen, GrowFails, mk)
                else After(After(seen, GrowPublish, mk), Store, mk);
              State(snap, fanout, Waiting) == end && Safe(end)
      ensures snap.Some? && live == snap.value && (swapped <==> live == next)
      ensures var count := if old(snap).None? then next.shardCount else old(snap).value.shardCount;
              && (next.shardCount == count ==> snap == Some(next) && fanout == old(fanout))
              && (next.shardCount < count ==> snap == old(snap) && fanout == old(fanout))
              && (next.shardCount > count && !growOk ==> snap == old(snap) && fanout == old(fanout))
              && (next.shardCount > count && growOk ==>
                    && snap == Some(next) && fanout.Some?
                    && GrownTo(Current(old(fanout)), fanout.value, next, next.shardCount, mk))
    {
      var cur := snap;
      if cur.None? || next.shardCount == cur.value.shardCount {
        snap := Some(next);
        return next, true;
      }
      if next.shardCount < cur.value.shardCount {
        return cur.value, false;
      }
      ghost var seen := State(snap, fanout, Growing(next));
      if !growOk {
        return cur.value, false;
      }
      StepSafe(State(snap, fanout, Waiting), Refresh(next), mk);
      StepSafe(seen, GrowPublish, mk);
      StepSafe(After(seen, GrowPublish, mk), Store, mk);
      OnGrow(next);
      snap := Some(next);
      return next, true;
    }
  }
}
