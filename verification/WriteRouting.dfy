/** Where acknowledged rows are: not just stored somewhere, but by a service of the shard that the
    fingerprint names. */
module WriteRouting {
  import opened Sequences
  import opened Partition
  import opened InsertService
  import opened WritePath

  // ----- what is kept

  ghost predicate StoredIn(services: map<Sid, Service>, pool: set<Sid>, row: Row) {
    exists sid :: sid in pool && sid in services && InBatch(services[sid].committed, row)
  }

  /** A push only deals with the services of its pool, and what it finished is stored there. */
  ghost predicate StaysIn(services: map<Sid, Service>, p: Push) {
    match p.phase
    case Admitted(sid) => sid in p.pool
    case Waiting(sid, _) => sid in p.pool
    case Finished(ok) => ok ==> forall i :: 0 <= i < |p.rows| ==> StoredIn(services, p.pool, p.rows[i])
    case Ready => true
  }

  /** The services that should store a row of the request: the one pool it has, or that of the shard
      which is the fingerprint modulo the number of shards. */
  ghost predicate PoolOf(ask: Ask, row: Row, cfg: Config, pool: set<Sid>) {
    match ask
    case Single(_, p) => p == Some(pool)
    case Sharded(_, pools) => exists s: nat :: s < |pools| && IsModulo(cfg.fingerprint(row), |pools|, s) && pools[s] == pool
  }

  ghost predicate CarriedIn(pushes: seq<Push>, us: seq<nat>, row: Row, pool: set<Sid>) {
    exists i :: 0 <= i < |us| && us[i] < |pushes| && row in pushes[us[i]].rows && pushes[us[i]].pool == pool
  }

  /** Each row of the request is carried by a push to the pool it belongs to. */
  ghost predicate Routed(pushes: seq<Push>, us: seq<nat>, ask: Ask, cfg: Config) {
    forall row, pool :: row in Wanted(ask) && PoolOf(ask, row, cfg, pool) ==> CarriedIn(pushes, us, row, pool)
  }

  ghost predicate AllRouted(pushes: seq<Push>, h: Handler, cfg: Config) {
    forall a :: 0 <= a < |h.asked| ==> Routed(pushes, h.pushes, h.asked[a], cfg)
  }

  ghost predicate RoutingOk(s: System, cfg: Config) {
    && (forall u :: 0 <= u < |s.pushes| ==> StaysIn(s.services, s.pushes[u]))
    && (forall h :: 0 <= h < |s.handlers| ==> AllRouted(s.pushes, s.handlers[h], cfg))
  }

  // ----- pushes

  lemma {:induction false} StepGrows(s: System, step: Step, cfg: Config)
    requires CanStep(s, step, cfg)
    ensures ServicesGrow(s.services, Next(s, step, cfg).services)
  {
    match step {
      case ServiceStep(sid, op) => ServiceStepGrows(s, sid, op, cfg);
      case Check(u, sid) =>
        if !s.services[sid].running {
          ServiceStepGrows(s, sid, Reject(s.pushes[u].rows, s.pushes[u].size), cfg);
        }
      case Locked(u, accepted) => ServiceStepGrows(s, s.pushes[u].phase.sid, RequestOf(s.pushes[u], accepted), cfg);
      case _ =>
    }
  }

  lemma {:induction false} StoredInGrows(a: map<Sid, Service>, b: map<Sid, Service>, pool: set<Sid>, row: Row)
    requires ServicesGrow(a, b) && StoredIn(a, pool, row)
    ensures StoredIn(b, pool, row)
  {
    var sid :| sid in pool && sid in a && InBatch(a[sid].committed, row);
    var k :| 0 <= k < |a[sid].committed| && row in a[sid].committed[k];
    assert b[sid].committed[k] == a[sid].committed[k];
    assert InBatch(b[sid].committed, row);
  }

  lemma {:induction false} StillIn(a: map<Sid, Service>, b: map<Sid, Service>, p: Push)
    requires ServicesGrow(a, b) && StaysIn(a, p)
    ensures StaysIn(b, p)
  {
    if p.phase == Finished(true) {
      forall i | 0 <= i < |p.rows| ensures StoredIn(b, p.pool, p.rows[i]) {
        StoredInGrows(a, b, p.pool, p.rows[i]);
      }
    }
  }

  /** The push learns that its promise was resolved without error. */
  lemma {:induction false} LearnedIn(s: System, u: nat, cfg: Config)
    requires SystemOk(s, cfg) && CanStep(s, Learn(u), cfg) && StaysIn(s.services, s.pushes[u])
    ensures StaysIn(s.services, Next(s, Learn(u), cfg).pushes[u])
  {
    var p := s.pushes[u];
    var svc := s.services[p.phase.sid];
    assert PushOk(s.services, p) && Inv(svc, cfg.maxQueueSize);
    if svc.promises[p.phase.pid].result.value {
      forall i | 0 <= i < |p.rows| ensures StoredIn(s.services, p.pool, p.rows[i]) {
        assert Stored(svc.committed, svc.promises[p.phase.pid].rows);
        assert InBatch(svc.committed, p.rows[i]);
      }
    }
  }

  /** The steps that push u takes itself. */
  ghost predicate OwnStep(step: Step, u: nat) {
    match step
    case Check(v, _) => v == u
    case Locked(v, _) => v == u
    case Learn(v) => v == u
    case _ => false
  }

  lemma {:induction false} OtherStep(s: System, step: Step, cfg: Config, u: nat)
    requires CanStep(s, step, cfg) && u < |s.pushes| && !OwnStep(step, u)
    ensures u < |Next(s, step, cfg).pushes| && Next(s, step, cfg).pushes[u] == s.pushes[u]
  {
  }

  /** Before the answer a push only goes to a service of its pool. */
  lemma {:induction false} AskedIn(s: System, step: Step, cfg: Config, u: nat)
    requires CanStep(s, step, cfg) && u < |s.pushes| && StaysIn(s.services, s.pushes[u])
    requires OwnStep(step, u) && !step.Learn?
    ensures var p := Next(s, step, cfg).pushes[u];
            && !(p.phase == Finished(true)) && (p.phase.Admitted? || p.phase.Waiting? ==> p.phase.sid in p.pool)
            && p.rows == s.pushes[u].rows && p.pool == s.pushes[u].pool
  {
  }

  lemma {:induction false} PushStaysIn(s: System, step: Step, cfg: Config, u: nat)
    requires SystemOk(s, cfg) && CanStep(s, step, cfg) && u < |s.pushes| && StaysIn(s.services, s.pushes[u])
    ensures var t := Next(s, step, cfg);
            && u < |t.pushes| && StaysIn(t.services, t.pushes[u])
            && t.pushes[u].rows == s.pushes[u].rows && t.pushes[u].pool == s.pushes[u].pool
  {
    if !OwnStep(step, u) {
      StepGrows(s, step, cfg);
      OtherStep(s, step, cfg, u);
      StillIn(s.services, Next(s, step, cfg).services, s.pushes[u]);
    } else if step.Learn? {
      LearnedIn(s, u, cfg);
    } else {
      AskedIn(s, step, cfg, u);
    }
  }

  lemma {:induction false} NewPushIn(s: System, step: Step, cfg: Config, u: nat)
    requires CanStep(s, step, cfg) && |s.pushes| <= u < |Next(s, step, cfg).pushes|
    ensures StaysIn(Next(s, step, cfg).services, Next(s, step, cfg).pushes[u])
  {
    if step.ask.Sharded? {
      PartPushesFresh(step.ask.rows, step.ask.pools, |step.ask.pools|, cfg);
    }
  }

  // ----- handlers

  /** Pushes keep their rows and their pool. */
  ghost predicate SameLoads(a: seq<Push>, b: seq<Push>) {
    |a| <= |b| && forall u {:trigger a[u]} {:trigger b[u]} :: 0 <= u < |a| ==>
      b[u].rows == a[u].rows && b[u].pool == a[u].pool
  }

  lemma {:induction false} StaysRouted(a: seq<Push>, b: seq<Push>, us: seq<nat>, vs: seq<nat>, ask: Ask, cfg: Config)
    requires SameLoads(a, b) && us <= vs && Routed(a, us, ask, cfg)
    ensures Routed(b, vs, ask, cfg)
  {
    forall row, pool | row in Wanted(ask) && PoolOf(ask, row, cfg, pool) ensures CarriedIn(b, vs, row, pool) {
      assert CarriedIn(a, us, row, pool);
      var i :| 0 <= i < |us| && us[i] < |a| && row in a[us[i]].rows && a[us[i]].pool == pool;
      assert vs[i] == us[i];
    }
  }

  /** The part of shard s goes to its pool. */
  lemma {:induction false} PartRouted(rows: seq<Row>, pools: seq<set<Sid>>, m: nat, cfg: Config, row: Row, s: nat) returns (j: nat)
    requires s < m <= |pools| && row in rows && ShardIndex(cfg.fingerprint(row), |pools|) == s
    ensures var parts := PartPushes(rows, pools, m, cfg);
            j < |parts| && row in parts[j].rows && parts[j].pool == pools[s]
  {
    var init := PartPushes(rows, pools, m - 1, cfg);
    if s == m - 1 {
      PartMembership(rows, cfg.fingerprint, s, |pools|, row);
      j := |init|;
    } else {
      j := PartRouted(rows, pools, m - 1, cfg, row, s);
    }
  }

  lemma {:induction false} PushRouted(ask: Ask, cfg: Config, row: Row, pool: set<Sid>) returns (j: nat)
    requires row in Wanted(ask) && PoolOf(ask, row, cfg, pool)
    ensures var more := PushesFor(ask, cfg);
            j < |more| && row in more[j].rows && more[j].pool == pool
  {
    if ask.Sharded? {
      var s: nat :| s < |ask.pools| && IsModulo(cfg.fingerprint(row), |ask.pools|, s) && ask.pools[s] == pool;
      ShardIndexIs(cfg.fingerprint(row), |ask.pools|, s);
      j := PartRouted(ask.rows, ask.pools, |ask.pools|, cfg, row, s);
    } else {
      j := 0;
    }
  }

  lemma {:induction false} ConsumeRoutes(pushes: seq<Push>, us: seq<nat>, ask: Ask, cfg: Config)
    ensures var more := PushesFor(ask, cfg);
            Routed(pushes + more, us + Range(|pushes|, |more|), ask, cfg)
  {
    var more := PushesFor(ask, cfg);
    var all, vs := pushes + more, us + Range(|pushes|, |more|);
    forall row, pool | row in Wanted(ask) && PoolOf(ask, row, cfg, pool) ensures CarriedIn(all, vs, row, pool) {
      var j := PushRouted(ask, cfg, row, pool);
      assert vs[|us| + j] == |pushes| + j && all[|pushes| + j] == more[j];
    }
  }

  lemma {:induction false} KeptRouted(a: seq<Push>, b: seq<Push>, h: Handler, g: Handler, cfg: Config)
    requires SameLoads(a, b) && AllRouted(a, h, cfg) && g.asked == h.asked && g.pushes == h.pushes
    ensures AllRouted(b, g, cfg)
  {
    forall k | 0 <= k < |g.asked| ensures Routed(b, g.pushes, g.asked[k], cfg) {
      StaysRouted(a, b, h.pushes, g.pushes, h.asked[k], cfg);
    }
  }

  lemma {:induction false} ConsumerRouted(pushes: seq<Push>, h: Handler, g: Handler, ask: Ask, cfg: Config)
    requires AllRouted(pushes, h, cfg)
    requires var more := PushesFor(ask, cfg);
             g.asked == h.asked + [ask] && g.pushes == h.pushes + Range(|pushes|, |more|)
    ensures AllRouted(pushes + PushesFor(ask, cfg), g, cfg)
  {
    forall k | 0 <= k < |g.asked| ensures Routed(pushes + PushesFor(ask, cfg), g.pushes, g.asked[k], cfg) {
      if k < |h.asked| {
        StaysRouted(pushes, pushes + PushesFor(ask, cfg), h.pushes, g.pushes, h.asked[k], cfg);
      } else {
        ConsumeRoutes(pushes, h.pushes, ask, cfg);
      }
    }
  }

  lemma {:induction false} HandlerRouted(s: System, step: Step, cfg: Config, h: nat)
    requires CanStep(s, step, cfg) && RoutingOk(s, cfg) && SameLoads(s.pushes, Next(s, step, cfg).pushes)
    requires h < |Next(s, step, cfg).handlers|
    ensures AllRouted(Next(s, step, cfg).pushes, Next(s, step, cfg).handlers[h], cfg)
  {
    var t := Next(s, step, cfg);
    if h < |s.handlers| {
      if step.Consume? && step.h == h {
        ConsumerRouted(s.pushes, s.handlers[h], t.handlers[h], step.ask, cfg);
      } else {
        KeptRouted(s.pushes, t.pushes, s.handlers[h], t.handlers[h], cfg);
      }
    }
  }

  lemma {:induction false} StepRoutes(s: System, step: Step, cfg: Config)
    requires SystemOk(s, cfg) && RoutingOk(s, cfg) && CanStep(s, step, cfg)
    ensures RoutingOk(Next(s, step, cfg), cfg)
  {
    var t := Next(s, step, cfg);
    NewPush(s, step, cfg);
    forall u | 0 <= u < |t.pushes|
      ensures StaysIn(t.services, t.pushes[u])
      ensures u < |s.pushes| ==> t.pushes[u].rows == s.pushes[u].rows && t.pushes[u].pool == s.pushes[u].pool
    {
      if u < |s.pushes| {
        PushStaysIn(s, step, cfg, u);
      } else {
        NewPushIn(s, step, cfg, u);
      }
    }
    forall h | 0 <= h < |t.handlers| ensures AllRouted(t.pushes, t.handlers[h], cfg) {
      HandlerRouted(s, step, cfg, h);
    }
  }

  lemma {:induction false} NewPush(s: System, step: Step, cfg: Config)
    requires CanStep(s, step, cfg)
    ensures |s.pushes| <= |Next(s, step, cfg).pushes|
  {
  }

  lemma {:induction false} HistoryRoutes(states: seq<System>, steps: seq<Step>, cfg: Config, i: nat)
    requires IsHistory(states, steps, cfg) && i < |states|
    ensures RoutingOk(states[i], cfg)
  {
    if i > 0 {
      HistoryRoutes(states, steps, cfg, i - 1);
      HistoryOk(states, steps, cfg, i - 1);
      assert CanStep(states[i - 1], steps[i - 1], cfg);
      StepRoutes(states[i - 1], steps[i - 1], cfg);
    }
  }

  /** Acknowledged rows are where they belong: when doParse has returned nil, every row of every
      request it took is in a batch that client.Do took for a service of the request's own pool, or
      of the shard that is the row's fingerprint modulo the number of shards. */
  lemma {:induction false} AckInShard(states: seq<System>, steps: seq<Step>, cfg: Config, i: nat, h: nat, a: nat,
                                      row: Row, pool: set<Sid>)
    requires IsHistory(states, steps, cfg) && i < |states|
    requires h < |states[i].handlers| && states[i].handlers[h].stage == Returned(true)
    requires a < |states[i].handlers[h].asked| && row in Wanted(states[i].handlers[h].asked[a])
    requires PoolOf(states[i].handlers[h].asked[a], row, cfg, pool)
    ensures StoredIn(states[i].services, pool, row)
  {
    var s := states[i];
    var hd := s.handlers[h];
    HistoryOk(states, steps, cfg, i);
    HistoryRoutes(states, steps, cfg, i);
    assert HandlerOk(s.pushes, hd) && AllRouted(s.pushes, hd, cfg);
    assert Routed(s.pushes, hd.pushes, hd.asked[a], cfg);
    assert CarriedIn(s.pushes, hd.pushes, row, pool);
    var j :| 0 <= j < |hd.pushes| && hd.pushes[j] < |s.pushes| && row in s.pushes[hd.pushes[j]].rows
             && s.pushes[hd.pushes[j]].pool == pool;
    assert StaysIn(s.services, s.pushes[hd.pushes[j]]);
  }
}
