/** The write path end to end: request handlers parse responses, split and push their rows,
    pushes retry against insert services, services send batches. One state machine interleaves
    all of them. Main result: a handler that returns no error has had every row stored. */
module WritePath {
  import opened Sequences
  import opened Partition
  import opened InsertService

  type Sid = nat

  /** What one push is doing: doPush's retry loop around svc.Request. Admitted is the moment
      between reading `running` and taking the lock. */
  datatype Phase =
    | Ready
    | Admitted(sid: Sid)
    | Waiting(sid: Sid, pid: nat)
    | Finished(ok: bool)

  datatype Push = Push(rows: seq<Row>, size: nat, pool: set<Sid>, left: nat, phase: Phase)

  /** One request of a parsed response: pushed whole to one service, which may be absent, or
      split over the shards' services. */
  datatype Ask =
    | Single(rows: seq<Row>, pool: Option<set<Sid>>)
    | Sharded(rows: seq<Row>, pools: seq<set<Sid>>)

  datatype Stage =
    | Parsing
    | Joining(next: nat)
    | Returned(ok: bool)

  /** doParse: what it has taken from the parser, the pushes whose promises it collected. */
  datatype Handler = Handler(asked: seq<Ask>, pushes: seq<nat>, stage: Stage)

  datatype System = System(services: map<Sid, Service>, pushes: seq<Push>, handlers: seq<Handler>)

  /** Fixed parameters: retry attempts, queue limit, fingerprint of a row, size of a request. */
  datatype Config = Config(attempts: nat, maxQueueSize: int, fingerprint: Row -> nat, sizeOf: seq<Row> -> nat)

  datatype Step =
    | ServiceStep(sid: Sid, op: Op)          // flush, connect, send, release, stop, drain
    | AddService(sid: Sid)                   // the write fan-out grows
    | NewHandler
    | Consume(h: nat, ask: Ask)              // the parser hands over one more request
    | ParseError(h: nat)
    | Close(h: nat)                          // the parser's channel is closed
    | Join(h: nat)                           // doParse looks at its next promise
    | Check(u: nat, sid: Sid)                // a push picks a service and reads running
    | Locked(u: nat, accepted: bool)         // the locked part of Request
    | Learn(u: nat)                          // the push sees its promise resolved

  // ----- pushing the parts of a request

  /** The parts of a split request, shard by shard, that are not empty. */
  function PartPushes(rows: seq<Row>, pools: seq<set<Sid>>, m: nat, cfg: Config): seq<Push>
    requires m <= |pools|
  {
    if m == 0 then []
    else
      var part := RowsFor(rows, cfg.fingerprint, m - 1, |pools|);
      PartPushes(rows, pools, m - 1, cfg) +
      if part == [] then [] else [Push(part, cfg.sizeOf(part), pools[m - 1], cfg.attempts, Ready)]
  }

  function PushesFor(ask: Ask, cfg: Config): seq<Push> {
    match ask
    case Single(rows, pool) =>
      if pool.None? then [] else [Push(rows, cfg.sizeOf(rows), pool.value, cfg.attempts, Ready)]
    case Sharded(rows, pools) => PartPushes(rows, pools, |pools|, cfg)
  }

  function Range(from: nat, n: nat): (r: seq<nat>)
    ensures |r| == n && forall i :: 0 <= i < n ==> r[i] == from + i
  {
    seq(n, i requires 0 <= i => from + i)
  }

  /** An attempt failed: try again while attempts are left. */
  function AttemptFailed(p: Push): Push {
    if p.left <= 1 then p.(left := 0, phase := Finished(false)) else p.(left := p.left - 1, phase := Ready)
  }

  // ----- transitions

  ghost predicate LoopOp(op: Op) {
    !op.Reject? && !op.Refuse? && !op.AcceptNothing? && !op.Accept?
  }

  ghost predicate CanStep(s: System, step: Step, cfg: Config) {
    match step
    case ServiceStep(sid, op) => sid in s.services && LoopOp(op) && Enabled(s.services[sid], op)
    case AddService(sid) => sid !in s.services
    case NewHandler => true
    case Consume(h, ask) =>
      && h < |s.handlers| && s.handlers[h].stage.Parsing?
      && (ask.Sharded? ==> |ask.pools| > 0)
    case ParseError(h) => h < |s.handlers| && s.handlers[h].stage.Parsing?
    case Close(h) => h < |s.handlers| && s.handlers[h].stage.Parsing?
    case Join(h) =>
      && h < |s.handlers| && s.handlers[h].stage.Joining?
      && (var i := s.handlers[h].stage.next;
          i < |s.handlers[h].pushes| ==>
            s.handlers[h].pushes[i] < |s.pushes| && s.pushes[s.handlers[h].pushes[i]].phase.Finished?)
    case Check(u, sid) =>
      u < |s.pushes| && s.pushes[u].phase.Ready? && sid in s.pushes[u].pool && sid in s.services
    case Locked(u, _) => u < |s.pushes| && s.pushes[u].phase.Admitted? && s.pushes[u].phase.sid in s.services
    case Learn(u) =>
      && u < |s.pushes| && s.pushes[u].phase.Waiting? && s.pushes[u].phase.sid in s.services
      && (var svc := s.services[s.pushes[u].phase.sid];
          s.pushes[u].phase.pid < |svc.promises| && svc.promises[s.pushes[u].phase.pid].result.Some?)
  }

  /** The transition that Request makes on its service: all rows appended, or none. */
  function RequestOf(p: Push, accepted: bool): Op {
    if !accepted then Refuse(p.rows, p.size)
    else if p.rows == [] then AcceptNothing(p.size) else Accept(p.rows, p.size)
  }

  function OnService(s: System, sid: Sid, op: Op, cfg: Config): System
    requires sid in s.services
  {
    s.(services := s.services[sid := Apply(s.services[sid], op, cfg.maxQueueSize)])
  }

  function Next(s: System, step: Step, cfg: Config): System
    requires CanStep(s, step, cfg)
  {
    match step
    case ServiceStep(sid, op) => OnService(s, sid, op, cfg)
    case AddService(sid) => s.(services := s.services[sid := NewService()])
    case NewHandler => s.(handlers := s.handlers + [Handler([], [], Parsing)])
    case Consume(h, ask) =>
      var more := PushesFor(ask, cfg);
      var hd := s.handlers[h];
      s.(pushes := s.pushes + more,
         handlers := s.handlers[h := hd.(asked := hd.asked + [ask], pushes := hd.pushes + Range(|s.pushes|, |more|))])
    case ParseError(h) => s.(handlers := s.handlers[h := s.handlers[h].(stage := Returned(false))])
    case Close(h) => s.(handlers := s.handlers[h := s.handlers[h].(stage := Joining(0))])
    case Join(h) =>
      var hd := s.handlers[h];
      var i := hd.stage.next;
      var stage :=
        if i >= |hd.pushes| then Returned(true)
        else if s.pushes[hd.pushes[i]].phase.ok then Joining(i + 1) else Returned(false);
      s.(handlers := s.handlers[h := hd.(stage := stage)])
    case Check(u, sid) =>
      var p := s.pushes[u];
      if s.services[sid].running then s.(pushes := s.pushes[u := p.(phase := Admitted(sid))])
      else OnService(s, sid, Reject(p.rows, p.size), cfg).(pushes := s.pushes[u := AttemptFailed(p)])
    case Locked(u, accepted) =>
      var p := s.pushes[u];
      var sid := p.phase.sid;
      OnService(s, sid, RequestOf(p, accepted), cfg)
        .(pushes := s.pushes[u := p.(phase := Waiting(sid, |s.services[sid].promises|))])
    case Learn(u) =>
      var p := s.pushes[u];
      var ok := s.services[p.phase.sid].promises[p.phase.pid].result.value;
      s.(pushes := s.pushes[u := if ok then p.(phase := Finished(true)) else AttemptFailed(p)])
  }

  // ----- the invariant

  /** Every row is in a batch that some service's client.Do accepted. */
  ghost predicate StoredSomewhere(services: map<Sid, Service>, row: Row) {
    exists sid :: sid in services && InBatch(services[sid].committed, row)
  }

  ghost predicate AllStored(services: map<Sid, Service>, rows: seq<Row>) {
    forall i :: 0 <= i < |rows| ==> StoredSomewhere(services, rows[i])
  }

  ghost predicate PushOk(services: map<Sid, Service>, p: Push) {
    match p.phase
    case Waiting(sid, pid) =>
      sid in services && pid < |services[sid].promises| && services[sid].promises[pid].rows == p.rows
    case Finished(ok) => ok ==> AllStored(services, p.rows)
    case _ => true
  }

  /** Some push of the handler carries the row. */
  ghost predicate Carried(pushes: seq<Push>, us: seq<nat>, row: Row) {
    exists i :: 0 <= i < |us| && us[i] < |pushes| && row in pushes[us[i]].rows
  }

  /** The rows that an ask wants stored: none when its service is absent. */
  function Wanted(ask: Ask): seq<Row> {
    if ask.Single? && ask.pool.None? then [] else ask.rows
  }

  ghost predicate Covered(pushes: seq<Push>, us: seq<nat>, ask: Ask) {
    forall i :: 0 <= i < |Wanted(ask)| ==> Carried(pushes, us, Wanted(ask)[i])
  }

  ghost predicate Succeeded(pushes: seq<Push>, us: seq<nat>, n: nat) {
    forall i :: 0 <= i < n && i < |us| ==> us[i] < |pushes| && pushes[us[i]].phase == Finished(true)
  }

  ghost predicate HandlerOk(pushes: seq<Push>, h: Handler) {
    && (forall i :: 0 <= i < |h.pushes| ==> h.pushes[i] < |pushes|)
    && (forall i :: 0 <= i < |h.asked| ==> Covered(pushes, h.pushes, h.asked[i]))
    && (h.stage.Joining? ==> Succeeded(pushes, h.pushes, h.stage.next))
    && (h.stage == Returned(true) ==> Succeeded(pushes, h.pushes, |h.pushes|))
  }

  ghost predicate ServicesOk(s: System, cfg: Config) {
    forall sid :: sid in s.services ==> Inv(s.services[sid], cfg.maxQueueSize)
  }

  ghost predicate SystemOk(s: System, cfg: Config) {
    && ServicesOk(s, cfg)
    && (forall u :: 0 <= u < |s.pushes| ==> PushOk(s.services, s.pushes[u]))
    && (forall h :: 0 <= h < |s.handlers| ==> HandlerOk(s.pushes, s.handlers[h]))
  }

  // ----- what a step can change

  /** Services only gain promises and batches. */
  ghost predicate ServicesGrow(a: map<Sid, Service>, b: map<Sid, Service>) {
    forall sid :: sid in a ==>
      sid in b && Extends(a[sid].promises, b[sid].promises) && a[sid].committed <= b[sid].committed
  }

  lemma {:induction false} StoredGrowsToo(a: map<Sid, Service>, b: map<Sid, Service>, rows: seq<Row>)
    requires ServicesGrow(a, b) && AllStored(a, rows)
    ensures AllStored(b, rows)
  {
    forall i | 0 <= i < |rows| ensures StoredSomewhere(b, rows[i]) {
      assert StoredSomewhere(a, rows[i]);
      var sid :| sid in a && InBatch(a[sid].committed, rows[i]);
      var k :| 0 <= k < |a[sid].committed| && rows[i] in a[sid].committed[k];
      assert b[sid].committed[k] == a[sid].committed[k];
      assert InBatch(b[sid].committed, rows[i]);
    }
  }

  lemma {:induction false} PushStaysOk(a: map<Sid, Service>, b: map<Sid, Service>, p: Push)
    requires ServicesGrow(a, b) && PushOk(a, p)
    ensures PushOk(b, p)
  {
    if p.phase == Finished(true) {
      StoredGrowsToo(a, b, p.rows);
    }
  }

  /** Pushes keep their rows, and a finished push stays as it is. */
  ghost predicate PushesGrow(a: seq<Push>, b: seq<Push>) {
    |a| <= |b| && forall u {:trigger a[u]} {:trigger b[u]} :: 0 <= u < |a| ==>
      b[u].rows == a[u].rows && (a[u].phase.Finished? ==> b[u] == a[u])
  }

  lemma {:induction false} HandlerStaysOk(a: seq<Push>, b: seq<Push>, h: Handler)
    requires PushesGrow(a, b) && HandlerOk(a, h)
    ensures HandlerOk(b, h)
  {
    forall i | 0 <= i < |h.asked| ensures Covered(b, h.pushes, h.asked[i]) {
      CoverageGrows(a, b, h.pushes, h.pushes, h.asked[i]);
    }
  }

  lemma {:induction false} CoverageGrows(a: seq<Push>, b: seq<Push>, us: seq<nat>, vs: seq<nat>, ask: Ask)
    requires PushesGrow(a, b) && us <= vs && Covered(a, us, ask)
    ensures Covered(b, vs, ask)
  {
    var rows := Wanted(ask);
    forall i | 0 <= i < |rows| ensures Carried(b, vs, rows[i]) {
      assert Carried(a, us, rows[i]);
      var j :| 0 <= j < |us| && us[j] < |a| && rows[i] in a[us[j]].rows;
      assert vs[j] == us[j] && b[us[j]].rows == a[us[j]].rows;
    }
  }

  lemma {:induction false} ServiceStepGrows(s: System, sid: Sid, op: Op, cfg: Config)
    requires sid in s.services
    ensures ServicesGrow(s.services, OnService(s, sid, op, cfg).services)
  {
    ResolvedOnce(s.services[sid], op, cfg.maxQueueSize);
  }

  lemma {:induction false} ServiceStepOk(s: System, sid: Sid, op: Op, cfg: Config)
    requires SystemOk(s, cfg) && sid in s.services && Enabled(s.services[sid], op)
    ensures SystemOk(OnService(s, sid, op, cfg), cfg)
  {
    var t := OnService(s, sid, op, cfg);
    ServiceStepGrows(s, sid, op, cfg);
    StepKeepsInv(s.services[sid], op, cfg.maxQueueSize);
    forall u | 0 <= u < |s.pushes| ensures PushOk(t.services, s.pushes[u]) {
      PushStaysOk(s.services, t.services, s.pushes[u]);
    }
  }

  lemma {:induction false} AddServiceOk(s: System, sid: Sid, cfg: Config)
    requires SystemOk(s, cfg) && sid !in s.services
    ensures SystemOk(s.(services := s.services[sid := NewService()]), cfg)
  {
    var b := s.services[sid := NewService()];
    forall u | 0 <= u < |s.pushes| ensures PushOk(b, s.pushes[u]) {
      PushStaysOk(s.services, b, s.pushes[u]);
    }
  }

  /** Changing one unfinished push, rows kept, leaves everything else in order. */
  lemma {:induction false} PushStepOk(s: System, u: nat, p: Push, cfg: Config)
    requires SystemOk(s, cfg) && u < |s.pushes| && !s.pushes[u].phase.Finished?
    requires p.rows == s.pushes[u].rows && PushOk(s.services, p)
    ensures SystemOk(s.(pushes := s.pushes[u := p]), cfg)
  {
    var b := s.pushes[u := p];
    assert PushesGrow(s.pushes, b);
    forall h | 0 <= h < |s.handlers| ensures HandlerOk(b, s.handlers[h]) {
      HandlerStaysOk(s.pushes, b, s.handlers[h]);
    }
  }

  // ----- the parts of a request cover it

  lemma {:induction false} PartsCarry(rows: seq<Row>, pools: seq<set<Sid>>, m: nat, cfg: Config, row: Row)
    requires m <= |pools| && row in rows && ShardIndex(cfg.fingerprint(row), |pools|) < m
    ensures exists j :: 0 <= j < |PartPushes(rows, pools, m, cfg)| && row in PartPushes(rows, pools, m, cfg)[j].rows
  {
    var s := ShardIndex(cfg.fingerprint(row), |pools|);
    var init := PartPushes(rows, pools, m - 1, cfg);
    var all := PartPushes(rows, pools, m, cfg);
    if s == m - 1 {
      PartMembership(rows, cfg.fingerprint, s, |pools|, row);
      assert row in all[|init|].rows;
    } else {
      PartsCarry(rows, pools, m - 1, cfg, row);
      var j :| 0 <= j < |init| && row in init[j].rows;
      assert all[j] == init[j];
    }
  }

  lemma {:induction false} AskCarried(ask: Ask, cfg: Config, row: Row)
    requires row in Wanted(ask) && (ask.Sharded? ==> |ask.pools| > 0)
    ensures exists j :: 0 <= j < |PushesFor(ask, cfg)| && row in PushesFor(ask, cfg)[j].rows
  {
    if ask.Sharded? {
      PartsCarry(ask.rows, ask.pools, |ask.pools|, cfg, row);
      var parts := PartPushes(ask.rows, ask.pools, |ask.pools|, cfg);
      var j :| 0 <= j < |parts| && row in parts[j].rows;
      assert row in PushesFor(ask, cfg)[j].rows;
    } else {
      assert row in PushesFor(ask, cfg)[0].rows;
    }
  }

  lemma {:induction false} ConsumeCovers(pushes: seq<Push>, us: seq<nat>, ask: Ask, cfg: Config)
    requires ask.Sharded? ==> |ask.pools| > 0
    ensures var more := PushesFor(ask, cfg);
            Covered(pushes + more, us + Range(|pushes|, |more|), ask)
  {
    var more := PushesFor(ask, cfg);
    var all, vs := pushes + more, us + Range(|pushes|, |more|);
    var rows := Wanted(ask);
    forall i | 0 <= i < |rows| ensures Carried(all, vs, rows[i]) {
      AskCarried(ask, cfg, rows[i]);
      var j :| 0 <= j < |more| && rows[i] in more[j].rows;
      assert vs[|us| + j] == |pushes| + j && all[|pushes| + j] == more[j];
    }
  }

  lemma {:induction false} PartPushesFresh(rows: seq<Row>, pools: seq<set<Sid>>, m: nat, cfg: Config)
    requires m <= |pools|
    ensures forall j :: 0 <= j < |PartPushes(rows, pools, m, cfg)| ==> PartPushes(rows, pools, m, cfg)[j].phase.Ready?
  {
    if m > 0 {
      PartPushesFresh(rows, pools, m - 1, cfg);
    }
  }

  lemma {:induction false} NewPushesOk(services: map<Sid, Service>, ask: Ask, cfg: Config)
    ensures forall j :: 0 <= j < |PushesFor(ask, cfg)| ==> PushOk(services, PushesFor(ask, cfg)[j])
  {
    if ask.Sharded? {
      PartPushesFresh(ask.rows, ask.pools, |ask.pools|, cfg);
    }
  }

  lemma {:induction false} ConsumeOk(s: System, h: nat, ask: Ask, cfg: Config)
    requires SystemOk(s, cfg) && CanStep(s, Consume(h, ask), cfg)
    ensures SystemOk(Next(s, Consume(h, ask), cfg), cfg)
  {
    var t := Next(s, Consume(h, ask), cfg);
    var more := PushesFor(ask, cfg);
    NewPushesOk(s.services, ask, cfg);
    assert PushesGrow(s.pushes, t.pushes);
    forall g | 0 <= g < |s.handlers| ensures HandlerOk(t.pushes, t.handlers[g]) {
      if g == h {
        ConsumedHandlerOk(s.pushes, s.handlers[h], ask, cfg);
      } else {
        HandlerStaysOk(s.pushes, t.pushes, s.handlers[g]);
      }
    }
  }

  lemma {:induction false} ConsumedHandlerOk(pushes: seq<Push>, hd: Handler, ask: Ask, cfg: Config)
    requires HandlerOk(pushes, hd) && hd.stage.Parsing? && (ask.Sharded? ==> |ask.pools| > 0)
    ensures var more := PushesFor(ask, cfg);
            HandlerOk(pushes + more, hd.(asked := hd.asked + [ask], pushes := hd.pushes + Range(|pushes|, |more|)))
  {
    var more := PushesFor(ask, cfg);
    var all, vs := pushes + more, hd.pushes + Range(|pushes|, |more|);
    assert PushesGrow(pushes, all);
    forall i | 0 <= i < |hd.asked + [ask]| ensures Covered(all, vs, (hd.asked + [ask])[i]) {
      if i < |hd.asked| {
        CoverageGrows(pushes, all, hd.pushes, vs, hd.asked[i]);
      } else {
        ConsumeCovers(pushes, hd.pushes, ask, cfg);
      }
    }
  }

  // ----- every step keeps the invariant

  lemma {:induction false} LearnOk(s: System, u: nat, cfg: Config)
    requires SystemOk(s, cfg) && CanStep(s, Learn(u), cfg)
    ensures SystemOk(Next(s, Learn(u), cfg), cfg)
  {
    var p := s.pushes[u];
    var svc := s.services[p.phase.sid];
    assert PushOk(s.services, p);
    if svc.promises[p.phase.pid].result.value {
      assert Inv(svc, cfg.maxQueueSize);
      forall i | 0 <= i < |p.rows| ensures StoredSomewhere(s.services, p.rows[i]) {
        assert InBatch(svc.committed, p.rows[i]);
      }
      PushStepOk(s, u, p.(phase := Finished(true)), cfg);
    } else {
      PushStepOk(s, u, AttemptFailed(p), cfg);
    }
  }

  lemma {:induction false} CheckOk(s: System, u: nat, sid: Sid, cfg: Config)
    requires SystemOk(s, cfg) && CanStep(s, Check(u, sid), cfg)
    ensures SystemOk(Next(s, Check(u, sid), cfg), cfg)
  {
    var p := s.pushes[u];
    if s.services[sid].running {
      PushStepOk(s, u, p.(phase := Admitted(sid)), cfg);
    } else {
      ServiceStepOk(s, sid, Reject(p.rows, p.size), cfg);
      PushStepOk(OnService(s, sid, Reject(p.rows, p.size), cfg), u, AttemptFailed(p), cfg);
    }
  }

  lemma {:induction false} LockedOk(s: System, u: nat, accepted: bool, cfg: Config)
    requires SystemOk(s, cfg) && CanStep(s, Locked(u, accepted), cfg)
    ensures SystemOk(Next(s, Locked(u, accepted), cfg), cfg)
  {
    var p := s.pushes[u];
    var sid := p.phase.sid;
    var op := RequestOf(p, accepted);
    ServiceStepOk(s, sid, op, cfg);
    RequestMade(s.services[sid], p, accepted, cfg);
    var t := OnService(s, sid, op, cfg);
    var waiting := p.(phase := Waiting(sid, |s.services[sid].promises|));
    assert PushOk(t.services, waiting);
    PushStepOk(t, u, waiting, cfg);
  }

  /** The promise that a request gets stands for the rows of the push. */
  lemma {:induction false} RequestMade(svc: Service, p: Push, accepted: bool, cfg: Config)
    ensures var t := Apply(svc, RequestOf(p, accepted), cfg.maxQueueSize);
            |t.promises| == |svc.promises| + 1 && t.promises[|svc.promises|].rows == p.rows
  {
  }

  lemma {:induction false} JoinOk(s: System, h: nat, cfg: Config)
    requires SystemOk(s, cfg) && CanStep(s, Join(h), cfg)
    ensures SystemOk(Next(s, Join(h), cfg), cfg)
  {
    assert HandlerOk(s.pushes, s.handlers[h]);
  }

  lemma {:induction false} StageOk(s: System, step: Step, cfg: Config)
    requires SystemOk(s, cfg) && CanStep(s, step, cfg)
    requires step.NewHandler? || step.ParseError? || step.Close?
    ensures SystemOk(Next(s, step, cfg), cfg)
  {
  }

  /** Every step of every party keeps the invariant. */
  lemma {:induction false} StepOk(s: System, step: Step, cfg: Config)
    requires SystemOk(s, cfg) && CanStep(s, step, cfg)
    ensures SystemOk(Next(s, step, cfg), cfg)
  {
    match step {
      case ServiceStep(sid, op) => ServiceStepOk(s, sid, op, cfg);
      case AddService(sid) => AddServiceOk(s, sid, cfg);
      case Consume(h, ask) => ConsumeOk(s, h, ask, cfg);
      case Join(h) => JoinOk(s, h, cfg);
      case Check(u, sid) => CheckOk(s, u, sid, cfg);
      case Locked(u, accepted) => LockedOk(s, u, accepted, cfg);
      case Learn(u) => LearnOk(s, u, cfg);
      case _ => StageOk(s, step, cfg);
    }
  }

  /** The start: any number of new services, no handler yet. */
  ghost predicate Initial(s: System) {
    && (forall sid :: sid in s.services ==> s.services[sid] == NewService())
    && s.pushes == [] && s.handlers == []
  }

  /** Any interleaving of steps. */
  ghost predicate IsHistory(states: seq<System>, steps: seq<Step>, cfg: Config) {
    && |states| == |steps| + 1 && Initial(states[0])
    && forall i {:trigger steps[i]} :: 0 <= i < |steps| ==>
         CanStep(states[i], steps[i], cfg) && states[i + 1] == Next(states[i], steps[i], cfg)
  }

  lemma {:induction false} HistoryOk(states: seq<System>, steps: seq<Step>, cfg: Config, i: nat)
    requires IsHistory(states, steps, cfg) && i < |states|
    ensures SystemOk(states[i], cfg)
  {
    if i > 0 {
      HistoryOk(states, steps, cfg, i - 1);
      assert CanStep(states[i - 1], steps[i - 1], cfg);
      StepOk(states[i - 1], steps[i - 1], cfg);
    }
  }

  /** Acknowledgement soundness: in every interleaving of handlers, retries, flushes, failures
      and stops, when doParse has returned nil, every row of every request it took from the
      parser, unless that request had no service at all, is in a batch that client.Do took. */
  lemma {:induction false} AckSound(states: seq<System>, steps: seq<Step>, cfg: Config, i: nat, h: nat, a: nat, row: Row)
    requires IsHistory(states, steps, cfg) && i < |states|
    requires h < |states[i].handlers| && states[i].handlers[h].stage == Returned(true)
    requires a < |states[i].handlers[h].asked| && row in Wanted(states[i].handlers[h].asked[a])
    ensures StoredSomewhere(states[i].services, row)
  {
    var s := states[i];
    var hd := s.handlers[h];
    HistoryOk(states, steps, cfg, i);
    assert HandlerOk(s.pushes, hd);
    var rows := Wanted(hd.asked[a]);
    var r :| 0 <= r < |rows| && rows[r] == row;
    assert Covered(s.pushes, hd.pushes, hd.asked[a]);
    assert Carried(s.pushes, hd.pushes, rows[r]);
    var j :| 0 <= j < |hd.pushes| && hd.pushes[j] < |s.pushes| && row in s.pushes[hd.pushes[j]].rows;
    assert PushOk(s.services, s.pushes[hd.pushes[j]]);
  }
}
