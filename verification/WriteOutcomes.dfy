/** Why a request handler fails: over every interleaving, doParse returns an error only for a parse
    error or a push that has used up its attempts, and returns nil once all its pushes succeeded. */
module WriteOutcomes {
  import opened Sequences
  import opened InsertService
  import opened WritePath

  // ----- attempts of a push

  /** The step is a failed attempt of push u: its service was not running, or the promise it got was
      resolved with an error. */
  ghost predicate FailsNow(s: System, step: Step, u: nat) {
    match step
    case Check(v, sid) => v == u && sid in s.services && !s.services[sid].running
    case Learn(v) =>
      && v == u && u < |s.pushes| && s.pushes[u].phase.Waiting? && s.pushes[u].phase.sid in s.services
      && (var svc := s.services[s.pushes[u].phase.sid];
          s.pushes[u].phase.pid < |svc.promises| && svc.promises[s.pushes[u].phase.pid].result == Some(false))
    case _ => false
  }

  /** Its failed attempts before step i. */
  ghost function Failures(states: seq<System>, steps: seq<Step>, u: nat, i: nat): nat
    requires i <= |steps| < |states|
  {
    if i == 0 then 0
    else Failures(states, steps, u, i - 1) + if FailsNow(states[i - 1], steps[i - 1], u) then 1 else 0
  }

  ghost predicate Fresh(p: Push, attempts: nat) {
    p.left == attempts && p.phase.Ready?
  }

  lemma {:induction false} PartsFresh(rows: seq<Row>, pools: seq<set<Sid>>, m: nat, cfg: Config, j: nat)
    requires m <= |pools| && j < |PartPushes(rows, pools, m, cfg)|
    ensures Fresh(PartPushes(rows, pools, m, cfg)[j], cfg.attempts)
  {
    if j < |PartPushes(rows, pools, m - 1, cfg)| {
      PartsFresh(rows, pools, m - 1, cfg, j);
    }
  }

  lemma {:induction false} PushesFresh(ask: Ask, cfg: Config, j: nat)
    requires j < |PushesFor(ask, cfg)|
    ensures Fresh(PushesFor(ask, cfg)[j], cfg.attempts)
  {
    if ask.Sharded? {
      PartsFresh(ask.rows, ask.pools, |ask.pools|, cfg, j);
    }
  }

  /** What one step makes of a push that is there already. */
  lemma {:induction false} PushStep(s: System, step: Step, cfg: Config, u: nat)
    requires CanStep(s, step, cfg) && u < |s.pushes|
    ensures var t := Next(s, step, cfg);
            && u < |t.pushes|
            && (if FailsNow(s, step, u) then t.pushes[u] == AttemptFailed(s.pushes[u]) && !s.pushes[u].phase.Finished?
                else t.pushes[u].left == s.pushes[u].left &&
                     (t.pushes[u].phase == Finished(false) <==> s.pushes[u].phase == Finished(false)))
  {
  }

  lemma {:induction false} NewPush(s: System, step: Step, cfg: Config, u: nat)
    requires CanStep(s, step, cfg) && |s.pushes| <= u
    ensures !FailsNow(s, step, u) && |s.pushes| <= |Next(s, step, cfg).pushes|
    ensures u < |Next(s, step, cfg).pushes| ==> Fresh(Next(s, step, cfg).pushes[u], cfg.attempts)
  {
    if step.Consume? && u < |Next(s, step, cfg).pushes| {
      PushesFresh(step.ask, cfg, u - |s.pushes|);
    }
  }

  lemma {:induction false} NoFailuresBefore(states: seq<System>, steps: seq<Step>, cfg: Config, u: nat, i: nat)
    requires IsHistory(states, steps, cfg) && i <= |steps| && |states[i].pushes| <= u
    ensures Failures(states, steps, u, i) == 0
  {
    if i > 0 {
      var s, step := states[i - 1], steps[i - 1];
      assert CanStep(s, step, cfg) && states[i] == Next(s, step, cfg);
      if u < |s.pushes| {
        PushStep(s, step, cfg, u);
      }
      NewPush(s, step, cfg, u);
      NoFailuresBefore(states, steps, cfg, u, i - 1);
    }
  }

  /** Every failed attempt costs a push one of its attempts, and it fails exactly when it has none
      left: after as many failed attempts as it may make, and not before. */
  lemma {:induction false} FailsAfterAttempts(states: seq<System>, steps: seq<Step>, cfg: Config, u: nat, i: nat)
    requires IsHistory(states, steps, cfg) && cfg.attempts >= 1 && i <= |steps| && u < |states[i].pushes|
    ensures Failures(states, steps, u, i) + states[i].pushes[u].left == cfg.attempts
    ensures states[i].pushes[u].phase == Finished(false) <==> Failures(states, steps, u, i) == cfg.attempts
  {
    assert i > 0;
    var s, step := states[i - 1], steps[i - 1];
    assert CanStep(s, step, cfg) && states[i] == Next(s, step, cfg);
    if u < |s.pushes| {
      FailsAfterAttempts(states, steps, cfg, u, i - 1);
      PushStep(s, step, cfg, u);
    } else {
      NewPush(s, step, cfg, u);
      NoFailuresBefore(states, steps, cfg, u, i - 1);
    }
  }

  // ----- what a handler returns

  ghost predicate SomeFailed(pushes: seq<Push>, us: seq<nat>) {
    exists k :: 0 <= k < |us| && us[k] < |pushes| && pushes[us[k]].phase == Finished(false)
  }

  ghost predicate ParseFailed(steps: seq<Step>, h: nat, i: nat)
    requires i <= |steps|
  {
    exists j :: 0 <= j < i && steps[j] == ParseError(h)
  }

  lemma {:induction false} FailedStays(s: System, step: Step, cfg: Config, us: seq<nat>, vs: seq<nat>)
    requires CanStep(s, step, cfg) && SomeFailed(s.pushes, us) && us <= vs
    ensures SomeFailed(Next(s, step, cfg).pushes, vs)
  {
    var k :| 0 <= k < |us| && us[k] < |s.pushes| && s.pushes[us[k]].phase == Finished(false);
    PushStep(s, step, cfg, us[k]);
    assert vs[k] == us[k];
  }

  /** One step on a handler: how it comes to return an error. */
  lemma {:induction false} HandlerStep(s: System, step: Step, cfg: Config, h: nat)
    requires CanStep(s, step, cfg) && h < |Next(s, step, cfg).handlers|
    requires Next(s, step, cfg).handlers[h].stage == Returned(false)
    ensures h < |s.handlers|
    ensures || step == ParseError(h)
            || (s.handlers[h] == Next(s, step, cfg).handlers[h])
            || SomeFailed(Next(s, step, cfg).pushes, Next(s, step, cfg).handlers[h].pushes)
  {
  }

  /** A handler returns an error only when the parser reported one or one of its pushes has failed. */
  lemma {:induction false} FailureHasCause(states: seq<System>, steps: seq<Step>, cfg: Config, i: nat, h: nat)
    requires IsHistory(states, steps, cfg) && i <= |steps|
    requires h < |states[i].handlers| && states[i].handlers[h].stage == Returned(false)
    ensures ParseFailed(steps, h, i) || SomeFailed(states[i].pushes, states[i].handlers[h].pushes)
  {
    if i > 0 {
      var s, step := states[i - 1], steps[i - 1];
      assert CanStep(s, step, cfg) && states[i] == Next(s, step, cfg);
      HandlerStep(s, step, cfg, h);
      if step != ParseError(h) && s.handlers[h] == states[i].handlers[h] {
        FailureHasCause(states, steps, cfg, i - 1, h);
        if ParseFailed(steps, h, i - 1) {
          var j :| 0 <= j < i - 1 && steps[j] == ParseError(h);
        } else {
          FailedStays(s, step, cfg, s.handlers[h].pushes, states[i].handlers[h].pushes);
        }
      }
    }
  }

  /** m looks at the next promises, one after the other. */
  ghost predicate Joins(states: seq<System>, cfg: Config, h: nat, m: nat) {
    && |states| == m + 1
    && forall i {:trigger states[i]} :: 0 <= i < m ==>
         CanStep(states[i], Join(h), cfg) && states[i + 1] == Next(states[i], Join(h), cfg)
  }

  /** Once all pushes of a handler that joins them have succeeded, nothing keeps it from looking at
      those that are left, and then it returns nil. */
  lemma {:induction false} JoinSucceeds(s: System, cfg: Config, h: nat) returns (states: seq<System>)
    requires h < |s.handlers| && s.handlers[h].stage.Joining? && s.handlers[h].stage.next <= |s.handlers[h].pushes|
    requires Succeeded(s.pushes, s.handlers[h].pushes, |s.handlers[h].pushes|)
    ensures var m := |s.handlers[h].pushes| - s.handlers[h].stage.next + 1;
            && Joins(states, cfg, h, m) && states[0] == s
            && states[m] == s.(handlers := s.handlers[h := s.handlers[h].(stage := Returned(true))])
    decreases |s.handlers[h].pushes| - s.handlers[h].stage.next
  {
    var hd := s.handlers[h];
    var t := Next(s, Join(h), cfg);
    if hd.stage.next == |hd.pushes| {
      states := [s, t];
    } else {
      assert t == s.(handlers := s.handlers[h := hd.(stage := Joining(hd.stage.next + 1))]);
      var rest := JoinSucceeds(t, cfg, h);
      states := [s] + rest;
      var m := |hd.pushes| - hd.stage.next + 1;
      forall i | 0 <= i < m
        ensures CanStep(states[i], Join(h), cfg) && states[i + 1] == Next(states[i], Join(h), cfg)
      {
        if i > 0 {
          assert states[i] == rest[i - 1] && states[i + 1] == rest[i];
        }
      }
      assert states[m] == rest[m - 1];
    }
  }
}
