/** Schema upgrades: numbered scripts per stream, run in order, with the version recorded in the
    database after each one. */
module Migration {

  /** One execution of a script that reached the database; ok when it succeeded. */
  datatype Attempt = Attempt(script: nat, ok: bool)

  /** One stream: the versions in its rows of the ver table, and the executions so far. */
  datatype Stream = Stream(versions: seq<nat>, tries: seq<Attempt>)

  /** The database, by the number k of the stream. */
  type Db = map<int, Stream>

  function StreamOf(db: Db, k: int): Stream {
    if k in db then db[k] else Stream([], [])
  }

  /** What executing a script can do. Unsent: it never reached the database. */
  datatype ExecReply = Done | Unsent | Broken

  /** What recording a version can do: an error does not tell whether the row was stored. */
  datatype RecordReply = Stored | StoredButFailed | Lost

  /** What the database answers during one upgrade; ready is false when the ver table cannot be
      created or read. An interruption of the process is the failing reply it leaves behind. */
  datatype Replies = Replies(ready: bool, exec: nat -> ExecReply, record: nat -> RecordReply)

  /** SELECT max(ver), which answers 0 for no rows. */
  function MaxVer(versions: seq<nat>): nat {
    if versions == [] then 0
    else
      var rest := MaxVer(versions[..|versions| - 1]);
      if versions[|versions| - 1] > rest then versions[|versions| - 1] else rest
  }

  /** The version an upgrade starts from: negative streams are not looked up. */
  function FromVersion(db: Db, k: int): nat {
    if k >= 0 then MaxVer(StreamOf(db, k).versions) else 0
  }

  /** What script i adds to the executions, and then to the ver table. */
  function Logged(i: nat, replies: Replies): seq<Attempt> {
    if replies.exec(i) == Unsent then [] else [Attempt(i, replies.exec(i) == Done)]
  }

  function Recorded(i: nat, replies: Replies): seq<nat> {
    if replies.exec(i) == Done && replies.record(i) != Lost then [i + 1] else []
  }

  predicate Succeeds(i: nat, replies: Replies) {
    replies.exec(i) == Done && replies.record(i) == Stored
  }

  datatype Progress = Progress(s: Stream, failed: bool)

  /** Script i: execute, then record version i + 1. */
  function OneScript(s: Stream, i: nat, replies: Replies): Progress {
    Progress(Stream(s.versions + Recorded(i, replies), s.tries + Logged(i, replies)), !Succeeds(i, replies))
  }

  /** The scripts from..n, stopping at the first failure. */
  function Scripts(s: Stream, from: nat, n: nat, replies: Replies): Progress
    decreases n
  {
    if n <= from then Progress(s, false)
    else
      var p := Scripts(s, from, n - 1, replies);
      if p.failed then p else OneScript(p.s, n - 1, replies)
  }

  /** The database after an upgrade, and whether it failed. */
  datatype Result = Result(db: Db, failed: bool)

  /** updateScripts for stream k with n scripts. */
  function Upgrade(db: Db, k: int, n: nat, replies: Replies): Result {
    if !replies.ready then Result(db, true)
    else
      var p := Scripts(StreamOf(db, k), FromVersion(db, k), n, replies);
      Result(db[k := p.s], p.failed)
  }

  lemma {:induction false} FailureStays(s: Stream, from: nat, i: nat, n: nat, replies: Replies)
    requires i <= n && Scripts(s, from, i, replies).failed
    ensures Scripts(s, from, n, replies) == Scripts(s, from, i, replies)
  {
    if i < n {
      FailureStays(s, from, i, n - 1, replies);
    }
  }

  class Database {
    var streams: map<int, Stream>

    constructor ()
      ensures streams == map[]
    {
      streams := map[];
    }

    method MaxVersion(k: int) returns (ver: nat)
      ensures ver == MaxVer(StreamOf(streams, k).versions)
    {
      var rows := StreamOf(streams, k).versions;
      ver := 0;
      for i := 0 to |rows|
        invariant ver == MaxVer(rows[..i])
      {
        assert rows[..i + 1][..i] == rows[..i];
        if rows[i] > ver {
          ver := rows[i];
        }
      }
      assert rows[..|rows|] == rows;
    }

    /** Executes script i and, if that succeeds, records version i + 1. */
    method RunScript(k: int, i: nat, replies: Replies) returns (failed: bool)
      modifies this
      ensures var p := OneScript(StreamOf(old(streams), k), i, replies);
              StreamOf(streams, k) == p.s && failed == p.failed
      ensures forall j :: j != k ==> StreamOf(streams, j) == StreamOf(old(streams), j)
    {
      var s := StreamOf(streams, k);
      var reply := replies.exec(i);
      if reply != Unsent {
        s := s.(tries := s.tries + [Attempt(i, reply == Done)]);
      }
      failed := reply != Done;
      if !failed {
        var recorded := replies.record(i);
        if recorded != Lost {
          s := s.(versions := s.versions + [i + 1]);
        }
        failed := recorded != Stored;
      }
      streams := streams[k := s];
      assert StreamOf(old(streams), k).tries + [] == StreamOf(old(streams), k).tries;
      assert StreamOf(old(streams), k).versions + [] == StreamOf(old(streams), k).versions;
    }

    /** The version loop. */
    method UpdateScripts(k: int, scripts: seq<string>, replies: Replies) returns (failed: bool)
      modifies this
      ensures var r := Upgrade(old(streams), k, |scripts|, replies);
              failed == r.failed && forall j :: StreamOf(streams, j) == StreamOf(r.db, j)
    {
      if !replies.ready {
        return true;
      }
      var ver := 0;
      if k >= 0 {
        ver := MaxVersion(k);
      }
      ghost var s0 := StreamOf(streams, k);
      var i := ver;
      while i < |scripts|
        invariant ver <= i && (i > ver ==> i <= |scripts|)
        invariant Progress(StreamOf(streams, k), false) == Scripts(s0, ver, i, replies)
        invariant forall j :: j != k ==> StreamOf(streams, j) == StreamOf(old(streams), j)
      {
        failed := RunScript(k, i, replies);
        i := i + 1;
        if failed {
          assert Scripts(s0, ver, i, replies) == Progress(StreamOf(streams, k), true);
          FailureStays(s0, ver, i, |scripts|, replies);
          forall j ensures StreamOf(streams, j) == StreamOf(Upgrade(old(streams), k, |scripts|, replies).db, j) {
            if j != k {
              assert StreamOf(streams, j) == StreamOf(old(streams), j);
            }
          }
          return;
        }
      }
      return false;
    }
  }

  // ----- one stream

  /** The attempts start at script 0; each next one repeats the script just attempted or, once
      that one has succeeded, moves on to the next. */
  predicate Ladder(tries: seq<Attempt>) {
    && (tries != [] ==> tries[0].script == 0)
    && forall j :: 0 < j < |tries| ==>
         || tries[j].script == tries[j - 1].script
         || (tries[j].script == tries[j - 1].script + 1 && tries[j - 1].ok)
  }

  /** The version recorded is the number of the script last attempted, or the next one if that
      attempt succeeded. */
  predicate Fits(tries: seq<Attempt>, ver: nat) {
    if tries == [] then ver == 0
    else
      var last := tries[|tries| - 1];
      last.script == ver || (last.script + 1 == ver && last.ok)
  }

  predicate StreamOk(s: Stream) {
    Ladder(s.tries) && Fits(s.tries, MaxVer(s.versions))
  }

  lemma {:induction false} MaxVerRecorded(versions: seq<nat>, i: nat, replies: Replies)
    requires MaxVer(versions) == i
    ensures MaxVer(versions + Recorded(i, replies)) == if Recorded(i, replies) == [] then i else i + 1
  {
    if Recorded(i, replies) == [] {
      assert versions + [] == versions;
    } else {
      assert (versions + [i + 1])[..|versions|] == versions;
    }
  }

  lemma {:induction false} OneScriptKeeps(s: Stream, i: nat, replies: Replies)
    requires StreamOk(s) && MaxVer(s.versions) == i
    ensures var p := OneScript(s, i, replies);
            && StreamOk(p.s)
            && i <= MaxVer(p.s.versions) <= i + 1 && (!p.failed ==> MaxVer(p.s.versions) == i + 1)
  {
    MaxVerRecorded(s.versions, i, replies);
    assert s.tries + [] == s.tries;
  }

  /** Scripts i up to n of a stream at version i. */
  lemma {:induction false} ScriptsKeep(s: Stream, v: nat, n: nat, replies: Replies)
    requires StreamOk(s) && MaxVer(s.versions) == v <= n
    ensures var p := Scripts(s, v, n, replies);
            && StreamOk(p.s) && v <= MaxVer(p.s.versions) <= n
            && (!p.failed ==> MaxVer(p.s.versions) == n)
  {
    if v < n {
      ScriptsKeep(s, v, n - 1, replies);
      var p := Scripts(s, v, n - 1, replies);
      if !p.failed {
        OneScriptKeeps(p.s, n - 1, replies);
      }
    }
  }

  function Version(db: Db, k: int): nat {
    MaxVer(StreamOf(db, k).versions)
  }

  /** No upgrade lowers any stream's version, and other streams are not touched; one that
      completes leaves its own stream at the script count, or where it was if that is higher. */
  lemma {:induction false} UpgradeMovesOn(db: Db, k: int, n: nat, replies: Replies, stream: nat)
    requires StreamOk(StreamOf(db, stream))
    ensures var r := Upgrade(db, k, n, replies);
            && StreamOk(StreamOf(r.db, stream)) && Version(db, stream) <= Version(r.db, stream)
            && (stream != k ==> StreamOf(r.db, stream) == StreamOf(db, stream))
            && (stream == k && !r.failed ==>
                  Version(r.db, k) == if n <= Version(db, k) then Version(db, k) else n)
  {
    if stream == k && Version(db, k) < n {
      ScriptsKeep(StreamOf(db, k), Version(db, k), n, replies);
    }
  }

  // ----- runs

  /** One upgrade of stream k by a program that knows n scripts. */
  datatype Run = Run(k: nat, n: nat, replies: Replies)

  function AfterRuns(runs: seq<Run>): Db {
    if runs == [] then map[]
    else
      var r := runs[|runs| - 1];
      Upgrade(AfterRuns(runs[..|runs| - 1]), r.k, r.n, r.replies).db
  }

  /** Over all sequences of upgrades, of any streams, failing anywhere, by programs that know
      any number of scripts. */
  lemma {:induction false} HistoryOk(runs: seq<Run>, stream: nat)
    ensures StreamOk(StreamOf(AfterRuns(runs), stream))
  {
    if runs != [] {
      var r := runs[|runs| - 1];
      HistoryOk(runs[..|runs| - 1], stream);
      UpgradeMovesOn(AfterRuns(runs[..|runs| - 1]), r.k, r.n, r.replies, stream);
    }
  }

  lemma {:induction false} VersionsNeverFall(runs: seq<Run>, m: nat, stream: nat)
    requires m <= |runs|
    ensures Version(AfterRuns(runs[..m]), stream) <= Version(AfterRuns(runs), stream)
  {
    if m < |runs| {
      var before := runs[..|runs| - 1];
      assert before[..m] == runs[..m];
      VersionsNeverFall(before, m, stream);
      HistoryOk(before, stream);
      var r := runs[|runs| - 1];
      UpgradeMovesOn(AfterRuns(before), r.k, r.n, r.replies, stream);
    } else {
      assert runs[..m] == runs;
    }
  }

  predicate Succeeded(tries: seq<Attempt>, s: nat) {
    exists m :: 0 <= m < |tries| && tries[m].script == s && tries[m].ok
  }

  /** A ladder reaches script s only after every earlier script has succeeded. */
  lemma {:induction false} LadderClimbs(tries: seq<Attempt>, j: nat, s: nat)
    requires Ladder(tries) && j < |tries| && s < tries[j].script
    ensures Succeeded(tries[..j], s)
  {
    var before := tries[j - 1];
    assert tries[..j][j - 1] == before;
    if s < before.script {
      LadderClimbs(tries, j - 1, s);
      var m :| 0 <= m < j - 1 && tries[..j - 1][m].script == s && tries[..j - 1][m].ok;
      assert tries[..j][m] == tries[..j - 1][m];
    }
  }

  /** No script is skipped: every script below the recorded version has succeeded. */
  lemma {:induction false} NoneSkipped(runs: seq<Run>, stream: nat, s: nat)
    requires s < Version(AfterRuns(runs), stream)
    ensures Succeeded(StreamOf(AfterRuns(runs), stream).tries, s)
  {
    HistoryOk(runs, stream);
    var tries := StreamOf(AfterRuns(runs), stream).tries;
    var last := tries[|tries| - 1];
    if s < last.script {
      LadderClimbs(tries, |tries| - 1, s);
      var m :| 0 <= m < |tries| - 1 && tries[..|tries| - 1][m].script == s && tries[..|tries| - 1][m].ok;
      assert tries[m].ok;
    } else {
      assert tries[|tries| - 1].script == s && tries[|tries| - 1].ok;
    }
  }

  /** The version is read only for streams from 0 up: on a negative stream every upgrade starts
      over from script 0, whatever was done before. */
  lemma {:induction false} NegativeStreamRepeats(db: Db, k: int, n: nat, replies: Replies)
    requires k < 0 && n > 0 && replies.ready && replies.exec(0) != Unsent
    ensures StreamOf(db, k).tries + [Attempt(0, replies.exec(0) == Done)]
            <= StreamOf(Upgrade(db, k, n, replies).db, k).tries
  {
    RestartPrefix(StreamOf(db, k), n, replies);
  }

  lemma {:induction false} RestartPrefix(s: Stream, n: nat, replies: Replies)
    requires n > 0 && replies.exec(0) != Unsent
    ensures s.tries + [Attempt(0, replies.exec(0) == Done)] <= Scripts(s, 0, n, replies).s.tries
  {
    if n == 1 {
      assert Scripts(s, 0, 0, replies) == Progress(s, false);
    } else {
      RestartPrefix(s, n - 1, replies);
    }
  }

  // ----- the whole upgrade

  /** UpdateWithReadCluster: stream after stream, up to the first failure. */
  function UpgradeAll(db: Db, streams: seq<Run>): Result {
    if streams == [] then Result(db, false)
    else
      var p := UpgradeAll(db, streams[..|streams| - 1]);
      var r := streams[|streams| - 1];
      if p.failed then p else Upgrade(p.db, r.k, r.n, r.replies)
  }

  lemma {:induction false} UpgradeAllKeeps(db: Db, streams: seq<Run>, stream: nat)
    requires StreamOk(StreamOf(db, stream))
    ensures StreamOk(StreamOf(UpgradeAll(db, streams).db, stream))
    ensures Version(db, stream) <= Version(UpgradeAll(db, streams).db, stream)
  {
    if streams != [] {
      UpgradeAllKeeps(db, streams[..|streams| - 1], stream);
      var p := UpgradeAll(db, streams[..|streams| - 1]);
      var r := streams[|streams| - 1];
      UpgradeMovesOn(p.db, r.k, r.n, r.replies, stream);
    }
  }

  /** When it reports success, every stream is at least at its script count. */
  lemma {:induction false} UpgradeAllCompletes(db: Db, streams: seq<Run>, i: nat)
    requires i < |streams| && StreamOk(StreamOf(db, streams[i].k)) && !UpgradeAll(db, streams).failed
    ensures Version(UpgradeAll(db, streams).db, streams[i].k) >= streams[i].n
  {
    var before := streams[..|streams| - 1];
    var r := streams[|streams| - 1];
    var p := UpgradeAll(db, before);
    UpgradeAllKeeps(db, before, streams[i].k);
    UpgradeMovesOn(p.db, r.k, r.n, r.replies, streams[i].k);
    if i < |before| {
      UpgradeAllCompletes(db, before, i);
    }
  }

  // ----- what one upgrade does, from the replies

  /** The database is told that script i failed, or that recording it did. */
  predicate FailsAt(i: nat, replies: Replies) {
    replies.exec(i) == Unsent || replies.exec(i) == Broken || replies.record(i) == StoredButFailed || replies.record(i) == Lost
  }

  /** m is the first of the scripts from up to n that fails, n when none does. */
  ghost predicate FirstFailure(from: nat, n: nat, replies: Replies, m: nat) {
    && (forall i :: from <= i < m ==> !FailsAt(i, replies))
    && (if m < n then from <= m && FailsAt(m, replies) else m == if from < n then n else from)
  }

  function Successes(from: nat, m: nat): (r: seq<Attempt>)
    requires from <= m
    ensures |r| == m - from && forall j :: 0 <= j < |r| ==> r[j] == Attempt(from + j, true)
  {
    seq(m - from, j requires 0 <= j => Attempt(from + j, true))
  }

  function Versions(from: nat, m: nat): (r: seq<nat>)
    requires from <= m
    ensures |r| == m - from && forall j :: 0 <= j < |r| ==> r[j] == from + j + 1
  {
    seq(m - from, j requires 0 <= j => from + j + 1)
  }

  /** What the failing script still leaves: an execution unless it was never sent, and a version if
      the row was stored in spite of the error. */
  predicate LeftBy(m: nat, replies: Replies, more: seq<Attempt>, rows: seq<nat>) {
    match replies.exec(m)
    case Unsent => more == [] && rows == []
    case Broken => more == [Attempt(m, false)] && rows == []
    case Done => more == [Attempt(m, true)] && rows == if replies.record(m) == Lost then [] else [m + 1]
  }

  ghost predicate RanTo(s: Stream, p: Progress, from: nat, n: nat, replies: Replies, m: nat,
                        more: seq<Attempt>, rows: seq<nat>) {
    && from <= m && FirstFailure(from, n, replies, m)
    && p.s.tries == s.tries + Successes(from, m) + more && p.s.versions == s.versions + Versions(from, m) + rows
    && (p.failed <==> m < n)
    && (if m < n then LeftBy(m, replies, more, rows) else more == [] && rows == [])
  }

  /** An upgrade runs the scripts from the version it read up to the first failure, records each,
      and fails exactly when there is such a failure. */
  lemma {:induction false} ScriptsRun(s: Stream, from: nat, n: nat, replies: Replies)
    returns (m: nat, more: seq<Attempt>, rows: seq<nat>)
    ensures RanTo(s, Scripts(s, from, n, replies), from, n, replies, m, more, rows)
    decreases n
  {
    if n <= from {
      m, more, rows := from, [], [];
      assert s.tries == s.tries + Successes(from, m) + more && s.versions == s.versions + Versions(from, m) + rows;
    } else {
      m, more, rows := ScriptsRun(s, from, n - 1, replies);
      var p := Scripts(s, from, n - 1, replies);
      if !p.failed {
        assert m == n - 1 && more == [] && rows == [];
        m, more, rows := OneScriptRuns(s, p, from, n, replies);
      }
    }
  }

  lemma {:induction false} OneScriptRuns(s: Stream, p: Progress, from: nat, n: nat, replies: Replies)
    returns (m: nat, more: seq<Attempt>, rows: seq<nat>)
    requires from < n && RanTo(s, p, from, n - 1, replies, n - 1, [], [])
    ensures RanTo(s, OneScript(p.s, n - 1, replies), from, n, replies, m, more, rows)
  {
    if FailsAt(n - 1, replies) {
      m, more, rows := n - 1, Logged(n - 1, replies), Recorded(n - 1, replies);
    } else {
      m, more, rows := n, [], [];
      assert Successes(from, n) == Successes(from, n - 1) + [Attempt(n - 1, true)];
      assert Versions(from, n) == Versions(from, n - 1) + [n];
    }
  }

  /** An upgrade succeeds if and only if the ver table answers and every script it runs succeeds and
      is recorded. */
  lemma {:induction false} UpgradeFailsIff(db: Db, k: int, n: nat, replies: Replies)
    ensures Upgrade(db, k, n, replies).failed <==>
            !replies.ready || exists i: nat :: FromVersion(db, k) <= i < n && FailsAt(i, replies)
  {
    if replies.ready {
      var m, more, rows := ScriptsRun(StreamOf(db, k), FromVersion(db, k), n, replies);
    }
  }

  /** The version read is the largest recorded, 0 when none is. */
  lemma {:induction false} MaxVerIsLargest(versions: seq<nat>)
    ensures forall i :: 0 <= i < |versions| ==> versions[i] <= MaxVer(versions)
    ensures if versions == [] then MaxVer(versions) == 0 else MaxVer(versions) in versions
  {
    if versions != [] {
      MaxVerIsLargest(versions[..|versions| - 1]);
    }
  }
}
