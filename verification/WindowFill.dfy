/** FixPeriodPlanner: samples aggregated per window are spread over the query's steps. */
module WindowFill {
  import opened Sequences
  import opened Arithmetic

  datatype Entry = Entry(timestampNs: int, fingerprint: nat, labels: map<string, string>, value: real)

  /** from, to, step and window length in nanoseconds. */
  datatype Grid = Grid(from: int, to: int, step: int, duration: int)

  ghost predicate GridOk(g: Grid) {
    g.step > 0 && g.duration > 0 && g.to >= g.from
  }

  /** Number of steps between from and to, both included. */
  function Slots(g: Grid): (n: nat)
    requires g.step > 0 && g.to >= g.from
    ensures n >= 1 && g.from + (n - 1) * g.step <= g.to < g.from + n * g.step
  {
    GoDiv(g.to - g.from, g.step) + 1
  }

  /** First slot of window w, before clipping; its end is the first slot of window w + 1. */
  function SlotOf(g: Grid, w: int): int
    requires g.step > 0
  {
    GoDiv(w * g.duration - g.from, g.step)
  }

  datatype Span = Nothing | Write(lo: int, hi: int)

  /** The slots that an entry of window w writes in a table of n slots. */
  function Cover(g: Grid, w: int, n: nat): Span
    requires g.step > 0
  {
    var idxFrom, idxTo := SlotOf(g, w), SlotOf(g, w + 1);
    if idxTo < 0 || idxFrom >= n then Nothing
    else
      var lo := if idxFrom < 0 then 0 else idxFrom;
      var hi := if idxTo > n then n else idxTo;
      Write(lo, if hi < lo + 1 then lo + 1 else hi)
  }

  function WindowOf(g: Grid, e: Entry): int
    requires g.duration > 0
  {
    GoDiv(e.timestampNs, g.duration)
  }

  lemma {:induction false} CoverInBounds(g: Grid, w: int, n: nat)
    requires g.step > 0 && n >= 1
    ensures Cover(g, w, n).Write? ==> 0 <= Cover(g, w, n).lo < Cover(g, w, n).hi <= n
  {
  }

  // ----- fastFill

  /** Fills v[lo..hi] by doubling the part already filled. */
  method FastFill(v: array<real>, lo: nat, hi: nat, val: real)
    requires lo < hi <= v.Length
    modifies v
    ensures forall i :: 0 <= i < v.Length ==> v[i] == if lo <= i < hi then val else old(v[i])
  {
    var n := hi - lo;
    v[lo] := val;
    var l := 1;
    while l < n
      invariant l >= 1
      invariant forall i :: 0 <= i < v.Length ==>
        v[i] == if lo <= i < hi && i < lo + l then val else old(v[i])
      decreases n - l
    {
      var count := if l < n - l then l else n - l;
      forall i | 0 <= i < count {
        v[lo + l + i] := v[lo + i];
      }
      l := l * 2;
    }
  }

  // ----- the value of a slot

  ghost predicate Covers(g: Grid, e: Entry, n: nat, i: nat)
    requires GridOk(g)
  {
    var c := Cover(g, WindowOf(g, e), n);
    c.Write? && c.lo <= i < c.hi
  }

  /** What the entries of one series leave in slot i. */
  ghost function SlotValue(g: Grid, run: seq<Entry>, n: nat, i: nat): real
    requires GridOk(g)
  {
    if run == [] then 0.0
    else if Covers(g, run[|run| - 1], n, i) then run[|run| - 1].value
    else SlotValue(g, run[..|run| - 1], n, i)
  }

  /** A slot ends with the value of the last entry that covers it, 0 when none does. */
  lemma {:induction false} SlotIsLastCovering(g: Grid, run: seq<Entry>, n: nat, i: nat, k: int)
    requires GridOk(g) && -1 <= k < |run|
    requires k >= 0 ==> Covers(g, run[k], n, i)
    requires forall j :: k < j < |run| ==> !Covers(g, run[j], n, i)
    ensures SlotValue(g, run, n, i) == if k >= 0 then run[k].value else 0.0
  {
    if run != [] && k < |run| - 1 {
      SlotIsLastCovering(g, run[..|run| - 1], n, i, k);
    }
  }

  // ----- export

  datatype Cell = Cell(timestampNs: int, fingerprint: nat, labels: map<string, string>, value: real)

  /** The non-zero slots below m, at their times. */
  ghost function ExportOf(g: Grid, run: seq<Entry>, n: nat, m: nat): seq<Cell>
    requires GridOk(g) && run != []
  {
    if m == 0 then []
    else
      var v := SlotValue(g, run, n, m - 1);
      ExportOf(g, run, n, m - 1) +
      if v == 0.0 then [] else [Cell(g.from + (m - 1) * g.step, run[0].fingerprint, run[0].labels, v)]
  }

  lemma {:induction false} SlotTime(g: Grid, i: nat)
    requires GridOk(g) && i < Slots(g)
    ensures g.from <= g.from + i * g.step <= g.to
    ensures (i + 1) * g.step == i * g.step + g.step
  {
    MulMono(0, i, g.step);
    MulMono(i, Slots(g) - 1, g.step);
  }

  /** Non-zero cells of the series of e, in [from, to] and below bound, in strictly rising order. */
  ghost predicate InOrder(out: seq<Cell>, g: Grid, e: Entry, bound: int) {
    && (forall j :: 0 <= j < |out| ==>
          g.from <= out[j].timestampNs <= g.to && out[j].timestampNs < bound
          && out[j].fingerprint == e.fingerprint && out[j].labels == e.labels && out[j].value != 0.0)
    && (forall j, k :: 0 <= j < k < |out| ==> out[j].timestampNs < out[k].timestampNs)
  }

  lemma {:induction false} InOrderAppend(out: seq<Cell>, c: Cell, g: Grid, e: Entry, bound: int)
    requires InOrder(out, g, e, c.timestampNs) && g.from <= c.timestampNs <= g.to && c.timestampNs < bound
    requires c.fingerprint == e.fingerprint && c.labels == e.labels && c.value != 0.0
    ensures InOrder(out + [c], g, e, bound)
  {
  }

  /** Exported times lie in [from, to], strictly increase, and belong to the series. */
  lemma {:induction false} ExportInOrder(g: Grid, run: seq<Entry>, m: nat)
    requires GridOk(g) && run != [] && m <= Slots(g)
    ensures InOrder(ExportOf(g, run, Slots(g), m), g, run[0], g.from + m * g.step)
  {
    if m > 0 {
      ExportInOrder(g, run, m - 1);
      SlotTime(g, m - 1);
      var v := SlotValue(g, run, Slots(g), m - 1);
      if v != 0.0 {
        InOrderAppend(ExportOf(g, run, Slots(g), m - 1),
                      Cell(g.from + (m - 1) * g.step, run[0].fingerprint, run[0].labels, v),
                      g, run[0], g.from + m * g.step);
      }
    }
  }

  // ----- the whole stream, split into runs of one fingerprint

  /** Where the stream stands: the exported series and the run being filled. The initial
      fingerprint is 0 and its table is empty. */
  datatype Stream = Stream(res: seq<seq<Cell>>, run: seq<Entry>)

  function SeriesOf(s: Stream): nat {
    if s.run == [] then 0 else s.run[0].fingerprint
  }

  ghost function Exported(g: Grid, s: Stream): seq<seq<Cell>>
    requires GridOk(g)
  {
    if s.run == [] then s.res
    else
      var out := ExportOf(g, s.run, Slots(g), Slots(g));
      if out == [] then s.res else s.res + [out]
  }

  /** The stream after the entries; entries of fingerprint 0 before any other start no run. */
  ghost function StreamOf(g: Grid, entries: seq<Entry>): Stream
    requires GridOk(g)
  {
    if entries == [] then Stream([], [])
    else
      var s, e := StreamOf(g, entries[..|entries| - 1]), entries[|entries| - 1];
      if e.fingerprint != SeriesOf(s) then Stream(Exported(g, s), [e])
      else if s.run == [] then s
      else Stream(s.res, s.run + [e])
  }

  /** An entry whose window reaches over `from`. */
  ghost predicate Straddles(g: Grid, e: Entry)
    requires GridOk(g)
  {
    SlotOf(g, WindowOf(g, e)) < 0 <= SlotOf(g, WindowOf(g, e) + 1)
  }

  /** Entry k still belongs to the leading entries of fingerprint 0. */
  ghost predicate Leading(entries: seq<Entry>, k: nat)
    requires k < |entries|
  {
    forall j :: 0 <= j <= k ==> entries[j].fingerprint == 0
  }

  ghost predicate WritesEmptyTable(g: Grid, entries: seq<Entry>)
    requires GridOk(g)
  {
    exists k :: 0 <= k < |entries| && Leading(entries, k) && Straddles(g, entries[k])
  }

  datatype Outcome = Panicked | Finished(res: seq<seq<Cell>>)

  lemma {:induction false} EmptyTableCover(g: Grid, e: Entry)
    requires GridOk(g)
    ensures Cover(g, WindowOf(g, e), 0).Write? <==> Straddles(g, e)
  {
  }

  /** Writes one entry into the table of its series. */
  method Place(g: Grid, e: Entry, values: array<real>, ghost run: seq<Entry>)
    requires GridOk(g) && values.Length == Slots(g)
    requires forall i :: 0 <= i < values.Length ==> values[i] == SlotValue(g, run, Slots(g), i)
    modifies values
    ensures forall i :: 0 <= i < values.Length ==> values[i] == SlotValue(g, run + [e], Slots(g), i)
  {
    var c := Cover(g, WindowOf(g, e), values.Length);
    CoverInBounds(g, WindowOf(g, e), values.Length);
    assert (run + [e])[..|run|] == run;
    if c.Write? {
      FastFill(values, c.lo, c.hi, e.value);
    }
  }

  method ExportEntries(g: Grid, values: array<real>, first: Entry, ghost run: seq<Entry>) returns (out: seq<Cell>)
    requires GridOk(g) && values.Length == Slots(g) && run != [] && first == run[0]
    requires forall i :: 0 <= i < values.Length ==> values[i] == SlotValue(g, run, Slots(g), i)
    ensures out == ExportOf(g, run, Slots(g), Slots(g))
  {
    out := [];
    for i := 0 to values.Length
      invariant out == ExportOf(g, run, Slots(g), i)
    {
      if values[i] != 0.0 {
        out := out + [Cell(g.from + i * g.step, first.fingerprint, first.labels, values[i])];
      }
    }
  }

  /** Process, on the entries in the order they arrive. It panics exactly when, before any other
      series, an entry of fingerprint 0 has a window that reaches over `from`. */
  method Process(g: Grid, entries: seq<Entry>) returns (out: Outcome)
    requires GridOk(g)
    ensures out.Panicked? <==> WritesEmptyTable(g, entries)
    ensures out.Finished? ==> out.res == Exported(g, StreamOf(g, entries)) && Filled(g, entries, out.res)
  {
    var fingerprint, values, res := 0, new real[0], [];
    var first := Entry(0, 0, map[], 0.0);
    ghost var s := Stream([], []);
    for k := 0 to |entries|
      invariant s == StreamOf(g, entries[..k]) && fingerprint == SeriesOf(s) && res == s.res
      invariant s.run == [] ==> values.Length == 0 && forall j :: 0 <= j < k ==> entries[j].fingerprint == 0
      invariant s.run == [] ==> forall j :: 0 <= j < k ==> !Straddles(g, entries[j])
      invariant s.run != [] ==> values.Length == Slots(g) && first == s.run[0] && !WritesEmptyTable(g, entries)
      invariant s.run != [] ==>
        fresh(values) && forall i :: 0 <= i < values.Length ==> values[i] == SlotValue(g, s.run, Slots(g), i)
    {
      var e := entries[k];
      assert entries[..k + 1][..k] == entries[..k];
      if e.fingerprint != fingerprint {
        if values.Length > 0 {
          var series := ExportEntries(g, values, first, s.run);
          if series != [] {
            res := res + [series];
          }
        } else {
          NoEmptyWrite(g, entries, k);
        }
        fingerprint, first := e.fingerprint, e;
        values := new real[Slots(g)](_ => 0.0);
        s := Stream(res, []);
        Place(g, e, values, []);
        assert [] + [e] == [e];
        s := Stream(res, [e]);
      } else if values.Length == 0 {
        EmptyTableCover(g, e);
        if Cover(g, WindowOf(g, e), values.Length).Write? {
          assert Leading(entries, k) && Straddles(g, entries[k]);
          return Panicked;
        }
      } else {
        Place(g, e, values, s.run);
        s := Stream(s.res, s.run + [e]);
      }
    }
    assert entries[..|entries|] == entries;
    if values.Length > 0 {
      var series := ExportEntries(g, values, first, s.run);
      if series != [] {
        res := res + [series];
      }
    }
    FilledSeries(g, entries);
    out := Finished(res);
  }

  lemma {:induction false} NoEmptyWrite(g: Grid, entries: seq<Entry>, k: nat)
    requires GridOk(g) && k < |entries| && entries[k].fingerprint != 0
    requires forall j :: 0 <= j < k ==> !Straddles(g, entries[j])
    ensures !WritesEmptyTable(g, entries)
  {
    forall m | 0 <= m < |entries| ensures !(Leading(entries, m) && Straddles(g, entries[m])) {
    }
  }

  // ----- how windows tile

  /** From `from` on, windows no shorter than a step cover adjacent, non-empty ranges of slots:
      no gap and no overlap. */
  lemma {:induction false} WindowsTile(g: Grid, w: int, n: nat)
    requires GridOk(g) && g.duration >= g.step && w * g.duration >= g.from
    requires SlotOf(g, w) < n
    ensures var c := Cover(g, w, n);
            c.Write? && c.lo == SlotOf(g, w) && c.hi == (if SlotOf(g, w + 1) > n then n else SlotOf(g, w + 1))
    ensures SlotOf(g, w) < SlotOf(g, w + 1)
    ensures SlotOf(g, w + 1) < n ==> Cover(g, w + 1, n).Write? && Cover(g, w + 1, n).lo == Cover(g, w, n).hi
  {
    var a := w * g.duration - g.from;
    assert (w + 1) * g.duration == w * g.duration + g.duration;
    DivStep(a, g.step);
    DivMono(a + g.step, a + g.duration, g.step);
  }

  /** The window that reaches over `from` fills the slots before the next window, which takes
      over without a gap; when the next one starts less than a step after `from`, both write the
      first slot. */
  lemma {:induction false} StraddlingWindow(g: Grid, w: int, n: nat)
    requires GridOk(g) && g.duration >= g.step && n >= 1 && w * g.duration < g.from < (w + 1) * g.duration
    ensures var next := SlotOf(g, w + 1);
            Cover(g, w, n) == Write(0, if next > n then n else if next == 0 then 1 else next)
    ensures SlotOf(g, w + 1) < n ==> Cover(g, w + 1, n).Write? && Cover(g, w + 1, n).lo == SlotOf(g, w + 1)
    ensures SlotOf(g, w + 1) == 0 <==> (w + 1) * g.duration < g.from + g.step
  {
    var a, b := w * g.duration - g.from, (w + 1) * g.duration - g.from;
    DivZero(b, g.step);
    DivMono(0, -a, g.step);
    DivMono(0, b, g.step);
    if SlotOf(g, w + 1) < n {
      WindowsTile(g, w + 1, n);
    }
  }

  /** A window that ended at or before `from` writes nothing, unless it ended less than a step
      before: division toward zero then puts its value into the first slot. */
  lemma {:induction false} EndedWindow(g: Grid, w: int, n: nat)
    requires GridOk(g) && n >= 1 && (w + 1) * g.duration <= g.from
    ensures Cover(g, w, n).Write? <==> (w + 1) * g.duration > g.from - g.step
    ensures Cover(g, w, n).Write? ==> Cover(g, w, n) == Write(0, 1)
  {
    var a, b := w * g.duration - g.from, (w + 1) * g.duration - g.from;
    assert b == a + g.duration;
    DivZero(-b, g.step);
    DivZero(-a, g.step);
  }

  /** Such a panic: the series has fingerprint 0 and its window, from 0 to 10, reaches over a start
      at 5. */
  lemma {:induction false} EmptyTableExample()
    ensures var g := Grid(5, 20, 1, 10);
            GridOk(g) && WritesEmptyTable(g, [Entry(3, 0, map[], 1.0)])
  {
    var g := Grid(5, 20, 1, 10);
    var entries := [Entry(3, 0, map[], 1.0)];
    assert WindowOf(g, entries[0]) == 0 && SlotOf(g, 0) == -5 && SlotOf(g, 1) == 5;
    assert Leading(entries, 0) && Straddles(g, entries[0]);
  }

  // ----- the fill in times

  /** Window w is that of time t: from 0 up the one t lies in; below 0 division toward zero takes
      the one that starts at or after t. */
  ghost predicate WindowAt(g: Grid, t: int, w: int) {
    if t >= 0 then w * g.duration <= t < (w + 1) * g.duration
    else (w - 1) * g.duration < t <= w * g.duration
  }

  /** Window w writes grid time at: the step that begins there ends inside the window, or the
      window begins inside that step; and the first grid time, too, when the window ends less than
      a step before or after it. */
  ghost predicate Reaches(g: Grid, w: int, at: int) {
    var opens, closes := w * g.duration, (w + 1) * g.duration;
    || (opens < at + g.step && (at + g.step <= closes || at <= opens))
    || (at == g.from && g.from - g.step < closes < g.from + g.step)
  }

  /** An entry at time t writes grid time at. */
  ghost predicate Writes(g: Grid, t: int, at: int) {
    exists w :: WindowAt(g, t, w) && Reaches(g, w, at)
  }

  lemma {:induction false} WindowIs(g: Grid, e: Entry)
    requires GridOk(g)
    ensures WindowAt(g, e.timestampNs, WindowOf(g, e))
  {
    var t, d := e.timestampNs, g.duration;
    var q := if t >= 0 then t / d else -t / d;
    assert (if t >= 0 then t else -t) == d * q + (if t >= 0 then t % d else -t % d);
    assert (q + 1) * d == d * q + d && (-q - 1) * d == -(d * q) - d && (-q) * d == -(d * q);
  }

  lemma {:induction false} WindowUnique(g: Grid, t: int, v: int, w: int)
    requires GridOk(g) && WindowAt(g, t, v) && WindowAt(g, t, w)
    ensures v == w
  {
    var d := g.duration;
    if v < w {
      MulMono(v + 1, w, d);
      MulMono(v, w - 1, d);
    } else if w < v {
      MulMono(w + 1, v, d);
      MulMono(w, v - 1, d);
    }
  }

  lemma {:induction false} OpenedAfterStart(g: Grid, w: int, n: nat, i: nat)
    requires GridOk(g) && i < n && w * g.duration >= g.from
    ensures var c := Cover(g, w, n);
            c.Write? && c.lo <= i < c.hi <==> Reaches(g, w, g.from + i * g.step)
  {
    var a, b := w * g.duration - g.from, (w + 1) * g.duration - g.from;
    assert a <= b by {
      assert (w + 1) * g.duration == w * g.duration + g.duration;
    }
    DivMono(a, b, g.step);
    assert var c := Cover(g, w, n);
           c.Write? && c.lo <= i < c.hi <==> SlotOf(g, w) <= i && (i < SlotOf(g, w + 1) || i == SlotOf(g, w));
    StepsOpened(a, b, g.step, i);
  }

  /** Slots of a span from a to b, counted from the start, against the span itself. */
  lemma {:induction false} StepsOpened(a: nat, b: nat, step: nat, i: nat)
    requires step > 0 && a <= b
    ensures a / step <= i && (i < b / step || i == a / step) <==>
            || (a < i * step + step && (i * step + step <= b || i * step <= a))
            || (i * step == 0 && b < step)
  {
    var t := i * step;
    assert (i + 1) * step == t + step;
    DivAtMost(a, step, i);
    DivAtMost(b, step, i);
    if i > 0 {
      DivAtMost(a, step, i - 1);
      MulMono(1, i, step);
    }
    StepsLinear(a / step, b / step, a, b, step, i, t);
  }

  lemma {:induction false} StepsLinear(p: int, q: int, a: nat, b: nat, step: nat, i: nat, t: int)
    requires p <= i <==> a < t + step
    requires q < i + 1 <==> b < t + step
    requires i > 0 ==> (p < i <==> a < t) && t >= step
    requires step > 0 && a <= b && p >= 0 && (i == 0 ==> t == 0)
    ensures p <= i && (i < q || i == p) <==>
            || (a < t + step && (t + step <= b || t <= a))
            || (t == 0 && b < step)
  {
  }

  lemma {:induction false} OpenedBeforeStart(g: Grid, w: int, n: nat, i: nat)
    requires GridOk(g) && i < n && w * g.duration < g.from
    ensures var c := Cover(g, w, n);
            c.Write? && c.lo <= i < c.hi <==> Reaches(g, w, g.from + i * g.step)
  {
    var a, b := w * g.duration - g.from, (w + 1) * g.duration - g.from;
    assert (i + 1) * g.step == i * g.step + g.step;
    MulMono(0, i, g.step);
    if i > 0 {
      MulMono(1, i, g.step);
    }
    DivMono(0, -a, g.step);
    if b >= 0 {
      DivAtMost(b, g.step, i);
      DivZero(b, g.step);
    } else {
      DivZero(-b, g.step);
    }
  }

  /** The slots of the table an entry writes are those whose times it writes. */
  lemma {:induction false} CoversTimes(g: Grid, e: Entry, n: nat, i: nat)
    requires GridOk(g) && i < n
    ensures Covers(g, e, n, i) <==> Writes(g, e.timestampNs, g.from + i * g.step)
  {
    var w := WindowOf(g, e);
    WindowIs(g, e);
    if w * g.duration >= g.from {
      OpenedAfterStart(g, w, n, i);
    } else {
      OpenedBeforeStart(g, w, n, i);
    }
    if Writes(g, e.timestampNs, g.from + i * g.step) {
      var v :| WindowAt(g, e.timestampNs, v) && Reaches(g, v, g.from + i * g.step);
      WindowUnique(g, e.timestampNs, v, w);
    }
  }

  /** From 0 up and for windows no shorter than a step, the grid times an entry writes: those whose
      step ends in its window, and the first one, too, when the window ends less than a step before
      or after it. */
  lemma {:induction false} EntryTimes(g: Grid, t: nat, w: nat, at: int)
    requires GridOk(g) && g.duration >= g.step && w * g.duration <= t < (w + 1) * g.duration
    ensures Writes(g, t, at) <==>
            || w * g.duration < at + g.step <= (w + 1) * g.duration
            || (at == g.from && g.from - g.step < (w + 1) * g.duration < g.from + g.step)
  {
    assert (w + 1) * g.duration == w * g.duration + g.duration;
    assert WindowAt(g, t, w);
    if Writes(g, t, at) {
      var v :| WindowAt(g, t, v) && Reaches(g, v, at);
      WindowUnique(g, t, v, w);
    }
  }

  /** Before 0 the window is the one after: the times of the window that begins at or after t. */
  lemma {:induction false} NegativeEntryTimes(g: Grid, t: int, w: int, at: int)
    requires GridOk(g) && g.duration >= g.step && t < 0 && (w - 1) * g.duration < t <= w * g.duration
    ensures Writes(g, t, at) <==>
            || w * g.duration < at + g.step <= (w + 1) * g.duration
            || (at == g.from && g.from - g.step < (w + 1) * g.duration < g.from + g.step)
  {
    assert (w + 1) * g.duration == w * g.duration + g.duration;
    assert WindowAt(g, t, w);
    if Writes(g, t, at) {
      var v :| WindowAt(g, t, v) && Reaches(g, v, at);
      WindowUnique(g, t, v, w);
    }
  }

  /** The window reaches over the start: it opens at least a step before, and closes later. */
  lemma {:induction false} StraddlesTimes(g: Grid, e: Entry, w: int)
    requires GridOk(g) && WindowAt(g, e.timestampNs, w)
    ensures Straddles(g, e) <==> w * g.duration <= g.from - g.step < (w + 1) * g.duration
  {
    WindowIs(g, e);
    WindowUnique(g, e.timestampNs, WindowOf(g, e), w);
    SlotSign(g, w);
    SlotSign(g, w + 1);
  }

  lemma {:induction false} SlotSign(g: Grid, w: int)
    requires GridOk(g)
    ensures SlotOf(g, w) < 0 <==> w * g.duration <= g.from - g.step
  {
    var a := w * g.duration - g.from;
    if a < 0 {
      DivZero(-a, g.step);
    } else {
      DivMono(0, a, g.step);
    }
  }

  // ----- an exported series, in times

  ghost predicate LastWriter(g: Grid, run: seq<Entry>, k: nat, at: int) {
    && k < |run| && Writes(g, run[k].timestampNs, at)
    && forall j :: k < j < |run| ==> !Writes(g, run[j].timestampNs, at)
  }

  function TimeOf(g: Grid, i: nat): int {
    g.from + i * g.step
  }

  ghost predicate GridTime(g: Grid, at: int) {
    at <= g.to && exists i: nat :: at == TimeOf(g, i)
  }

  /** A cell an exported series must have: at a grid time, under the fingerprint and labels of the
      first entry, with the value of the last entry that writes this time, if that is not 0. */
  ghost predicate CellOf(g: Grid, run: seq<Entry>, c: Cell)
    requires run != []
  {
    && GridTime(g, c.timestampNs) && c.fingerprint == run[0].fingerprint && c.labels == run[0].labels
    && c.value != 0.0
    && exists k: nat :: LastWriter(g, run, k, c.timestampNs) && run[k].value == c.value
  }

  lemma {:induction false} OneLastWriter(g: Grid, run: seq<Entry>, j: nat, k: nat, at: int)
    requires LastWriter(g, run, j, at) && LastWriter(g, run, k, at)
    ensures j == k
  {
  }

  /** The slot holds what the last writer of its time wrote. */
  lemma {:induction false} SlotLastWriter(g: Grid, run: seq<Entry>, n: nat, i: nat) returns (k: int)
    requires GridOk(g) && i < n
    ensures -1 <= k < |run|
    ensures if k < 0 then forall j :: 0 <= j < |run| ==> !Writes(g, run[j].timestampNs, TimeOf(g, i))
            else LastWriter(g, run, k, TimeOf(g, i))
    ensures SlotValue(g, run, n, i) == if k < 0 then 0.0 else run[k].value
  {
    if run == [] {
      k := -1;
    } else {
      var m := |run| - 1;
      CoversTimes(g, run[m], n, i);
      if Covers(g, run[m], n, i) {
        k := m;
      } else {
        k := SlotLastWriter(g, run[..m], n, i);
        assert forall j :: 0 <= j < m ==> run[..m][j] == run[j];
      }
    }
  }

  function CellAt(g: Grid, e: Entry, i: nat, v: real): Cell {
    Cell(TimeOf(g, i), e.fingerprint, e.labels, v)
  }

  ghost predicate SlotCellAt(g: Grid, run: seq<Entry>, n: nat, i: nat, c: Cell)
    requires GridOk(g) && run != []
  {
    c == CellAt(g, run[0], i, SlotValue(g, run, n, i)) && c.value != 0.0
  }

  lemma {:induction false} ExportHas(g: Grid, run: seq<Entry>, n: nat, m: nat, c: Cell)
    requires GridOk(g) && run != []
    ensures c in ExportOf(g, run, n, m) <==> exists i: nat :: i < m && SlotCellAt(g, run, n, i, c)
  {
    if m > 0 {
      ExportHas(g, run, n, m - 1, c);
      var v := SlotValue(g, run, n, m - 1);
      assert SlotCellAt(g, run, n, m - 1, c) <==> v != 0.0 && c == CellAt(g, run[0], m - 1, v);
    }
  }

  lemma {:induction false} SlotCell(g: Grid, run: seq<Entry>, i: nat, c: Cell)
    requires GridOk(g) && run != [] && i < Slots(g)
    requires c == CellAt(g, run[0], i, SlotValue(g, run, Slots(g), i)) && c.value != 0.0
    ensures CellOf(g, run, c)
  {
    SlotTime(g, i);
    var k := SlotLastWriter(g, run, Slots(g), i);
    assert LastWriter(g, run, k, c.timestampNs);
  }

  lemma {:induction false} CellSlot(g: Grid, run: seq<Entry>, c: Cell) returns (i: nat)
    requires GridOk(g) && run != [] && CellOf(g, run, c)
    ensures i < Slots(g) && c == CellAt(g, run[0], i, SlotValue(g, run, Slots(g), i))
  {
    i :| c.timestampNs == TimeOf(g, i);
    if i >= Slots(g) {
      MulMono(Slots(g), i, g.step);
      assert false;
    }
    var k: nat :| LastWriter(g, run, k, c.timestampNs) && run[k].value == c.value;
    var j := SlotLastWriter(g, run, Slots(g), i);
    OneLastWriter(g, run, if j < 0 then k else j, k, c.timestampNs);
  }

  /** An exported series: in strictly rising order, exactly the cells it must have. */
  ghost predicate SeriesIs(g: Grid, run: seq<Entry>, out: seq<Cell>) {
    && run != []
    && (forall c :: c in out <==> CellOf(g, run, c))
    && (forall j, k :: 0 <= j < k < |out| ==> out[j].timestampNs < out[k].timestampNs)
  }

  lemma {:induction false} ExportIs(g: Grid, run: seq<Entry>)
    requires GridOk(g) && run != []
    ensures SeriesIs(g, run, ExportOf(g, run, Slots(g), Slots(g)))
  {
    var n := Slots(g);
    ExportInOrder(g, run, n);
    forall c ensures c in ExportOf(g, run, n, n) <==> CellOf(g, run, c) {
      ExportHas(g, run, n, n, c);
      if c in ExportOf(g, run, n, n) {
        var i: nat :| i < n && SlotCellAt(g, run, n, i, c);
        SlotCell(g, run, i, c);
      }
      if CellOf(g, run, c) {
        var i := CellSlot(g, run, c);
        assert SlotCellAt(g, run, n, i, c);
      }
    }
  }

  // ----- the runs of the stream

  function Concat(runs: seq<seq<Entry>>): seq<Entry> {
    if runs == [] then [] else Concat(runs[..|runs| - 1]) + runs[|runs| - 1]
  }

  function NonEmpty(outs: seq<seq<Cell>>): seq<seq<Cell>> {
    if outs == [] then []
    else NonEmpty(outs[..|outs| - 1]) + if outs[|outs| - 1] == [] then [] else [outs[|outs| - 1]]
  }

  predicate OneSeries(run: seq<Entry>) {
    run != [] && forall i :: 0 <= i < |run| ==> run[i].fingerprint == run[0].fingerprint
  }

  /** The stream cut where the fingerprint changes, without leading entries of fingerprint 0. */
  ghost predicate RunsOf(entries: seq<Entry>, runs: seq<seq<Entry>>, skipped: nat) {
    && skipped <= |entries| && entries[skipped..] == Concat(runs)
    && (forall i :: 0 <= i < skipped ==> entries[i].fingerprint == 0)
    && (forall r :: 0 <= r < |runs| ==> OneSeries(runs[r]))
    && (runs != [] ==> runs[0][0].fingerprint != 0)
    && (forall r :: 0 < r < |runs| ==> runs[r][0].fingerprint != runs[r - 1][0].fingerprint)
  }

  /** What is written out: for each run, unless that is empty, the series it must give. */
  ghost predicate FilledBy(g: Grid, runs: seq<seq<Entry>>, outs: seq<seq<Cell>>, res: seq<seq<Cell>>) {
    && |outs| == |runs| && (forall r :: 0 <= r < |runs| ==> SeriesIs(g, runs[r], outs[r]))
    && res == NonEmpty(outs)
  }

  ghost predicate StreamStands(g: Grid, entries: seq<Entry>, s: Stream, runs: seq<seq<Entry>>, outs: seq<seq<Cell>>,
                               skipped: nat) {
    && RunsOf(entries, runs, skipped)
    && (if s.run == [] then runs == [] && outs == [] && s.res == []
        else runs != [] && s.run == runs[|runs| - 1] && FilledBy(g, runs[..|runs| - 1], outs, s.res))
  }

  lemma {:induction false} RunGrows(entries: seq<Entry>, runs: seq<seq<Entry>>, skipped: nat, e: Entry)
    requires RunsOf(entries, runs, skipped) && runs != [] && e.fingerprint == runs[|runs| - 1][0].fingerprint
    ensures RunsOf(entries + [e], runs[|runs| - 1 := runs[|runs| - 1] + [e]], skipped)
    ensures runs[|runs| - 1 := runs[|runs| - 1] + [e]][..|runs| - 1] == runs[..|runs| - 1]
  {
    var n := |runs| - 1;
    var more := runs[n := runs[n] + [e]];
    assert more[..n] == runs[..n];
    assert (entries + [e])[skipped..] == entries[skipped..] + [e];
    assert Concat(more) == Concat(runs) + [e];
    assert OneSeries(runs[n]);
    assert OneSeries(more[n]);
    forall r | 0 <= r < |more| ensures OneSeries(more[r]) && more[r][0] == runs[r][0] {
      assert OneSeries(runs[r]);
    }
  }

  lemma {:induction false} RunStarts(entries: seq<Entry>, runs: seq<seq<Entry>>, skipped: nat, e: Entry)
    requires RunsOf(entries, runs, skipped)
    requires e.fingerprint != if runs == [] then 0 else runs[|runs| - 1][0].fingerprint
    ensures RunsOf(entries + [e], runs + [[e]], skipped)
  {
    var more := runs + [[e]];
    assert more[..|runs|] == runs;
    assert (entries + [e])[skipped..] == entries[skipped..] + [e];
    forall r | 0 <= r < |more| ensures OneSeries(more[r]) && (r < |runs| ==> more[r] == runs[r]) {
      if r < |runs| {
        assert OneSeries(runs[r]);
      }
    }
  }

  lemma {:induction false} RunSkips(entries: seq<Entry>, skipped: nat, e: Entry)
    requires RunsOf(entries, [], skipped) && e.fingerprint == 0
    ensures RunsOf(entries + [e], [], |entries| + 1)
  {
    assert entries[skipped..] == [];
    assert (entries + [e])[|entries| + 1..] == [];
  }

  /** One more series written out. */
  lemma {:induction false} ExportsOneMore(g: Grid, entries: seq<Entry>, s: Stream, runs: seq<seq<Entry>>,
                                          outs: seq<seq<Cell>>, skipped: nat) returns (more: seq<seq<Cell>>)
    requires GridOk(g) && StreamStands(g, entries, s, runs, outs, skipped)
    ensures FilledBy(g, runs, more, Exported(g, s))
  {
    if s.run == [] {
      more := [];
    } else {
      var n := |runs| - 1;
      ExportIs(g, s.run);
      more := outs + [ExportOf(g, s.run, Slots(g), Slots(g))];
      assert more[..n] == outs;
      forall r | 0 <= r < |runs| ensures SeriesIs(g, runs[r], more[r]) {
        assert r < n ==> runs[..n][r] == runs[r];
      }
    }
  }

  lemma {:induction false} StreamStep(g: Grid, entries: seq<Entry>, e: Entry, runs: seq<seq<Entry>>,
                                      outs: seq<seq<Cell>>, skipped: nat)
    returns (runs': seq<seq<Entry>>, outs': seq<seq<Cell>>, skipped': nat)
    requires GridOk(g) && StreamStands(g, entries, StreamOf(g, entries), runs, outs, skipped)
    ensures StreamStands(g, entries + [e], StreamOf(g, entries + [e]), runs', outs', skipped')
  {
    var s := StreamOf(g, entries);
    assert (entries + [e])[..|entries|] == entries;
    runs', outs', skipped' := runs, outs, skipped;
    if e.fingerprint != SeriesOf(s) {
      outs' := ExportsOneMore(g, entries, s, runs, outs, skipped);
      RunStarts(entries, runs, skipped, e);
      runs' := runs + [[e]];
      assert runs'[..|runs|] == runs;
    } else if s.run == [] {
      RunSkips(entries, skipped, e);
      skipped' := |entries| + 1;
    } else {
      RunGrows(entries, runs, skipped, e);
      runs' := runs[|runs| - 1 := runs[|runs| - 1] + [e]];
    }
  }

  lemma {:induction false} StreamRuns(g: Grid, entries: seq<Entry>)
    returns (runs: seq<seq<Entry>>, outs: seq<seq<Cell>>, skipped: nat)
    requires GridOk(g)
    ensures StreamStands(g, entries, StreamOf(g, entries), runs, outs, skipped)
  {
    if entries == [] {
      runs, outs, skipped := [], [], 0;
    } else {
      var n := |entries| - 1;
      runs, outs, skipped := StreamRuns(g, entries[..n]);
      assert entries == entries[..n] + [entries[n]];
      runs, outs, skipped := StreamStep(g, entries[..n], entries[n], runs, outs, skipped);
    }
  }

  /** What is written out for a stream, in times: it is cut into runs of one fingerprint, and each
      run gives the series of its cells. */
  ghost predicate Filled(g: Grid, entries: seq<Entry>, res: seq<seq<Cell>>) {
    exists runs, outs, skipped :: RunsOf(entries, runs, skipped) && FilledBy(g, runs, outs, res)
  }

  lemma {:induction false} FilledSeries(g: Grid, entries: seq<Entry>)
    requires GridOk(g)
    ensures Filled(g, entries, Exported(g, StreamOf(g, entries)))
  {
    var runs, outs, skipped := StreamRuns(g, entries);
    var all := ExportsOneMore(g, entries, StreamOf(g, entries), runs, outs, skipped);
    assert FilledBy(g, runs, all, Exported(g, StreamOf(g, entries)));
  }
}
