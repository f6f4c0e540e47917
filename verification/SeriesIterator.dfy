/** seriesIt and prolongSeriesIt: a series read as stored, or with every sample repeated at the
    query step until the next sample takes over or five minutes have passed. */
module SeriesIterator {
  import opened Sequences

  datatype Sample = Sample(timestampMs: int, value: real)

  const LOOKBACK_MS: int := 300000

  ghost predicate Increasing(samples: seq<Sample>) {
    forall i, j :: 0 <= i < j < |samples| ==> samples[i].timestampMs < samples[j].timestampMs
  }

  // ----- seriesIt

  class SeriesIt {
    const samples: seq<Sample>
    var idx: int

    constructor (samples: seq<Sample>)
      ensures this.samples == samples && idx == -1
    {
      this.samples, idx := samples, -1;
    }

    method Next() returns (more: bool)
      modifies `idx
      ensures idx == old(idx) + 1 && (more <==> idx < |samples|)
    {
      idx := idx + 1;
      more := idx < |samples|;
    }

    method Seek(t: int) returns (more: bool)
      requires |samples| > 0 && Increasing(samples)
      modifies `idx
      ensures more && idx == Landing(samples, t) && Lands(samples, t, idx)
    {
      idx := Search(samples, t);
      more := true;
    }

    method At() returns (t: int, v: real)
      requires 0 <= idx < |samples|
      ensures Sample(t, v) == samples[idx]
    {
      t, v := samples[idx].timestampMs, samples[idx].value;
    }
  }

  /** Where Seek may land: the first sample at or after t or the sample just before it; on a
      sample of exactly time t when there is one. */
  ghost predicate Lands(samples: seq<Sample>, t: int, idx: int) {
    && 0 <= idx < |samples|
    && (idx == LowerBound(samples, t) || idx == LowerBound(samples, t) - 1)
    && ((exists i :: 0 <= i < |samples| && samples[i].timestampMs == t) ==> samples[idx].timestampMs == t)
    && (t <= samples[0].timestampMs ==> idx == 0)
  }

  /** The last midpoint of the search in [l, u), when b is the first index at or after the time
      sought and no sample has that time. */
  function LastProbe(l: nat, u: nat, b: nat): nat
    requires l < u && l <= b <= u
    decreases u - l
  {
    var m := (u + l) / 2;
    if m < b then if m + 1 == u then m else LastProbe(m + 1, u, b)
    else if m == l then m else LastProbe(l, m, b)
  }

  /** Where Seek lands. */
  function Landing(samples: seq<Sample>, t: int): nat
    requires |samples| > 0
  {
    var b := LowerBound(samples, t);
    if b == 0 then 0
    else if b < |samples| && samples[b].timestampMs == t then b
    else LastProbe(0, |samples|, b)
  }

  /** The binary search of Seek, which keeps its last midpoint. */
  method Search(samples: seq<Sample>, t: int) returns (idx: int)
    requires |samples| > 0 && Increasing(samples)
    ensures idx == Landing(samples, t) && Lands(samples, t, idx)
  {
    LandingLands(samples, t);
    ghost var n, b := |samples|, LowerBound(samples, t);
    BoundSplits(samples, t);
    if t <= samples[0].timestampMs {
      return 0;
    }
    var l, u := 0, |samples|;
    idx := 0;
    while u > l
      invariant 0 <= l <= u <= |samples| && l <= b <= u
      invariant if u > l then LastProbe(l, u, b) == LastProbe(0, n, b) else idx == LastProbe(0, n, b)
      invariant u < |samples| ==> samples[u].timestampMs != t
    {
      idx := (u + l) / 2;
      if samples[idx].timestampMs == t {
        return;
      }
      if samples[idx].timestampMs < t {
        l := idx + 1;
      } else {
        u := idx;
      }
    }
  }

  /** Index of the first sample at or after t. */
  function LowerBound(samples: seq<Sample>, t: int): (r: nat)
    ensures r <= |samples|
  {
    if samples == [] || samples[0].timestampMs >= t then 0 else 1 + LowerBound(samples[1..], t)
  }

  lemma {:induction false} BoundSplits(samples: seq<Sample>, t: int)
    requires Increasing(samples)
    ensures forall k :: 0 <= k < |samples| ==> (samples[k].timestampMs < t <==> k < LowerBound(samples, t))
  {
    if samples != [] && samples[0].timestampMs < t {
      BoundSplits(samples[1..], t);
      forall k | 0 <= k < |samples| ensures samples[k].timestampMs < t <==> k < LowerBound(samples, t) {
        if k > 0 {
          assert samples[1..][k - 1] == samples[k];
        }
      }
    }
  }

  // ----- how far Seek is from the first sample at or after t

  /** The search in s samples stops one before position b; it depends on the two numbers only. */
  predicate Early(s: nat, b: nat)
    requires 0 < s && b <= s
  {
    var m := s / 2;
    if b <= m then m > 0 && Early(m, b) else s - m - 1 == 0 || Early(s - m - 1, b - m - 1)
  }

  lemma {:induction false} LastProbeIs(l: nat, s: nat, b: nat)
    requires 0 < s && b <= s
    ensures LastProbe(l, l + s, l + b) == if Early(s, b) then l + b - 1 else l + b
    ensures Early(s, b) ==> b > 0
    ensures b == s ==> Early(s, b)
    decreases s
  {
    var m := s / 2;
    assert (l + s + l) / 2 == l + m;
    if b <= m {
      if m > 0 {
        LastProbeIs(l, m, b);
      }
    } else if s - m - 1 > 0 {
      LastProbeIs(l + m + 1, s - m - 1, b - m - 1);
    }
  }

  lemma {:induction false} LandingLands(samples: seq<Sample>, t: int)
    requires |samples| > 0 && Increasing(samples)
    ensures Lands(samples, t, Landing(samples, t))
  {
    var b := LowerBound(samples, t);
    BoundSplits(samples, t);
    if b > 0 {
      LastProbeIs(0, |samples|, b);
    }
    forall i | 0 <= i < |samples| && samples[i].timestampMs == t ensures i == b {
      assert samples[b].timestampMs >= t;
    }
  }

  /** Seek finds the first sample at or after t exactly when t is not after the first sample, or
      is the time of a sample, or the search does not stop early for the number of samples and
      the number of them before t. */
  lemma {:induction false} SeekExactIff(samples: seq<Sample>, t: int)
    requires |samples| > 0 && Increasing(samples)
    ensures Landing(samples, t) == LowerBound(samples, t) <==>
            || t <= samples[0].timestampMs
            || (exists i :: 0 <= i < |samples| && samples[i].timestampMs == t)
            || !Early(|samples|, LowerBound(samples, t))
  {
    var b := LowerBound(samples, t);
    BoundSplits(samples, t);
    LastProbeIs(0, |samples|, b);
    forall i | 0 <= i < |samples| && samples[i].timestampMs == t ensures i == b {
      assert samples[b].timestampMs >= t;
    }
  }

  function PowerOfTwo(j: nat): nat {
    if j == 0 then 1 else 2 * PowerOfTwo(j - 1)
  }

  /** For 1, 3, 7, 15, ... samples: every other position is missed, the odd ones. */
  lemma {:induction false} EarlyWhenFull(j: nat, b: nat)
    requires j > 0 && b < PowerOfTwo(j)
    ensures PowerOfTwo(j) >= 2
    ensures Early(PowerOfTwo(j) - 1, b) <==> b % 2 == 1
  {
    if j > 1 {
      var half := PowerOfTwo(j - 1);
      EarlyWhenFull(j - 1, if b < half then b else b - half);
      assert half % 2 == 0;
    }
  }

  /** Two samples at 0 and 10: seeking 5 lands on 0. */
  lemma {:induction false} EarlyExample()
    ensures var samples := [Sample(0, 0.0), Sample(10, 1.0)];
            Increasing(samples) && LowerBound(samples, 5) == 1 && Landing(samples, 5) == 0
  {
    var samples := [Sample(0, 0.0), Sample(10, 1.0)];
    assert samples[1..] == [Sample(10, 1.0)];
    assert LowerBound(samples[1..], 5) == 0;
    assert LastProbe(0, 2, 1) == LastProbe(0, 1, 1) == 0;
  }

  // ----- prolongSeriesIt, one call of Next at a time

  /** prev is the sample being repeated, by index; next is prev + 1 when there is one. The
      iterator has not started while prev is None. */
  datatype Cursor = Cursor(prev: Option<nat>, timestampMs: int)

  /** A point that Next stops at: the time shown and the sample whose value is shown. */
  datatype Point = Point(time: int, sample: nat)

  datatype Answer = Stop | Emit(point: Point, cursor: Cursor)

  /** What Next does on samples in increasing order of time. */
  function Advance(samples: seq<Sample>, step: int, c: Cursor): Answer
    requires c.prev.Some? ==> c.prev.value < |samples|
  {
    if c.prev.None? then
      if samples == [] then Stop
      else Emit(Point(samples[0].timestampMs, 0), Cursor(Some(0), samples[0].timestampMs))
    else
      var i := c.prev.value;
      var stale := c.timestampMs > samples[i].timestampMs + LOOKBACK_MS;
      if i + 1 == |samples| then
        if stale then Stop
        else Emit(Point(c.timestampMs + step, i), Cursor(c.prev, c.timestampMs + step))
      else if stale || c.timestampMs >= samples[i + 1].timestampMs then
        Emit(Point(samples[i + 1].timestampMs, i + 1), Cursor(Some(i + 1), samples[i + 1].timestampMs))
      else Emit(Point(c.timestampMs + step, i), Cursor(c.prev, c.timestampMs + step))
  }

  class ProlongSeriesIt {
    const samples: seq<Sample>
    const stepMs: int
    var idx: int              // of the wrapped seriesIt
    var prev: Option<nat>     // pointers into samples, as indices
    var next: Option<nat>
    var timestampMs: int

    ghost predicate Valid()
      reads this
    {
      && (prev.None? ==> next.None? && (idx == -1 || (samples == [] && idx > -1)))
      && (prev.Some? ==>
            && prev.value < |samples| && idx == prev.value + 1
            && (next.Some? <==> prev.value + 1 < |samples|)
            && (next.Some? ==> next.value == prev.value + 1))
    }

    function Now(): Cursor
      reads this
    {
      Cursor(prev, timestampMs)
    }

    constructor (samples: seq<Sample>, stepMs: int)
      ensures Valid() && this.samples == samples && this.stepMs == stepMs && prev == None
    {
      this.samples, this.stepMs := samples, stepMs;
      idx, prev, next, timestampMs := -1, None, None, 0;
    }

    method Inner() returns (more: bool)
      modifies `idx
      ensures idx == old(idx) + 1 && (more <==> idx < |samples|)
    {
      idx := idx + 1;
      more := idx < |samples|;
    }

    method Seek(t: int) returns (more: bool)
      requires |samples| > 0 && Increasing(samples)
      modifies `idx, `prev, `next, `timestampMs
      ensures Valid() && more && prev == Some(Landing(samples, t)) && Lands(samples, t, prev.value)
      ensures timestampMs == samples[prev.value].timestampMs
    {
      next := None;
      idx := Search(samples, t);
      prev := Some(idx);
      timestampMs := samples[prev.value].timestampMs;
      var ok := Inner();
      if ok {
        next := Some(idx);
      }
      return true;
    }

    /** Next; neither neighbour is ever followed when it is nil. */
    method Next() returns (more: bool)
      requires Valid() && Increasing(samples)
      modifies `idx, `prev, `next, `timestampMs
      ensures Valid()
      ensures var a := Advance(samples, stepMs, old(Now()));
              (more <==> a.Emit?) && (a.Emit? ==> Now() == a.cursor && a.point == Point(timestampMs, prev.value)) &&
              (a.Stop? && old(prev).Some? ==> Now() == old(Now()))
    {
      if prev.None? {
        var ok := Inner();
        if !ok {
          return false;
        }
        prev := Some(idx);
        ok := Inner();
        if ok {
          next := Some(idx);
        }
        timestampMs := samples[prev.value].timestampMs;
        return true;
      }
      if next.None? {
        if timestampMs > samples[prev.value].timestampMs + LOOKBACK_MS {
          return false;
        }
        timestampMs := timestampMs + stepMs;
        return true;
      }
      var done := false;
      while timestampMs > samples[prev.value].timestampMs + LOOKBACK_MS ||
            (next.Some? && timestampMs >= samples[next.value].timestampMs)
        invariant Valid() && prev.Some? && (!done ==> Now() == old(Now()) && next.Some?)
        invariant done ==> timestampMs == samples[prev.value].timestampMs && old(prev).Some?
        invariant done ==> prev.value == old(prev).value + 1
        invariant done ==> Advance(samples, stepMs, old(Now())) == Emit(Point(timestampMs, prev.value), Now())
        decreases |samples| - prev.value, !done
      {
        prev := next;
        next := None;
        var ok := Inner();
        if ok {
          next := Some(idx);
        }
        timestampMs := samples[prev.value].timestampMs;
        done := true;
      }
      if done {
        return true;
      }
      timestampMs := timestampMs + stepMs;
      return true;
    }
  }

  // ----- all the points, in closed form

  ghost predicate ValidCursor(samples: seq<Sample>, c: Cursor) {
    c.prev.Some? ==> c.prev.value < |samples|
  }

  /** The points of repeated calls of Next, until it stops. */
  ghost function Drain(samples: seq<Sample>, step: int, c: Cursor): seq<Point>
    requires step > 0 && ValidCursor(samples, c)
    decreases if c.prev.None? then |samples| + 1 else |samples| - c.prev.value,
              if c.prev.None? then 0 else LOOKBACK_MS + 1 + samples[c.prev.value].timestampMs - c.timestampMs
  {
    match Advance(samples, step, c)
    case Stop => []
    case Emit(point, after) => [point] + Drain(samples, step, after)
  }

  /** How long sample i is repeated: until the next sample, at most the lookback. */
  function Limit(samples: seq<Sample>, i: nat): int
    requires i < |samples|
  {
    if i + 1 == |samples| then LOOKBACK_MS + 1
    else
      var gap := samples[i + 1].timestampMs - samples[i].timestampMs;
      if gap < LOOKBACK_MS + 1 then gap else LOOKBACK_MS + 1
  }

  /** Least n with n * step >= limit. */
  function Repeats(limit: int, step: int): (n: nat)
    requires limit > 0 && step > 0
    ensures n * step >= limit && (n - 1) * step < limit && n >= 1
  {
    if limit <= step then 1
    else
      var n := Repeats(limit - step, step);
      assert (n + 1) * step == n * step + step && n * step == (n - 1) * step + step;
      n + 1
  }

  /** Points k to n of sample i, a step apart. */
  function Burst(samples: seq<Sample>, step: int, i: nat, k: nat, n: nat): seq<Point>
    requires i < |samples|
    decreases n - k
  {
    if k > n then [] else [Point(samples[i].timestampMs + k * step, i)] + Burst(samples, step, i, k + 1, n)
  }

  /** Every sample in order, first at its own time, then repeated. */
  ghost function Expected(samples: seq<Sample>, step: int, i: nat): seq<Point>
    requires i <= |samples| && step > 0 && Increasing(samples)
    decreases |samples| - i
  {
    if i == |samples| then []
    else Burst(samples, step, i, 0, Repeats(Limit(samples, i), step)) + Expected(samples, step, i + 1)
  }

  lemma {:induction false} WithinLimit(limit: int, step: int, k: nat)
    requires limit > 0 && step > 0
    ensures k < Repeats(limit, step) <==> k * step < limit
  {
    var n := Repeats(limit, step);
    if k < n {
      MulGrows(k, n - 1, step);
    } else {
      MulGrows(n, k, step);
    }
  }

  lemma {:induction false} MulGrows(a: nat, b: nat, step: int)
    requires a <= b && step > 0
    ensures a * step <= b * step
  {
  }

  /** One call of Next after k repetitions of sample i. */
  lemma {:induction false} AdvanceAt(samples: seq<Sample>, step: int, i: nat, k: nat)
    requires step > 0 && Increasing(samples) && i < |samples| && k <= Repeats(Limit(samples, i), step)
    ensures var a := Advance(samples, step, Cursor(Some(i), samples[i].timestampMs + k * step));
            var later := samples[i].timestampMs + (k + 1) * step;
            if k < Repeats(Limit(samples, i), step) then a == Emit(Point(later, i), Cursor(Some(i), later))
            else if i + 1 == |samples| then a == Stop
            else a == Emit(Point(samples[i + 1].timestampMs, i + 1), Cursor(Some(i + 1), samples[i + 1].timestampMs))
  {
    WithinLimit(Limit(samples, i), step, k);
    assert (k + 1) * step == k * step + step;
  }

  lemma {:induction false} DrainFrom(samples: seq<Sample>, step: int, i: nat, k: nat, n: nat)
    requires step > 0 && Increasing(samples) && i < |samples|
    requires k <= n == Repeats(Limit(samples, i), step)
    ensures Drain(samples, step, Cursor(Some(i), samples[i].timestampMs + k * step))
            == Burst(samples, step, i, k + 1, n) + Expected(samples, step, i + 1)
    decreases |samples| - i, n - k
  {
    AdvanceAt(samples, step, i, k);
    if k < n {
      DrainFrom(samples, step, i, k + 1, n);
    } else if i + 1 < |samples| {
      DrainNext(samples, step, i);
    }
  }

  /** The next sample takes over, at its own time. */
  lemma {:induction false} DrainNext(samples: seq<Sample>, step: int, i: nat)
    requires step > 0 && Increasing(samples) && i + 1 < |samples|
    ensures var c := Cursor(Some(i + 1), samples[i + 1].timestampMs);
            [Point(c.timestampMs, i + 1)] + Drain(samples, step, c) == Expected(samples, step, i + 1)
    decreases |samples| - i - 1
  {
    var n := Repeats(Limit(samples, i + 1), step);
    assert 0 * step == 0;
    DrainFrom(samples, step, i + 1, 0, n);
  }

  /** Repeated Next terminates and shows exactly the expected points. */
  lemma {:induction false} DrainIsExpected(samples: seq<Sample>, step: int, t: int)
    requires step > 0 && Increasing(samples)
    ensures Drain(samples, step, Cursor(None, t)) == Expected(samples, step, 0)
  {
    if samples != [] {
      assert 0 * step == 0;
      DrainFrom(samples, step, 0, 0, Repeats(Limit(samples, 0), step));
    }
  }

  lemma {:induction false} BurstBounds(samples: seq<Sample>, step: int, i: nat, k: nat, n: nat, j: nat)
    requires i < |samples| && step > 0 && j < |Burst(samples, step, i, k, n)|
    ensures Burst(samples, step, i, k, n)[j].sample == i
    ensures samples[i].timestampMs + k * step <= Burst(samples, step, i, k, n)[j].time <= samples[i].timestampMs + n * step
    decreases n - k
  {
    MulGrows(k, n, step);
    if j > 0 {
      BurstBounds(samples, step, i, k + 1, n, j - 1);
      MulGrows(k, k + 1, step);
    }
  }

  /** Every point lies between its sample's time and five minutes and one step later. */
  lemma {:induction false} PointsInRange(samples: seq<Sample>, step: int, i: nat, j: nat)
    requires i <= |samples| && step > 0 && Increasing(samples) && j < |Expected(samples, step, i)|
    ensures var p := Expected(samples, step, i)[j];
            && i <= p.sample < |samples|
            && samples[p.sample].timestampMs <= p.time <= samples[p.sample].timestampMs + LOOKBACK_MS + step
    decreases |samples| - i
  {
    var n := Repeats(Limit(samples, i), step);
    var burst := Burst(samples, step, i, 0, n);
    if j < |burst| {
      BurstBounds(samples, step, i, 0, n, j);
      assert n * step == (n - 1) * step + step;
      assert 0 * step == 0;
    } else {
      PointsInRange(samples, step, i + 1, j - |burst|);
    }
  }

  // ----- when time never goes back

  ghost predicate Monotone(ps: seq<Point>) {
    forall j :: 0 <= j < |ps| - 1 ==> ps[j].time <= ps[j + 1].time
  }

  lemma {:induction false} MonotoneConcat(a: seq<Point>, b: seq<Point>)
    requires a != []
    ensures Monotone(a + b) <==> Monotone(a) && Monotone(b) && (b != [] ==> a[|a| - 1].time <= b[0].time)
  {
    var all := a + b;
    if Monotone(all) {
      forall j | 0 <= j < |a| - 1 ensures a[j].time <= a[j + 1].time {
        assert all[j].time <= all[j + 1].time;
      }
      forall j | 0 <= j < |b| - 1 ensures b[j].time <= b[j + 1].time {
        assert all[|a| + j].time <= all[|a| + j + 1].time;
      }
      if b != [] {
        assert all[|a| - 1].time <= all[|a|].time;
      }
    }
  }

  lemma {:induction false} BurstMonotone(samples: seq<Sample>, step: int, i: nat, k: nat, n: nat)
    requires i < |samples| && step > 0 && k <= n
    ensures var b := Burst(samples, step, i, k, n);
            && Monotone(b) && b != [] && b[0].time == samples[i].timestampMs + k * step
            && b[|b| - 1].time == samples[i].timestampMs + n * step
    decreases n - k
  {
    if k < n {
      BurstMonotone(samples, step, i, k + 1, n);
      MulGrows(k, k + 1, step);
      MonotoneConcat([Point(samples[i].timestampMs + k * step, i)], Burst(samples, step, i, k + 1, n));
    } else {
      assert Burst(samples, step, i, k + 1, n) == [];
    }
  }

  /** The last repetition of sample i does not overshoot the next sample. */
  ghost predicate NoOvershoot(samples: seq<Sample>, step: int, i: nat)
    requires i + 1 < |samples| && step > 0 && Increasing(samples)
  {
    Repeats(Limit(samples, i), step) * step <= samples[i + 1].timestampMs - samples[i].timestampMs
  }

  /** Shown times never decrease exactly when no repetition overshoots the next sample. */
  lemma {:induction false} MonotoneIff(samples: seq<Sample>, step: int, i: nat)
    requires i <= |samples| && step > 0 && Increasing(samples)
    ensures Monotone(Expected(samples, step, i)) <==>
            forall j :: i <= j < |samples| - 1 ==> NoOvershoot(samples, step, j)
    decreases |samples| - i
  {
    if i < |samples| {
      var n := Repeats(Limit(samples, i), step);
      MonotoneIff(samples, step, i + 1);
      BurstMonotone(samples, step, i, 0, n);
      MonotoneConcat(Burst(samples, step, i, 0, n), Expected(samples, step, i + 1));
      if i + 1 < |samples| {
        BurstMonotone(samples, step, i + 1, 0, Repeats(Limit(samples, i + 1), step));
        assert 0 * step == 0;
        assert NoOvershoot(samples, step, i) <==>
               samples[i].timestampMs + n * step <= samples[i + 1].timestampMs;
      }
    }
  }

  /** Gaps that are multiples of the step never overshoot. */
  lemma {:induction false} MultiplesFit(samples: seq<Sample>, step: int, i: nat, m: nat)
    requires i + 1 < |samples| && step > 0 && Increasing(samples)
    requires samples[i + 1].timestampMs - samples[i].timestampMs == m * step
    ensures NoOvershoot(samples, step, i)
  {
    var n := Repeats(Limit(samples, i), step);
    if n > m {
      MulGrows(m, n - 1, step);
    } else {
      MulGrows(n, m, step);
    }
  }

  /** A gap of 10 read with a step of 7 shows times 0, 7, 14 and then 10. */
  lemma {:induction false} OvershootExample()
    ensures var samples := [Sample(0, 0.0), Sample(10, 1.0)];
            Increasing(samples) && !NoOvershoot(samples, 7, 0) && !Monotone(Expected(samples, 7, 0))
  {
    var samples := [Sample(0, 0.0), Sample(10, 1.0)];
    assert Repeats(10, 7) == 2;
    MonotoneIff(samples, 7, 0);
  }
}
