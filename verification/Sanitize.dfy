/** sanitizeProfile: repairs the tables of an arbitrary profile and renumbers its ids
    densely from 1. Proved to keep the meaning of the profile. */
module Sanitize {
  import opened Sequences
  import opened Pprof

  // ----- specification of each pass

  /** Index of the first empty string, the length of the table when there is none. */
  function FirstEmpty(st: seq<string>): (z: nat)
    ensures z <= |st|
    ensures z < |st| ==> st[z] == ""
    ensures forall k :: 0 <= k < z ==> st[k] != ""
  {
    if st == [] then 0
    else
      var z := FirstEmpty(st[..|st| - 1]);
      if z < |st| - 1 || st[|st| - 1] == "" then z else |st|
  }

  /** The table with "" appended when missing and swapped to the front. */
  function FixStrings(st: seq<string>): (r: seq<string>)
    ensures |r| > 0 && r[0] == ""
  {
    var z := FirstEmpty(st);
    var t := if z == |st| then st + [""] else st;
    t[0 := t[z]][z := t[0]]
  }

  /** Where a string reference points after the swap; bad references go to "". */
  function FixRef(st: seq<string>, i: int): (r: int)
    ensures 0 <= r < |FixStrings(st)|
  {
    var z := FirstEmpty(st);
    if i == 0 && z > 0 then z
    else if i == z || i >= |FixStrings(st)| || i < 0 then 0
    else i
  }

  function FixRefs(st: seq<string>, refs: seq<int>): (r: seq<int>)
    ensures |r| == |refs| && forall i :: 0 <= i < |refs| ==> r[i] == FixRef(st, refs[i])
  {
    seq(|refs|, i requires 0 <= i < |refs| => FixRef(st, refs[i]))
  }

  function FixValueType(st: seq<string>): ValueType -> ValueType {
    (v: ValueType) => ValueType(FixRef(st, v.typ), FixRef(st, v.unit))
  }

  function FixMappings(st: seq<string>, ms: seq<Mapping>): (r: seq<Mapping>)
    ensures |r| == |ms|
  {
    seq(|ms|, i requires 0 <= i < |ms| =>
      ms[i].(buildId := FixRef(st, ms[i].buildId), filename := FixRef(st, ms[i].filename), id := i + 1))
  }

  /** Locations without a mapping share one extra, empty mapping after the others. */
  function AttachMapping(ms: seq<Mapping>): Location -> Option<Location> {
    (loc: Location) =>
      if loc.mappingId == 0 then Some(loc.(mappingId := |ms| + 1))
      else
        var k := LastPos(MappingIds(ms), loc.mappingId);
        if k == 0 then None else Some(loc.(mappingId := k))
  }

  predicate NeedsMapping(ls: seq<Location>) {
    exists i :: 0 <= i < |ls| && ls[i].mappingId == 0
  }

  function ExtraMapping(ms: seq<Mapping>, ls: seq<Location>): seq<Mapping> {
    if NeedsMapping(ls) then [Mapping(|ms| + 1, 0, 0, 0, 0, 0)] else []
  }

  function FixFunctions(st: seq<string>, fs: seq<Function>): (r: seq<Function>)
    ensures |r| == |fs|
  {
    seq(|fs|, i requires 0 <= i < |fs| =>
      fs[i].(name := FixRef(st, fs[i].name), systemName := FixRef(st, fs[i].systemName),
             filename := FixRef(st, fs[i].filename), id := i + 1))
  }

  /** Lines are rewritten one after the other; the first unknown function drops the location. */
  function FixLines(fs: seq<Function>, lines: seq<Line>): Option<seq<Line>> {
    if lines == [] then Some([])
    else
      var init := FixLines(fs, lines[..|lines| - 1]);
      var k := LastPos(FunctionIds(fs), lines[|lines| - 1].functionId);
      if init.None? || k == 0 then None
      else Some(init.value + [lines[|lines| - 1].(functionId := k)])
  }

  function AttachFunctions(fs: seq<Function>): Location -> Option<Location> {
    (loc: Location) =>
      var lines := FixLines(fs, loc.lines);
      if lines.None? then None else Some(loc.(lines := lines.value))
  }

  function Renumber(ls: seq<Location>): (r: seq<Location>)
    ensures |r| == |ls|
  {
    seq(|ls|, i requires 0 <= i < |ls| => ls[i].(id := i + 1))
  }

  function FixIds(t: seq<nat>, ids: seq<nat>): Option<seq<nat>> {
    if ids == [] then Some([])
    else
      var init := FixIds(t, ids[..|ids| - 1]);
      var k := LastPos(t, ids[|ids| - 1]);
      if init.None? || k == 0 then None else Some(init.value + [k])
  }

  function FixLabel(st: seq<string>): Label -> Label {
    (l: Label) => l.(key := FixRef(st, l.key), str := FixRef(st, l.str), numUnit := FixRef(st, l.numUnit))
  }

  function FixSample(st: seq<string>, columns: nat, t: seq<nat>): Sample -> Option<Sample> {
    (s: Sample) =>
      var ids := FixIds(t, s.locationId);
      if |s.value| != columns || ids.None? then None
      else Some(Sample(ids.value, s.value, MapSeq(FixLabel(st), s.labels)))
  }

  function Linked(ms: seq<Mapping>, fs: seq<Function>, ls: seq<Location>): seq<Location> {
    KeepMap(AttachFunctions(fs), KeepMap(AttachMapping(ms), ls))
  }

  /** The locations that survive both location passes, with their old ids. */
  function Survivors(p: Profile): seq<Location> {
    Linked(p.mappings, p.functions, p.locations)
  }

  /** The whole repair. */
  function Sanitized(p: Profile): Profile {
    var st := p.stringTable;
    var locs := Survivors(p);
    Profile(
      MapSeq(FixValueType(st), p.sampleType),
      KeepMap(FixSample(st, |p.sampleType|, LocationIds(locs)), p.samples),
      FixMappings(st, p.mappings) + ExtraMapping(p.mappings, p.locations),
      Renumber(locs),
      FixFunctions(st, p.functions),
      FixStrings(st),
      FixRef(st, p.dropFrames),
      FixRef(st, p.keepFrames),
      p.timeNanos,
      p.durationNanos,
      if p.periodType.None? then None else Some(FixValueType(st)(p.periodType.value)),
      p.period,
      FixRefs(st, p.comment),
      FixRef(st, p.defaultSampleType))
  }

  // ----- the result is well-formed

  lemma {:induction false} FixLinesOk(fs: seq<Function>, lines: seq<Line>)
    requires FixLines(fs, lines).Some?
    ensures LinesOk(FixLines(fs, lines).value, |fs|)
  {
    if lines != [] {
      FixLinesOk(fs, lines[..|lines| - 1]);
    }
  }

  lemma {:induction false} FixIdsOk(t: seq<nat>, ids: seq<nat>)
    requires FixIds(t, ids).Some?
    ensures IdsOk(FixIds(t, ids).value, |t|)
  {
    if ids != [] {
      FixIdsOk(t, ids[..|ids| - 1]);
    }
  }

  lemma {:induction false} SurvivorOk(p: Profile, k: nat)
    requires k < |Survivors(p)|
    ensures 1 <= Survivors(p)[k].mappingId <= |Sanitized(p).mappings|
    ensures LinesOk(Survivors(p)[k].lines, |p.functions|)
  {
    var mid := KeepMap(AttachMapping(p.mappings), p.locations);
    KeepMapFrom(AttachFunctions(p.functions), mid, k);
    var i :| 0 <= i < |mid| && AttachFunctions(p.functions)(mid[i]) == Some(Survivors(p)[k]);
    FixLinesOk(p.functions, mid[i].lines);
    KeepMapFrom(AttachMapping(p.mappings), p.locations, i);
    var j :| 0 <= j < |p.locations| && AttachMapping(p.mappings)(p.locations[j]) == Some(mid[i]);
    if p.locations[j].mappingId == 0 {
      assert NeedsMapping(p.locations);
    }
  }

  lemma {:induction false} FixedSampleOk(p: Profile, k: nat)
    requires k < |Sanitized(p).samples|
    ensures SampleOk(Sanitized(p).samples[k], |p.sampleType|, |Survivors(p)|, FixStrings(p.stringTable))
    ensures forall j :: 0 <= j < |Sanitized(p).samples[k].labels| ==>
      InTable(FixStrings(p.stringTable), Sanitized(p).samples[k].labels[j].numUnit)
  {
    var f := FixSample(p.stringTable, |p.sampleType|, LocationIds(Survivors(p)));
    KeepMapFrom(f, p.samples, k);
    var i :| 0 <= i < |p.samples| && f(p.samples[i]) == Some(Sanitized(p).samples[k]);
    FixIdsOk(LocationIds(Survivors(p)), p.samples[i].locationId);
  }

  /** Whatever profile comes in, a well-formed one comes out. */
  lemma {:induction false} SanitizedWellFormed(p: Profile)
    ensures WellFormed(Sanitized(p)) && TextRefsOk(Sanitized(p))
  {
    var q := Sanitized(p);
    assert FunctionsOk(q.functions, q.stringTable);
    assert MappingsOk(q.mappings, q.stringTable);
    forall k | 0 <= k < |q.locations|
      ensures 1 <= q.locations[k].mappingId <= |q.mappings| && LinesOk(q.locations[k].lines, |q.functions|)
    {
      SurvivorOk(p, k);
    }
    assert LocationsOk(q.locations, |q.mappings|, |q.functions|);
    forall k | 0 <= k < |q.samples|
      ensures SampleOk(q.samples[k], |q.sampleType|, |q.locations|, q.stringTable)
      ensures forall j :: 0 <= j < |q.samples[k].labels| ==> InTable(q.stringTable, q.samples[k].labels[j].numUnit)
    {
      FixedSampleOk(p, k);
    }
  }

  // ----- meaning is kept

  /** A rewritten string reference reads the same string. */
  lemma {:induction false} FixRefReads(st: seq<string>, i: int)
    ensures StringAt(FixStrings(st), FixRef(st, i)) == StringAt(st, i)
  {
    var z := FirstEmpty(st);
    var t := if z == |st| then st + [""] else st;
    assert FixStrings(st) == t[0 := t[z]][z := t[0]];
  }

  lemma {:induction false} FunctionNameKept(p: Profile, id: nat)
    ensures var k := LastPos(FunctionIds(p.functions), id);
            var q := Sanitized(p);
            FunctionName(p.functions, p.stringTable, id)
            == if k == 0 then None else FunctionName(q.functions, q.stringTable, k)
  {
    var k := LastPos(FunctionIds(p.functions), id);
    var q := Sanitized(p);
    if k > 0 {
      assert FunctionIds(q.functions)[k - 1] == k;
      FixRefReads(p.stringTable, p.functions[k - 1].name);
    }
  }

  lemma {:induction false} LineNamesKept(p: Profile, lines: seq<Line>)
    ensures FixLines(p.functions, lines).Some? <==> LineNames(p.functions, p.stringTable, lines).Some?
    ensures FixLines(p.functions, lines).Some? ==>
      LineNames(Sanitized(p).functions, Sanitized(p).stringTable, FixLines(p.functions, lines).value)
      == LineNames(p.functions, p.stringTable, lines)
  {
    if lines != [] {
      var n := |lines| - 1;
      LineNamesKept(p, lines[..n]);
      FunctionNameKept(p, lines[n].functionId);
      if FixLines(p.functions, lines).Some? {
        var r := FixLines(p.functions, lines).value;
        assert r[..|r| - 1] == FixLines(p.functions, lines[..n]).value;
      }
    }
  }

  /** Both location passes on one location. */
  function FixLocation(p: Profile): Location -> Option<Location> {
    (loc: Location) =>
      var m := AttachMapping(p.mappings)(loc);
      if m.None? then None else AttachFunctions(p.functions)(m.value)
  }

  lemma {:induction false} SurvivorsOnePass(p: Profile, ls: seq<Location>)
    ensures KeepMap(AttachFunctions(p.functions), KeepMap(AttachMapping(p.mappings), ls))
            == KeepMap(FixLocation(p), ls)
  {
    if ls != [] {
      var n := |ls| - 1;
      SurvivorsOnePass(p, ls[..n]);
      var mid := KeepMap(AttachMapping(p.mappings), ls);
      if AttachMapping(p.mappings)(ls[n]).Some? {
        assert mid[..|mid| - 1] == KeepMap(AttachMapping(p.mappings), ls[..n]);
      }
    }
  }

  lemma {:induction false} LocationFrameKept(p: Profile, loc: Location)
    requires loc in p.locations
    ensures FixLocation(p)(loc).Some? <==> LocationFrame(p, loc).Some?
    ensures FixLocation(p)(loc).Some? ==>
      FixLocation(p)(loc).value.id == loc.id &&
      LocationFrame(Sanitized(p), FixLocation(p)(loc).value) == LocationFrame(p, loc)
  {
    LineNamesKept(p, loc.lines);
    var q := Sanitized(p);
    if FixLocation(p)(loc).Some? {
      var m := FixLocation(p)(loc).value.mappingId;
      if loc.mappingId == 0 {
        var i :| 0 <= i < |p.locations| && p.locations[i] == loc;
        assert NeedsMapping(p.locations);
      }
      assert MappingIds(q.mappings)[m - 1] == m;
    }
  }

  /** g reads each location that fix keeps as f reads the original, and fix keeps exactly
      the locations that f can read. */
  ghost predicate Agree<T>(fix: Location -> Option<Location>, f: Location -> Option<T>,
                           g: Location -> Option<T>, loc: Location) {
    && (fix(loc).Some? <==> f(loc).Some?)
    && (fix(loc).Some? ==> fix(loc).value.id == loc.id && g(fix(loc).value) == f(loc))
  }

  /** Reading the location that the id table names. */
  function LookUp<T>(g: Location -> Option<T>, kept: seq<Location>, id: nat): Option<T> {
    var k := LastPos(LocationIds(kept), id);
    if k == 0 then None else g(kept[k - 1])
  }

  lemma {:induction false} LookUpAppend<T>(g: Location -> Option<T>, kept: seq<Location>, x: Location, id: nat)
    ensures LookUp(g, kept + [x], id) == if x.id == id then g(x) else LookUp(g, kept, id)
  {
    assert LocationIds(kept + [x]) == LocationIds(kept) + [x.id];
    LastPosAppend(LocationIds(kept), x.id, id);
  }

  /** Looking an id up among the survivors finds the last location that resolves. */
  lemma {:induction false} LastDefinedKept<T>(fix: Location -> Option<Location>, f: Location -> Option<T>,
                                              g: Location -> Option<T>, ls: seq<Location>, id: nat)
    requires forall i :: 0 <= i < |ls| ==> Agree(fix, f, g, ls[i])
    ensures LastDefined(f, ls, id) == LookUp(g, KeepMap(fix, ls), id)
  {
    if ls != [] {
      var n := |ls| - 1;
      LastDefinedKept(fix, f, g, ls[..n], id);
      assert Agree(fix, f, g, ls[n]);
      if fix(ls[n]).Some? {
        LookUpAppend(g, KeepMap(fix, ls[..n]), fix(ls[n]).value, id);
      }
    }
  }

  lemma {:induction false} SameFrame(p: Profile, a: Location, b: Location)
    requires a.mappingId == b.mappingId && a.lines == b.lines
    ensures LocationFrame(p, a) == LocationFrame(p, b)
  {
  }

  lemma {:induction false} IdResolutionKept(p: Profile, q: Profile, id: nat)
    requires q == Sanitized(p)
    ensures var k := LastPos(LocationIds(Survivors(p)), id);
            && FrameOf(p, p.locations, id) == (if k == 0 then None else FrameOf(q, q.locations, k))
            && (k == 0 <==> FrameOf(p, p.locations, id).None?)
  {
    var kept := Survivors(p);
    var k := LastPos(LocationIds(kept), id);
    forall i | 0 <= i < |p.locations|
      ensures Agree(FixLocation(p), FrameIn(p), FrameIn(q), p.locations[i])
    {
      LocationFrameKept(p, p.locations[i]);
    }
    assert kept == KeepMap(FixLocation(p), p.locations) by {
      SurvivorsOnePass(p, p.locations);
    }
    LastDefinedKept(FixLocation(p), FrameIn(p), FrameIn(q), p.locations, id);
    if k > 0 {
      assert q.locations[k - 1] == kept[k - 1].(id := k);
      SanitizedWellFormed(p);
      DenseFrameOf(q, q.locations, k);
      SameFrame(q, q.locations[k - 1], kept[k - 1]);
    }
  }

  lemma {:induction false} StackKept(p: Profile, ids: seq<nat>)
    ensures var r := FixIds(LocationIds(Survivors(p)), ids);
            && (r.Some? <==> StackOf(p, ids).Some?)
            && (r.Some? ==> StackOf(Sanitized(p), r.value) == StackOf(p, ids))
  {
    if ids != [] {
      var n := |ids| - 1;
      StackKept(p, ids[..n]);
      IdResolutionKept(p, Sanitized(p), ids[n]);
      var r := FixIds(LocationIds(Survivors(p)), ids);
      if r.Some? {
        assert r.value[..|r.value| - 1] == FixIds(LocationIds(Survivors(p)), ids[..n]).value;
      }
    }
  }

  /** A sample is dropped only for a wrong value count or an unresolved reference, and a
      sample that stays keeps its values and its call stack. */
  lemma {:induction false} SampleFate(p: Profile, s: Sample)
    ensures var r := FixSample(p.stringTable, |p.sampleType|, LocationIds(Survivors(p)))(s);
            && (r.Some? <==> |s.value| == |p.sampleType| && StackOf(p, s.locationId).Some?)
            && (r.Some? ==> r.value.value == s.value
                            && StackOf(Sanitized(p), r.value.locationId) == StackOf(p, s.locationId))
  {
    StackKept(p, s.locationId);
  }

  lemma {:induction false} WeightKeptOn(p: Profile, ss: seq<Sample>, stack: Stack, c: nat)
    ensures SumBy(SampleWeight(Sanitized(p), stack, c),
                  KeepMap(FixSample(p.stringTable, |p.sampleType|, LocationIds(Survivors(p))), ss))
            == SumBy(SampleWeight(p, stack, c), ss)
  {
    if ss != [] {
      var n := |ss| - 1;
      var f := FixSample(p.stringTable, |p.sampleType|, LocationIds(Survivors(p)));
      WeightKeptOn(p, ss[..n], stack, c);
      SampleFate(p, ss[n]);
      if f(ss[n]).Some? {
        var kept := KeepMap(f, ss);
        assert kept[..|kept| - 1] == KeepMap(f, ss[..n]);
      }
    }
  }

  /** The repair gives every call stack exactly the weight it had. */
  lemma {:induction false} SanitizedKeepsWeight(p: Profile, stack: Stack, c: nat)
    ensures Weight(Sanitized(p), stack, c) == Weight(p, stack, c)
  {
    WeightKeptOn(p, p.samples, stack, c);
  }

  // ----- idempotence

  lemma {:induction false} WellFormedStringsFixed(st: seq<string>)
    requires |st| > 0 && st[0] == ""
    ensures FixStrings(st) == st
    ensures forall i :: 0 <= i < |st| ==> FixRef(st, i) == i
  {
    assert FirstEmpty(st) == 0;
  }

  lemma {:induction false} DenseFixLines(fs: seq<Function>, st: seq<string>, lines: seq<Line>)
    requires FunctionsOk(fs, st) && LinesOk(lines, |fs|)
    ensures FixLines(fs, lines) == Some(lines)
  {
    if lines != [] {
      var n := |lines| - 1;
      DenseFixLines(fs, st, lines[..n]);
      assert FunctionIds(fs)[lines[n].functionId - 1] == lines[n].functionId;
      assert lines == lines[..n] + [lines[n]];
    }
  }

  lemma {:induction false} DenseFixIds(t: seq<nat>, ids: seq<nat>)
    requires forall i :: 0 <= i < |t| ==> t[i] == i + 1
    requires IdsOk(ids, |t|)
    ensures FixIds(t, ids) == Some(ids)
  {
    if ids != [] {
      var n := |ids| - 1;
      DenseFixIds(t, ids[..n]);
      assert t[ids[n] - 1] == ids[n];
      assert ids == ids[..n] + [ids[n]];
    }
  }

  lemma {:induction false} WellFormedSurvivors(p: Profile)
    requires WellFormed(p)
    ensures Survivors(p) == p.locations
    ensures !NeedsMapping(p.locations)
  {
    forall i | 0 <= i < |p.locations|
      ensures AttachMapping(p.mappings)(p.locations[i]) == Some(p.locations[i])
      ensures AttachFunctions(p.functions)(p.locations[i]) == Some(p.locations[i])
    {
      var m := p.locations[i].mappingId;
      assert MappingIds(p.mappings)[m - 1] == m;
      DenseFixLines(p.functions, p.stringTable, p.locations[i].lines);
    }
    KeepMapAll(AttachMapping(p.mappings), p.locations);
    KeepMapAll(AttachFunctions(p.functions), p.locations);
  }

  lemma {:induction false} WellFormedSamples(p: Profile)
    requires WellFormed(p) && TextRefsOk(p)
    ensures KeepMap(FixSample(p.stringTable, |p.sampleType|, LocationIds(p.locations)), p.samples) == p.samples
  {
    WellFormedStringsFixed(p.stringTable);
    var f := FixSample(p.stringTable, |p.sampleType|, LocationIds(p.locations));
    forall i | 0 <= i < |p.samples| ensures f(p.samples[i]) == Some(p.samples[i]) {
      var s := p.samples[i];
      assert SampleOk(s, |p.sampleType|, |p.locations|, p.stringTable);
      DenseFixIds(LocationIds(p.locations), s.locationId);
      assert MapSeq(FixLabel(p.stringTable), s.labels) == s.labels;
    }
    KeepMapAll(f, p.samples);
  }

  lemma {:induction false} WellFormedTables(p: Profile)
    requires WellFormed(p)
    ensures FixMappings(p.stringTable, p.mappings) == p.mappings
    ensures FixFunctions(p.stringTable, p.functions) == p.functions
    ensures Renumber(p.locations) == p.locations
    ensures MapSeq(FixValueType(p.stringTable), p.sampleType) == p.sampleType
  {
    WellFormedStringsFixed(p.stringTable);
  }

  /** A well-formed profile is left exactly as it is. */
  lemma {:induction false} WellFormedIsFixpoint(p: Profile)
    requires WellFormed(p) && TextRefsOk(p)
    ensures Sanitized(p) == p
  {
    var q := Sanitized(p);
    assert q.samples == p.samples && q.locations == p.locations && q.mappings == p.mappings by {
      WellFormedSurvivors(p);
      WellFormedSamples(p);
      WellFormedTables(p);
    }
    assert q.functions == p.functions && q.sampleType == p.sampleType by {
      WellFormedTables(p);
    }
    WellFormedStringsFixed(p.stringTable);
    assert q.comment == p.comment;
  }

  /** Sanitizing twice is sanitizing once. */
  lemma {:induction false} SanitizedIdempotent(p: Profile)
    ensures Sanitized(Sanitized(p)) == Sanitized(p)
  {
    SanitizedWellFormed(p);
    WellFormedIsFixpoint(Sanitized(p));
  }
}
