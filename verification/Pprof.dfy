/** The pprof profile format and what a profile MEANS: for every call stack, written as
    the function names of its locations, the weight the profile gives it. The meaning is
    defined for any profile, however damaged its tables are. */
module Pprof {
  import opened Sequences

  datatype ValueType = ValueType(typ: int, unit: int)

  datatype Mapping = Mapping(id: nat, memoryStart: nat, memoryLimit: nat, fileOffset: nat,
                             filename: int, buildId: int)

  datatype Line = Line(functionId: nat, line: int)

  datatype Location = Location(id: nat, mappingId: nat, address: nat, lines: seq<Line>)

  datatype Function = Function(id: nat, name: int, systemName: int, filename: int, startLine: int)

  datatype Label = Label(key: int, str: int, num: int, numUnit: int)

  datatype Sample = Sample(locationId: seq<nat>, value: seq<int>, labels: seq<Label>)

  datatype Profile = Profile(
    sampleType: seq<ValueType>,
    samples: seq<Sample>,
    mappings: seq<Mapping>,
    locations: seq<Location>,
    functions: seq<Function>,
    stringTable: seq<string>,
    dropFrames: int,
    keepFrames: int,
    timeNanos: int,
    durationNanos: int,
    periodType: Option<ValueType>,
    period: int,
    comment: seq<int>,
    defaultSampleType: int)

  /** The names of the functions at one location, innermost inlined call first. */
  type Frame = seq<string>

  /** A call stack, leaf location first. */
  type Stack = seq<Frame>

  // ----- resolution of references in an arbitrary profile

  function FunctionIds(fs: seq<Function>): (r: seq<nat>)
    ensures |r| == |fs| && forall i :: 0 <= i < |fs| ==> r[i] == fs[i].id
  {
    seq(|fs|, i requires 0 <= i < |fs| => fs[i].id)
  }

  function MappingIds(ms: seq<Mapping>): (r: seq<nat>)
    ensures |r| == |ms| && forall i :: 0 <= i < |ms| ==> r[i] == ms[i].id
  {
    seq(|ms|, i requires 0 <= i < |ms| => ms[i].id)
  }

  function LocationIds(ls: seq<Location>): (r: seq<nat>)
    ensures |r| == |ls| && forall i :: 0 <= i < |ls| ==> r[i] == ls[i].id
  {
    seq(|ls|, i requires 0 <= i < |ls| => ls[i].id)
  }

  /** A string reference outside the table reads as the empty string. */
  function StringAt(st: seq<string>, i: int): string {
    if 0 <= i < |st| then st[i] else ""
  }

  /** The name of the last function carrying the id. */
  function FunctionName(fs: seq<Function>, st: seq<string>, id: nat): Option<string> {
    var k := LastPos(FunctionIds(fs), id);
    if k == 0 then None else Some(StringAt(st, fs[k - 1].name))
  }

  function LineNames(fs: seq<Function>, st: seq<string>, lines: seq<Line>): Option<Frame> {
    if lines == [] then Some([])
    else
      var names := LineNames(fs, st, lines[..|lines| - 1]);
      var name := FunctionName(fs, st, lines[|lines| - 1].functionId);
      if names.Some? && name.Some? then Some(names.value + [name.value]) else None
  }

  /** A location resolves when its mapping, unless it is the "no mapping" id 0, and the
      functions of all its lines exist. */
  function LocationFrame(p: Profile, loc: Location): Option<Frame> {
    if loc.mappingId != 0 && loc.mappingId !in MappingIds(p.mappings) then None
    else LineNames(p.functions, p.stringTable, loc.lines)
  }

  function FrameIn(p: Profile): Location -> Option<Frame> {
    (loc: Location) => LocationFrame(p, loc)
  }

  /** The value of f at the last location that carries the id and on which f is defined. */
  function LastDefined<T>(f: Location -> Option<T>, locs: seq<Location>, id: nat): Option<T> {
    if locs == [] then None
    else
      var loc := locs[|locs| - 1];
      if loc.id == id && f(loc).Some? then f(loc) else LastDefined(f, locs[..|locs| - 1], id)
  }

  /** The frame of the last location carrying the id among those that resolve. */
  function FrameOf(p: Profile, locs: seq<Location>, id: nat): Option<Frame> {
    LastDefined(FrameIn(p), locs, id)
  }

  function StackOf(p: Profile, ids: seq<nat>): Option<Stack> {
    if ids == [] then Some([])
    else
      var stack := StackOf(p, ids[..|ids| - 1]);
      var frame := FrameOf(p, p.locations, ids[|ids| - 1]);
      if stack.Some? && frame.Some? then Some(stack.value + [frame.value]) else None
  }

  // ----- meaning

  /** What one sample adds to the weight of `stack` in column c: a sample counts when it has
      one value per sample type and all its locations resolve. */
  function SampleWeight(p: Profile, stack: Stack, c: nat): Sample -> int {
    (s: Sample) =>
      if |s.value| == |p.sampleType| && c < |s.value| && StackOf(p, s.locationId) == Some(stack)
      then s.value[c] else 0
  }

  /** The weight of a call stack in value column c. */
  function Weight(p: Profile, stack: Stack, c: nat): int {
    SumBy(SampleWeight(p, stack, c), p.samples)
  }

  /** One column of one sample, 0 past the end. */
  function ColumnValue(c: nat): Sample -> int {
    (s: Sample) => if c < |s.value| then s.value[c] else 0
  }

  function ColumnTotal(samples: seq<Sample>, c: nat): int {
    SumBy(ColumnValue(c), samples)
  }

  // ----- well-formedness, as the comments of profile.proto require it

  ghost predicate InTable(st: seq<string>, i: int) {
    0 <= i < |st|
  }

  ghost predicate ValueTypeOk(st: seq<string>, v: ValueType) {
    InTable(st, v.typ) && InTable(st, v.unit)
  }

  ghost predicate FunctionsOk(fs: seq<Function>, st: seq<string>) {
    forall i :: 0 <= i < |fs| ==>
      && fs[i].id == i + 1
      && InTable(st, fs[i].name) && InTable(st, fs[i].systemName) && InTable(st, fs[i].filename)
  }

  ghost predicate MappingsOk(ms: seq<Mapping>, st: seq<string>) {
    forall i :: 0 <= i < |ms| ==>
      ms[i].id == i + 1 && InTable(st, ms[i].filename) && InTable(st, ms[i].buildId)
  }

  ghost predicate LinesOk(lines: seq<Line>, functions: nat) {
    forall j :: 0 <= j < |lines| ==> 1 <= lines[j].functionId <= functions
  }

  ghost predicate LocationsOk(ls: seq<Location>, mappings: nat, functions: nat) {
    forall i :: 0 <= i < |ls| ==>
      && ls[i].id == i + 1
      && 1 <= ls[i].mappingId <= mappings
      && LinesOk(ls[i].lines, functions)
  }

  ghost predicate IdsOk(ids: seq<nat>, locations: nat) {
    forall j :: 0 <= j < |ids| ==> 1 <= ids[j] <= locations
  }

  ghost predicate LabelsOk(labels: seq<Label>, st: seq<string>) {
    forall j :: 0 <= j < |labels| ==> InTable(st, labels[j].key) && InTable(st, labels[j].str)
  }

  ghost predicate SampleOk(s: Sample, columns: nat, locations: nat, st: seq<string>) {
    |s.value| == columns && IdsOk(s.locationId, locations) && LabelsOk(s.labels, st)
  }

  ghost predicate SamplesOk(ss: seq<Sample>, columns: nat, locations: nat, st: seq<string>) {
    forall i :: 0 <= i < |ss| ==> SampleOk(ss[i], columns, locations, st)
  }

  /** Dense ids, every reference resolving, "" as string 0, one value per sample type. */
  ghost predicate WellFormed(p: Profile) {
    && |p.stringTable| > 0 && p.stringTable[0] == ""
    && (forall i :: 0 <= i < |p.sampleType| ==> ValueTypeOk(p.stringTable, p.sampleType[i]))
    && (p.periodType.Some? ==> ValueTypeOk(p.stringTable, p.periodType.value))
    && FunctionsOk(p.functions, p.stringTable)
    && MappingsOk(p.mappings, p.stringTable)
    && LocationsOk(p.locations, |p.mappings|, |p.functions|)
    && SamplesOk(p.samples, |p.sampleType|, |p.locations|, p.stringTable)
  }

  /** The string references that WellFormed leaves out: free-text header fields and the
      units of numeric labels. */
  ghost predicate TextRefsOk(p: Profile) {
    && InTable(p.stringTable, p.dropFrames)
    && InTable(p.stringTable, p.keepFrames)
    && InTable(p.stringTable, p.defaultSampleType)
    && (forall i :: 0 <= i < |p.comment| ==> InTable(p.stringTable, p.comment[i]))
    && (forall i, j :: 0 <= i < |p.samples| && 0 <= j < |p.samples[i].labels| ==>
          InTable(p.stringTable, p.samples[i].labels[j].numUnit))
  }

  // ----- resolution in well-formed profiles

  lemma {:induction false} DenseFunctionName(fs: seq<Function>, st: seq<string>, k: nat)
    requires FunctionsOk(fs, st) && 1 <= k <= |fs|
    ensures FunctionName(fs, st, k) == Some(StringAt(st, fs[k - 1].name))
  {
    assert FunctionIds(fs)[k - 1] == k;
  }

  /** A list of lines resolves exactly when each of its functions does, name by name. */
  lemma {:induction false} LineNamesByLine(fs: seq<Function>, st: seq<string>, lines: seq<Line>)
    requires forall j :: 0 <= j < |lines| ==> FunctionName(fs, st, lines[j].functionId).Some?
    ensures LineNames(fs, st, lines).Some?
    ensures |LineNames(fs, st, lines).value| == |lines|
    ensures forall j :: 0 <= j < |lines| ==>
      FunctionName(fs, st, lines[j].functionId) == Some(LineNames(fs, st, lines).value[j])
  {
    if lines != [] {
      LineNamesByLine(fs, st, lines[..|lines| - 1]);
    }
  }

  lemma {:induction false} DenseLineNames(fs: seq<Function>, st: seq<string>, lines: seq<Line>)
    requires FunctionsOk(fs, st) && LinesOk(lines, |fs|)
    ensures LineNames(fs, st, lines).Some?
    ensures |LineNames(fs, st, lines).value| == |lines|
    ensures forall j :: 0 <= j < |lines| ==>
      FunctionName(fs, st, lines[j].functionId) == Some(LineNames(fs, st, lines).value[j])
  {
    forall j | 0 <= j < |lines| ensures FunctionName(fs, st, lines[j].functionId).Some? {
      DenseFunctionName(fs, st, lines[j].functionId);
    }
    LineNamesByLine(fs, st, lines);
  }

  lemma {:induction false} DenseLocationFrame(p: Profile, loc: Location)
    requires FunctionsOk(p.functions, p.stringTable) && MappingsOk(p.mappings, p.stringTable)
    requires 1 <= loc.mappingId <= |p.mappings| && LinesOk(loc.lines, |p.functions|)
    ensures LocationFrame(p, loc) == LineNames(p.functions, p.stringTable, loc.lines)
    ensures LocationFrame(p, loc).Some?
  {
    DenseLineNames(p.functions, p.stringTable, loc.lines);
    assert MappingIds(p.mappings)[loc.mappingId - 1] == loc.mappingId;
  }

  lemma {:induction false} DenseLastDefined<T>(f: Location -> Option<T>, locs: seq<Location>, id: nat)
    requires forall i :: 0 <= i < |locs| ==> locs[i].id == i + 1 && f(locs[i]).Some?
    requires 1 <= id <= |locs|
    ensures LastDefined(f, locs, id) == f(locs[id - 1])
  {
    if id < |locs| {
      DenseLastDefined(f, locs[..|locs| - 1], id);
    }
  }

  lemma {:induction false} DenseFrameOf(p: Profile, locs: seq<Location>, id: nat)
    requires FunctionsOk(p.functions, p.stringTable) && MappingsOk(p.mappings, p.stringTable)
    requires LocationsOk(locs, |p.mappings|, |p.functions|) && 1 <= id <= |locs|
    ensures FrameOf(p, locs, id) == LocationFrame(p, locs[id - 1])
    ensures LocationFrame(p, locs[id - 1]).Some?
  {
    forall i | 0 <= i < |locs| ensures FrameIn(p)(locs[i]).Some? {
      DenseLocationFrame(p, locs[i]);
    }
    DenseLastDefined(FrameIn(p), locs, id);
  }

  /** A list of location ids resolves exactly when each id does, frame by frame. */
  lemma {:induction false} StackByFrame(p: Profile, ids: seq<nat>)
    requires forall j :: 0 <= j < |ids| ==> FrameOf(p, p.locations, ids[j]).Some?
    ensures StackOf(p, ids).Some? && |StackOf(p, ids).value| == |ids|
    ensures forall j :: 0 <= j < |ids| ==>
      FrameOf(p, p.locations, ids[j]) == Some(StackOf(p, ids).value[j])
  {
    if ids != [] {
      StackByFrame(p, ids[..|ids| - 1]);
    }
  }
}
