/** otlpToPProf: an OTLP profile, which refers to a shared dictionary by index, becomes a pprof
    profile with its own interned tables. */
module Otlp {
  import opened Sequences
  import opened Pprof
  import opened Sanitize
  import opened ProfileMerge
  import opened MergeIntegrity
  import opened MergeMeaning

  datatype OtlpLine = OtlpLine(functionIndex: int, line: int)

  datatype OtlpLocation = OtlpLocation(address: nat, lines: seq<OtlpLine>)

  /** functions holds the name index of each function; stacks lists location indices. */
  datatype Dictionary = Dictionary(strings: seq<string>, functions: seq<int>,
                                   locations: seq<OtlpLocation>, stacks: seq<seq<int>>)

  datatype OtlpSample = OtlpSample(stackIndex: int, values: seq<int>)

  datatype OtlpProfile = OtlpProfile(sampleType: ValueType, periodType: ValueType, samples: seq<OtlpSample>)

  // ----- the meaning read straight from the dictionary; bad indices read as empty

  function NameIn(d: Dictionary, i: int): string {
    if 0 <= i < |d.functions| then StringAt(d.strings, d.functions[i]) else ""
  }

  function NamesIn(d: Dictionary, lines: seq<OtlpLine>): (r: Frame)
    ensures |r| == |lines|
  {
    seq(|lines|, j requires 0 <= j < |lines| => NameIn(d, lines[j].functionIndex))
  }

  function LinesIn(d: Dictionary, i: int): seq<OtlpLine> {
    if 0 <= i < |d.locations| then d.locations[i].lines else []
  }

  function FrameAt(d: Dictionary, i: int): Frame {
    NamesIn(d, LinesIn(d, i))
  }

  function LocationsIn(d: Dictionary, i: int): seq<int> {
    if 0 <= i < |d.stacks| then d.stacks[i] else []
  }

  function StackAt(d: Dictionary, i: int): (r: Stack)
    ensures |r| == |LocationsIn(d, i)|
  {
    var ids := LocationsIn(d, i);
    seq(|ids|, j requires 0 <= j < |ids| => FrameAt(d, ids[j]))
  }

  function Sum(vs: seq<int>): int {
    if vs == [] then 0 else Sum(vs[..|vs| - 1]) + vs[|vs| - 1]
  }

  function OtlpSampleWeight(d: Dictionary, stack: Stack): OtlpSample -> int {
    (s: OtlpSample) => if StackAt(d, s.stackIndex) == stack then Sum(s.values) else 0
  }

  function OtlpWeight(d: Dictionary, o: OtlpProfile, stack: Stack): int {
    SumBy(OtlpSampleWeight(d, stack), o.samples)
  }

  // ----- invariants of the tables under construction

  function AddressAt(d: Dictionary, i: int): nat {
    if 0 <= i < |d.locations| then d.locations[i].address else 0
  }

  /** Pprof location id stands for OTLP location i: same names, address and line numbers. */
  ghost predicate Reads(fs: seq<Function>, st: seq<string>, ls: seq<Location>, id: nat, d: Dictionary, i: int) {
    && 1 <= id <= |ls| && LineNames(fs, st, ls[id - 1].lines) == Some(FrameAt(d, i))
    && ls[id - 1].address == AddressAt(d, i)
    && SameNumbers(ls[id - 1].lines, LinesIn(d, i))
  }

  lemma {:induction false} ReadsMore(fs: seq<Function>, st: seq<string>, ls: seq<Location>, l: Location, id: nat,
                                     d: Dictionary, i: int)
    requires Reads(fs, st, ls, id, d, i)
    ensures Reads(fs, st, ls + [l], id, d, i)
  {
  }

  ghost predicate SameNumbers(lines: seq<Line>, from: seq<OtlpLine>) {
    |lines| == |from| && forall j :: 0 <= j < |from| ==> lines[j].line == from[j].line
  }

  /** Functions and locations numbered from 1, names inside the table. */
  ghost predicate TablesOk(fs: seq<Function>, st: seq<string>, ls: seq<Location>) {
    && |st| > 0 && st[0] == ""
    && FunctionsOk(fs, st)
    && (forall i :: 0 <= i < |ls| ==> ls[i].id == i + 1 && ls[i].mappingId == 0 && LinesOk(ls[i].lines, |fs|))
  }

  ghost predicate SampleReads(fs: seq<Function>, st: seq<string>, ls: seq<Location>, s: Sample,
                              d: Dictionary, o: OtlpSample) {
    var indices := LocationsIn(d, o.stackIndex);
    && s.value == [Sum(o.values)] && s.labels == [] && |s.locationId| == |indices|
    && forall j :: 0 <= j < |indices| ==> Reads(fs, st, ls, s.locationId[j], d, indices[j])
  }

  lemma {:induction false} LinesReadOn(fs: seq<Function>, st: seq<string>, fs': seq<Function>, st': seq<string>, lines: seq<Line>)
    requires FunctionsOk(fs, st) && FunctionsOk(fs', st') && fs <= fs' && st <= st' && LinesOk(lines, |fs|)
    ensures LineNames(fs, st, lines) == LineNames(fs', st', lines)
  {
    var p := EmptyProfile.(functions := fs, stringTable := st);
    var q := EmptyProfile.(functions := fs', stringTable := st');
    forall j | 0 <= j < |lines| ensures SameName(p, lines[j], q, lines[j]) {
      var k := lines[j].functionId;
      assert fs'[k - 1] == fs[k - 1];
      MovedFunction(fs, st, k, fs', st', k);
    }
    LineNamesEqual(p, lines, q, lines);
  }

  lemma {:induction false} LineAppended(fs: seq<Function>, st: seq<string>, fs': seq<Function>, st': seq<string>,
                     lines: seq<Line>, names: Frame, line: Line, name: string)
    requires FunctionsOk(fs, st) && FunctionsOk(fs', st') && fs <= fs' && st <= st' && LinesOk(lines, |fs|)
    requires LineNames(fs, st, lines) == Some(names)
    requires 1 <= line.functionId <= |fs'| && StringAt(st', fs'[line.functionId - 1].name) == name
    ensures LinesOk(lines + [line], |fs'|)
    ensures LineNames(fs', st', lines + [line]) == Some(names + [name])
  {
    LinesReadOn(fs, st, fs', st', lines);
    DenseFunctionName(fs', st', line.functionId);
    assert (lines + [line])[..|lines|] == lines;
  }

  lemma {:induction false} NamesAppended(d: Dictionary, lines: seq<OtlpLine>, i: nat)
    requires i < |lines|
    ensures NamesIn(d, lines[..i + 1]) == NamesIn(d, lines[..i]) + [NameIn(d, lines[i].functionIndex)]
  {
  }

  /** r are the first li lines, read through the tables. */
  ghost predicate LinesRead(fs: seq<Function>, st: seq<string>, r: seq<Line>, d: Dictionary, lines: seq<OtlpLine>, li: nat)
    requires li <= |lines|
  {
    LinesOk(r, |fs|) && LineNames(fs, st, r) == Some(NamesIn(d, lines[..li]))
  }

  lemma {:induction false} NextLineRead(fs: seq<Function>, st: seq<string>, fs': seq<Function>, st': seq<string>,
                                        r: seq<Line>, d: Dictionary, lines: seq<OtlpLine>, li: nat, id: nat)
    requires li < |lines| && LinesRead(fs, st, r, d, lines, li)
    requires FunctionsOk(fs, st) && FunctionsOk(fs', st') && fs <= fs' && st <= st'
    requires 1 <= id <= |fs'| && StringAt(st', fs'[id - 1].name) == NameIn(d, lines[li].functionIndex)
    ensures LinesRead(fs', st', r + [Line(id, lines[li].line)], d, lines, li + 1)
  {
    LineAppended(fs, st, fs', st', r, NamesIn(d, lines[..li]), Line(id, lines[li].line),
                 NameIn(d, lines[li].functionIndex));
    NamesAppended(d, lines, li);
  }

  class Converter {
    const dict: Dictionary
    var stringTable: seq<string>
    var strIdx: map<string, nat>
    var functions: seq<Function>
    var fnOut: map<int, nat>
    var locations: seq<Location>
    var locOut: map<int, nat>
    var samples: seq<Sample>

    ghost predicate Valid()
      reads this
    {
      && TablesOk(functions, stringTable, locations)
      && (forall s :: s in strIdx ==> strIdx[s] < |stringTable| && stringTable[strIdx[s]] == s)
      && (forall i :: i in fnOut ==>
            1 <= fnOut[i] <= |functions| && StringAt(stringTable, functions[fnOut[i] - 1].name) == NameIn(dict, i))
      && (forall i :: i in locOut ==> Reads(functions, stringTable, locations, locOut[i], dict, i))
    }

    constructor (dict: Dictionary)
      ensures Valid() && this.dict == dict && samples == [] && functions == [] && locations == []
    {
      this.dict := dict;
      stringTable, strIdx := [""], map["" := 0];
      functions, fnOut, locations, locOut, samples := [], map[], [], map[], [];
    }

    method Intern(s: string) returns (id: nat)
      requires Valid()
      modifies `stringTable, `strIdx
      ensures Valid() && old(stringTable) <= stringTable
      ensures id < |stringTable| && stringTable[id] == s
    {
      if s in strIdx {
        return strIdx[s];
      }
      id := |stringTable|;
      ghost var st := stringTable;
      stringTable := stringTable + [s];
      strIdx := strIdx[s := id];
      forall i | i in locOut ensures Reads(functions, stringTable, locations, locOut[i], dict, i) {
        assert Reads(functions, st, locations, locOut[i], dict, i);
        LinesReadOn(functions, st, functions, stringTable, locations[locOut[i] - 1].lines);
      }
    }

    method GetFn(i: int) returns (id: nat)
      requires Valid()
      modifies `stringTable, `strIdx, `functions, `fnOut
      ensures Valid() && old(stringTable) <= stringTable && old(functions) <= functions
      ensures 1 <= id <= |functions| && StringAt(stringTable, functions[id - 1].name) == NameIn(dict, i)
    {
      if i in fnOut {
        return fnOut[i];
      }
      var name := "";
      if 0 <= i < |dict.functions| {
        name := StringAt(dict.strings, dict.functions[i]);
      }
      id := |functions| + 1;
      var ref := Intern(name);
      ghost var fs := functions;
      functions := functions + [Function(id, ref, 0, 0, 0)];
      fnOut := fnOut[i := id];
      forall k | k in locOut ensures Reads(functions, stringTable, locations, locOut[k], dict, k) {
        assert Reads(fs, stringTable, locations, locOut[k], dict, k);
        LinesReadOn(fs, stringTable, functions, stringTable, locations[locOut[k] - 1].lines);
      }
    }

    /** The lines of one location, each function entered when first met. */
    method GetLines(lines: seq<OtlpLine>) returns (r: seq<Line>)
      requires Valid()
      modifies `stringTable, `strIdx, `functions, `fnOut
      ensures Valid() && old(stringTable) <= stringTable && old(functions) <= functions
      ensures LinesOk(r, |functions|) && LineNames(functions, stringTable, r) == Some(NamesIn(dict, lines))
      ensures SameNumbers(r, lines)
    {
      r := [];
      assert NamesIn(dict, lines[..0]) == [];
      for li := 0 to |lines|
        invariant Valid() && old(stringTable) <= stringTable && old(functions) <= functions
        invariant SameNumbers(r, lines[..li]) && LinesRead(functions, stringTable, r, dict, lines, li)
      {
        ghost var fs, st := functions, stringTable;
        var id := GetFn(lines[li].functionIndex);
        NextLineRead(fs, st, functions, stringTable, r, dict, lines, li, id);
        r := r + [Line(id, lines[li].line)];
      }
      assert lines[..|lines|] == lines;
    }

    method GetLoc(i: int) returns (id: nat)
      requires Valid()
      modifies `stringTable, `strIdx, `functions, `fnOut, `locations, `locOut
      ensures Valid() && old(stringTable) <= stringTable && old(functions) <= functions && old(locations) <= locations
      ensures Reads(functions, stringTable, locations, id, dict, i)
    {
      if i in locOut {
        return locOut[i];
      }
      id := |locations| + 1;
      var address, lines := 0, [];
      if 0 <= i < |dict.locations| {
        address := dict.locations[i].address;
        lines := GetLines(dict.locations[i].lines);
      }
      ghost var ls := locations;
      locations := locations + [Location(id, 0, address, lines)];
      locOut := locOut[i := id];
      assert LineNames(functions, stringTable, lines) == Some(FrameAt(dict, i));
      forall k | k in locOut ensures Reads(functions, stringTable, locations, locOut[k], dict, k) {
        if k != i {
          ReadsMore(functions, stringTable, ls, locations[|ls|], locOut[k], dict, k);
        }
      }
    }

    /** The location ids of one stack. */
    method GetStack(indices: seq<int>) returns (ids: seq<nat>)
      requires Valid()
      modifies `stringTable, `strIdx, `functions, `fnOut, `locations, `locOut
      ensures Valid() && old(stringTable) <= stringTable && old(functions) <= functions && old(locations) <= locations
      ensures |ids| == |indices|
      ensures forall j :: 0 <= j < |ids| ==> Reads(functions, stringTable, locations, ids[j], dict, indices[j])
    {
      ids := [];
      for i := 0 to |indices|
        invariant Valid() && old(stringTable) <= stringTable && old(functions) <= functions && old(locations) <= locations
        invariant |ids| == i
        invariant forall j :: 0 <= j < i ==> Reads(functions, stringTable, locations, ids[j], dict, indices[j])
      {
        ghost var fs, st, ls := functions, stringTable, locations;
        var id := GetLoc(indices[i]);
        forall j | 0 <= j < i ensures Reads(functions, stringTable, locations, ids[j], dict, indices[j]) {
          ReadsOn(fs, st, ls, functions, stringTable, locations, ids[j], dict, indices[j]);
        }
        ids := ids + [id];
      }
    }

    method AddSample(o: OtlpSample)
      requires Valid()
      modifies `stringTable, `strIdx, `functions, `fnOut, `locations, `locOut, `samples
      ensures Valid() && old(stringTable) <= stringTable && old(functions) <= functions && old(locations) <= locations
      ensures |samples| == |old(samples)| + 1 && samples[..|old(samples)|] == old(samples)
      ensures SampleReads(functions, stringTable, locations, samples[|old(samples)|], dict, o)
    {
      var v := 0;
      for k := 0 to |o.values|
        invariant v == Sum(o.values[..k])
      {
        assert o.values[..k + 1][..k] == o.values[..k];
        v := v + o.values[k];
      }
      assert o.values[..|o.values|] == o.values;
      var ids := [];
      if 0 <= o.stackIndex < |dict.stacks| {
        ids := GetStack(dict.stacks[o.stackIndex]);
      }
      samples := samples + [Sample(ids, [v], [])];
    }
  }

  lemma {:induction false} ReadsOn(fs: seq<Function>, st: seq<string>, ls: seq<Location>,
                fs': seq<Function>, st': seq<string>, ls': seq<Location>, id: nat, d: Dictionary, i: int)
    requires TablesOk(fs, st, ls) && TablesOk(fs', st', ls') && fs <= fs' && st <= st' && ls <= ls'
    requires Reads(fs, st, ls, id, d, i)
    ensures Reads(fs', st', ls', id, d, i)
  {
    assert ls'[id - 1] == ls[id - 1];
    LinesReadOn(fs, st, fs', st', ls[id - 1].lines);
  }

  lemma {:induction false} SampleReadsOn(fs: seq<Function>, st: seq<string>, ls: seq<Location>,
                      fs': seq<Function>, st': seq<string>, ls': seq<Location>,
                      s: Sample, d: Dictionary, o: OtlpSample)
    requires TablesOk(fs, st, ls) && TablesOk(fs', st', ls') && fs <= fs' && st <= st' && ls <= ls'
    requires SampleReads(fs, st, ls, s, d, o)
    ensures SampleReads(fs', st', ls', s, d, o)
  {
    var indices := LocationsIn(d, o.stackIndex);
    forall j | 0 <= j < |indices| ensures Reads(fs', st', ls', s.locationId[j], d, indices[j]) {
      ReadsOn(fs, st, ls, fs', st', ls', s.locationId[j], d, indices[j]);
    }
  }

  /** What a conversion promises: dense tables, one value column carrying the declared sample
      type, and sample by sample the stack and the summed value of the OTLP profile. */
  ghost predicate Converted(d: Dictionary, o: OtlpProfile, p: Profile) {
    && TablesOk(p.functions, p.stringTable, p.locations) && p.mappings == []
    && |p.sampleType| == 1 && p.periodType.Some?
    && StringAt(p.stringTable, p.sampleType[0].typ) == StringAt(d.strings, o.sampleType.typ)
    && StringAt(p.stringTable, p.sampleType[0].unit) == StringAt(d.strings, o.sampleType.unit)
    && StringAt(p.stringTable, p.periodType.value.typ) == StringAt(d.strings, o.periodType.typ)
    && StringAt(p.stringTable, p.periodType.value.unit) == StringAt(d.strings, o.periodType.unit)
    && |p.samples| == |o.samples|
    && forall k :: 0 <= k < |o.samples| ==>
         SampleReads(p.functions, p.stringTable, p.locations, p.samples[k], d, o.samples[k])
  }

  /** otlpToPProf, after the payload has been decoded. */
  method OtlpToPprof(d: Dictionary, o: OtlpProfile) returns (p: Profile)
    ensures Converted(d, o, p)
  {
    var c := new Converter(d);
    var styp := c.Intern(StringAt(d.strings, o.sampleType.typ));
    var sunit := c.Intern(StringAt(d.strings, o.sampleType.unit));
    var ptyp := c.Intern(StringAt(d.strings, o.periodType.typ));
    var punit := c.Intern(StringAt(d.strings, o.periodType.unit));
    ghost var st0 := c.stringTable;
    for si := 0 to |o.samples|
      invariant c.Valid() && fresh(c) && c.dict == d && st0 <= c.stringTable && |c.samples| == si
      invariant forall k :: 0 <= k < si ==>
        SampleReads(c.functions, c.stringTable, c.locations, c.samples[k], d, o.samples[k])
    {
      ghost var fs, st, ls, ss := c.functions, c.stringTable, c.locations, c.samples;
      c.AddSample(o.samples[si]);
      forall k | 0 <= k < si
        ensures SampleReads(c.functions, c.stringTable, c.locations, c.samples[k], d, o.samples[k])
      {
        assert c.samples[k] == ss[k];
        SampleReadsOn(fs, st, ls, c.functions, c.stringTable, c.locations, ss[k], d, o.samples[k]);
      }
    }
    p := EmptyProfile.(sampleType := [ValueType(styp, sunit)], periodType := Some(ValueType(ptyp, punit)),
                       samples := c.samples, functions := c.functions, locations := c.locations,
                       stringTable := c.stringTable);
  }

  // ----- the converted profile means what the OTLP profile means

  lemma {:induction false} ConvertedFrame(p: Profile, id: nat, d: Dictionary, i: int)
    requires TablesOk(p.functions, p.stringTable, p.locations)
    requires Reads(p.functions, p.stringTable, p.locations, id, d, i)
    ensures FrameOf(p, p.locations, id) == Some(FrameAt(d, i))
  {
    forall k | 0 <= k < |p.locations| ensures FrameIn(p)(p.locations[k]).Some? {
      DenseLineNames(p.functions, p.stringTable, p.locations[k].lines);
    }
    DenseLastDefined(FrameIn(p), p.locations, id);
  }

  lemma {:induction false} ConvertedStack(d: Dictionary, o: OtlpProfile, p: Profile, k: nat)
    requires Converted(d, o, p) && k < |o.samples|
    ensures StackOf(p, p.samples[k].locationId) == Some(StackAt(d, o.samples[k].stackIndex))
  {
    var ids := p.samples[k].locationId;
    var indices := LocationsIn(d, o.samples[k].stackIndex);
    var stack := StackAt(d, o.samples[k].stackIndex);
    assert SampleReads(p.functions, p.stringTable, p.locations, p.samples[k], d, o.samples[k]);
    forall j | 0 <= j < |ids| ensures FrameOf(p, p.locations, ids[j]) == Some(stack[j]) {
      ConvertedFrame(p, ids[j], d, indices[j]);
    }
    StackByFrame(p, ids);
    assert StackOf(p, ids).value == stack;
  }

  lemma {:induction false} PairedSums<A, B>(f: A -> int, g: B -> int, s: seq<A>, t: seq<B>)
    requires |s| == |t| && forall i :: 0 <= i < |s| ==> f(s[i]) == g(t[i])
    ensures SumBy(f, s) == SumBy(g, t)
  {
    if s != [] {
      PairedSums(f, g, s[..|s| - 1], t[..|t| - 1]);
    }
  }

  /** Every call stack weighs in the converted profile what the dictionary says it weighs. */
  lemma {:induction false} ConvertedWeight(d: Dictionary, o: OtlpProfile, p: Profile, stack: Stack)
    requires Converted(d, o, p)
    ensures Weight(p, stack, 0) == OtlpWeight(d, o, stack)
  {
    forall k | 0 <= k < |o.samples|
      ensures SampleWeight(p, stack, 0)(p.samples[k]) == OtlpSampleWeight(d, stack)(o.samples[k])
    {
      ConvertedStack(d, o, p, k);
      assert SampleReads(p.functions, p.stringTable, p.locations, p.samples[k], d, o.samples[k]);
    }
    PairedSums(SampleWeight(p, stack, 0), OtlpSampleWeight(d, stack), p.samples, o.samples);
  }

  lemma {:induction false} KeepMapKeepsAll<A, B>(f: A -> Option<B>, s: seq<A>)
    requires forall i :: 0 <= i < |s| ==> f(s[i]).Some?
    ensures |KeepMap(f, s)| == |s|
  {
    if s != [] {
      KeepMapKeepsAll(f, s[..|s| - 1]);
    }
  }

  /** Sanitizing a converted profile drops none of its samples. */
  lemma {:induction false} ConvertedLosesNothing(d: Dictionary, o: OtlpProfile, p: Profile)
    requires Converted(d, o, p)
    ensures |Sanitized(p).samples| == |o.samples|
  {
    var f := FixSample(p.stringTable, |p.sampleType|, LocationIds(Survivors(p)));
    forall k | 0 <= k < |p.samples| ensures f(p.samples[k]).Some? {
      ConvertedStack(d, o, p, k);
      assert SampleReads(p.functions, p.stringTable, p.locations, p.samples[k], d, o.samples[k]);
      SampleFate(p, p.samples[k]);
    }
    KeepMapKeepsAll(f, p.samples);
  }

  /** Conversion composes with merging: a clean merge of a converted profile adds to every
      stack the weight read straight from the OTLP dictionary. */
  lemma {:induction false} ConvertedMerge(d: Dictionary, o: OtlpProfile, p: Profile, m: Merger, keys: Keys, stack: Stack)
    requires Converted(d, o, p) && Good(m)
    requires Merge(m, p, keys).1 == Merged && Clean(m, p, keys)
    ensures Weight(View(Merge(m, p, keys).0), stack, 0) == Weight(View(m), stack, 0) + OtlpWeight(d, o, stack)
  {
    MergeAddsWeight(m, p, keys, stack, 0);
    ConvertedWeight(d, o, p, stack);
  }
}
