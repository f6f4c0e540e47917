/** What the repair of a profile leaves readable besides names and weights: header, functions,
    mappings, lines and labels read as they did. */
module SanitizeReads {
  import opened Sequences
  import opened Pprof
  import opened Sanitize

  // ----- the mapping of a location

  predicate LastWithId(ms: seq<Mapping>, id: nat, i: nat) {
    i < |ms| && ms[i].id == id && forall k :: i < k < |ms| ==> ms[k].id != id
  }

  /** n reads as m does: same range and offset, same file and build id. */
  predicate SameMapping(st: seq<string>, m: Mapping, st': seq<string>, n: Mapping) {
    && n.memoryStart == m.memoryStart && n.memoryLimit == m.memoryLimit && n.fileOffset == m.fileOffset
    && StringAt(st', n.filename) == StringAt(st, m.filename) && StringAt(st', n.buildId) == StringAt(st, m.buildId)
  }

  predicate NoMapping(st: seq<string>, n: Mapping) {
    && n.memoryStart == 0 && n.memoryLimit == 0 && n.fileOffset == 0
    && StringAt(st, n.filename) == "" && StringAt(st, n.buildId) == ""
  }

  lemma {:induction false} MappingReads(p: Profile, i: nat)
    requires i < |p.mappings|
    ensures i < |Sanitized(p).mappings|
    ensures SameMapping(p.stringTable, p.mappings[i], Sanitized(p).stringTable, Sanitized(p).mappings[i])
  {
    FixRefReads(p.stringTable, p.mappings[i].filename);
    FixRefReads(p.stringTable, p.mappings[i].buildId);
  }

  /** Only the first location pass touches the mapping. */
  lemma {:induction false} MappingOfFixed(p: Profile, loc: Location)
    requires FixLocation(p)(loc).Some?
    ensures var m := FixLocation(p)(loc).value.mappingId;
            if loc.mappingId == 0 then m == |p.mappings| + 1
            else m > 0 && LastWithId(p.mappings, loc.mappingId, m - 1)
  {
    var attached := AttachMapping(p.mappings)(loc);
    assert FixLocation(p)(loc).value.mappingId == attached.value.mappingId;
    if loc.mappingId != 0 {
      var ids, k := MappingIds(p.mappings), LastPos(MappingIds(p.mappings), loc.mappingId);
      assert k > 0 && attached.value.mappingId == k && p.mappings[k - 1].id == ids[k - 1];
      forall j | k <= j < |p.mappings| ensures p.mappings[j].id != loc.mappingId {
        assert ids[j] == p.mappings[j].id;
      }
    }
  }

  lemma {:induction false} ExtraMappingReads(p: Profile)
    requires NeedsMapping(p.locations)
    ensures var q := Sanitized(p);
            |q.mappings| == |p.mappings| + 1 && NoMapping(q.stringTable, q.mappings[|p.mappings|])
  {
  }

  /** A location that is kept has the mapping it named: the last one with that id, where it was in
      the table; without a mapping it gets the one empty mapping after all others. */
  lemma {:induction false} MappingKept(p: Profile, loc: Location)
    requires loc in p.locations && FixLocation(p)(loc).Some?
    ensures var q, m := Sanitized(p), FixLocation(p)(loc).value.mappingId;
            && 1 <= m <= |q.mappings|
            && (loc.mappingId == 0 ==> m == |p.mappings| + 1 && NoMapping(q.stringTable, q.mappings[m - 1]))
            && (loc.mappingId != 0 ==>
                  && LastWithId(p.mappings, loc.mappingId, m - 1)
                  && SameMapping(p.stringTable, p.mappings[m - 1], q.stringTable, q.mappings[m - 1]))
  {
    var m := FixLocation(p)(loc).value.mappingId;
    MappingOfFixed(p, loc);
    if loc.mappingId == 0 {
      var i :| 0 <= i < |p.locations| && p.locations[i] == loc;
      assert NeedsMapping(p.locations);
      ExtraMappingReads(p);
    } else {
      MappingReads(p, m - 1);
    }
  }

  // ----- functions, lines and labels

  predicate SameFunction(st: seq<string>, f: Function, st': seq<string>, g: Function) {
    && StringAt(st', g.name) == StringAt(st, f.name) && StringAt(st', g.systemName) == StringAt(st, f.systemName)
    && StringAt(st', g.filename) == StringAt(st, f.filename) && g.startLine == f.startLine
  }

  lemma {:induction false} FunctionReads(p: Profile, i: nat)
    requires i < |p.functions|
    ensures i < |Sanitized(p).functions|
    ensures SameFunction(p.stringTable, p.functions[i], Sanitized(p).stringTable, Sanitized(p).functions[i])
  {
    FixRefReads(p.stringTable, p.functions[i].name);
    FixRefReads(p.stringTable, p.functions[i].systemName);
    FixRefReads(p.stringTable, p.functions[i].filename);
  }

  predicate LastFunction(fs: seq<Function>, id: nat, i: nat) {
    i < |fs| && fs[i].id == id && forall k :: i < k < |fs| ==> fs[k].id != id
  }

  /** The lines keep their numbers and point at the last function of the id they had. */
  ghost predicate LinesKept(fs: seq<Function>, lines: seq<Line>, fixed: seq<Line>) {
    && |fixed| == |lines|
    && forall j :: 0 <= j < |lines| ==>
         && fixed[j].line == lines[j].line && fixed[j].functionId > 0
         && LastFunction(fs, lines[j].functionId, fixed[j].functionId - 1)
  }

  lemma {:induction false} FixedLinesKept(fs: seq<Function>, lines: seq<Line>)
    requires FixLines(fs, lines).Some?
    ensures LinesKept(fs, lines, FixLines(fs, lines).value)
  {
    if lines != [] {
      var n := |lines| - 1;
      FixedLinesKept(fs, lines[..n]);
      var k, ids := LastPos(FunctionIds(fs), lines[n].functionId), FunctionIds(fs);
      assert fs[k - 1].id == ids[k - 1];
      forall j | k <= j < |fs| ensures fs[j].id != lines[n].functionId {
        assert ids[j] == fs[j].id;
      }
    }
  }

  /** A location that is kept keeps its address and its lines. */
  lemma {:induction false} LocationKept(p: Profile, loc: Location)
    requires FixLocation(p)(loc).Some?
    ensures FixLocation(p)(loc).value.address == loc.address
    ensures LinesKept(p.functions, loc.lines, FixLocation(p)(loc).value.lines)
  {
    var attached := AttachMapping(p.mappings)(loc);
    assert AttachFunctions(p.functions)(attached.value) == FixLocation(p)(loc);
    assert attached.value.lines == loc.lines;
    FixedLinesKept(p.functions, loc.lines);
  }

  predicate SameLabel(st: seq<string>, l: Label, st': seq<string>, m: Label) {
    && StringAt(st', m.key) == StringAt(st, l.key) && StringAt(st', m.str) == StringAt(st, l.str)
    && StringAt(st', m.numUnit) == StringAt(st, l.numUnit) && m.num == l.num
  }

  /** A sample that is kept keeps its labels. */
  lemma {:induction false} LabelsKept(p: Profile, s: Sample)
    requires FixSample(p.stringTable, |p.sampleType|, LocationIds(Survivors(p)))(s).Some?
    ensures var r := FixSample(p.stringTable, |p.sampleType|, LocationIds(Survivors(p)))(s).value;
            |r.labels| == |s.labels| && forall j :: 0 <= j < |s.labels| ==>
              SameLabel(p.stringTable, s.labels[j], Sanitized(p).stringTable, r.labels[j])
  {
    forall j | 0 <= j < |s.labels|
      ensures SameLabel(p.stringTable, s.labels[j], Sanitized(p).stringTable, FixLabel(p.stringTable)(s.labels[j]))
    {
      FixRefReads(p.stringTable, s.labels[j].key);
      FixRefReads(p.stringTable, s.labels[j].str);
      FixRefReads(p.stringTable, s.labels[j].numUnit);
    }
  }

  // ----- the header

  predicate SameType(st: seq<string>, v: ValueType, st': seq<string>, w: ValueType) {
    StringAt(st', w.typ) == StringAt(st, v.typ) && StringAt(st', w.unit) == StringAt(st, v.unit)
  }

  predicate SameRef(st: seq<string>, i: int, st': seq<string>, j: int) {
    StringAt(st', j) == StringAt(st, i)
  }

  lemma {:induction false} TypeReads(st: seq<string>, v: ValueType)
    ensures SameType(st, v, FixStrings(st), FixValueType(st)(v))
  {
    FixRefReads(st, v.typ);
    FixRefReads(st, v.unit);
  }

  /** Types, comments and the other texts of the header read as before; its numbers are the same. */
  lemma {:induction false} HeaderKept(p: Profile)
    ensures var q := Sanitized(p); var st, st' := p.stringTable, q.stringTable;
            && q.timeNanos == p.timeNanos && q.durationNanos == p.durationNanos && q.period == p.period
            && SameRef(st, p.dropFrames, st', q.dropFrames) && SameRef(st, p.keepFrames, st', q.keepFrames)
            && SameRef(st, p.defaultSampleType, st', q.defaultSampleType)
            && |q.comment| == |p.comment| && |q.sampleType| == |p.sampleType|
            && (forall i :: 0 <= i < |p.comment| ==> SameRef(st, p.comment[i], st', q.comment[i]))
            && (forall i :: 0 <= i < |p.sampleType| ==> SameType(st, p.sampleType[i], st', q.sampleType[i]))
            && (p.periodType.Some? <==> q.periodType.Some?)
            && (p.periodType.Some? ==> SameType(st, p.periodType.value, st', q.periodType.value))
  {
    var q, st := Sanitized(p), p.stringTable;
    FixRefReads(st, p.dropFrames);
    FixRefReads(st, p.keepFrames);
    FixRefReads(st, p.defaultSampleType);
    forall i | 0 <= i < |p.comment| ensures SameRef(st, p.comment[i], q.stringTable, q.comment[i]) {
      FixRefReads(st, p.comment[i]);
    }
    forall i | 0 <= i < |p.sampleType| ensures SameType(st, p.sampleType[i], q.stringTable, q.sampleType[i]) {
      TypeReads(st, p.sampleType[i]);
    }
    if p.periodType.Some? {
      TypeReads(st, p.periodType.value);
    }
  }

  /** The repaired locations are the kept ones in their order, numbered again. */
  lemma {:induction false} LocationsKept(p: Profile)
    ensures var kept := KeepMap(FixLocation(p), p.locations);
            && |Sanitized(p).locations| == |kept|
            && forall k :: 0 <= k < |kept| ==> Sanitized(p).locations[k] == kept[k].(id := k + 1)
  {
    SurvivorsOnePass(p, p.locations);
  }
}
