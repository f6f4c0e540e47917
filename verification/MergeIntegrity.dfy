/** Integrity and conservation of merging, for ANY key functions, collisions included. */
module MergeIntegrity {
  import opened Sequences
  import opened Pprof
  import opened Sanitize
  import opened ProfileMerge

  // ----- every table stays well-formed

  lemma {:induction false} FirstEntry<V>(t: Table<V>, vs: seq<V>, how: Policy<V>)
    requires Indexed(t) && t.values == [] && vs != []
    ensures InternAll(t, vs, how).0.values != []
    ensures InternAll(t, vs, how).0.values[0] == how.copy(vs[0], 1)
  {
    var n := |vs| - 1;
    InternAllGrows(t, vs[..n], how);
    if n > 0 {
      FirstEntry(t, vs[..n], how);
    }
  }

  lemma {:induction false} StringsGrow(t: Table<string>, vs: seq<string>, keys: Keys)
    requires Indexed(t) && (t.values != [] ==> t.values[0] == "")
    requires vs != [] && vs[0] == ""
    ensures var (t', ids) := InternAll(t, vs, StringPolicy(keys));
            && Indexed(t') && t.values <= t'.values && |ids| == |vs|
            && t'.values != [] && t'.values[0] == ""
            && forall i :: 0 <= i < |vs| ==> InTable(t'.values, Ref(ids, i))
  {
    InternAllGrows(t, vs, StringPolicy(keys));
    if t.values == [] {
      FirstEntry(t, vs, StringPolicy(keys));
    }
  }

  /** strIdx sends every reference into st to a reference into the merged table. */
  ghost predicate RefsInto(strIdx: seq<nat>, st: seq<string>, merged: seq<string>) {
    |strIdx| == |st| && forall i :: 0 <= i < |st| ==> InTable(merged, Ref(strIdx, i))
  }

  lemma {:induction false} FunctionsGrow(t: Table<Function>, old_: seq<string>, st: seq<string>, fs: seq<Function>,
                      from: seq<string>, strIdx: seq<nat>, keys: Keys)
    requires Indexed(t) && FunctionsOk(t.values, old_) && |old_| <= |st|
    requires FunctionsOk(fs, from) && RefsInto(strIdx, from, st)
    ensures FunctionsOk(InternAll(t, MapSeq(MoveFunction(strIdx), fs), FunctionPolicy(keys)).0.values, st)
  {
    var vs := MapSeq(MoveFunction(strIdx), fs);
    var r := InternAll(t, vs, FunctionPolicy(keys)).0.values;
    InternAllGrows(t, vs, FunctionPolicy(keys));
    forall i | 0 <= i < |r|
      ensures r[i].id == i + 1 && InTable(st, r[i].name) && InTable(st, r[i].systemName) && InTable(st, r[i].filename)
    {
      if i < |t.values| {
        assert r[i] == t.values[i];
      } else {
        InternAllEntry(t, vs, FunctionPolicy(keys), i);
        var k :| 0 <= k < |vs| && r[i] == FunctionPolicy(keys).copy(vs[k], i + 1);
        assert vs[k] == MoveFunction(strIdx)(fs[k]);
      }
    }
  }

  lemma {:induction false} MappingsGrow(t: Table<Mapping>, old_: seq<string>, st: seq<string>, ms: seq<Mapping>,
                     from: seq<string>, strIdx: seq<nat>, keys: Keys)
    requires Indexed(t) && MappingsOk(t.values, old_) && |old_| <= |st|
    requires MappingsOk(ms, from) && RefsInto(strIdx, from, st)
    ensures MappingsOk(InternAll(t, MapSeq(MoveMapping(strIdx), ms), MappingPolicy(keys)).0.values, st)
  {
    var vs := MapSeq(MoveMapping(strIdx), ms);
    var r := InternAll(t, vs, MappingPolicy(keys)).0.values;
    InternAllGrows(t, vs, MappingPolicy(keys));
    forall i | 0 <= i < |r|
      ensures r[i].id == i + 1 && InTable(st, r[i].filename) && InTable(st, r[i].buildId)
    {
      if i < |t.values| {
        assert r[i] == t.values[i];
      } else {
        InternAllEntry(t, vs, MappingPolicy(keys), i);
        var k :| 0 <= k < |vs| && r[i] == MappingPolicy(keys).copy(vs[k], i + 1);
        assert vs[k] == MoveMapping(strIdx)(ms[k]);
      }
    }
  }

  ghost predicate IdsInto(ids: seq<nat>, from: nat, to: nat) {
    |ids| == from && forall k :: 0 <= k < |ids| ==> 1 <= ids[k] <= to
  }

  lemma {:induction false} LocationsGrow(t: Table<Location>, ls: seq<Location>, fnIdx: seq<nat>, mapIdx: seq<nat>,
                      oldM: nat, oldF: nat, fromM: nat, fromF: nat, toM: nat, toF: nat, keys: Keys)
    requires Indexed(t) && LocationsOk(t.values, oldM, oldF) && oldM <= toM && oldF <= toF
    requires LocationsOk(ls, fromM, fromF) && IdsInto(mapIdx, fromM, toM) && IdsInto(fnIdx, fromF, toF)
    ensures LocationsOk(InternAll(t, MapSeq(MoveLocation(fnIdx, mapIdx), ls), LocationPolicy(keys)).0.values, toM, toF)
  {
    var vs := MapSeq(MoveLocation(fnIdx, mapIdx), ls);
    var r := InternAll(t, vs, LocationPolicy(keys)).0.values;
    InternAllGrows(t, vs, LocationPolicy(keys));
    forall i | 0 <= i < |r|
      ensures r[i].id == i + 1 && 1 <= r[i].mappingId <= toM && LinesOk(r[i].lines, toF)
    {
      if i < |t.values| {
        assert r[i] == t.values[i];
      } else {
        InternAllEntry(t, vs, LocationPolicy(keys), i);
        var k :| 0 <= k < |vs| && r[i] == LocationPolicy(keys).copy(vs[k], i + 1);
        assert vs[k] == MoveLocation(fnIdx, mapIdx)(ls[k]);
        assert LinesOk(ls[k].lines, fromF);
      }
    }
  }

  lemma {:induction false} MovedSampleOk(s: Sample, columns: nat, from: nat, to: nat, st: seq<string>, merged: seq<string>,
                      strIdx: seq<nat>, locIdx: seq<nat>)
    requires SampleOk(s, columns, from, st) && IdsInto(locIdx, from, to) && RefsInto(strIdx, st, merged)
    ensures SampleOk(MoveSample(strIdx, locIdx)(s), columns, to, merged)
  {
  }

  lemma {:induction false} AddSamplesOk(t: Table<Sample>, ss: seq<Sample>, columns: nat, locations: nat,
                                        st: seq<string>, keys: Keys)
    requires Indexed(t) && SamplesOk(t.values, columns, locations, st)
    requires SamplesOk(ss, columns, locations, st)
    ensures var t' := AddSamples(t, ss, SamplePolicy(keys));
            Indexed(t') && SamplesOk(t'.values, columns, locations, st)
  {
    if ss != [] {
      AddSamplesOk(t, ss[..|ss| - 1], columns, locations, st, keys);
    }
  }

  lemma {:induction false} SamplesWiden(ss: seq<Sample>, columns: nat, locations: nat, st: seq<string>, more: nat, st': seq<string>)
    requires SamplesOk(ss, columns, locations, st) && locations <= more && |st| <= |st'|
    ensures SamplesOk(ss, columns, more, st')
  {
    forall i | 0 <= i < |ss| ensures SampleOk(ss[i], columns, more, st') {
      assert SampleOk(ss[i], columns, locations, st);
    }
  }

  lemma {:induction false} MergeTablesGood(m: Merger, q: Profile, strIdx: seq<nat>, keys: Keys, columns: nat)
    requires TablesGood(m, columns) && WellFormed(q) && |q.sampleType| == columns
    requires RefsInto(strIdx, q.stringTable, m.strings.values)
    ensures TablesGood(MergeTables(m, q, strIdx, keys), columns)
  {
    var st := m.strings.values;
    var fs := MapSeq(MoveFunction(strIdx), q.functions);
    var ms := MapSeq(MoveMapping(strIdx), q.mappings);
    var (functions, fnIdx) := InternAll(m.functions, fs, FunctionPolicy(keys));
    var (mappings, mapIdx) := InternAll(m.mappings, ms, MappingPolicy(keys));
    InternAllGrows(m.functions, fs, FunctionPolicy(keys));
    InternAllGrows(m.mappings, ms, MappingPolicy(keys));
    FunctionsGrow(m.functions, st, st, q.functions, q.stringTable, strIdx, keys);
    MappingsGrow(m.mappings, st, st, q.mappings, q.stringTable, strIdx, keys);
    var ls := MapSeq(MoveLocation(fnIdx, mapIdx), q.locations);
    var (locations, locIdx) := InternAll(m.locations, ls, LocationPolicy(keys));
    InternAllGrows(m.locations, ls, LocationPolicy(keys));
    LocationsGrow(m.locations, q.locations, fnIdx, mapIdx, |m.mappings.values|, |m.functions.values|,
                  |q.mappings|, |q.functions|, |mappings.values|, |functions.values|, keys);
    var ss := MapSeq(MoveSample(strIdx, locIdx), q.samples);
    forall i | 0 <= i < |ss| ensures SampleOk(ss[i], columns, |locations.values|, st) {
      assert SampleOk(q.samples[i], columns, |q.locations|, q.stringTable);
      MovedSampleOk(q.samples[i], columns, |q.locations|, |locations.values|, q.stringTable, st, strIdx, locIdx);
    }
    SamplesWiden(m.samples.values, columns, |m.locations.values|, st, |locations.values|, st);
    AddSamplesOk(m.samples, ss, columns, |locations.values|, st, keys);
  }

  lemma {:induction false} TablesWiden(m: Merger, m': Merger, columns: nat)
    requires TablesGood(m, columns) && m' == m.(strings := m'.strings, header := m'.header)
    requires Indexed(m'.strings) && m.strings.values <= m'.strings.values
    ensures TablesGood(m', columns)
  {
    SamplesWiden(m.samples.values, columns, |m.locations.values|, m.strings.values,
                 |m.locations.values|, m'.strings.values);
  }

  lemma {:induction false} EmptyTablesGood(m: Merger, columns: nat)
    requires Good(m) && m.header.None?
    ensures TablesGood(m, columns)
  {
  }

  lemma {:induction false} HeaderMoved(q: Profile, strIdx: seq<nat>, st: seq<string>)
    requires WellFormed(q) && RefsInto(strIdx, q.stringTable, st)
    ensures HeaderGood(MoveHeader(q, strIdx), st)
  {
    forall i | 0 <= i < |q.sampleType| ensures ValueTypeOk(st, MoveHeader(q, strIdx).sampleType[i]) {
      assert ValueTypeOk(q.stringTable, q.sampleType[i]);
    }
  }

  /** Every merge, successful or not, keeps all references of the state resolving. */
  lemma {:induction false} MergeKeepsGood(m: Merger, p: Profile, keys: Keys)
    requires Good(m)
    ensures Good(Merge(m, p, keys).0)
  {
    if !Skips(p) {
      var q := Sanitized(p);
      SanitizedWellFormed(p);
      StringsGrow(m.strings, q.stringTable, keys);
      var (strings, strIdx) := InternAll(m.strings, q.stringTable, StringPolicy(keys));
      var m1 := m.(strings := strings);
      var columns := if m.header.Some? then |m.header.value.sampleType| else |q.sampleType|;
      if m.header.None? {
        EmptyTablesGood(m, columns);
        EmptyTablesGood(m, 0);
        TablesWiden(m, m1, 0);
      }
      TablesWiden(m, m1, columns);
      var h := MoveHeader(q, strIdx);
      HeaderMoved(q, strIdx, strings.values);
      var header := if m.header.None? then InitHeader(h) else m.header.value;
      if q.periodType.Some? {
        var m2 := m1.(header := Some(CombineHeaders(header, h)));
        TablesWiden(m, m2, columns);
        if Compatible(header, h) {
          MergeTablesGood(m2, q, strIdx, keys, columns);
        }
      }
    }
  }

  lemma {:induction false} RunGood(ps: seq<Profile>, keys: Keys)
    ensures Good(Run(ps, keys))
  {
    if ps != [] {
      RunGood(ps[..|ps| - 1], keys);
      MergeKeepsGood(Run(ps[..|ps| - 1], keys), ps[|ps| - 1], keys);
    }
  }

  /** Every id and string reference of the merged profile resolves, and the renumbering in
      Profile() changes nothing, after any sequence of merges with any key functions. */
  lemma {:induction false} ResultIntegrity(ps: seq<Profile>, keys: Keys)
    ensures var m := Run(ps, keys);
            ProfileOf(m) == View(m) && (m.header.Some? ==> WellFormed(ProfileOf(m)))
  {
    RunGood(ps, keys);
    var m := Run(ps, keys);
    if m.header.Some? {
      var p := View(m);
      assert Renumber(p.locations) == p.locations;
      assert ProfileOf(m).functions == p.functions;
      assert ProfileOf(m).mappings == p.mappings;
    }
  }

  /** A merge that does not succeed leaves header, samples and all tables but the strings
      as they were; in particular a first profile always agrees with its own header. */
  lemma {:induction false} FailedMergeKeepsState(m: Merger, p: Profile, keys: Keys)
    requires Merge(m, p, keys).1 != Merged
    ensures Merge(m, p, keys).0 == m.(strings := Merge(m, p, keys).0.strings)
    ensures Merge(m, p, keys).1 == Incompatible ==> m.header.Some?
  {
  }

  // ----- conservation

  /** One sample adds its own weight. */
  lemma {:induction false} AddSampleSum(t: Table<Sample>, s: Sample, keys: Keys, w: Sample -> int,
                                        same: (Sample, Sample) -> bool, columns: nat)
    requires Indexed(t) && |s.value| == columns
    requires forall i :: 0 <= i < |t.values| ==> |t.values[i].value| == columns
    requires forall s, n :: same(SamplePolicy(keys).copy(s, n), s) && w(SamplePolicy(keys).copy(s, n)) == 0
    requires forall a: Sample, s: Sample :: |a.value| == columns && |s.value| == columns && same(a, s) ==>
               w(AddValues(a, s)) == w(a) + w(s)
    requires HitAgrees(t, s, SamplePolicy(keys), same)
    ensures var t' := AddSample(t, s, SamplePolicy(keys));
            && Indexed(t')
            && (forall i :: 0 <= i < |t'.values| ==> |t'.values[i].value| == columns)
            && SumBy(w, t'.values) == SumBy(w, t.values) + w(s)
  {
    var (t2, id) := Intern(t, s, SamplePolicy(keys));
    if SamplePolicy(keys).key(s) !in t.index {
      SumByConcat(w, t.values, [t2.values[id - 1]]);
      assert SumBy(w, [t2.values[id - 1]]) == w(t2.values[id - 1]) == 0;
    }
    SumByUpdate(w, t2.values, id - 1, AddValues(t2.values[id - 1], s));
  }

  /** What adding samples does to a sum over the table: the sum of the added samples is added. */
  lemma {:induction false} AddSamplesSum(t: Table<Sample>, ss: seq<Sample>, keys: Keys, w: Sample -> int,
                                         same: (Sample, Sample) -> bool, columns: nat)
    requires Indexed(t)
    requires forall i :: 0 <= i < |t.values| ==> |t.values[i].value| == columns
    requires forall i :: 0 <= i < |ss| ==> |ss[i].value| == columns
    requires forall s, n :: same(SamplePolicy(keys).copy(s, n), s) && w(SamplePolicy(keys).copy(s, n)) == 0
    requires forall a: Sample, s: Sample :: |a.value| == columns && |s.value| == columns && same(a, s) ==>
               w(AddValues(a, s)) == w(a) + w(s)
    requires SampleHitsAgree(t, ss, SamplePolicy(keys), same)
    ensures var t' := AddSamples(t, ss, SamplePolicy(keys));
            && Indexed(t')
            && (forall i :: 0 <= i < |t'.values| ==> |t'.values[i].value| == columns)
            && SumBy(w, t'.values) == SumBy(w, t.values) + SumBy(w, ss)
  {
    if ss != [] {
      var n := |ss| - 1;
      AddSamplesSum(t, ss[..n], keys, w, same, columns);
      AddSampleSum(AddSamples(t, ss[..n], SamplePolicy(keys)), ss[n], keys, w, same, columns);
    }
  }

  ghost function Anything(): (Sample, Sample) -> bool {
    (a: Sample, b: Sample) => true
  }

  lemma {:induction false} AnyHitAgrees(t: Table<Sample>, ss: seq<Sample>, how: Policy<Sample>)
    ensures SampleHitsAgree(t, ss, how, Anything())
  {
    if ss != [] {
      AnyHitAgrees(t, ss[..|ss| - 1], how);
    }
  }

  lemma {:induction false} MovedColumn(ss: seq<Sample>, strIdx: seq<nat>, locIdx: seq<nat>, c: nat)
    ensures ColumnTotal(MapSeq(MoveSample(strIdx, locIdx), ss), c) == ColumnTotal(ss, c)
  {
    if ss != [] {
      var n := |ss| - 1;
      MovedColumn(ss[..n], strIdx, locIdx, c);
      assert MapSeq(MoveSample(strIdx, locIdx), ss)[..n] == MapSeq(MoveSample(strIdx, locIdx), ss[..n]);
    }
  }

  lemma {:induction false} TablesConserve(m: Merger, q: Profile, strIdx: seq<nat>, keys: Keys, c: nat, columns: nat)
    requires TablesGood(m, columns) && WellFormed(q) && |q.sampleType| == columns
    ensures ColumnTotal(MergeTables(m, q, strIdx, keys).samples.values, c)
            == ColumnTotal(m.samples.values, c) + ColumnTotal(q.samples, c)
  {
    var (functions, fnIdx) := InternAll(m.functions, MapSeq(MoveFunction(strIdx), q.functions), FunctionPolicy(keys));
    var (mappings, mapIdx) := InternAll(m.mappings, MapSeq(MoveMapping(strIdx), q.mappings), MappingPolicy(keys));
    var (locations, locIdx) :=
      InternAll(m.locations, MapSeq(MoveLocation(fnIdx, mapIdx), q.locations), LocationPolicy(keys));
    var ss := MapSeq(MoveSample(strIdx, locIdx), q.samples);
    AnyHitAgrees(m.samples, ss, SamplePolicy(keys));
    AddSamplesSum(m.samples, ss, keys, ColumnValue(c), Anything(), columns);
    MovedColumn(q.samples, strIdx, locIdx, c);
  }

  /** The state just before the table part of a successful merge. */
  function Accepted(m: Merger, p: Profile, keys: Keys): (Merger, seq<nat>) {
    var q := Sanitized(p);
    var (strings, strIdx) := InternAll(m.strings, q.stringTable, StringPolicy(keys));
    var h := MoveHeader(q, strIdx);
    var header := if m.header.None? then InitHeader(h) else m.header.value;
    (m.(strings := strings, header := Some(CombineHeaders(header, h))), strIdx)
  }

  lemma {:induction false} AcceptedGood(m: Merger, p: Profile, keys: Keys)
    requires Good(m) && Merge(m, p, keys).1 == Merged
    ensures var (m2, strIdx) := Accepted(m, p, keys);
            var q := Sanitized(p);
            && Merge(m, p, keys).0 == MergeTables(m2, q, strIdx, keys)
            && WellFormed(q) && TablesGood(m2, |q.sampleType|)
            && RefsInto(strIdx, q.stringTable, m2.strings.values)
            && m2 == m.(strings := m2.strings, header := m2.header)
            && m.strings.values <= m2.strings.values
            && m2.header.Some? && |m2.header.value.sampleType| == |q.sampleType|
            && (m.header.Some? ==> |m.header.value.sampleType| == |q.sampleType|)
  {
    var q := Sanitized(p);
    var (m2, strIdx) := Accepted(m, p, keys);
    SanitizedWellFormed(p);
    StringsGrow(m.strings, q.stringTable, keys);
    if m.header.None? {
      EmptyTablesGood(m, |q.sampleType|);
    }
    TablesWiden(m, m2, |q.sampleType|);
  }

  /** One merge adds the column totals of the sanitized input, whatever the keys. */
  lemma {:induction false} MergeConserves(m: Merger, p: Profile, keys: Keys, c: nat)
    requires Good(m) && Merge(m, p, keys).1 == Merged
    ensures ColumnTotal(Merge(m, p, keys).0.samples.values, c)
            == ColumnTotal(m.samples.values, c) + ColumnTotal(Sanitized(p).samples, c)
  {
    AcceptedGood(m, p, keys);
    var (m2, strIdx) := Accepted(m, p, keys);
    TablesConserve(m2, Sanitized(p), strIdx, keys, c, |Sanitized(p).sampleType|);
  }

  /** The column totals of the sanitized inputs that a run merged. */
  ghost function MergedColumn(ps: seq<Profile>, keys: Keys, c: nat): int {
    if ps == [] then 0
    else
      var n := |ps| - 1;
      MergedColumn(ps[..n], keys, c) +
      if Merge(Run(ps[..n], keys), ps[n], keys).1 == Merged then ColumnTotal(Sanitized(ps[n]).samples, c) else 0
  }

  /** Conservation over whole runs, with any key functions and any collisions. */
  lemma {:induction false} RunConserves(ps: seq<Profile>, keys: Keys, c: nat)
    ensures ColumnTotal(Run(ps, keys).samples.values, c) == MergedColumn(ps, keys, c)
  {
    if ps != [] {
      var n := |ps| - 1;
      RunConserves(ps[..n], keys, c);
      RunGood(ps[..n], keys);
      if Merge(Run(ps[..n], keys), ps[n], keys).1 == Merged {
        MergeConserves(Run(ps[..n], keys), ps[n], keys, c);
      } else {
        FailedMergeKeepsState(Run(ps[..n], keys), ps[n], keys);
      }
    }
  }
}
