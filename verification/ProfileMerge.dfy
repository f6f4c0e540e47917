/** What ProfileMergeV2 computes: strings, functions, mappings, locations and samples of many
    profiles are interned into five rewrite tables. The hash keys are parameters. */
module ProfileMerge {
  import opened Sequences
  import opened Pprof
  import opened Sanitize

  // ----- rewrite tables

  datatype Table<V> = Table(index: map<nat, nat>, values: seq<V>)

  /** How a table keys its values and how it copies a value entered at a one-based position. */
  datatype Policy<!V> = Policy(key: V -> nat, copy: (V, nat) -> V)

  ghost predicate Indexed<V>(t: Table<V>) {
    forall k :: k in t.index ==> t.index[k] < |t.values|
  }

  /** RewriteTableV2.Get: the one-based position of the value, entered when its key is new. */
  function Intern<V>(t: Table<V>, v: V, how: Policy<V>): (Table<V>, nat) {
    var k := how.key(v);
    if k in t.index then (t, t.index[k] + 1)
    else
      var n := |t.values| + 1;
      (Table(t.index[k := n - 1], t.values + [how.copy(v, n)]), n)
  }

  function InternAll<V>(t: Table<V>, vs: seq<V>, how: Policy<V>): (Table<V>, seq<nat>) {
    if vs == [] then (t, [])
    else
      var (t1, ids) := InternAll(t, vs[..|vs| - 1], how);
      var (t2, id) := Intern(t1, vs[|vs| - 1], how);
      (t2, ids + [id])
  }

  /** When the key of v is already known, the value it names agrees with v. */
  ghost predicate HitAgrees<V>(t: Table<V>, v: V, how: Policy<V>, same: (V, V) -> bool) {
    how.key(v) in t.index && t.index[how.key(v)] < |t.values| ==>
      same(t.values[t.index[how.key(v)]], v)
  }

  ghost predicate HitsAgree<V>(t: Table<V>, vs: seq<V>, how: Policy<V>, same: (V, V) -> bool) {
    vs == [] ||
    (HitsAgree(t, vs[..|vs| - 1], how, same) &&
     HitAgrees(InternAll(t, vs[..|vs| - 1], how).0, vs[|vs| - 1], how, same))
  }

  /** Interning only appends, and every answer is a position in the table. */
  lemma {:induction false} InternAllGrows<V>(t: Table<V>, vs: seq<V>, how: Policy<V>)
    requires Indexed(t)
    ensures var (t', ids) := InternAll(t, vs, how);
            && Indexed(t') && t.values <= t'.values && |ids| == |vs|
            && (forall k :: 0 <= k < |ids| ==> 1 <= ids[k] <= |t'.values|)
            && (vs != [] ==> t'.values != [])
  {
    if vs != [] {
      InternAllGrows(t, vs[..|vs| - 1], how);
    }
  }

  /** Each new entry is the copy of a value that was given, made for its own position. */
  lemma {:induction false} InternAllEntry<V>(t: Table<V>, vs: seq<V>, how: Policy<V>, i: nat)
    requires Indexed(t)
    requires |t.values| <= i < |InternAll(t, vs, how).0.values|
    ensures exists k :: 0 <= k < |vs| && InternAll(t, vs, how).0.values[i] == how.copy(vs[k], i + 1)
  {
    if vs != [] {
      var n := |vs| - 1;
      InternAllGrows(t, vs[..n], how);
      var t1 := InternAll(t, vs[..n], how).0;
      if i < |t1.values| {
        InternAllEntry(t, vs[..n], how, i);
        var k :| 0 <= k < n && t1.values[i] == how.copy(vs[..n][k], i + 1);
        assert InternAll(t, vs, how).0.values[i] == how.copy(vs[k], i + 1);
      } else {
        assert InternAll(t, vs, how).0.values[i] == how.copy(vs[n], i + 1);
      }
    }
  }

  /** When hits agree, the entry each value was mapped to agrees with it. */
  lemma {:induction false} InternAllAgrees<V>(t: Table<V>, vs: seq<V>, how: Policy<V>, same: (V, V) -> bool, k: nat)
    requires Indexed(t) && HitsAgree(t, vs, how, same)
    requires forall v, n :: same(how.copy(v, n), v)
    requires k < |vs| && |InternAll(t, vs, how).1| == |vs|
    requires 1 <= InternAll(t, vs, how).1[k] <= |InternAll(t, vs, how).0.values|
    ensures same(InternAll(t, vs, how).0.values[InternAll(t, vs, how).1[k] - 1], vs[k])
  {
    var n := |vs| - 1;
    InternAllGrows(t, vs[..n], how);
    if k < n {
      InternAllAgrees(t, vs[..n], how, same, k);
      assert InternAll(t, vs, how).1[k] == InternAll(t, vs[..n], how).1[k];
    }
  }

  lemma {:induction false} InternAllAgree<V>(t: Table<V>, vs: seq<V>, how: Policy<V>, same: (V, V) -> bool)
    requires Indexed(t) && HitsAgree(t, vs, how, same)
    requires forall v, n :: same(how.copy(v, n), v)
    ensures var (t', ids) := InternAll(t, vs, how);
            && Indexed(t') && t.values <= t'.values && |ids| == |vs|
            && (forall k :: 0 <= k < |ids| ==> 1 <= ids[k] <= |t'.values| && same(t'.values[ids[k] - 1], vs[k]))
  {
    InternAllGrows(t, vs, how);
    var (t', ids) := InternAll(t, vs, how);
    forall k | 0 <= k < |vs| ensures same(t'.values[ids[k] - 1], vs[k]) {
      InternAllAgrees(t, vs, how, same, k);
    }
  }

  // ----- the merge state

  /** The key functions; the program hashes printed fields, the model takes any functions. */
  datatype Keys = Keys(
    str: string -> nat,
    fn: Function -> nat,
    mapping: Mapping -> nat,
    loc: Location -> nat,
    sample: Sample -> nat)

  function StringPolicy(keys: Keys): Policy<string> {
    Policy(keys.str, (s: string, n: nat) => s)
  }

  function FunctionPolicy(keys: Keys): Policy<Function> {
    Policy(keys.fn, (f: Function, n: nat) => f.(id := n))
  }

  function MappingPolicy(keys: Keys): Policy<Mapping> {
    Policy(keys.mapping, (m: Mapping, n: nat) => m.(id := n))
  }

  function LocationPolicy(keys: Keys): Policy<Location> {
    Policy(keys.loc, (l: Location, n: nat) => l.(id := n))
  }

  function Zeros(n: nat): (r: seq<int>)
    ensures |r| == n && forall i :: 0 <= i < n ==> r[i] == 0
  {
    seq(n, i => 0)
  }

  /** A sample is entered with its values cleared; they are added afterwards. */
  function SamplePolicy(keys: Keys): Policy<Sample> {
    Policy(keys.sample, (s: Sample, n: nat) => s.(value := Zeros(|s.value|)))
  }

  /** header is pm.prof: header fields and sample types, with empty tables. */
  datatype Merger = Merger(
    header: Option<Profile>,
    strings: Table<string>,
    functions: Table<Function>,
    mappings: Table<Mapping>,
    locations: Table<Location>,
    samples: Table<Sample>)

  const EmptyProfile: Profile :=
    Profile([], [], [], [], [], [], 0, 0, 0, 0, None, 0, [], 0)

  function NewMerger(): Merger {
    Merger(None, Table(map[], []), Table(map[], []), Table(map[], []), Table(map[], []), Table(map[], []))
  }

  datatype Outcome = Merged | Skipped | Incompatible | NilPeriodType

  // ----- header

  /** strIdx of the program: interned positions, counted from 0. */
  function Ref(strIdx: seq<nat>, i: int): int {
    if 0 <= i < |strIdx| then strIdx[i] as int - 1 else 0
  }

  function Id(ids: seq<nat>, i: nat): nat {
    if 1 <= i <= |ids| then ids[i - 1] else 0
  }

  function MoveValueType(strIdx: seq<nat>): ValueType -> ValueType {
    (v: ValueType) => ValueType(Ref(strIdx, v.typ), Ref(strIdx, v.unit))
  }

  /** pm.init: the header of the first profile; its duration is left for combineHeaders. */
  function InitHeader(q: Profile): Profile {
    EmptyProfile.(dropFrames := q.dropFrames, keepFrames := q.keepFrames, timeNanos := q.timeNanos,
                  periodType := q.periodType, period := q.period,
                  defaultSampleType := q.defaultSampleType, sampleType := q.sampleType)
  }

  predicate EqualValueType(a: Option<ValueType>, b: Option<ValueType>) {
    a.Some? && b.Some? && a.value == b.value
  }

  predicate Compatible(a: Profile, b: Profile) {
    && EqualValueType(a.periodType, b.periodType)
    && |b.sampleType| == |a.sampleType|
    && forall i :: 0 <= i < |a.sampleType| ==> a.sampleType[i] == b.sampleType[i]
  }

  function CombineHeaders(a: Profile, b: Profile): Profile {
    a.(timeNanos := if a.timeNanos == 0 || b.timeNanos < a.timeNanos then b.timeNanos else a.timeNanos,
       durationNanos := a.durationNanos + b.durationNanos,
       period := if a.period == 0 || a.period < b.period then b.period else a.period,
       defaultSampleType := if a.defaultSampleType == 0 then b.defaultSampleType else a.defaultSampleType)
  }

  // ----- rewriting the input through the index tables

  function MoveFunction(strIdx: seq<nat>): Function -> Function {
    (f: Function) => f.(name := Ref(strIdx, f.name), filename := Ref(strIdx, f.filename),
                        systemName := Ref(strIdx, f.systemName))
  }

  function MoveMapping(strIdx: seq<nat>): Mapping -> Mapping {
    (m: Mapping) => m.(buildId := Ref(strIdx, m.buildId), filename := Ref(strIdx, m.filename))
  }

  function MoveLine(fnIdx: seq<nat>): Line -> Line {
    (l: Line) => l.(functionId := Id(fnIdx, l.functionId))
  }

  function MoveLocation(fnIdx: seq<nat>, mapIdx: seq<nat>): Location -> Location {
    (l: Location) => l.(lines := MapSeq(MoveLine(fnIdx), l.lines), mappingId := Id(mapIdx, l.mappingId))
  }

  function MoveLabel(strIdx: seq<nat>): Label -> Label {
    (l: Label) => l.(key := Ref(strIdx, l.key), str := Ref(strIdx, l.str))
  }

  function MoveIds(locIdx: seq<nat>, ids: seq<nat>): (r: seq<nat>)
    ensures |r| == |ids| && forall i :: 0 <= i < |ids| ==> r[i] == Id(locIdx, ids[i])
  {
    seq(|ids|, i requires 0 <= i < |ids| => Id(locIdx, ids[i]))
  }

  function MoveSample(strIdx: seq<nat>, locIdx: seq<nat>): Sample -> Sample {
    (s: Sample) => s.(labels := MapSeq(MoveLabel(strIdx), s.labels), locationId := MoveIds(locIdx, s.locationId))
  }

  // ----- accumulating samples

  function AddValues(a: Sample, s: Sample): Sample {
    a.(value := seq(|a.value|, i requires 0 <= i < |a.value| =>
                      a.value[i] + if i < |s.value| then s.value[i] else 0))
  }

  function AddSample(t: Table<Sample>, s: Sample, how: Policy<Sample>): Table<Sample> {
    var (t1, id) := Intern(t, s, how);
    if id > |t1.values| then t1
    else Table(t1.index, t1.values[id - 1 := AddValues(t1.values[id - 1], s)])
  }

  function AddSamples(t: Table<Sample>, ss: seq<Sample>, how: Policy<Sample>): Table<Sample> {
    if ss == [] then t else AddSample(AddSamples(t, ss[..|ss| - 1], how), ss[|ss| - 1], how)
  }

  ghost predicate SampleHitsAgree(t: Table<Sample>, ss: seq<Sample>, how: Policy<Sample>,
                                  same: (Sample, Sample) -> bool) {
    ss == [] ||
    (SampleHitsAgree(t, ss[..|ss| - 1], how, same) &&
     HitAgrees(AddSamples(t, ss[..|ss| - 1], how), ss[|ss| - 1], how, same))
  }

  // ----- one merge

  predicate Skips(p: Profile) {
    |p.samples| == 0 || |p.stringTable| < 2
  }

  /** The sanitized input with its header references moved to the merged string table. */
  function MoveHeader(q: Profile, strIdx: seq<nat>): Profile {
    q.(periodType := if q.periodType.None? then None else Some(MoveValueType(strIdx)(q.periodType.value)),
       sampleType := MapSeq(MoveValueType(strIdx), q.sampleType))
  }

  /** The table part of Merge, for an input whose header was accepted. */
  function MergeTables(m: Merger, q: Profile, strIdx: seq<nat>, keys: Keys): Merger {
    var (functions, fnIdx) := InternAll(m.functions, MapSeq(MoveFunction(strIdx), q.functions), FunctionPolicy(keys));
    var (mappings, mapIdx) := InternAll(m.mappings, MapSeq(MoveMapping(strIdx), q.mappings), MappingPolicy(keys));
    var (locations, locIdx) :=
      InternAll(m.locations, MapSeq(MoveLocation(fnIdx, mapIdx), q.locations), LocationPolicy(keys));
    m.(functions := functions, mappings := mappings, locations := locations,
       samples := AddSamples(m.samples, MapSeq(MoveSample(strIdx, locIdx), q.samples), SamplePolicy(keys)))
  }

  function Merge(m: Merger, p: Profile, keys: Keys): (Merger, Outcome) {
    if Skips(p) then (m, Skipped)
    else
      var q := Sanitized(p);
      var (strings, strIdx) := InternAll(m.strings, q.stringTable, StringPolicy(keys));
      var m1 := m.(strings := strings);
      if q.periodType.None? then (m1, NilPeriodType)
      else
        var h := MoveHeader(q, strIdx);
        var header := if m.header.None? then InitHeader(h) else m.header.value;
        if !Compatible(header, h) then (m1.(header := Some(header)), Incompatible)
        else (MergeTables(m1.(header := Some(CombineHeaders(header, h))), q, strIdx, keys), Merged)
  }

  /** The state after merging a list of profiles, whatever becomes of each. */
  function Run(ps: seq<Profile>, keys: Keys): Merger {
    if ps == [] then NewMerger() else Merge(Run(ps[..|ps| - 1], keys), ps[|ps| - 1], keys).0
  }

  // ----- the profile a state stands for

  function View(m: Merger): Profile {
    if m.header.None? then EmptyProfile
    else m.header.value.(samples := m.samples.values, locations := m.locations.values,
                         functions := m.functions.values, mappings := m.mappings.values,
                         stringTable := m.strings.values)
  }

  /** Profile(): the view with the ids of its tables numbered again. */
  function ProfileOf(m: Merger): Profile {
    var p := View(m);
    if m.header.None? then p
    else p.(locations := Renumber(p.locations),
            functions := seq(|p.functions|, i requires 0 <= i < |p.functions| => p.functions[i].(id := i + 1)),
            mappings := seq(|p.mappings|, i requires 0 <= i < |p.mappings| => p.mappings[i].(id := i + 1)))
  }

  ghost predicate TablesGood(m: Merger, columns: nat) {
    && Indexed(m.strings) && Indexed(m.functions) && Indexed(m.mappings)
    && Indexed(m.locations) && Indexed(m.samples)
    && FunctionsOk(m.functions.values, m.strings.values)
    && MappingsOk(m.mappings.values, m.strings.values)
    && LocationsOk(m.locations.values, |m.mappings.values|, |m.functions.values|)
    && SamplesOk(m.samples.values, columns, |m.locations.values|, m.strings.values)
  }

  ghost predicate HeaderGood(h: Profile, st: seq<string>) {
    && (forall i :: 0 <= i < |h.sampleType| ==> ValueTypeOk(st, h.sampleType[i]))
    && (h.periodType.Some? ==> ValueTypeOk(st, h.periodType.value))
  }

  /** What every reachable state keeps. */
  ghost predicate Good(m: Merger) {
    && (m.strings.values != [] ==> m.strings.values[0] == "")
    && (m.header.Some? ==>
          m.strings.values != [] && HeaderGood(m.header.value, m.strings.values) &&
          TablesGood(m, |m.header.value.sampleType|))
    && (m.header.None? ==>
          TablesGood(m, 0) && m.functions.values == [] && m.mappings.values == [] &&
          m.locations.values == [] && m.samples.values == [])
  }
}
