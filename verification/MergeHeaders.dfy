/** Which profiles merge, and what the merged header says, in texts: for string keys that separate
    strings, two headers are compatible exactly when their types read the same. */
module MergeHeaders {
  import opened Sequences
  import opened Pprof
  import opened Sanitize
  import opened ProfileMerge
  import opened MergeIntegrity
  import opened MergeMeaning
  import opened MergeKeys

  ghost predicate SeparatesText(keys: Keys) {
    forall a, b :: keys.str(a) == keys.str(b) <==> a == b
  }

  ghost predicate FiledAt(t: Table<string>, keys: Keys, i: nat)
    requires i < |t.values|
  {
    keys.str(t.values[i]) in t.index && t.index[keys.str(t.values[i])] == i
  }

  /** Every string is found under its own key, at its own place. */
  ghost predicate Filed(t: Table<string>, keys: Keys) {
    && Indexed(t) && Keyed(t, StringPolicy(keys))
    && (forall i :: 0 <= i < |t.values| ==> FiledAt(t, keys, i))
  }

  lemma {:induction false} InternFiled(t: Table<string>, s: string, keys: Keys)
    requires SeparatesText(keys) && Filed(t, keys)
    ensures var (t', id) := Intern(t, s, StringPolicy(keys));
            Filed(t', keys) && 1 <= id <= |t'.values| && t'.values[id - 1] == s && t.values <= t'.values
  {
    var (t', id) := Intern(t, s, StringPolicy(keys));
    if keys.str(s) !in t.index {
      forall i | 0 <= i < |t'.values| ensures FiledAt(t', keys, i) {
        if i < |t.values| {
          assert FiledAt(t, keys, i);
        }
      }
    }
  }

  lemma {:induction false} InternAllFiled(t: Table<string>, vs: seq<string>, keys: Keys)
    requires SeparatesText(keys) && Filed(t, keys)
    ensures var (t', ids) := InternAll(t, vs, StringPolicy(keys));
            && Filed(t', keys) && t.values <= t'.values && |ids| == |vs|
            && forall k :: 0 <= k < |vs| ==> 1 <= ids[k] <= |t'.values| && t'.values[ids[k] - 1] == vs[k]
  {
    if vs != [] {
      var n := |vs| - 1;
      InternAllFiled(t, vs[..n], keys);
      InternFiled(InternAll(t, vs[..n], StringPolicy(keys)).0, vs[n], keys);
    }
  }

  /** In such a table equal texts have equal references. */
  lemma {:induction false} SameTextSameRef(t: Table<string>, keys: Keys, i: int, j: int)
    requires Filed(t, keys) && InTable(t.values, i) && InTable(t.values, j)
    ensures StringAt(t.values, i) == StringAt(t.values, j) <==> i == j
  {
    assert FiledAt(t, keys, i) && FiledAt(t, keys, j);
  }

  // ----- types as texts

  function TypeText(st: seq<string>, v: ValueType): (string, string) {
    (StringAt(st, v.typ), StringAt(st, v.unit))
  }

  /** The period types and, column by column, the sample types of two profiles read the same. */
  predicate SameTypes(a: Profile, b: Profile) {
    && a.periodType.Some? && b.periodType.Some?
    && TypeText(a.stringTable, a.periodType.value) == TypeText(b.stringTable, b.periodType.value)
    && |a.sampleType| == |b.sampleType|
    && forall i :: 0 <= i < |a.sampleType| ==>
         TypeText(a.stringTable, a.sampleType[i]) == TypeText(b.stringTable, b.sampleType[i])
  }

  lemma {:induction false} FixedTypeReads(st: seq<string>, v: ValueType)
    ensures TypeText(FixStrings(st), FixValueType(st)(v)) == TypeText(st, v)
  {
    FixRefReads(st, v.typ);
    FixRefReads(st, v.unit);
  }

  /** A type of the input reads the same once it is moved to the merged string table. */
  lemma {:induction false} MovedTypeReads(q: Profile, strings: Table<string>, keys: Keys, v: ValueType)
    requires SeparatesText(keys) && Filed(strings, keys) && ValueTypeOk(q.stringTable, v)
    ensures var (t', strIdx) := InternAll(strings, q.stringTable, StringPolicy(keys));
            && ValueTypeOk(t'.values, MoveValueType(strIdx)(v))
            && TypeText(t'.values, MoveValueType(strIdx)(v)) == TypeText(q.stringTable, v)
  {
    InternAllFiled(strings, q.stringTable, keys);
  }

  lemma {:induction false} TypesEqualIff(t: Table<string>, keys: Keys, a: ValueType, b: ValueType)
    requires Filed(t, keys) && ValueTypeOk(t.values, a) && ValueTypeOk(t.values, b)
    ensures a == b <==> TypeText(t.values, a) == TypeText(t.values, b)
  {
    SameTextSameRef(t, keys, a.typ, b.typ);
    SameTextSameRef(t, keys, a.unit, b.unit);
  }

  /** The state keeps its types in its own string table. */
  ghost predicate TextState(m: Merger, keys: Keys) {
    Good(m) && Filed(m.strings, keys)
  }

  /** The header of the input, moved: what it reads, and that it is in the table. */
  lemma {:induction false} MovedHeaderReads(m: Merger, p: Profile, keys: Keys)
    requires SeparatesText(keys) && TextState(m, keys)
    ensures var (t, strIdx) := InternAll(m.strings, Sanitized(p).stringTable, StringPolicy(keys));
            var h := MoveHeader(Sanitized(p), strIdx);
            && Filed(t, keys) && m.strings.values <= t.values && HeaderGood(h, t.values)
            && (p.periodType.Some? <==> h.periodType.Some?) && |h.sampleType| == |p.sampleType|
            && (h.periodType.Some? ==>
                  TypeText(t.values, h.periodType.value) == TypeText(p.stringTable, p.periodType.value))
            && forall i :: 0 <= i < |p.sampleType| ==>
                 TypeText(t.values, h.sampleType[i]) == TypeText(p.stringTable, p.sampleType[i])
  {
    var q := Sanitized(p);
    var (t, strIdx) := InternAll(m.strings, q.stringTable, StringPolicy(keys));
    var h := MoveHeader(q, strIdx);
    SanitizedWellFormed(p);
    InternAllFiled(m.strings, q.stringTable, keys);
    if p.periodType.Some? {
      MovedTypeReads(q, m.strings, keys, q.periodType.value);
      FixedTypeReads(p.stringTable, p.periodType.value);
    }
    forall i | 0 <= i < |p.sampleType|
      ensures ValueTypeOk(t.values, h.sampleType[i])
      ensures TypeText(t.values, h.sampleType[i]) == TypeText(p.stringTable, p.sampleType[i])
    {
      assert ValueTypeOk(q.stringTable, q.sampleType[i]);
      MovedTypeReads(q, m.strings, keys, q.sampleType[i]);
      FixedTypeReads(p.stringTable, p.sampleType[i]);
    }
  }

  lemma {:induction false} HeldTypeReads(m: Merger, t: Table<string>, v: ValueType)
    requires m.strings.values <= t.values && ValueTypeOk(m.strings.values, v)
    ensures ValueTypeOk(t.values, v) && TypeText(t.values, v) == TypeText(m.strings.values, v)
  {
  }

  /** The header of the state against the moved header of the input: compatible exactly when the
      types read the same. */
  lemma {:induction false} CompatibleIff(m: Merger, p: Profile, keys: Keys)
    requires SeparatesText(keys) && TextState(m, keys) && m.header.Some? && p.periodType.Some?
    ensures var strIdx := InternAll(m.strings, Sanitized(p).stringTable, StringPolicy(keys)).1;
            Compatible(m.header.value, MoveHeader(Sanitized(p), strIdx)) <==> SameTypes(View(m), p)
  {
    var (t, strIdx) := InternAll(m.strings, Sanitized(p).stringTable, StringPolicy(keys));
    var a, h := m.header.value, MoveHeader(Sanitized(p), strIdx);
    MovedHeaderReads(m, p, keys);
    if a.periodType.Some? {
      HeldTypeReads(m, t, a.periodType.value);
      TypesEqualIff(t, keys, a.periodType.value, h.periodType.value);
    }
    if |a.sampleType| == |h.sampleType| {
      forall i | 0 <= i < |a.sampleType|
        ensures a.sampleType[i] == h.sampleType[i] <==>
                TypeText(m.strings.values, a.sampleType[i]) == TypeText(p.stringTable, p.sampleType[i])
      {
        assert ValueTypeOk(m.strings.values, a.sampleType[i]);
        assert ValueTypeOk(t.values, h.sampleType[i]);
        HeldTypeReads(m, t, a.sampleType[i]);
        TypesEqualIff(t, keys, a.sampleType[i], h.sampleType[i]);
      }
    }
  }

  /** What becomes of a profile: skipped without samples or with fewer than two strings; a nil
      dereference without a period type; and otherwise merged exactly when there is no header yet
      or its types read as the types of the header do. */
  lemma {:induction false} OutcomeIff(m: Merger, p: Profile, keys: Keys)
    requires SeparatesText(keys) && TextState(m, keys)
    ensures var out := Merge(m, p, keys).1;
            && (out == Skipped <==> |p.samples| == 0 || |p.stringTable| < 2)
            && (out == NilPeriodType <==> out != Skipped && p.periodType.None?)
            && (out == Merged <==>
                  out != Skipped && p.periodType.Some? && (m.header.None? || SameTypes(View(m), p)))
  {
    if m.header.Some? && p.periodType.Some? {
      CompatibleIff(m, p, keys);
    }
  }

  /** Types of the header, once there, keep reading the same. */
  lemma {:induction false} TypesStay(m: Merger, p: Profile, keys: Keys)
    requires SeparatesText(keys) && TextState(m, keys) && m.header.Some? && m.header.value.periodType.Some?
    ensures var m' := Merge(m, p, keys).0; m'.header.Some? && SameTypes(View(m'), View(m))
  {
    var m', a := Merge(m, p, keys).0, m.header.value;
    InternAllFiled(m.strings, Sanitized(p).stringTable, keys);
    var t := m'.strings;
    HeldTypeReads(m, t, a.periodType.value);
    forall i | 0 <= i < |a.sampleType|
      ensures TypeText(t.values, a.sampleType[i]) == TypeText(m.strings.values, a.sampleType[i])
    {
      assert ValueTypeOk(m.strings.values, a.sampleType[i]);
      HeldTypeReads(m, t, a.sampleType[i]);
    }
  }

  /** The first header has the types of its profile. */
  lemma {:induction false} FirstTypes(m: Merger, p: Profile, keys: Keys)
    requires SeparatesText(keys) && TextState(m, keys) && m.header.None? && Merge(m, p, keys).1 == Merged
    ensures var m' := Merge(m, p, keys).0; m'.header.Some? && SameTypes(View(m'), p)
  {
    MovedHeaderReads(m, p, keys);
  }

  lemma {:induction false} MergeKeepsText(m: Merger, p: Profile, keys: Keys)
    requires SeparatesText(keys) && TextState(m, keys)
    ensures TextState(Merge(m, p, keys).0, keys)
  {
    MergeKeepsGood(m, p, keys);
    InternAllFiled(m.strings, Sanitized(p).stringTable, keys);
  }

  lemma {:induction false} RunKeepsText(ps: seq<Profile>, keys: Keys)
    requires SeparatesText(keys)
    ensures TextState(Run(ps, keys), keys)
  {
    RunGood(ps, keys);
    if ps != [] {
      RunKeepsText(ps[..|ps| - 1], keys);
      MergeKeepsText(Run(ps[..|ps| - 1], keys), ps[|ps| - 1], keys);
    }
  }

  // ----- whole runs

  /** A profile that is looked at: it has samples, two strings and a period type. */
  predicate Usable(p: Profile) {
    |p.samples| > 0 && |p.stringTable| >= 2 && p.periodType.Some?
  }

  /** The number of the first usable profile. */
  function FirstUsable(ps: seq<Profile>): (r: Option<nat>)
    ensures r.Some? ==> r.value < |ps| && Usable(ps[r.value])
    ensures forall k :: 0 <= k < (if r.Some? then r.value else |ps|) ==> !Usable(ps[k])
  {
    if ps == [] then None
    else
      var n := |ps| - 1;
      var r := FirstUsable(ps[..n]);
      if r.Some? then r else if Usable(ps[n]) then Some(n) else None
  }

  /** After a run there is a header exactly when some profile was usable, and its types read what
      those of the first usable profile read. */
  lemma {:induction false} HeaderOfFirst(ps: seq<Profile>, keys: Keys)
    requires SeparatesText(keys)
    ensures Run(ps, keys).header.Some? <==> FirstUsable(ps).Some?
    ensures FirstUsable(ps).Some? ==> SameTypes(View(Run(ps, keys)), ps[FirstUsable(ps).value])
  {
    if ps != [] {
      var n := |ps| - 1;
      HeaderOfFirst(ps[..n], keys);
      RunKeepsText(ps[..n], keys);
      HeaderStep(Run(ps[..n], keys), ps[n], keys, if FirstUsable(ps[..n]).Some? then ps[FirstUsable(ps[..n]).value] else ps[n]);
    }
  }

  /** One merge: a header appears with the first usable profile and then keeps its types. */
  lemma {:induction false} HeaderStep(m: Merger, p: Profile, keys: Keys, first: Profile)
    requires SeparatesText(keys) && TextState(m, keys) && (m.header.Some? ==> SameTypes(View(m), first))
    ensures var m' := Merge(m, p, keys).0;
            && (m'.header.Some? <==> m.header.Some? || Usable(p))
            && (m.header.Some? ==> SameTypes(View(m'), first))
            && (m.header.None? && Usable(p) ==> SameTypes(View(m'), p))
  {
    OutcomeIff(m, p, keys);
    if m.header.Some? {
      TypesStay(m, p, keys);
      SameTypesTrans(View(Merge(m, p, keys).0), View(m), first);
    } else if Usable(p) {
      FirstTypes(m, p, keys);
    }
  }

  lemma {:induction false} SameTypesTrans(a: Profile, b: Profile, c: Profile)
    requires SameTypes(a, b) && SameTypes(b, c)
    ensures SameTypes(a, c)
  {
  }

  // ----- the numbers of the header

  /** The profiles of a run that merged. */
  function MergedOf(ps: seq<Profile>, keys: Keys): seq<Profile> {
    if ps == [] then []
    else
      var n := |ps| - 1;
      MergedOf(ps[..n], keys) + if Merge(Run(ps[..n], keys), ps[n], keys).1 == Merged then [ps[n]] else []
  }

  function DurationOf(): Profile -> int {
    (p: Profile) => p.durationNanos
  }

  ghost predicate LargestPeriod(x: int, qs: seq<Profile>) {
    (forall k :: 0 <= k < |qs| ==> qs[k].period <= x) && exists k :: 0 <= k < |qs| && qs[k].period == x
  }

  ghost predicate EarliestTime(x: int, qs: seq<Profile>) {
    (forall k :: 0 <= k < |qs| ==> x <= qs[k].timeNanos) && exists k :: 0 <= k < |qs| && qs[k].timeNanos == x
  }

  /** Durations add up; the period is the largest when none is negative, and the time the earliest
      when all are set. */
  ghost predicate Numbers(h: Profile, qs: seq<Profile>) {
    && h.durationNanos == SumBy(DurationOf(), qs)
    && ((forall k :: 0 <= k < |qs| ==> qs[k].period >= 0) ==> LargestPeriod(h.period, qs))
    && ((forall k :: 0 <= k < |qs| ==> qs[k].timeNanos > 0) ==> EarliestTime(h.timeNanos, qs))
  }

  lemma {:induction false} NumbersStart(h: Profile, p: Profile)
    requires h.timeNanos == p.timeNanos && h.durationNanos == p.durationNanos && h.period == p.period
    ensures Numbers(CombineHeaders(InitHeader(h), h), [p])
  {
    assert [p][..0] == [];
    assert SumBy(DurationOf(), [p]) == SumBy(DurationOf(), [p][..0]) + p.durationNanos;
    assert [p][0].period == p.period && [p][0].timeNanos == p.timeNanos;
  }

  lemma {:induction false} NumbersMore(a: Profile, qs: seq<Profile>, h: Profile, p: Profile)
    requires Numbers(a, qs) && qs != []
    requires h.timeNanos == p.timeNanos && h.durationNanos == p.durationNanos && h.period == p.period
    ensures Numbers(CombineHeaders(a, h), qs + [p])
  {
    var r, x := qs + [p], CombineHeaders(a, h);
    assert r[..|qs|] == qs && r[|qs|] == p;
    if forall k :: 0 <= k < |r| ==> r[k].period >= 0 {
      assert forall k :: 0 <= k < |qs| ==> qs[k] == r[k];
      var k :| 0 <= k < |qs| && qs[k].period == a.period;
      assert r[k].period == a.period;
    }
    if forall k :: 0 <= k < |r| ==> r[k].timeNanos > 0 {
      assert forall k :: 0 <= k < |qs| ==> qs[k] == r[k];
      var k :| 0 <= k < |qs| && qs[k].timeNanos == a.timeNanos;
      assert r[k].timeNanos == a.timeNanos;
    }
  }

  /** Over every run, for any keys. */
  lemma {:induction false} HeaderNumbers(ps: seq<Profile>, keys: Keys)
    ensures var m, qs := Run(ps, keys), MergedOf(ps, keys);
            && (m.header.Some? <==> qs != []) && (m.header.Some? ==> Numbers(m.header.value, qs))
  {
    if ps != [] {
      var n := |ps| - 1;
      HeaderNumbers(ps[..n], keys);
      NumbersStep(Run(ps[..n], keys), ps[n], keys, MergedOf(ps[..n], keys));
    }
  }

  lemma {:induction false} NumbersStep(m: Merger, p: Profile, keys: Keys, qs: seq<Profile>)
    requires (m.header.Some? <==> qs != []) && (m.header.Some? ==> Numbers(m.header.value, qs))
    ensures var (m', out) := Merge(m, p, keys);
            var r := qs + if out == Merged then [p] else [];
            (m'.header.Some? <==> r != []) && (m'.header.Some? ==> Numbers(m'.header.value, r))
  {
    var (m', out) := Merge(m, p, keys);
    if out == Merged {
      var h := MoveHeader(Sanitized(p), Accepted(m, p, keys).1);
      if m.header.None? {
        NumbersStart(h, p);
        assert qs + [p] == [p];
      } else {
        NumbersMore(m.header.value, qs, h, p);
      }
    } else {
      FailedMergeKeepsState(m, p, keys);
      assert qs + [] == qs;
    }
  }
}
