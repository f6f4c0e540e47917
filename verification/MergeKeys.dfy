/** Keys that separate the fields they print never confuse two values, so that merging with
    them preserves meaning without any further hypothesis. */
module MergeKeys {
  import opened Sequences
  import opened Pprof
  import opened Sanitize
  import opened ProfileMerge
  import opened MergeIntegrity
  import opened MergeMeaning

  function PrintedFunction(f: Function): (int, int, int, int) {
    (f.startLine, f.name, f.systemName, f.filename)
  }

  function PrintedLocation(l: Location): (nat, seq<Line>, nat) {
    (l.address, l.lines, l.mappingId)
  }

  function PrintedLabels(labels: seq<Label>): multiset<(int, int)> {
    multiset(seq(|labels|, i requires 0 <= i < |labels| => (labels[i].key, labels[i].str)))
  }

  /** Location ids in order; labels sorted by key and string, numbers left out. */
  function PrintedSample(s: Sample): (seq<nat>, multiset<(int, int)>) {
    (s.locationId, PrintedLabels(s.labels))
  }

  /** Two values have the same key exactly when they print the same. */
  ghost predicate Separating(keys: Keys) {
    && (forall a, b :: keys.str(a) == keys.str(b) <==> a == b)
    && (forall a, b :: keys.fn(a) == keys.fn(b) <==> PrintedFunction(a) == PrintedFunction(b))
    && (forall a, b :: keys.loc(a) == keys.loc(b) <==> PrintedLocation(a) == PrintedLocation(b))
    && (forall a, b :: keys.sample(a) == keys.sample(b) <==> PrintedSample(a) == PrintedSample(b))
  }

  /** Every entry is filed under its own key. */
  ghost predicate Keyed<V>(t: Table<V>, how: Policy<V>) {
    forall k :: k in t.index ==> t.index[k] < |t.values| && how.key(t.values[t.index[k]]) == k
  }

  lemma {:induction false} SameByKey<V>(how: Policy<V>, same: (V, V) -> bool, a: V, b: V)
    requires forall x, y :: how.key(x) == how.key(y) ==> same(x, y)
    requires how.key(a) == how.key(b)
    ensures same(a, b)
  {
  }

  lemma {:induction false} InternAllKeyed<V>(t: Table<V>, vs: seq<V>, how: Policy<V>, same: (V, V) -> bool)
    requires Keyed(t, how)
    requires forall v, n :: how.key(how.copy(v, n)) == how.key(v)
    requires forall a, b :: how.key(a) == how.key(b) ==> same(a, b)
    ensures Keyed(InternAll(t, vs, how).0, how) && HitsAgree(t, vs, how, same)
  {
    if vs != [] {
      var n := |vs| - 1;
      InternAllKeyed(t, vs[..n], how, same);
      var t1 := InternAll(t, vs[..n], how).0;
      if how.key(vs[n]) in t1.index {
        var x := t1.values[t1.index[how.key(vs[n])]];
        SameByKey(how, same, x, vs[n]);
      }
    }
  }

  lemma {:induction false} AddSamplesKeyed(t: Table<Sample>, ss: seq<Sample>, keys: Keys)
    requires Separating(keys) && Keyed(t, SamplePolicy(keys))
    ensures Keyed(AddSamples(t, ss, SamplePolicy(keys)), SamplePolicy(keys))
    ensures SampleHitsAgree(t, ss, SamplePolicy(keys), SameStack())
  {
    if ss != [] {
      var n := |ss| - 1;
      var how := SamplePolicy(keys);
      AddSamplesKeyed(t, ss[..n], keys);
      var t1 := AddSamples(t, ss[..n], how);
      if how.key(ss[n]) in t1.index {
        var a := t1.values[t1.index[how.key(ss[n])]];
        assert PrintedSample(a) == PrintedSample(ss[n]);
      }
      AddSampleKeyed(t1, ss[n], keys);
    }
  }

  lemma {:induction false} AddSampleKeyed(t: Table<Sample>, s: Sample, keys: Keys)
    requires Separating(keys) && Keyed(t, SamplePolicy(keys))
    ensures Keyed(AddSample(t, s, SamplePolicy(keys)), SamplePolicy(keys))
  {
    var how := SamplePolicy(keys);
    var (t1, id) := Intern(t, s, how);
    assert PrintedSample(how.copy(s, id)) == PrintedSample(s);
    assert Keyed(t1, how);
    var a := t1.values[id - 1];
    assert PrintedSample(AddValues(a, s)) == PrintedSample(a);
  }

  ghost predicate KeyedState(m: Merger, keys: Keys) {
    && Keyed(m.strings, StringPolicy(keys)) && Keyed(m.functions, FunctionPolicy(keys))
    && Keyed(m.locations, LocationPolicy(keys)) && Keyed(m.samples, SamplePolicy(keys))
  }

  lemma {:induction false} StringsKeyed(t: Table<string>, vs: seq<string>, keys: Keys)
    requires Separating(keys) && Keyed(t, StringPolicy(keys))
    ensures Keyed(InternAll(t, vs, StringPolicy(keys)).0, StringPolicy(keys))
    ensures HitsAgree(t, vs, StringPolicy(keys), SameString())
  {
    InternAllKeyed(t, vs, StringPolicy(keys), SameString());
  }

  lemma {:induction false} FunctionsKeyed(t: Table<Function>, vs: seq<Function>, keys: Keys)
    requires Separating(keys) && Keyed(t, FunctionPolicy(keys))
    ensures Keyed(InternAll(t, vs, FunctionPolicy(keys)).0, FunctionPolicy(keys))
    ensures HitsAgree(t, vs, FunctionPolicy(keys), SameFunction())
  {
    forall f: Function, n: nat ensures keys.fn(f.(id := n)) == keys.fn(f) {
      assert PrintedFunction(f.(id := n)) == PrintedFunction(f);
    }
    InternAllKeyed(t, vs, FunctionPolicy(keys), SameFunction());
  }

  lemma {:induction false} LocationsKeyed(t: Table<Location>, vs: seq<Location>, keys: Keys)
    requires Separating(keys) && Keyed(t, LocationPolicy(keys))
    ensures Keyed(InternAll(t, vs, LocationPolicy(keys)).0, LocationPolicy(keys))
    ensures HitsAgree(t, vs, LocationPolicy(keys), SameLines())
  {
    forall l: Location, n: nat ensures keys.loc(l.(id := n)) == keys.loc(l) {
      assert PrintedLocation(l.(id := n)) == PrintedLocation(l);
    }
    InternAllKeyed(t, vs, LocationPolicy(keys), SameLines());
  }

  lemma {:induction false} TablesKeyed(m: Merger, q: Profile, strIdx: seq<nat>, keys: Keys)
    requires Separating(keys) && KeyedState(m, keys)
    ensures KeyedState(MergeTables(m, q, strIdx, keys), keys) && CleanTables(m, q, strIdx, keys)
  {
    var fs := MapSeq(MoveFunction(strIdx), q.functions);
    var fnIdx := InternAll(m.functions, fs, FunctionPolicy(keys)).1;
    var mapIdx := InternAll(m.mappings, MapSeq(MoveMapping(strIdx), q.mappings), MappingPolicy(keys)).1;
    var ls := MapSeq(MoveLocation(fnIdx, mapIdx), q.locations);
    var locIdx := InternAll(m.locations, ls, LocationPolicy(keys)).1;
    FunctionsKeyed(m.functions, fs, keys);
    LocationsKeyed(m.locations, ls, keys);
    AddSamplesKeyed(m.samples, MapSeq(MoveSample(strIdx, locIdx), q.samples), keys);
  }

  lemma {:induction false} MergeKeyed(m: Merger, p: Profile, keys: Keys)
    requires Separating(keys) && KeyedState(m, keys)
    ensures KeyedState(Merge(m, p, keys).0, keys) && Clean(m, p, keys)
  {
    StringsKeyed(m.strings, Sanitized(p).stringTable, keys);
    if Merge(m, p, keys).1 == Merged {
      var (m2, strIdx) := Accepted(m, p, keys);
      TablesKeyed(m2, Sanitized(p), strIdx, keys);
    }
  }

  lemma {:induction false} SeparatingRunIsClean(ps: seq<Profile>, keys: Keys)
    requires Separating(keys)
    ensures KeyedState(Run(ps, keys), keys) && CleanRun(ps, keys)
  {
    if ps != [] {
      SeparatingRunIsClean(ps[..|ps| - 1], keys);
      MergeKeyed(Run(ps[..|ps| - 1], keys), ps[|ps| - 1], keys);
    }
  }

  /** The merge theorem for separating keys: weights add up over any list of profiles that
      all merge, and so do not depend on their order. */
  lemma {:induction false} SeparatingKeysKeepMeaning(ps: seq<Profile>, keys: Keys, stack: Stack, c: nat)
    requires Separating(keys) && AllMerged(ps, keys)
    ensures Weight(ProfileOf(Run(ps, keys)), stack, c) == SumBy(WeightIn(stack, c), ps)
  {
    SeparatingRunIsClean(ps, keys);
    RunKeepsMeaning(ps, keys, stack, c);
    AllMergedWeight(ps, keys, stack, c);
  }
}
