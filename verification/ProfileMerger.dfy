/** ProfileMergeV2 as it runs: five rewrite tables updated in place, one Get at a time. */
module ProfileMerger {
  import opened Sequences
  import opened Pprof
  import opened Sanitize
  import opened Sanitizer
  import opened ProfileMerge

  class RewriteTable<V(!new)> {
    var index: map<nat, nat>
    var values: seq<V>
    const how: Policy<V>

    function Model(): Table<V>
      reads this
    {
      Table(index, values)
    }

    constructor (how: Policy<V>)
      ensures Model() == Table(map[], []) && this.how == how
    {
      index, values := map[], [];
      this.how := how;
    }

    method Get(value: V) returns (id: nat)
      modifies this
      ensures (Model(), id) == Intern(old(Model()), value, how)
    {
      var k := how.key(value);
      if k in index {
        return index[k] + 1;
      }
      index := index[k := |values|];
      values := values + [how.copy(value, |values| + 1)];
      return |values|;
    }

    method GetAll(vs: seq<V>) returns (ids: seq<nat>)
      modifies this
      ensures (Model(), ids) == InternAll(old(Model()), vs, how)
    {
      ids := [];
      for i := 0 to |vs|
        invariant (Model(), ids) == InternAll(old(Model()), vs[..i], how)
      {
        assert vs[..i + 1][..i] == vs[..i];
        var id := Get(vs[i]);
        ids := ids + [id];
      }
      assert vs[..|vs|] == vs;
    }
  }

  class ProfileMergeV2 {
    var prof: Option<Profile>
    const keys: Keys
    const strings: RewriteTable<string>
    const functions: RewriteTable<Function>
    const mappings: RewriteTable<Mapping>
    const locations: RewriteTable<Location>
    const samples: RewriteTable<Sample>

    ghost predicate Valid() {
      && strings.how == StringPolicy(keys) && functions.how == FunctionPolicy(keys)
      && mappings.how == MappingPolicy(keys) && locations.how == LocationPolicy(keys)
      && samples.how == SamplePolicy(keys)
      && (strings as object) != functions && (strings as object) != mappings
      && (strings as object) != locations && (strings as object) != samples
      && (functions as object) != mappings && (functions as object) != locations
      && (functions as object) != samples && (mappings as object) != locations
      && (mappings as object) != samples && (locations as object) != samples
    }

    function State(): Merger
      reads this, strings, functions, mappings, locations, samples
    {
      Merger(prof, strings.Model(), functions.Model(), mappings.Model(), locations.Model(), samples.Model())
    }

    constructor (keys: Keys)
      ensures Valid() && State() == NewMerger() && this.keys == keys
    {
      prof := None;
      this.keys := keys;
      strings := new RewriteTable(StringPolicy(keys));
      functions := new RewriteTable(FunctionPolicy(keys));
      mappings := new RewriteTable(MappingPolicy(keys));
      locations := new RewriteTable(LocationPolicy(keys));
      samples := new RewriteTable(SamplePolicy(keys));
    }

    /** The sample loop: the entry found or made for each sample is added to in place. */
    method AddAll(ss: seq<Sample>)
      requires Valid()
      modifies samples
      ensures samples.Model() == AddSamples(old(samples.Model()), ss, SamplePolicy(keys))
    {
      for i := 0 to |ss|
        invariant samples.Model() == AddSamples(old(samples.Model()), ss[..i], SamplePolicy(keys))
      {
        assert ss[..i + 1][..i] == ss[..i];
        var id := samples.Get(ss[i]);
        if id <= |samples.values| {
          samples.values := samples.values[id - 1 := AddValues(samples.values[id - 1], ss[i])];
        }
      }
      assert ss[..|ss|] == ss;
    }

    method AddTables(q: Profile, strIdx: seq<nat>)
      requires Valid()
      modifies functions, mappings, locations, samples
      ensures State() == MergeTables(old(State()), q, strIdx, keys)
    {
      var fnIdx := functions.GetAll(MapSeq(MoveFunction(strIdx), q.functions));
      var mapIdx := mappings.GetAll(MapSeq(MoveMapping(strIdx), q.mappings));
      var locIdx := locations.GetAll(MapSeq(MoveLocation(fnIdx, mapIdx), q.locations));
      AddAll(MapSeq(MoveSample(strIdx, locIdx), q.samples));
    }

    /** Merges one profile, which is left sanitized. */
    method Add(p: ProfileObject) returns (outcome: Outcome)
      requires Valid()
      modifies this, strings, functions, mappings, locations, samples, p
      ensures (State(), outcome) == Merge(old(State()), old(p.Value()), keys)
      ensures Valid()
    {
      if |p.samples| == 0 || |p.stringTable| < 2 {
        return Skipped;
      }
      SanitizeProfile(p);
      var q := p.Value();
      var strIdx := strings.GetAll(q.stringTable);
      if q.periodType.None? {
        return NilPeriodType;
      }
      var h := MoveHeader(q, strIdx);
      if prof.None? {
        prof := Some(InitHeader(h));
      }
      if !Compatible(prof.value, h) {
        return Incompatible;
      }
      prof := Some(CombineHeaders(prof.value, h));
      AddTables(q, strIdx);
      return Merged;
    }

    method Result() returns (p: Profile)
      requires Valid()
      ensures p == ProfileOf(State())
    {
      if prof.None? {
        return EmptyProfile;
      }
      p := prof.value.(samples := samples.values, locations := locations.values,
                       functions := functions.values, mappings := mappings.values, stringTable := strings.values);
      p := p.(locations := Renumber(p.locations),
              functions := seq(|p.functions|, i requires 0 <= i < |p.functions| => p.functions[i].(id := i + 1)),
              mappings := seq(|p.mappings|, i requires 0 <= i < |p.mappings| => p.mappings[i].(id := i + 1)));
    }
  }
}
