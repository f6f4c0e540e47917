/** sanitizeProfile as it runs: a profile object whose tables are rewritten field by field.
    The id map t of the program, filled by t[x.Id] = j with j counting up from 1, is kept as
    the list of ids in the order they were entered; reading it is LastPos. */
module Sanitizer {
  import opened Sequences
  import opened Pprof
  import opened Sanitize

  class ProfileObject {
    var sampleType: seq<ValueType>
    var samples: seq<Sample>
    var mappings: seq<Mapping>
    var locations: seq<Location>
    var functions: seq<Function>
    var stringTable: seq<string>
    var dropFrames: int
    var keepFrames: int
    var timeNanos: int
    var durationNanos: int
    var periodType: Option<ValueType>
    var period: int
    var comment: seq<int>
    var defaultSampleType: int

    function Value(): Profile
      reads this
    {
      Profile(sampleType, samples, mappings, locations, functions, stringTable, dropFrames, keepFrames,
              timeNanos, durationNanos, periodType, period, comment, defaultSampleType)
    }

    constructor (p: Profile)
      ensures Value() == p
    {
      sampleType, samples, mappings := p.sampleType, p.samples, p.mappings;
      locations, functions, stringTable := p.locations, p.functions, p.stringTable;
      dropFrames, keepFrames, timeNanos := p.dropFrames, p.keepFrames, p.timeNanos;
      durationNanos, periodType, period := p.durationNanos, p.periodType, p.period;
      comment, defaultSampleType := p.comment, p.defaultSampleType;
    }
  }

  /** Compacts a slice in place: kept elements move to the front, rewritten. */
  method RemoveInPlace<T>(a: array<T>, keep: T -> Option<T>) returns (n: nat)
    modifies a
    ensures n <= a.Length
    ensures a[..n] == KeepMap(keep, old(a[..]))
  {
    ghost var was := a[..];
    n := 0;
    for i := 0 to a.Length
      invariant n <= i
      invariant a[..n] == KeepMap(keep, was[..i])
      invariant a[i..] == was[i..]
    {
      assert was[..i + 1][..i] == was[..i];
      assert a[i] == a[i..][0] == was[i];
      var kept := keep(a[i]);
      ghost var tail := a[i..][1..];
      assert a[i + 1..] == tail;
      if kept.Some? {
        ghost var front := a[..n];
        a[n] := kept.value;
        assert a[..n + 1] == front + [kept.value];
        n := n + 1;
      }
      assert a[i + 1..] == tail == was[i + 1..];
    }
    assert was[..a.Length] == was;
  }

  method Removed<T>(s: seq<T>, keep: T -> Option<T>) returns (r: seq<T>)
    ensures r == KeepMap(keep, s)
  {
    var a := new T[|s|](i requires 0 <= i < |s| => s[i]);
    assert a[..] == s;
    var n := RemoveInPlace(a, keep);
    r := a[..n];
  }

  method FindEmpty(st: seq<string>) returns (z: int)
    ensures z == if FirstEmpty(st) == |st| then -1 else FirstEmpty(st)
  {
    for i := 0 to |st|
      invariant FirstEmpty(st[..i]) == i
    {
      assert st[..i + 1][..i] == st[..i];
      if st[i] == "" {
        assert FirstEmpty(st) == i;
        return i;
      }
    }
    assert st[..|st|] == st;
    return -1;
  }

  method NumberMappings(st: seq<string>, ms: seq<Mapping>) returns (r: seq<Mapping>, t: seq<nat>)
    ensures r == FixMappings(st, ms) && t == MappingIds(ms)
  {
    r, t := [], [];
    for i := 0 to |ms|
      invariant |r| == |t| == i
      invariant t == MappingIds(ms[..i])
      invariant forall k :: 0 <= k < i ==> r[k] == FixMappings(st, ms)[k]
    {
      var x := ms[i].(buildId := FixRef(st, ms[i].buildId), filename := FixRef(st, ms[i].filename));
      t := t + [x.id];
      r := r + [x.(id := |t|)];
    }
    assert ms[..|ms|] == ms;
  }

  method NumberFunctions(st: seq<string>, fs: seq<Function>) returns (r: seq<Function>, t: seq<nat>)
    ensures r == FixFunctions(st, fs) && t == FunctionIds(fs)
  {
    r, t := [], [];
    for i := 0 to |fs|
      invariant |r| == |t| == i
      invariant t == FunctionIds(fs[..i])
      invariant forall k :: 0 <= k < i ==> r[k] == FixFunctions(st, fs)[k]
    {
      var x := fs[i].(name := FixRef(st, fs[i].name), systemName := FixRef(st, fs[i].systemName),
                      filename := FixRef(st, fs[i].filename));
      t := t + [x.id];
      r := r + [x.(id := |t|)];
    }
    assert fs[..|fs|] == fs;
  }

  method NumberLocations(ls: seq<Location>) returns (r: seq<Location>, t: seq<nat>)
    ensures r == Renumber(ls) && t == LocationIds(ls)
  {
    r, t := [], [];
    for i := 0 to |ls|
      invariant |r| == |t| == i
      invariant t == LocationIds(ls[..i])
      invariant forall k :: 0 <= k < i ==> r[k] == ls[k].(id := k + 1)
    {
      t := t + [ls[i].id];
      r := r + [ls[i].(id := |t|)];
    }
    assert ls[..|ls|] == ls;
  }

  /** The first location pass. The shared extra mapping appears with the first location
      that has no mapping. */
  method AttachMappings(ms: seq<Mapping>, t: seq<nat>, ls: seq<Location>, fixed: seq<Mapping>)
    returns (kept: seq<Location>, all: seq<Mapping>)
    requires t == MappingIds(ms) && |fixed| == |ms|
    ensures kept == KeepMap(AttachMapping(ms), ls)
    ensures all == fixed + ExtraMapping(ms, ls)
  {
    kept := [];
    var extra: Option<Mapping> := None;
    for i := 0 to |ls|
      invariant kept == KeepMap(AttachMapping(ms), ls[..i])
      invariant extra.None? <==> !NeedsMapping(ls[..i])
      invariant extra.Some? ==> extra.value == Mapping(|ms| + 1, 0, 0, 0, 0, 0)
    {
      assert ls[..i + 1][..i] == ls[..i];
      var x := ls[i];
      if x.mappingId == 0 {
        if extra.None? {
          extra := Some(Mapping(|fixed| + 1, 0, 0, 0, 0, 0));
        }
        kept := kept + [x.(mappingId := extra.value.id)];
        assert ls[..i + 1][i].mappingId == 0;
      } else {
        var k := LastPos(t, x.mappingId);
        if k != 0 {
          kept := kept + [x.(mappingId := k)];
        }
        assert forall j :: 0 <= j < i ==> ls[..i + 1][j] == ls[..i][j];
      }
    }
    assert ls[..|ls|] == ls;
    all := if extra.Some? then fixed + [extra.value] else fixed + [];
  }

  method FixStringTable(p: ProfileObject)
    modifies p`stringTable
    ensures p.stringTable == FixStrings(old(p.stringTable))
  {
    var z := FindEmpty(p.stringTable);
    if z == -1 {
      z := |p.stringTable|;
      p.stringTable := p.stringTable + [""];
    }
    var tmp := p.stringTable[0];
    p.stringTable := p.stringTable[0 := p.stringTable[z]];
    p.stringTable := p.stringTable[z := tmp];
  }

  function HeaderFixed(p: Profile, st: seq<string>): Profile {
    p.(sampleType := MapSeq(FixValueType(st), p.sampleType),
       periodType := if p.periodType.None? then None else Some(FixValueType(st)(p.periodType.value)),
       defaultSampleType := FixRef(st, p.defaultSampleType),
       dropFrames := FixRef(st, p.dropFrames),
       keepFrames := FixRef(st, p.keepFrames),
       comment := FixRefs(st, p.comment))
  }

  method FixHeader(p: ProfileObject, st: seq<string>)
    modifies p`sampleType, p`periodType, p`defaultSampleType, p`dropFrames, p`keepFrames, p`comment
    ensures p.Value() == HeaderFixed(old(p.Value()), st)
  {
    p.sampleType := MapSeq(FixValueType(st), p.sampleType);
    if p.periodType.Some? {
      p.periodType := Some(FixValueType(st)(p.periodType.value));
    }
    p.defaultSampleType := FixRef(st, p.defaultSampleType);
    p.dropFrames := FixRef(st, p.dropFrames);
    p.keepFrames := FixRef(st, p.keepFrames);
    p.comment := FixRefs(st, p.comment);
  }

  function TablesFixed(p: Profile, st: seq<string>): Profile {
    p.(mappings := FixMappings(st, p.mappings) + ExtraMapping(p.mappings, p.locations),
       functions := FixFunctions(st, p.functions),
       locations := Renumber(Survivors(p)))
  }

  /** The table passes; t is the id table of the locations, for the samples. */
  method FixTables(p: ProfileObject, st: seq<string>) returns (t: seq<nat>)
    modifies p`mappings, p`locations, p`functions
    ensures p.Value() == TablesFixed(old(p.Value()), st)
    ensures t == LocationIds(Survivors(old(p.Value())))
  {
    var ms, fs, ls := p.mappings, p.functions, p.locations;
    p.mappings, t := NumberMappings(st, ms);
    p.locations, p.mappings := AttachMappings(ms, t, ls, p.mappings);
    p.functions, t := NumberFunctions(st, fs);
    p.locations := Removed(p.locations, AttachFunctions(fs));
    p.locations, t := NumberLocations(p.locations);
  }

  method FixSamples(p: ProfileObject, st: seq<string>, t: seq<nat>)
    modifies p`samples
    ensures p.samples == KeepMap(FixSample(st, |p.sampleType|, t), old(p.samples))
  {
    p.samples := Removed(p.samples, FixSample(st, |p.sampleType|, t));
  }

  /** The passes one after the other make the repaired profile. */
  lemma {:induction false} PassesMake(p: Profile)
    ensures var st := p.stringTable;
            var q := TablesFixed(HeaderFixed(p.(stringTable := FixStrings(st)), st), st);
            Sanitized(p) == q.(samples := KeepMap(FixSample(st, |q.sampleType|, LocationIds(Survivors(p))), p.samples))
  {
  }

  method FixAll(p: ProfileObject)
    modifies p
    ensures p.Value() == Sanitized(old(p.Value()))
  {
    ghost var was := p.Value();
    var st := p.stringTable;
    FixStringTable(p);
    assert p.Value() == was.(stringTable := FixStrings(st));
    FixHeader(p, st);
    var t := FixTables(p, st);
    FixSamples(p, st, t);
    PassesMake(was);
  }

  /** Leaves the profile object holding the repaired profile. */
  method SanitizeProfile(p: ProfileObject?)
    modifies p
    ensures p != null ==> p.Value() == Sanitized(old(p.Value()))
  {
    if p != null {
      FixAll(p);
    }
  }
}
