/** The ruler: one evaluation routine per distinct interval of the stored rule groups, kept in
    step with storage by a poller, and stopped together. */
module Ruler {
  import opened Sequences

  // ----- rule groups

  datatype Rule = Rule(record: string, alert: string)
  datatype Group = Group(name: string, interval: string, rules: seq<Rule>, oid: string)
  type Groups = map<string, seq<Group>>

  predicate IsRecording(r: Rule) {
    r.record != ""
  }

  /** One minute, in nanoseconds. */
  const DefaultInterval: int := 60000000000

  /** Go's duration parser: None for text it rejects. */
  type Parser = string -> Option<int>

  /** EvalInterval: the default when the field is empty, None when it is malformed. */
  function EvalInterval(parse: Parser, g: Group): Option<int> {
    if g.interval == "" then Some(DefaultInterval) else parse(g.interval)
  }

  ghost predicate HasInterval(parse: Parser, gs: seq<Group>, d: int) {
    exists k :: 0 <= k < |gs| && EvalInterval(parse, gs[k]) == Some(d)
  }

  /** The valid intervals of the first n groups are in s. */
  predicate Includes(parse: Parser, gs: seq<Group>, n: nat, s: set<int>)
    requires n <= |gs|
  {
    forall k :: 0 <= k < n && EvalInterval(parse, gs[k]).Some? ==> EvalInterval(parse, gs[k]).value in s
  }

  /** s has only intervals of the rule set, among them all the valid ones of these namespaces. */
  ghost predicate IntervalsOf(parse: Parser, groups: Groups, spaces: set<string>, s: set<int>)
    requires spaces <= groups.Keys
  {
    && (forall d :: d in s ==> exists ns :: ns in groups && HasInterval(parse, groups[ns], d))
    && (forall ns :: ns in spaces ==> Includes(parse, groups[ns], |groups[ns]|, s))
  }

  /** s is the set of valid intervals of a rule set. */
  ghost predicate AreIntervals(parse: Parser, groups: Groups, s: set<int>) {
    IntervalsOf(parse, groups, groups.Keys, s)
  }

  /** The place of a rule: namespace, number of the group in it, number of the rule in that. */
  datatype Place = Place(ns: string, group: nat, rule: nat)

  predicate IsPlace(groups: Groups, p: Place) {
    p.ns in groups && p.group < |groups[p.ns]| && p.rule < |groups[p.ns][p.group].rules|
  }

  function GroupAt(groups: Groups, p: Place): Group
    requires IsPlace(groups, p)
  {
    groups[p.ns][p.group]
  }

  /** A routine of interval d evaluates the rule at p. */
  predicate Due(parse: Parser, groups: Groups, d: int, p: Place) {
    && IsPlace(groups, p) && EvalInterval(parse, GroupAt(groups, p)) == Some(d)
    && IsRecording(GroupAt(groups, p).rules[p.rule])
  }

  /** The evaluations of one cycle: every due rule once, and no other. */
  ghost predicate Evaluates(parse: Parser, groups: Groups, d: int, places: seq<Place>) {
    && (forall p :: p in places <==> Due(parse, groups, d, p))
    && (forall i, j :: 0 <= i < j < |places| ==> places[i] != places[j])
  }

  /** Due, and in the part of the rule set already walked: the namespaces done, and in ns the
      groups before g and the rules before r of group g. */
  predicate DueBefore(parse: Parser, groups: Groups, d: int, done: set<string>, ns: string, g: nat, r: nat, p: Place) {
    && Due(parse, groups, d, p)
    && (p.ns in done || (p.ns == ns && (p.group < g || (p.group == g && p.rule < r))))
  }

  ghost predicate Walked(parse: Parser, groups: Groups, d: int, done: set<string>, ns: string, g: nat, r: nat,
                         places: seq<Place>)
  {
    && (forall p :: p in places <==> DueBefore(parse, groups, d, done, ns, g, r, p))
    && (forall i, j :: 0 <= i < j < |places| ==> places[i] != places[j])
  }

  lemma {:induction false} WalkRule(parse: Parser, groups: Groups, d: int, done: set<string>, ns: string, g: nat, r: nat,
                                    places: seq<Place>)
    requires Walked(parse, groups, d, done, ns, g, r, places) && ns !in done && IsPlace(groups, Place(ns, g, r))
    ensures Walked(parse, groups, d, done, ns, g, r + 1,
                   if Due(parse, groups, d, Place(ns, g, r)) then places + [Place(ns, g, r)] else places)
  {
    var here := Place(ns, g, r);
    forall p ensures DueBefore(parse, groups, d, done, ns, g, r + 1, p) <==>
                     DueBefore(parse, groups, d, done, ns, g, r, p) || (p == here && Due(parse, groups, d, here))
    {
    }
    assert !DueBefore(parse, groups, d, done, ns, g, r, here);
  }

  lemma {:induction false} WalkGroup(parse: Parser, groups: Groups, d: int, done: set<string>, ns: string, g: nat, r: nat,
                                     places: seq<Place>)
    requires Walked(parse, groups, d, done, ns, g, r, places) && ns in groups && g < |groups[ns]|
    requires r == |groups[ns][g].rules| || EvalInterval(parse, groups[ns][g]) != Some(d)
    ensures Walked(parse, groups, d, done, ns, g + 1, 0, places)
  {
    forall p ensures DueBefore(parse, groups, d, done, ns, g + 1, 0, p) <==>
                     DueBefore(parse, groups, d, done, ns, g, r, p)
    {
    }
  }

  lemma {:induction false} WalkSpace(parse: Parser, groups: Groups, d: int, done: set<string>, ns: string, next: string,
                                     places: seq<Place>)
    requires ns in groups && Walked(parse, groups, d, done, ns, |groups[ns]|, 0, places)
    ensures Walked(parse, groups, d, done + {ns}, next, 0, 0, places)
  {
    forall p ensures DueBefore(parse, groups, d, done + {ns}, next, 0, 0, p) <==>
                     DueBefore(parse, groups, d, done, ns, |groups[ns]|, 0, p)
    {
    }
  }

  /** The walk of evaluateInterval over a rule set; namespaces come in any order. */
  method EvaluateInterval(parse: Parser, groups: Groups, d: int) returns (places: seq<Place>)
    ensures Evaluates(parse, groups, d, places)
    ensures forall ns: string, g: nat, r: nat :: Place(ns, g, r) in places <==>
      && ns in groups && g < |groups[ns]| && r < |groups[ns][g].rules| && groups[ns][g].rules[r].record != ""
      && (if groups[ns][g].interval == "" then d == 60000000000 else parse(groups[ns][g].interval) == Some(d))
  {
    places := [];
    var left, done := groups.Keys, {};
    var ns := "";
    while left != {}
      invariant left !! done && left + done == groups.Keys
      invariant Walked(parse, groups, d, done, ns, 0, 0, places)
      decreases left
    {
      ns :| ns in left;
      var gs := groups[ns];
      for g := 0 to |gs|
        invariant Walked(parse, groups, d, done, ns, g, 0, places)
      {
        if EvalInterval(parse, gs[g]) == Some(d) {
          var rules := gs[g].rules;
          for r := 0 to |rules|
            invariant Walked(parse, groups, d, done, ns, g, r, places)
          {
            WalkRule(parse, groups, d, done, ns, g, r, places);
            if IsRecording(rules[r]) {
              places := places + [Place(ns, g, r)];
            }
          }
          WalkGroup(parse, groups, d, done, ns, g, |rules|, places);
        } else {
          WalkGroup(parse, groups, d, done, ns, g, 0, places);
        }
      }
      WalkSpace(parse, groups, d, done, ns, ns, places);
      left, done := left - {ns}, done + {ns};
    }
    forall p ensures DueBefore(parse, groups, d, done, ns, 0, 0, p) <==> Due(parse, groups, d, p) {
    }
  }

  /** The intervals to run: malformed ones are skipped. */
  method ReadIntervals(parse: Parser, groups: Groups) returns (s: set<int>)
    ensures AreIntervals(parse, groups, s)
  {
    s := {};
    var left := groups.Keys;
    while left != {}
      invariant left <= groups.Keys && IntervalsOf(parse, groups, groups.Keys - left, s)
      decreases left
    {
      var ns :| ns in left;
      var gs := groups[ns];
      for g := 0 to |gs|
        invariant IntervalsOf(parse, groups, groups.Keys - left, s) && Includes(parse, gs, g, s)
      {
        var d := EvalInterval(parse, gs[g]);
        if d.Some? {
          assert HasInterval(parse, groups[ns], d.value);
          s := s + {d.value};
        }
      }
      left := left - {ns};
    }
  }

  lemma {:induction false} NotEmpty(s: set<int>)
    requires s != {}
    ensures exists d :: d in s
  {
    if forall d :: d !in s {
      assert false;
    }
  }

  // ----- rule health

  function HealthKey(oid: string, ns: string, group: string, record: string): string {
    oid + ":" + ns + ":" + group + ":" + record
  }

  function KeyAt(groups: Groups, p: Place): string
    requires IsPlace(groups, p)
  {
    HealthKey(GroupAt(groups, p).oid, p.ns, GroupAt(groups, p).name, GroupAt(groups, p).rules[p.rule].record)
  }

  ghost predicate RecordingKey(groups: Groups, p: Place, key: string) {
    IsPlace(groups, p) && IsRecording(GroupAt(groups, p).rules[p.rule]) && KeyAt(groups, p) == key
  }

  /** The key belongs to a recording rule of the rule set. */
  ghost predicate LiveKey(groups: Groups, key: string) {
    exists p :: RecordingKey(groups, p, key)
  }

  /** The keys of the recording rules among the first r rules of a group are in keys. */
  predicate KeysIn(g: Group, ns: string, r: nat, keys: set<string>)
    requires r <= |g.rules|
  {
    forall k :: 0 <= k < r && IsRecording(g.rules[k]) ==> HealthKey(g.oid, ns, g.name, g.rules[k].record) in keys
  }

  predicate KeysOf(gs: seq<Group>, ns: string, n: nat, keys: set<string>)
    requires n <= |gs|
  {
    forall k :: 0 <= k < n ==> KeysIn(gs[k], ns, |gs[k].rules|, keys)
  }

  ghost predicate LiveKeysOf(groups: Groups, spaces: set<string>, keys: set<string>)
    requires spaces <= groups.Keys
  {
    && (forall key :: key in keys ==> LiveKey(groups, key))
    && (forall ns :: ns in spaces ==> KeysOf(groups[ns], ns, |groups[ns]|, keys))
  }

  /** The keys pruneHealth keeps: exactly those of the recording rules. */
  method LiveKeys(groups: Groups) returns (keys: set<string>)
    ensures forall key :: key in keys <==> LiveKey(groups, key)
  {
    keys := {};
    var left := groups.Keys;
    while left != {}
      invariant left <= groups.Keys && LiveKeysOf(groups, groups.Keys - left, keys)
      decreases left
    {
      var ns :| ns in left;
      var gs := groups[ns];
      for g := 0 to |gs|
        invariant LiveKeysOf(groups, groups.Keys - left, keys) && KeysOf(gs, ns, g, keys)
      {
        for r := 0 to |gs[g].rules|
          invariant LiveKeysOf(groups, groups.Keys - left, keys) && KeysOf(gs, ns, g, keys)
          invariant KeysIn(gs[g], ns, r, keys)
        {
          if IsRecording(gs[g].rules[r]) {
            var key := HealthKey(gs[g].oid, ns, gs[g].name, gs[g].rules[r].record);
            assert RecordingKey(groups, Place(ns, g, r), key);
            keys := keys + {key};
          }
        }
      }
      left := left - {ns};
    }
    forall key | LiveKey(groups, key) ensures key in keys {
      var p :| RecordingKey(groups, p, key);
      assert KeysIn(groups[p.ns][p.group], p.ns, |groups[p.ns][p.group].rules|, keys);
    }
  }
}
