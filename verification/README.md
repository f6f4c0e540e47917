# Gigapipe, modelled and proved

Gigapipe stores logs, metrics, traces and profiles in ClickHouse and reads them back. This project
models the parts of it in which a mistake would go unnoticed: tables that are renumbered in place,
pictures stored as relative offsets, rows that travel through queues and retries before they are
acknowledged, and background routines that must agree with what is stored. Each part is written as
the program has it, objects with their fields and loops with their order, and proved against a
specification that says what the part is for.

* **Profiles.** `Pprof` gives a pprof profile, however damaged, a meaning: the weight of every call
  stack, written in function names. `Sanitize` and `Sanitizer` repair a profile without changing
  that meaning, and `SanitizeReads` follows what else a profile says. `ProfileMerge` and the modules after it merge many profiles: `MergeIntegrity` holds
  for any hash keys, collisions included, `MergeMeaning` for runs in which no key confuses two
  values, `MergeKeys` shows that separating keys are such keys, `MergeHeaders` says in texts which
  profiles merge and what header they get, `MergeReads` follows every other field of a sample, and
  `ProfileMerger` is the object that runs. `Otlp` converts OTLP profiles.
* **Flame graphs.** `FlameTree` builds the tree, `FlameBars` says what a correct picture is,
  `FlameLayout` draws it level by level, `FlameCycles` says when levels end and the picture is sound,
  `FlameMerge` aligns two trees, `FlameDiff` walks them in lockstep, `FlameComplete` follows stored
  tries through to both pictures, and `DotPruning` selects and numbers the nodes of a size-limited
  drawing.
* **Writing.** `Partition` splits requests over shards, `InsertService` and `InsertServiceObject`
  are one insert service with its loop, `InsertAnswers` says which answer each request gets.
  `WritePath` interleaves any number of handlers, pushes and services, `WriteRouting` says where
  acknowledged rows are, and `WriteOutcomes` why a handler fails. `ShardSnapshot` and `ShardGrowth` are the cluster topology and its growth.
* **Reading.** `SeriesIterator` repeats samples at the query step, `WindowFill` spreads aggregated
  windows over the steps of a query. `Arithmetic` has Go's division, which truncates toward zero.
* **Reconcilers.** `Ruler` and `RulerLifecycle` keep evaluation routines in step with the stored
  rules, `Migration` runs numbered schema scripts.

Concurrency is modelled as transition systems whose steps are the critical sections and channel
operations of the code; the results range over all interleavings. Whatever the program hashes,
parses, hands to the network or reads from a clock is a parameter: key functions, the duration
parser, replies of ClickHouse, discovered replicas, the address normaliser.

`dafny verify dfyconfig.toml` checks everything.

## Where the code does not do what one would expect

Each of these comes with the exact condition, proved in both directions, and with an example
where the condition alone does not show that it can fail.

* `mergeNodes` keeps Total = Self + children on a side if and only if no node that the side lacks
  under some parent has weight below it elsewhere (`FlameMerge.MergeKeepsAdditive`,
  `FlameMerge.OrphanExample`). Node ids that stand for paths never meet that case.
* The loop of `computeFlameGraphDiff` ends if and only if no id repeats on a way down from the root
  of the left tree (`FlameDiff.WalkEndsIff`, `FlameCycles.CycleExample`). Trees that `MergeTrie`
  builds from paths have no such repetition (`FlameComplete.TriesDiff`).
* The times shown by `prolongSeriesIt` can step back: they are monotone if and only if no last
  repetition passes the next sample (`SeriesIterator.MonotoneIff`, `SeriesIterator.OvershootExample`).
* `seriesIt.Seek` lands on the first sample at or after t if and only if t is not after the first
  sample, or is present, or its probes do not stop one early, which depends on the number of samples
  and the number of them before t alone (`SeriesIterator.SeekExactIff`, `SeriesIterator.EarlyExample`).
* `FixPeriodPlanner` writes into an empty table, and panics, if and only if entries of fingerprint 0
  come first and one of their windows reaches over the start (`WindowFill.Process`,
  `WindowFill.EmptyTableExample`). A window that ended before the start writes the first slot if and
  only if it ended less than one step before it (`WindowFill.EndedWindow`).
* After a stop, a request is without an answer if and only if it was accepted after the drain, having
  read the running flag before (`InsertService.UnansweredIffLate`, `InsertService.LateRequestExample`).
* The ruler panics if and only if a valid interval it reads is not positive, such as `0s`
  (`RulerLifecycle.RuleManager.UpdateRoutines`).
* `MergeTrie` panics if and only if there is a row to add and the sample type lies beyond the maxSelf
  slots, of which `NewTree` makes one (`FlameTree.Tree.MergeTrie`).

## Model

| member | source | states |
|---|---|---|
| Sanitize.SanitizedWellFormed | reader/service/prof_merge_v1.go:17-144 | Whatever profile comes in, what comes out has dense ids from 1, every reference inside its table, "" as string 0 and one value per sample type |
| Sanitize.FixRefReads | reader/service/prof_merge_v1.go:36-48 | A string reference reads the same text after "" was swapped to the front; a reference outside the table reads "" |
| Sanitize.FunctionNameKept | reader/service/prof_merge_v1.go:93-103 | Under duplicate function ids the last one wins, and the new id names the same function name |
| Sanitize.LocationFrameKept | reader/service/prof_merge_v1.go:79-114 | A location survives both passes exactly when its mapping and all its functions exist, and then names the same functions |
| Sanitize.IdResolutionKept | reader/service/prof_merge_v1.go:116-135 | Looking a location id up after the repair gives the frame of the last resolving location that carried it, and fails exactly when none resolved |
| Sanitize.StackKept | reader/service/prof_merge_v1.go:125-143 | A list of location ids is accepted exactly when every id resolves, and the rewritten list names the same call stack |
| Sanitize.SampleFate | reader/service/prof_merge_v1.go:125-143 | A sample is dropped only for a wrong value count or an unresolved reference; a sample that stays keeps its values and its resolved stack |
| Sanitize.SanitizedKeepsWeight | reader/service/prof_merge_v1.go:17-144 | The repair gives every call stack, in every column, exactly the weight the damaged profile gave it |
| Sanitize.WellFormedIsFixpoint | reader/service/prof_merge_v1.go:17-144 | A well-formed profile is left exactly as it is |
| Sanitize.SanitizedIdempotent | reader/service/prof_merge_v1.go:17-144 | Sanitizing twice is sanitizing once, for every profile |
| SanitizeReads.MappingKept | reader/service/prof_merge_v1.go:68-91 | A location that is kept has the last mapping with the id it named, in its place and reading the same; without a mapping it gets the one empty mapping after all others |
| SanitizeReads.FunctionReads | reader/service/prof_merge_v1.go:93-103 | Names, system names, files and start lines of functions read as before |
| SanitizeReads.LocationKept | reader/service/prof_merge_v1.go:105-114 | A location that is kept keeps its address and its line numbers, each line at the last function of its id |
| SanitizeReads.LocationsKept | reader/service/prof_merge_v1.go:79-123 | The repaired locations are the kept ones in their order, numbered from 1 |
| SanitizeReads.LabelsKept | reader/service/prof_merge_v1.go:125-143 | A sample that is kept keeps what its labels read |
| SanitizeReads.HeaderKept | reader/service/prof_merge_v1.go:40-66 | Types, comments and the other texts of the header read as before, its numbers are the same |
| Sanitizer.RemoveInPlace | reader/service/prof_merge_v1.go:146-155 | The in-place compaction of a slice keeps, in order, exactly the elements the predicate accepts, each as the predicate rewrote it |
| Sanitizer.FindEmpty | reader/service/prof_merge_v1.go:22-29 | The loop finds the first empty string, or reports that there is none |
| Sanitizer.NumberMappings | reader/service/prof_merge_v1.go:68-77 | The mapping pass renumbers from 1 and records the old ids |
| Sanitizer.NumberFunctions | reader/service/prof_merge_v1.go:93-103 | The function pass renumbers from 1 and records the old ids |
| Sanitizer.NumberLocations | reader/service/prof_merge_v1.go:116-123 | The final location pass renumbers from 1 and records the old ids |
| Sanitizer.AttachMappings | reader/service/prof_merge_v1.go:79-91 | The first location pass drops locations of unknown mappings and adds one shared mapping when some location has none |
| Sanitizer.FixStringTable | reader/service/prof_merge_v1.go:22-38 | The table gets "" at position 0 by one swap, appended first when missing |
| Sanitizer.FixTables | reader/service/prof_merge_v1.go:68-123 | The table passes one after the other leave exactly the repaired mappings, functions and locations, and the id table the samples are read with |
| Sanitizer.PassesMake | reader/service/prof_merge_v1.go:17-144 | The passes in the order the code runs them compose to the whole repair |
| Sanitizer.SanitizeProfile | reader/service/prof_merge_v1.go:17-144 | The object-level pass leaves the profile object holding exactly the repaired profile; a nil profile is left alone |
| ProfileMerge.InternAllGrows | reader/service/prof_merge_v2.go:188-196 | Interning only appends, and every answer is a position inside the table |
| ProfileMerge.InternAllEntry | reader/service/prof_merge_v2.go:188-196 | Each new entry is the copy of a value that was given, made for its own position |
| ProfileMerge.InternAllAgrees | reader/service/prof_merge_v2.go:188-196 | When known keys agree with the values they name, the entry that a value is mapped to agrees with it |
| MergeIntegrity.MergeKeepsGood | reader/service/prof_merge_v2.go:51-118 | Every merge, accepted or not, keeps every id and string reference of the accumulated state resolving, for any key functions |
| MergeIntegrity.RunGood | reader/service/prof_merge_v2.go:51-118 | So does every sequence of merges |
| MergeIntegrity.ResultIntegrity | reader/service/prof_merge_v2.go:136-158 | After any sequence of merges, collisions included, the renumbering in Profile() changes nothing and every reference of the result resolves |
| MergeIntegrity.FailedMergeKeepsState | reader/service/prof_merge_v2.go:51-78 | A merge that fails on its header leaves header, samples and all tables but the strings as they were; a first profile cannot fail this way |
| MergeIntegrity.AddSamplesSum | reader/service/prof_merge_v2.go:104-116 | Adding samples to the table adds their sum to any weight that is additive on equal keys |
| MergeIntegrity.MergeConserves | reader/service/prof_merge_v2.go:71-118 | One merge adds exactly the column totals of the sanitized input, whatever the keys |
| MergeIntegrity.RunConserves | reader/service/prof_merge_v2.go:71-118 | Over whole runs each column total is the sum over the sanitized inputs that merged, with any collisions |
| MergeMeaning.MergeAddsWeight | reader/service/prof_merge_v2.go:51-118 | If no key hit confuses values that read differently, a merge adds for every call stack exactly the weight the raw input gives it |
| MergeMeaning.FailedMergeKeepsWeight | reader/service/prof_merge_v2.go:51-78 | A merge that does not succeed changes no weight, although it leaves its strings behind |
| MergeMeaning.RunKeepsMeaning | reader/service/prof_merge_v2.go:51-158 | Over every such run the profile returned gives each call stack the sum of the weights in the profiles merged |
| MergeMeaning.OrderIrrelevant | reader/service/prof_merge_v2.go:51-158 | The order in which profiles are merged does not change the meaning of the result |
| MergeKeys.SeparatingRunIsClean | reader/service/prof_merge_v1.go:198-287 | Keys that are equal exactly when the printed fields are equal never confuse two values, in any run |
| MergeKeys.SeparatingKeysKeepMeaning | reader/service/prof_merge_v2.go:51-158 | With separating keys every run that merges all its inputs adds up their weights stack by stack, without further hypothesis |
| MergeHeaders.OutcomeIff | reader/service/prof_merge_v2.go:51-78 | For separating string keys, in texts: a profile with samples and two strings or more, and with a period type, merges if and only if there is no header yet or its period type and its sample types, column by column, read the same type and unit as the header; otherwise it is skipped, incompatible or the nil dereference, each exactly under its own condition |
| MergeHeaders.HeaderOfFirst | reader/service/prof_merge_v2.go:120-134 | After a run there is a header if and only if some profile was usable, and its types read what the types of the first such profile read |
| MergeHeaders.HeaderNumbers | reader/service/prof_merge_v1.go:157-173 | After a run the duration is the sum over the profiles that merged; the period is their largest when none is negative, the time their earliest when all are set |
| MergeReads.PrintedReads | reader/service/prof_merge_v1.go:198-287 | Samples whose keys print the same read the same: full stack with functions, files, lines, addresses and mappings, and labels |
| MergeReads.MergeAddsReadings | reader/service/prof_merge_v2.go:51-118 | For keys that separate what they print, a merge adds, for every such reading and column, the weight the sanitized input gives it, and adds nothing when it does not merge |
| MergeReads.RunAddsReadings | reader/service/prof_merge_v2.go:51-158 | So over every run the final profile gives every reading the sum of its weights in the sanitized inputs that merged |
| ProfileMerger.RewriteTable.Get | reader/service/prof_merge_v2.go:188-196 | The map-and-slice object does one interning step |
| ProfileMerger.ProfileMergeV2.AddAll | reader/service/prof_merge_v2.go:104-116 | The sample loop, adding in place into the entry found or made |
| ProfileMerger.ProfileMergeV2.Add | reader/service/prof_merge_v2.go:51-118 | The merge object moves from state to state exactly as the specification, with the same outcome |
| ProfileMerger.ProfileMergeV2.Result | reader/service/prof_merge_v2.go:136-158 | The profile returned is the one the specification reads off the state |
| Otlp.Converter.Intern | reader/service/otlp_pprof.go:40-50 | Strings are entered once; the answer reads back as the string |
| Otlp.Converter.GetFn | reader/service/otlp_pprof.go:65-78 | A function is entered once and its entry names what the dictionary names; a bad index reads as "" |
| Otlp.Converter.GetLoc | reader/service/otlp_pprof.go:79-99 | A location is entered once, with the names, address and line numbers the dictionary has for it; a bad index gives an empty location |
| Otlp.Converter.AddSample | reader/service/otlp_pprof.go:102-116 | One sample more, with the stack of its stack index and the sum of its values; the earlier ones are untouched |
| Otlp.OtlpToPprof | reader/service/otlp_pprof.go:21-119 | The whole conversion: function and location ids dense from 1, one value column, sample by sample the stack and value of the OTLP profile |
| Otlp.ConvertedWeight | reader/service/otlp_pprof.go:21-119 | Every call stack weighs in the converted profile what is read straight from the OTLP dictionary |
| Otlp.ConvertedLosesNothing | reader/service/otlp_pprof.go:21-119 | Sanitizing a converted profile drops none of its samples |
| Otlp.ConvertedMerge | reader/service/otlp_pprof.go:21-119 | Conversion composes with merging: a clean merge of a converted profile adds the weights of the OTLP profile |
| FlameTree.FindNode | reader/service/prof_tree.go:454-461 | The first child with the id, or -1 |
| FlameTree.GrowIsPrefix | reader/service/prof_tree.go:97-142 | With the node cap the tree is what the first m rows make; the node count grows by the new children of these rows; a row is left out exactly when row m needs a new child and the count has reached the cap |
| FlameTree.RowsAdd | reader/service/prof_tree.go:97-142 | Every cell of the tree grows by exactly the sum of the rows for it, in the column of their sample type; all other cells and columns stay |
| FlameTree.RowsGiveFunctions | reader/service/prof_tree.go:103-142 | A child that was there keeps its function id; a new one has the function id of the first row with its parent and id; without such a row there is none |
| FlameTree.NewNodeName | reader/service/prof_tree.go:87-142 | Below the name cap a new child stands under the text of the first function entry with the function id of its first row, unless that id had a name before, which stays |
| FlameTree.MaxSelfIsLargest | reader/service/prof_tree.go:110-112 | The largest self value bounds the self values of the rows and the old one, and is one of them |
| FlameTree.ChildrenGrow | reader/service/prof_tree.go:97-142 | The child totals under a node grow by exactly the totals of the rows under it |
| FlameTree.RowsOccur | reader/service/prof_tree.go:97-142 | After the merge a node has exactly the children it had and those of the rows |
| FlameTree.RowsKeepDistinct | reader/service/prof_tree.go:97-142 | Child ids stay distinct under every parent |
| FlameTree.RowsKeepAdditive | reader/service/prof_tree.go:80-143 | Adding a stored trie to a tree with Total = Self + children leaves a tree with that invariant |
| FlameTree.RowsKeepShape | reader/service/prof_tree.go:80-143 | Every id stays under the parent its path gives it, and no node is left hanging in the air |
| FlameTree.NamesStay | reader/service/prof_tree.go:87-95 | A name once given to a function id stays |
| FlameTree.AllNamed | reader/service/prof_tree.go:87-95 | Below the cap every function row gets its id named |
| FlameTree.FirstNameWins | reader/service/prof_tree.go:87-95 | A new name is that of the first row with the id |
| FlameTree.Tree.MergeRows | reader/service/prof_tree.go:97-142 | The row loop makes exactly the specified tree, node count and largest self value, and stops at the cap |
| FlameTree.Tree.MergeTrie | reader/service/prof_tree.go:80-143 | Does nothing for an unknown sample type; panics exactly when there is a row and the type lies beyond the maxSelf slots; otherwise rows and names are merged as specified |
| FlameTree.SynchronizeNames | reader/service/prof_tree.go:223-261 | Afterwards both trees name the same ids; each keeps its own names and takes the missing ones from the other |
| FlameBars.TileOrdered | reader/service/prof_tree.go:187-214 | Bars placed side by side with non-negative totals do not overlap and stay within the sum of their totals |
| FlameBars.ChildrenTileParent | reader/service/prof_tree.go:187-214 | Children start at the left edge of their parent, touch, and leave a gap of exactly Self at its right edge |
| FlameBars.TopSpans | reader/service/prof_tree.go:157-214 | The bars below the root are its children; they start at 0 and end at the sum of their totals, the width of the top bar |
| FlameBars.ExpandNested | reader/service/prof_tree.go:187-214 | Every bar of the next level lies inside the bar of its parent |
| FlameBars.LevelsOrdered | reader/service/prof_tree.go:145-221 | On no level of a sound picture do bars overlap |
| FlameBars.LevelsNested | reader/service/prof_tree.go:145-221 | In a sound picture every bar lies inside a bar of the level above |
| FlameBars.LevelsPositive | reader/service/prof_tree.go:263-274 | Where the levels end, non-negative selves, which is what is checked, make non-negative totals on every level |
| FlameCycles.AcyclicEnds | reader/service/prof_tree.go:145-221 | If no id repeats on a way down from the root, the levels end |
| FlameCycles.CyclicGoesOn | reader/service/prof_tree.go:308-396 | If one repeats, no level is empty |
| FlameCycles.OneParentAcyclic | reader/service/prof_tree.go:80-143 | Ids that stand for paths, as MergeTrie adds them, never repeat on a way down |
| FlameCycles.CycleExample | reader/service/prof_tree.go:308-396 | An additive tree with a cycle |
| FlameCycles.TreeSound | reader/service/prof_tree.go:263-274 | An additive tree without cycles and with non-negative selves has a sound picture, whatever the order of the children |
| FlameCycles.BfsPicture | reader/service/prof_tree.go:145-221 | On such a tree every level BFS stores decodes to bars in order, each inside one of the level above, at non-negative distances; each cell has the left edge, total, self and the index of the function name of its bar, 0 for a function without a name |
| FlameLayout.DecodeAppend | reader/service/prof_tree.go:194-211 | The relative-offset format read cell by cell: a new cell starts at the end of the one before plus its offset |
| FlameLayout.PlaceChildren | reader/service/prof_tree.go:194-211 | The inner loop stops exactly at an id met before, and otherwise draws all children side by side |
| FlameLayout.PlaceParent | reader/service/prof_tree.go:187-214 | Children are drawn from the left edge of their parent, and the pen ends at its right edge |
| FlameLayout.PlaceLevel | reader/service/prof_tree.go:182-217 | One level: on nodes that add up, the cells written decode to exactly the bars of the level below |
| FlameLayout.Bfs | reader/service/prof_tree.go:145-221 | Terminates on every tree, cyclic ones included; the top level is one bar with the sum of the root children; no id is drawn twice; levels end where the tree ends or an id would repeat; on an additive tree every level decodes to its bars |
| FlameComplete.NeverRepeats | reader/service/prof_tree.go:145-221 | On trees with path ids no id repeats within or across levels, so the walk is never cut short |
| FlameComplete.EveryNodeDrawn | reader/service/prof_tree.go:145-221 | There BFS goes down to every node that hangs from the root, none twice; when the tree is additive each has its cell on its own level |
| FlameComplete.TriesAlign | reader/service/prof_tree.go:276-306 | Two stored tries with the same paths give trees on which mergeNodes keeps the invariant on both sides |
| FlameMerge.SortById | reader/service/prof_tree.go:296-301 | Children sorted strictly by id, none lost |
| FlameMerge.MergeChildren | reader/service/prof_tree.go:411-443 | Both lists come out with the same ids in strictly increasing order, each holding all its own nodes, and an empty node where only the other tree has one |
| FlameMerge.MergeNodes | reader/service/prof_tree.go:276-306 | Afterwards both trees are aligned under every parent that either had, whatever the order of the keys |
| FlameMerge.MergedFunction | reader/service/prof_tree.go:411-443 | Each aligned node is the node of its own tree with that id or, where that tree has none, a blank one with the id, function and width of the node of the other tree |
| FlameMerge.MergeKeepsRootTotals | reader/service/prof_tree.go:276-306 | Both root totals survive |
| FlameMerge.MergeKeepsAdditive | reader/service/prof_tree.go:276-306 | Total = Self + children survives on a side exactly when no node that it lacks under some parent has weight below it elsewhere in that tree |
| FlameMerge.MergedMirror | reader/service/prof_tree.go:276-306 | The merge treats both trees alike |
| FlameMerge.PathIdsNoOrphans | reader/service/prof_tree.go:276-306 | Ids that stand for paths satisfy that condition |
| FlameMerge.SameShapePathIds | reader/service/prof_tree.go:276-306 | Trees of one path shape have path ids |
| FlameMerge.OrphanExample | reader/service/prof_tree.go:276-306 | Two additive trees that break the condition, so it is needed |
| FlameDiff.InternName | reader/service/prof_tree.go:354-359 | A name is written once and read back by its index |
| FlameDiff.PushChildren | reader/service/prof_tree.go:377-395 | The children join the queue last first, side by side from their parent on both sides, tagged with the next level |
| FlameDiff.Visit | reader/service/prof_tree.go:333-396 | One turn of the loop takes the first entry, writes its cell on its level and queues its children |
| FlameDiff.LeftIsPicture | reader/service/prof_tree.go:333-396 | The left side of the walk is the picture of the left tree, whatever the right tree is |
| FlameDiff.WalkEndsIff | reader/service/prof_tree.go:333-396 | The loop ends exactly when no id repeats on a way down from the root of the left tree |
| FlameDiff.WalkTrees | reader/service/prof_tree.go:308-396 | Where it ends, the walk has written every entry of every level, in order |
| FlameDiff.DistanceStored | reader/service/prof_tree.go:398-406 | Subtracting the end of the cells before is undone by the decoder |
| FlameDiff.ComputeFlameGraphDiff | reader/service/prof_tree.go:308-409 | Where the walk ends, the levels decode on both sides to the walk; the two tick counts are the root totals |
| FlameDiff.DiffNames | reader/service/prof_tree.go:333-375 | Every stored cell names the function of its left node: total for function 0, otherwise the entry of the left name table, its first one for an unknown id |
| FlameDiff.NoMissingPartner | reader/service/prof_tree.go:377-395 | On trees of one shape the branch for a missing right child is never taken |
| FlameDiff.WalkShowsBothTrees | reader/service/prof_tree.go:308-405 | On every level both sides show the same node ids and each side shows exactly the bars of its own tree |
| FlameDiff.DiffPipeline | reader/service/prof_tree.go:276-443 | mergeNodes followed by computeFlameGraphDiff: on both sides bars in order, each inside one of the level above, at non-negative distances, with equal ids |
| FlameComplete.TriesDiff | reader/service/prof_tree.go:276-443 | From the rows of two stored tries with the same paths: the walk over the aligned trees ends, and every level it writes is such a picture |
| FlameComplete.AdditiveTotalsFall | reader/service/prof_tree.go:558-560 | In an additive tree without cycles and with non-negative selves no total exceeds the one above it |
| DotPruning.CollectTotals | reader/service/prof_tree.go:543-551 | The total of every node of the tree is collected once |
| DotPruning.Threshold | reader/service/prof_tree.go:540-556 | With more nodes than allowed, the threshold is the total of one, fewer than maxNodes nodes lie above it and at least maxNodes at or above it; otherwise it is 0 |
| DotPruning.Draw | reader/service/prof_tree.go:596-648 | The walk ends on every tree; each node is drawn once, after its parent, with one incoming edge and the next number; every kept child of a drawn node is drawn |
| DotPruning.DrawsExactlyKept | reader/service/prof_tree.go:558-648 | When totals fall from parent to child, the ids drawn are the root and exactly those of reachable nodes at or above the threshold |
| DotPruning.LimitExceededOnlyByTies | reader/service/prof_tree.go:540-560 | With a limit in force fewer than maxNodes drawn nodes lie above the threshold; unless it is 0, which keeps everything, the others equal it |
| DotPruning.Choose | reader/service/prof_tree.go:540-648 | Threshold and walk together |
| Partition.ShardIndexIs | writer/controller/loki_sharding.go:14-19 | The shard is s exactly when the fingerprint is n * q + s for some q; 0 for counts below 1 |
| Partition.PartInOrder | writer/controller/loki_sharding.go:21-93 | A part holds the rows whose fingerprint is its number modulo the count, each as often as the request and in its order |
| Partition.SeriesPartIs | writer/controller/loki_sharding.go:21-57 | Part s of a split request is made of these rows, has the header of the request, and is sized 14 bytes a row plus their texts |
| Partition.SamplesPartIs | writer/controller/loki_sharding.go:59-93 | The same for samples, sized 26 bytes a row plus the messages |
| Partition.SplitLossless | writer/controller/loki_sharding.go:21-93 | For every shard count the parts hold each row exactly once |
| Partition.PartMembership | writer/controller/loki_sharding.go:21-93 | A part holds exactly the rows whose fingerprint maps to it |
| Partition.SizesAddUp | writer/controller/loki_sharding.go:21-93 | Part sizes sum to the size of the whole |
| Partition.SeriesAppended | writer/controller/loki_sharding.go:33-54 | Appending a row to the parallel columns, shorter ones included, appends that row and shifts none |
| Partition.SamplesAppended | writer/controller/loki_sharding.go:71-90 | The same for sample columns |
| Partition.PartitionTimeSeries | writer/controller/loki_sharding.go:21-57 | Part s is the subsequence of the rows whose fingerprint is s modulo the count, in order, with its size by the per-row formula; nil gives nothing |
| Partition.PartitionTimeSamples | writer/controller/loki_sharding.go:59-93 | The same for samples, with their own size formula |
| InsertService.ResolvedOnce | writer/utils/promise/promise.go:52-59 | No step changes a result once written, or a request |
| InsertService.StepKeepsInv | writer/service/generic_insert.go:151-311 | Every step keeps: columns are the pending requests in order, size their sizes, an overfull buffer has signalled a flush, each promise is pending, in flight or resolved |
| InsertService.ReachableInv | writer/service/generic_insert.go:151-311 | Hence in every reachable state; and a promise resolved without error stands for rows in a batch that client.Do took |
| InsertService.ResultIsFinal | writer/service/generic_insert.go:151-311 | Over every run a promise keeps its first result |
| InsertService.LateRequestStaysPending | writer/service/generic_insert.go:197-227 | What is pending when the loop has exited is never resolved, in any continuation |
| InsertService.UnansweredIffLate | writer/service/generic_insert.go:151-227 | After the drain a request is without an answer exactly when it was accepted after the drain; every earlier one has been answered |
| InsertService.LateRequestExample | writer/service/generic_insert.go:197-227 | A run with such a request: stop, drain, accept |
| InsertAnswers.AnsweredTrueIff | writer/service/generic_insert.go:197-311 | Over every run a request is answered without error if and only if it appended no row, or client.Do took the batch of its portion and its promise has been released |
| InsertAnswers.AnsweredFalseIff | writer/service/generic_insert.go:151-311 | It is answered with an error if and only if it was refused or given up on, or its batch failed and its promise has been released |
| InsertServiceObject.ReleasedTells | writer/service/generic_insert.go:270-305 | Releasing a portion answers each of its open promises with the result of the send and changes no other |
| InsertServiceObject.InsertServiceV2.Done | writer/utils/promise/promise.go:52-59 | Only the first call has an effect |
| InsertServiceObject.InsertServiceV2.PlanFlush | writer/service/generic_insert.go:108-112 | One signal |
| InsertServiceObject.InsertServiceV2.RequestStopped | writer/service/generic_insert.go:198-204 | A request to a stopped service gets a promise that is already an error |
| InsertServiceObject.InsertServiceV2.RequestLocked | writer/service/generic_insert.go:205-227 | The locked section: append, count, signal when over the limit, or refuse, or fulfil at once when no row was appended |
| InsertServiceObject.InsertServiceV2.SwapBuffers | writer/service/generic_insert.go:229-244 | Takes all pending rows and promises at once, or nothing when the size is 0 |
| InsertServiceObject.InsertServiceV2.ReleaseWaiting | writer/service/generic_insert.go:270-305 | Every open promise of the portion gets the result of the send, no other promise changes, and the loop is idle again |
| InsertServiceObject.InsertServiceV2.SendPortion | writer/service/generic_insert.go:270-311 | One send: every open promise of the portion is answered without error exactly when client.Do succeeded, no other promise changes, the batch is stored exactly then, and a failure drops the client |
| InsertServiceObject.InsertServiceV2.GiveUp | writer/service/generic_insert.go:151-169 | On stop every pending promise gets an error |
| WritePath.PartsCarry | writer/controller/loki_sharding.go:159-197 | Every row of a split request is in a part that is pushed |
| WritePath.ConsumeCovers | writer/controller/builder.go:213-238 | The pushes made for a request cover its rows |
| WritePath.StepOk | writer/controller/builder.go:154-249 | Every step of every handler, push and service keeps the system invariant |
| WritePath.HistoryOk | writer/controller/builder.go:154-249 | It holds throughout every interleaving |
| WritePath.AckSound | writer/controller/builder.go:201-249 | When doParse has returned nil, every row of every request it took whose service exists is in a batch that client.Do took, through splitting, retries, flushes, failures, growth and stops |
| WriteRouting.AckInShard | writer/controller/loki_sharding.go:159-197 | Each such row is in a batch taken by a service of the pool of its request, or of the shard that is its fingerprint modulo the number of shards |
| WriteOutcomes.FailsAfterAttempts | writer/controller/builder.go:154-189 | A push fails exactly when it has had as many failed attempts as it may make |
| WriteOutcomes.FailureHasCause | writer/controller/builder.go:201-249 | doParse returns an error only for a parse error or a push that failed |
| WriteOutcomes.JoinSucceeds | writer/controller/builder.go:242-249 | When all pushes of a handler have succeeded, looking at those that are left leads to nil |
| ShardSnapshot.SortReplicas | shared/shardtopo/shardtopo.go:122-128 | Replicas ordered by number, then address; none lost |
| ShardSnapshot.Pigeonhole | shared/shardtopo/shardtopo.go:97-107 | As many distinct shard numbers as the largest one are all of 1 to N |
| ShardSnapshot.MaxShardIsLargest | shared/shardtopo/shardtopo.go:86-96 | The largest number bounds every shard number, and some replica has it |
| ShardSnapshot.GroupByShard | shared/shardtopo/shardtopo.go:86-96 | Groups rows by shard and finds the largest number; fails exactly when a number is below 1 |
| ShardSnapshot.BuildShard | shared/shardtopo/shardtopo.go:103-129 | A shard is built exactly when it has a replica that may be written to, and holds exactly these, sorted |
| ShardSnapshot.BuildSnapshot | shared/shardtopo/shardtopo.go:81-132 | A snapshot is built exactly when every shard from 1 to the largest has an eligible replica; it has exactly these shards; the missing-shard error cannot happen |
| ShardSnapshot.Pick | writer/controller/loki_sharding.go:118-134 | The replica picked exists and the counter stays within its width |
| ShardSnapshot.RoundRobinFair | writer/controller/loki_sharding.go:118-134 | Between wraps of the counter, any run of as many picks as there are replicas chooses each exactly once |
| ShardGrowth.BuiltIsGood | shared/shardtopo/shardtopo.go:81-132 | Every snapshot built has its shard count and no shard without replicas |
| ShardGrowth.ExtendedKeeps | writer/plugin/loki_sharding.go:144-160 | Growth keeps existing shards at their index and reaches the new count |
| ShardGrowth.ExtendedMakes | writer/plugin/loki_sharding.go:144-160 | Each new shard gets one service for series and one for samples per replica, made for that replica, in order |
| ShardGrowth.StepSafe | shared/shardtopo/shardtopo.go:214-289 | Every step keeps routing covered by the fan-out and undoes nothing |
| ShardGrowth.RunSafe | shared/shardtopo/shardtopo.go:214-289 | So every reachable state is safe |
| ShardGrowth.RunMovesForward | writer/plugin/loki_sharding.go:144-188 | Over every run, with failed discovery and failed growth, the shard count never falls, shards keep their services, and the pointer once set stays set |
| ShardGrowth.RoutingAlwaysPossible | writer/controller/loki_sharding.go:112-142 | Every published shard has a place in the fan-out with a service to pick |
| ShardGrowth.Topology.OnGrow | writer/plugin/loki_sharding.go:144-160 | Copies, appends the new shards, publishes |
| ShardGrowth.Topology.ApplyRefresh | shared/shardtopo/shardtopo.go:214-250 | A snapshot of the same count replaces the old one, a smaller count changes nothing, a larger one is published exactly when growth succeeded, with services for the replicas of its new shards |
| SeriesIterator.Search | reader/model/prometheus.go:102-127 | The loop lands where its probes say: on the first sample at or after t or the one before, and exactly on t when t is there |
| SeriesIterator.LandingLands | reader/model/prometheus.go:102-127 | Where the search lands, by the probes it makes, is one of these places |
| SeriesIterator.SeekExactIff | reader/model/prometheus.go:102-127 | It lands on the first sample at or after t exactly when t is not after the first sample, or is present, or the probes for these numbers of samples and of samples before t do not stop one early |
| SeriesIterator.EarlyWhenFull | reader/model/prometheus.go:102-127 | For 1, 3, 7, 15, ... samples they stop early exactly at the odd positions |
| SeriesIterator.EarlyExample | reader/model/prometheus.go:102-127 | Samples at 0 and 10: seeking 5 lands on 0 |
| SeriesIterator.SeriesIt.Seek | reader/model/prometheus.go:102-127 | The same for the iterator object |
| SeriesIterator.ProlongSeriesIt.Seek | reader/model/prometheus.go:166-180 | Stands on that sample at its own time, with a consistent neighbour |
| SeriesIterator.ProlongSeriesIt.Next | reader/model/prometheus.go:182-222 | One step as specified; no nil neighbour is followed; a stop leaves the state as it was |
| SeriesIterator.AdvanceAt | reader/model/prometheus.go:182-222 | After k repetitions of a sample: one more, or the next sample at its own time, or the end |
| SeriesIterator.DrainIsExpected | reader/model/prometheus.go:182-226 | Repeated Next ends and shows every sample in order, first at its own time, then repeated up to the next sample or five minutes |
| SeriesIterator.PointsInRange | reader/model/prometheus.go:182-226 | Every time shown is within [sample, sample + 300000 + step] |
| SeriesIterator.MonotoneIff | reader/model/prometheus.go:182-226 | Times shown never decrease exactly when no last repetition passes the next sample |
| SeriesIterator.MultiplesFit | reader/model/prometheus.go:182-226 | Gaps that are multiples of the step satisfy that |
| SeriesIterator.OvershootExample | reader/model/prometheus.go:182-226 | A series and step for which times do decrease |
| WindowFill.Slots | reader/logql/logql_transpiler/planner_from_fix.go:61-66 | The table has a slot for every step from start to end, both included |
| WindowFill.FastFill | reader/logql/logql_transpiler/planner_from_fix.go:84-90 | Filling by doubling equals a plain fill, at every length from 1 |
| WindowFill.CoverInBounds | reader/logql/logql_transpiler/planner_from_fix.go:67-76 | All writes are inside the table |
| WindowFill.SlotIsLastCovering | reader/logql/logql_transpiler/planner_from_fix.go:67-76 | A slot ends with the value of the last entry that covers it, 0 when none does |
| WindowFill.EntryTimes | reader/logql/logql_transpiler/planner_from_fix.go:67-76 | From 0 up, for windows no shorter than a step: an entry at t writes exactly the grid times whose step ends in the window that t lies in, and the first grid time when that window ends less than a step before or after it |
| WindowFill.NegativeEntryTimes | reader/logql/logql_transpiler/planner_from_fix.go:67-76 | Before 0, where division truncates upwards: the same with the window that begins at or after t |
| WindowFill.CoversTimes | reader/logql/logql_transpiler/planner_from_fix.go:67-76 | For every step, window and timestamp: an entry writes a slot exactly when it writes the time of the slot |
| WindowFill.StraddlesTimes | reader/logql/logql_transpiler/planner_from_fix.go:67-76 | A window reaches over the start exactly when it opens at least a step before it and closes later than a step before it |
| WindowFill.SlotLastWriter | reader/logql/logql_transpiler/planner_from_fix.go:67-76 | A slot holds the value of the last entry that writes its time, 0 when none does |
| WindowFill.ExportIs | reader/logql/logql_transpiler/planner_from_fix.go:37-55 | An exported series has, in rising order, exactly a cell for each grid time whose last writer has a nonzero value, with that value |
| WindowFill.FilledSeries | reader/logql/logql_transpiler/planner_from_fix.go:57-81 | The stream is cut where the fingerprint changes, leading fingerprint 0 left out, and each run gives its series unless that is empty |
| WindowFill.ExportInOrder | reader/logql/logql_transpiler/planner_from_fix.go:37-55 | Exported times lie in [from, to], strictly increase, belong to the series, and no zero is exported |
| WindowFill.Process | reader/logql/logql_transpiler/planner_from_fix.go:17-82 | Exports, run of one fingerprint after run, exactly the cells that the last writers of each grid time leave; panics exactly when, before any other series, an entry of fingerprint 0 has a window reaching over the start |
| WindowFill.EmptyTableExample | reader/logql/logql_transpiler/planner_from_fix.go:57-78 | An input on which it panics |
| WindowFill.NoEmptyWrite | reader/logql/logql_transpiler/planner_from_fix.go:17-82 | No panic when the entries before the first nonzero fingerprint do not reach over the start |
| WindowFill.WindowsTile | reader/logql/logql_transpiler/planner_from_fix.go:67-76 | From the start on, windows no shorter than a step cover adjacent, non-empty slot ranges |
| WindowFill.StraddlingWindow | reader/logql/logql_transpiler/planner_from_fix.go:67-76 | The window over the start fills the slots before the next one; when the next starts less than a step after it, both write the first slot |
| WindowFill.EndedWindow | reader/logql/logql_transpiler/planner_from_fix.go:67-76 | A window that ended before the start writes the first slot exactly when it ended less than a step before |
| Ruler.EvaluateInterval | ruler/manager.go:201-221 | One cycle evaluates every recording rule of the groups with its interval exactly once, and nothing else |
| Ruler.ReadIntervals | ruler/manager.go:124-134 | The intervals are exactly those of groups that parse, the default for an empty field |
| Ruler.LiveKeys | ruler/manager.go:169-178 | The health keys kept are exactly those of recording rules |
| RulerLifecycle.RuleManager.Reconcile | ruler/manager.go:136-160 | The map ends with exactly the given intervals, kept routines untouched, others cancelled, new ones started; it panics exactly on an interval that is not positive |
| RulerLifecycle.RuleManager.PruneHealth | ruler/manager.go:168-185 | Health entries of recording rules stay as they are, all others go |
| RulerLifecycle.RuleManager.UpdateRoutines | ruler/manager.go:123-164 | Afterwards the routines are those of exactly the valid intervals read |
| RulerLifecycle.RuleManager.CancelAll | ruler/manager.go:109-114 | Stop cancels every routine in the map and leaves the map |
| RulerLifecycle.StepKeepsInv | ruler/manager.go:87-197 | Every step of Start, poller, routines and Stop keeps: uncancelled routines are those in the map, they run while the context lives, the wait group counts what runs |
| RulerLifecycle.RunKeepsInv | ruler/manager.go:87-336 | It holds over every run |
| RulerLifecycle.LiveRoutines | ruler/manager.go:123-164 | In every reachable state with a live context each interval in the map has one live routine and no other interval has any |
| RulerLifecycle.OneRoutinePerRule | ruler/manager.go:201-221 | Each recording rule with a valid interval is due in exactly one live routine; alerting rules and malformed groups in none |
| RulerLifecycle.NothingRunsAfterStop | ruler/manager.go:103-119 | Once Stop has returned no routine and no poller runs, and none starts later, also when the poller was starting routines meanwhile |
| RulerLifecycle.StopCanAdvance | ruler/manager.go:103-119 | While Stop waits and nobody is in the middle of work, some goroutine can end, or Stop can return |
| Migration.Database.MaxVersion | ctrl/qryn/maintenance/update.go:292-306 | The version read is the largest recorded, 0 for none |
| Migration.Database.RunScript | ctrl/qryn/maintenance/update.go:308-318 | One script: executed, then its version recorded; what reached the database stays also when the reply is an error |
| Migration.Database.UpdateScripts | ctrl/qryn/maintenance/update.go:292-320 | The version loop does one upgrade as specified, and touches no other stream |
| Migration.ScriptsRun | ctrl/qryn/maintenance/update.go:307-319 | An upgrade executes and records the scripts from the version it read up to the first one that fails, and fails exactly when there is one |
| Migration.UpgradeFailsIff | ctrl/qryn/maintenance/update.go:292-320 | It fails if and only if the version table does not answer or some script from that version on fails or is not recorded |
| Migration.MaxVerIsLargest | ctrl/qryn/maintenance/update.go:292-306 | The version read bounds every recorded one and is one of them, 0 for none |
| Migration.ScriptsKeep | ctrl/qryn/maintenance/update.go:307-319 | From a consistent stream, the scripts run keep it consistent, and the version reaches the script count unless one fails |
| Migration.UpgradeMovesOn | ctrl/qryn/maintenance/update.go:203-216 | No upgrade lowers a version; a completed one leaves it at the script count or where it was if higher |
| Migration.HistoryOk | ctrl/qryn/maintenance/update.go:292-320 | Over every sequence of upgrades failing anywhere, the scripts executed start at 0 and go on by 1 after a success, or repeat the last; the version is the next script |
| Migration.VersionsNeverFall | ctrl/qryn/maintenance/update.go:292-320 | The recorded version never decreases |
| Migration.NoneSkipped | ctrl/qryn/maintenance/update.go:292-320 | Every script below the recorded version has succeeded |
| Migration.NegativeStreamRepeats | ctrl/qryn/maintenance/update.go:292-306 | The guard on the stream number: without a version read, an upgrade attempts script 0 again whatever was done before |
| Migration.UpgradeAllCompletes | ctrl/qryn/maintenance/update.go:34-115 | When the whole upgrade reports success every stream is at least at its script count |

## Left out

- Integer width: sample values, totals, sizes and timestamps are unbounded integers; 64-bit wrap-around is not modelled. The round-robin counter keeps its 32 bits.
- CityHash, byte packing and label sorting inside the key functions: keys are parameters. `MergeKeys` states for which fields they must separate; the numeric value of a label is not among them.
- Aliasing of one profile between callers: `Merge` rewrites its input's ids beyond sanitizing and shares the period type with it; the model leaves the input sanitized and copies.
- `DropFrames`, `KeepFrames`, `DefaultSampleType` and the unit of numeric labels are carried into a merged profile without being moved to its string table, as in the code; nothing is claimed about what they read there.
- The id maps of `sanitizeProfile` are kept as lists of old ids; reading one is finding the last position. Protobuf decoding, HTTP, ClickHouse and DNS are outside the model.
- The flat value lists of the flame graph formats are lists of cells of four and seven values; the five queues of the diff walk are one queue of entries beside the queue of level numbers. The maximum self value of the diff is not modelled.
- FlameDiff.WalkTrees: requires that the walk ends; the condition for that is `FlameDiff.WalkEndsIff`.
- `ToDot`: labels, colours, font sizes and edge weights of the text; the choice of nodes and their numbers are modelled.
- WritePath.AckSound: claims nothing about rows of a request whose service is absent, which the code acknowledges without storing. `processRequest` appends all rows or none. The retry library makes at least one attempt and reports failure after the last.
- WriteOutcomes.FailsAfterAttempts: for a configured count of at least 1; what the retry library does with a count of 0 is not part of this model.
- MergeReads.RunAddsReadings: reads what the key functions print, so of a mapping the size in pages, the offset and the build id or else the file; memory addresses, the second of the two texts, numeric label values and units are those of whichever equal entry came first.
- InsertServiceObject.InsertServiceV2.RequestLocked: assumes that `processRequest` leaves the columns as they are when it fails. The functions shipped in writer/service/insert return nil columns with the error for a request of the wrong type, and the service stores them; a request of the wrong type is not modelled.
- ProfileMerge.Merge: the outcome `NilPeriodType` stands for the nil dereference by which `Merge` panics on a profile without a period type.
- Liveness of requests racing with a stop, and requests of size 0 that wait for the next flush: only what is shown by `InsertService.UnansweredIffLate`.
- ShardGrowth.Topology.ApplyRefresh: a failing growth callback publishes nothing; the two pointer loads for the series and the samples of one response may see different shard counts, and no consistency between them is claimed.
- SeriesIterator.SeriesIt.Seek: needs a series with at least one sample; on an empty one the code indexes out of range.
- `NaN` and rounding: values are reals; comparison with zero is exact.
- RulerLifecycle.NothingRunsAfterStop: Start has returned before Stop is called, and Start is called once. That goroutines are scheduled fairly is not assumed, so the end of Stop's wait is shown possible, not inevitable. A running evaluation may store the health of a rule that was pruned meanwhile.
- What an evaluation computes and writes back, the Prometheus view of the rules, and tenants in the rule queries.
- Migration.NegativeStreamRepeats: no caller passes a negative stream, and the lemma says nothing about scripts after the first.
- Migration.UpgradeMovesOn: one process upgrades at a time, and the version is read from the table it is written to; a distributed version table seen from several nodes is not modelled. Script text, template rendering and cleanup are not modelled.
- LogQL parsing, SQL planning, streaming of JSON, configuration and metrics.
