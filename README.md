# sift, modelled in Dafny

This project models the message runtime at the heart of `dist/cli.mjs` and
the plugins around it.

- **The normaliser.** `iter` and `iterMap` flatten nested values into atoms.
- **The `T` coercions, `reify2` and `deepAssign`.**
- **The dispatcher.**
  - `root`, `make` and `sift` build a `send` function. Its behaviour is the `next` handler that meta-plugins install.
  - `originalPlugin` runs every atom of a send through the plugin chain:
    - extensions on the message;
    - transitions on the state;
    - effects on `send`.
  - All of this happens inside one transaction. Sends made while a transaction runs are queued, and the queue is drained one atom per transaction afterwards.
- **The memory plugins.**
  - `acceptIndexes` registers indexers.
  - `findId` resolves a message's id through those indexes.
  - `populateFromId` merges a message with its cached record, both ways.
  - `writeIndexes` records a message's keys, stamping it with an id and a creation time.
  - `config` merges configuration into the state.
- **The command-line and build plugins.**
  - The `cli` switch.
  - The file mode `writing` uses.
  - The JavaScript-path test and the output path of `transpiling`.
  - `tangle`, which turns the fenced code blocks of a markdown file into virtual files.

How JavaScript values are represented (`js_value.dfy`):
- A JavaScript value is the datatype `Value`.
- A plain object is a list of properties in insertion order.
- Functions are values `Fun(id)`. What a call does is given by a `World` parameter: the reply to a function id, the role it is called in, and the drafts it sees.

Drafts and mutation:
- Immer drafts are values: a transition takes the message and the state and returns the changed ones.
- Where the source changes things in a loop, a `method` with a loop is proved equal to the function that specifies it. Properties are then proved about that function.
- The dispatcher itself is a `class` whose fields are `send2.next`, `sending`, `queue`, `state` and `state.plugins`.

Three behaviours of the code worth knowing:
- The queue holds flattened atoms (lines 238-242), so draining sends one atom at a time, not one batch.
- `runWith` calls a message's effects inside the transaction, right after its transitions (lines 250-251, 270-274), not after the commit.
- `findId` ends the whole search at the first indexer that has no table (lines 308-309), instead of going on to the next indexer.

Files:
- `js_value.dfy`: values, truthiness, property lists.
- `iter.dfy`: the normaliser.
- `reify.dfy`: `T` and `reify2`.
- `deep_assign.dfy`: `deepAssign`.
- `sift.dfy`: the dispatcher.
- `sift_laws.dfy`: whole-send laws.
- `memory.dfy`: identity, index and config plugins.
- `cli.dfy`: the `cli` switch, `writing`, `isJsPath`, `transpiling`.
- `literate.dfy`: `tangle`.
- `sift_example.dfy`: the inline test of `make`, worked through in a concrete world of four plugins.

## Model

| member | source | states |
|---|---|---|
| JsValue.Keys | dist/cli.mjs:148-152 | a name is listed exactly when the value is a plain object with that key; one name per property, in insertion order, and none for any other value |
| JsValue.Entries | dist/cli.mjs:153-157 | one pair per listed key, in key order; on an object without repeated keys the i-th pair is the i-th property's key and value |
| Iter.Flatten | dist/cli.mjs:136-147 | `iter` yields only atoms: nothing nullish and no iterable object |
| Iter.FlattenAll | dist/cli.mjs:136-147 | flattening a list of values yields only atoms |
| Iter.FlattenAllAppend | dist/cli.mjs:136-147 | flattening a concatenation is the concatenation of the flattenings |
| Iter.FlattenAllOfAtoms | dist/cli.mjs:136-147 | a list of atoms flattens to itself |
| Iter.FlattenIdempotent | dist/cli.mjs:136-147 | flattening twice is flattening once |
| Iter.FlattenNested | dist/cli.mjs:141-143 | one more level of array nesting does not change what `iter` yields |
| Iter.MapThenFlatten | dist/cli.mjs:166-169 | mapping then flattening yields only atoms |
| Iter.FlatMap | dist/cli.mjs:166-169 | `iterMap` yields only atoms |
| Iter.FlatMapIsFlattenOfMap | dist/cli.mjs:166-169 | `iterMap(fn)` flattens the inputs, maps fn over each atom and flattens the results |
| Iter.FlatMapAppend | dist/cli.mjs:166-169 | `iterMap` over several arguments is the concatenation of `iterMap` over each |
| Iter.FlatMapIdentity | dist/cli.mjs:166-169 | `iterMap` of the identity is `iter` |
| Iter.FlatMapFilters | dist/cli.mjs:170-182 | a function that returns its atom or null makes `iterMap` a filter that keeps order, as the `evens` test uses it |
| Iter.RefillFlatten | dist/cli.mjs:246-253 | writing back the atoms a value already has gives the value back |
| Iter.FlattenRefill | dist/cli.mjs:246-253 | writing atoms back into a message and flattening again yields exactly those atoms |
| Iter.IterExamples | dist/cli.mjs:158-165 | the inline tests of `iter` |
| Iter.IterMapExamples | dist/cli.mjs:175-179 | the inline tests of `incs` on no input, `[]`, `null`, `undefined` and `null, undefined, 1` |
| Iter.IterMapIncs | dist/cli.mjs:179 | the inline test of `incs` on `1, 2, [3, [4]], 5` |
| Iter.IterMapEvens | dist/cli.mjs:181 | the inline test of `evens` on `1, 2, [3, [4]], 5` |
| Reify.Iterable | dist/cli.mjs:99-107 | `T.Iterable` always gives something iterable |
| Reify.DedupSpec | dist/cli.mjs:89 | what `new Set` keeps has no repeats, has exactly the elements it was given, and keeps them in the order of their first occurrence |
| Reify.FirstIndex | dist/cli.mjs:89 | the position of a value's first occurrence, which fixes its place in insertion order |
| Reify.FlattenViaIterable | dist/cli.mjs:99-107 | `iter` is `T.Iterable` applied all the way down |
| Reify.CoercionsKeepElements | dist/cli.mjs:85-114 | `T.Array` keeps the elements, `T.Set` keeps them without repeats, `T.Object` keeps a plain object and makes `{}` of anything else, and `T.One` is undefined for a nullish value, the value itself when it is not iterable, and otherwise one of its elements |
| Reify.CoercionsIdempotent | dist/cli.mjs:85-114 | coercing twice is coercing once, for `T.Array`, `T.Set`, `T.Object` and `T.Boolean` |
| Reify.Reify2 | dist/cli.mjs:117-122 | the loop over `entries(desc)` gives the state that coerces each described field in turn |
| Reify.ReifiedHit | dist/cli.mjs:117-122 | after `reify2`, the field an entry describes holds its old value coerced by that entry |
| Reify.ReifiedMiss | dist/cli.mjs:117-122 | after `reify2`, a field no entry describes holds its old value |
| Reify.ReifiedFields | dist/cli.mjs:117-122 | after `reify2`, each described field holds its coerced old value and every other field is unchanged |
| Reify.Reify2Example | dist/cli.mjs:123-135 | the inline test of `reify2` |
| Merge.AssignFrom | dist/cli.mjs:190-199 | the recursive loop over a source's keys computes the specified merge |
| Merge.AssignKeyStep | dist/cli.mjs:192-196 | one key is either merged recursively, when both sides are objects, or overwritten |
| Merge.DeepAssign | dist/cli.mjs:190-199 | `deepAssign(target, ...sources)` merges the sources in order |
| Merge.AssignPropsPointwise | dist/cli.mjs:191-196 | each source key holds the merge of its old value and the source's value, other keys are untouched, and the keys are the old ones plus the source's |
| Merge.AssignPropsKeepsDistinct | dist/cli.mjs:191-196 | a merge into a plain object leaves its keys distinct |
| Merge.MergeKeepsOther | dist/cli.mjs:191-196 | a key the source does not set reads as it did in the target |
| Merge.MergeCopiesNew | dist/cli.mjs:191-196 | a key the target lacks takes the source's value |
| Merge.MergeBackOwn | dist/cli.mjs:325-326 | a non-object field of the message survives both merges and lands in the cache |
| Merge.MergeBackOther | dist/cli.mjs:325-326 | a field only the cache has is copied into the message |
| Merge.MergeBack | dist/cli.mjs:325-326 | merging into the cache and back: the message keeps its non-object fields, the cache takes them, and the message gains the fields only the cache has |
| Merge.DeepAssignExample | dist/cli.mjs:200-203 | the inline test of `deepAssign` |
| Merge.NullNeverOverwrites | dist/cli.mjs:192-193 | since `typeof null === "object"` and `keys(null)` is empty, a null source value never replaces an object in the target |
| Merge.NullTargetThrows | dist/cli.mjs:192-193 | whenever the target holds null under a key where the source has an object with keys, the merge throws |
| Merge.NullTargetExample | dist/cli.mjs:192-193 | `deepAssign({a: null}, {a: {b: 1}})` throws |
| Merge.PrimitiveTargetThrows | dist/cli.mjs:190-196 | merging an object with keys into a primitive or nullish target throws a TypeError |
| Merge.PutSame | dist/cli.mjs:196 | writing a key the value it already holds changes nothing |
| Merge.AssignSelf | dist/cli.mjs:190-199 | merging a well-formed value into an equal copy of itself changes nothing |
| Merge.AssignPropsSelf | dist/cli.mjs:191-196 | merging the first n properties of an object into it changes nothing |
| Merge.MergeBothWays | dist/cli.mjs:325-326 | merging a message into its cached record and back: every message key holds the merge of the old record's value and the message's, the record keeps its other keys and gains the message's, and the message ends with the merge of its values and the record's on exactly the record's keys |
| Sift.Functions | dist/cli.mjs:263 | `.filter(isFunction)` keeps at most as many values as it is given |
| Sift.FunctionsSpec | dist/cli.mjs:263 | a function id is kept exactly when that function is among the values |
| Sift.FunctionsAppend | dist/cli.mjs:263-268 | filtering a concatenation concatenates the filterings |
| Sift.Queued | dist/cli.mjs:238-242 | what a send made during a transaction queues is flattened atoms |
| Sift.RunChain | dist/cli.mjs:264-268 | the loop of `run` computes the specified chain run |
| Sift.RunStepsLoop | dist/cli.mjs:270-274 | the loop of `runWith` computes the specified steps |
| Sift.RunCallsEach | dist/cli.mjs:264-268 | `run` calls every function of the chain once, in chain order, and keeps every send made before |
| Sift.RunLast | dist/cli.mjs:264-268 | running a chain that ends in f is running the chain before f and then applying f |
| Sift.RunAppend | dist/cli.mjs:264-268 | running the chain a + b is running a and then b from where a left the drafts |
| Sift.RunWithPhases | dist/cli.mjs:270-274 | `runWith` calls the whole chain on the message, then exactly the functions it kept on the state, then exactly those that kept on `send` |
| Sift.RunWithOrdered | dist/cli.mjs:270-274 | in the call trace of one message, no call comes before a call of an earlier step |
| Sift.RunKeepsMessageKind | dist/cli.mjs:246-253 | a message that is not a plain object comes out of the chain unchanged, and a plain object stays a plain object |
| Sift.StepsKeepMessageKind | dist/cli.mjs:246-253 | the same for all three steps of `runWith` |
| Sift.Process | dist/cli.mjs:249-252 | a completed pass over the atoms leaves one processed message per atom |
| Sift.Transact | dist/cli.mjs:246-253 | the loop of the inner `produce` computes the specified pass |
| Sift.ProcessPlugins | dist/cli.mjs:248-251 | `state2.plugins` grows by exactly the function atoms, in order |
| Sift.FeedRunsChainWithAtom | dist/cli.mjs:250-252 | a function atom is pushed onto the chain before the chain runs on it, so its own first calls end with itself |
| Sift.ProcessDone | dist/cli.mjs:246-253 | each atom keeps its place among the messages, changed only if it is a plain object, which stays one |
| Sift.InstalledLastWins | dist/cli.mjs:225-229 | the last meta-plugin that returns something truthy decides `send2.next` |
| Sift.InstalledNone | dist/cli.mjs:225-229 | if no meta-plugin returns something truthy, `send2.next` is unchanged |
| Sift.Dispatcher.constructor | dist/cli.mjs:222-235 | `root()` starts with the no-op handler, not sending, no queue and no state |
| Sift.Dispatcher.Meta | dist/cli.mjs:225-229 | `send2.meta` changes only the handler, to the one the meta-plugins install |
| Sift.Dispatcher.Send | dist/cli.mjs:233-261 | `send2(...inputs)` updates the dispatcher and returns what the specified dispatch gives |
| Sift.MakeDispatcher | dist/cli.mjs:221 | `make` is `root` followed by `meta` |
| Sift.NewSift | dist/cli.mjs:216-220 | `sift(...inputs)` is `make(originalPlugin)` sent the inputs |
| SiftExample.MakeTest | dist/cli.mjs:275-287 | the inline test of `make`: after `sift` with the four plugins, `send2({})` returns `[{testing: true}]` and leaves `state.count` at 6 |
| SiftExample.SiftDrains | dist/cli.mjs:216-261 | `sift` with those plugins counts to 4 while the chain grows, queues the fourth plugin's `{msg: "count is 4!"}`, and drains it in a transaction of its own, ending with a count of 5 and an empty queue |
| SiftExample.SiftResends | dist/cli.mjs:254-258 | after the first transaction the queued message is sent on its own |
| SiftExample.SiftTransaction | dist/cli.mjs:243-253 | the first transaction pushes the four plugins, counts to 4 and queues the effect's message |
| SiftExample.FeedStep | dist/cli.mjs:248-252 | one atom through the chain of the first k plugins raises the count by one, is marked `testing` once the third plugin is on the chain, and makes the fourth plugin's effect send `{msg: "count is 4!"}` exactly when the count reaches 4 |
| SiftExample.SendObject | dist/cli.mjs:243-258 | sending a plain object with the four plugins installed marks it `testing` and raises the count by one |
| SiftLaws.PluginsOnlyGrow | dist/cli.mjs:244-251 | every send keeps the chain it found as a prefix of the new chain |
| SiftLaws.CompletedSendIsIdle | dist/cli.mjs:243-258 | a send that completes leaves `sending` false and the handler in place |
| SiftLaws.ThrowLeavesSending | dist/cli.mjs:243-257 | a plugin that throws leaves `sending` stuck at true |
| SiftLaws.ThrowWedges | dist/cli.mjs:237-242 | after a throw, every later send only queues its atoms and returns its inputs, and state and chain never change |
| SiftLaws.ThrowKeepsState | dist/cli.mjs:244-253 | an aborted transaction commits no state and no chain, and keeps what was queued |
| SiftLaws.CommitQueue | dist/cli.mjs:238-253 | a transaction never touches the atoms already queued: what it sends goes after them, and the rest of its outcome does not depend on them |
| SiftLaws.CommitAppends | dist/cli.mjs:238-253 | the queue a transaction finds is a prefix of the queue it leaves |
| SiftLaws.ReplayQueue | dist/cli.mjs:238-258 | replaying transactions on a machine with atoms queued is replaying them on an empty queue, with those atoms kept in front |
| SiftLaws.PumpIsFifo | dist/cli.mjs:254-258 | the drain serves the first n truthy queued atoms one transaction each, in queue order, before anything their transactions send |
| SiftLaws.DrainIsFifo | dist/cli.mjs:254-258 | the same for the queue of any machine: the atoms the served transactions send wait behind the rest of the old queue |
| SiftLaws.NoThrowCommits | dist/cli.mjs:243-253 | when no call throws, every transaction completes and leaves the handler and `sending` as they were |
| SiftLaws.SendThenDrain | dist/cli.mjs:243-258 | when no call throws, a send to an idle dispatcher is its own transaction followed by the drain, and returns that transaction's result unless the drain outruns the fuel |
| SiftLaws.SendDrainsFifo | dist/cli.mjs:238-258 | when no call throws, a send runs its inputs, then the first n truthy queued atoms in queue order, while what its own transaction sent waits behind the old queue |
| SiftLaws.DrainStopsAtFalsy | dist/cli.mjs:254-258 | when no call throws, a falsy head of the queue is dropped after the send's own transaction and stops the drain; the rest and the newly sent atoms wait |
| SiftLaws.QuietCommit | dist/cli.mjs:238-253 | when no call sends or throws, a transaction queues nothing |
| SiftLaws.QuietPump | dist/cli.mjs:254-258 | when no call sends or throws, a drain over truthy atoms with fuel for all of them replays each in turn and ends with an empty queue |
| SiftLaws.QuietDrainIsFifo | dist/cli.mjs:254-258 | when no call sends or throws, a send runs its inputs, then each queued truthy atom in a transaction of its own in queue order, and empties the queue |
| SiftLaws.QuietDrainStopsAtFalsy | dist/cli.mjs:256-258 | a falsy atom at the head of the queue is dropped and stops the drain |
| Memory.AcceptIndexesLoop | dist/cli.mjs:294-301 | the loop over `entries(input.indexers)` computes the specified registration |
| Memory.RegisterSpec | dist/cli.mjs:297-298 | one registration sets that name's indexer and changes no other lookup |
| Memory.RegisterAllSpec | dist/cli.mjs:296-300 | after registering, each name holds its function, other names keep theirs, and other state fields read the same |
| Memory.AcceptIndexesRegisters | dist/cli.mjs:294-301 | `acceptIndexes` makes `state.indexers` hold every declared indexer and keep the others, and the write on line 299 changes no lookup |
| Memory.LookupLoop | dist/cli.mjs:310-315 | the inner loop of `findId` computes the specified lookup of one indexer's keys |
| Memory.FindIdLoop | dist/cli.mjs:302-318 | the nested loops of `findId` compute the specified search |
| Memory.SearchLoop | dist/cli.mjs:306-316 | the outer loop of `findId`, over the registered indexers, computes the specified search |
| Memory.LookupMiss | dist/cli.mjs:310-315 | when no key has a truthy entry, no id is found |
| Memory.LookupHit | dist/cli.mjs:310-315 | the first key with a truthy entry supplies the id |
| Memory.SearchFirstHit | dist/cli.mjs:306-316 | the first indexer whose table has one of its keys, and the first such key, set `input.id` |
| Memory.SearchNoHit | dist/cli.mjs:306-316 | without a hit, or at an indexer with no table, the message is left unchanged |
| Memory.PopulateMergesBothWays | dist/cli.mjs:319-329 | a cached record merges with the message both ways: each message key, nested objects included, holds the merge of the record's value and the message's; the record's keys become a superset of the message's; the message ends with exactly the record's keys; non-object message fields survive in both; the record stays under its id |
| Memory.WriteKeysLoop | dist/cli.mjs:333-337 | the inner loop of `writeIndexes` computes the specified writes of one indexer's keys |
| Memory.WriteIndexesLoop | dist/cli.mjs:330-340 | the nested loops of `writeIndexes` compute the specified writes |
| Memory.WriteAllLoop | dist/cli.mjs:332-339 | the outer loop of `writeIndexes`, over every indexer in order, computes the specified writes |
| Memory.Stamp | dist/cli.mjs:335-336 | `id ??= uuid()` and `createdAt ??= now` set only missing fields and no other field |
| Memory.StampShaped | dist/cli.mjs:335-336 | stamping keeps the message in the shape the loop invariant describes |
| Memory.WriteKeyConsistent | dist/cli.mjs:334-337 | writing one key keeps every written pair mapped to the message's id |
| Memory.WriteKeysConsistent | dist/cli.mjs:334-337 | the same for all keys of one indexer |
| Memory.WriteTableConsistent | dist/cli.mjs:332-338 | the same for one indexer with its table |
| Memory.WriteAllConsistent | dist/cli.mjs:332-339 | the same for all indexers |
| Memory.WriteKeyLog | dist/cli.mjs:334-337 | writing one key logs exactly its pair, and no other state field and no other key of any table reads differently |
| Memory.WriteKeysLog | dist/cli.mjs:334-337 | the keys an indexer yields are logged as pairs, in the order yielded |
| Memory.WriteKeysFrame | dist/cli.mjs:334-337 | the keys of one indexer change only that indexer's table, and in it only the keys written |
| Memory.WriteTableLog | dist/cli.mjs:332-338 | one indexer logs the pairs of the keys it yields for the message as it stands; creating its empty table changes no lookup |
| Memory.WriteAllLog | dist/cli.mjs:332-339 | all indexers log exactly the pairs they yield, each indexer seeing the original message until some key was yielded and the stamped one after; only their tables change, and in them only the keys written |
| Memory.WriteIndexesMapsKeys | dist/cli.mjs:330-340 | the written pairs are exactly the keys every registered indexer yields, in order, and each maps to the message's id; the message gets an id and a time only where it had none and only once a key was yielded; no other state field and no other table key changes |
| Memory.ConfigMerges | dist/cli.mjs:363-370 | a config object is merged key by key into the existing or a new configuration, other state is kept, and `config: null` only ensures a configuration exists |
| Cli.JsExt | dist/cli.mjs:436 | the matched extension is 0 or 3 to 5 characters and starts with a dot |
| Cli.ExtLength | dist/cli.mjs:436 | a JavaScript path's extension is 3 to 5 characters and starts with a dot |
| Cli.JsPathEndings | dist/cli.mjs:436 | a path is a JavaScript path exactly when it ends in `.js`, `.jsx`, `.mjs` or `.mjsx` |
| Cli.ModeBits | dist/cli.mjs:473 | the mode is rwxr-xr-x for a text that starts with `#!` and rw-r--r-- otherwise |
| Cli.Writing | dist/cli.mjs:464-475 | a write job exactly for a truthy path and a string text on a message that is neither persisted nor virtual, with the executable mode exactly for `#!` texts |
| Cli.WordSuffix | dist/cli.mjs:492 | the length of the maximal run of word characters that ends the path |
| Cli.FindFrom | dist/cli.mjs:492 | the first occurrence of a pattern at or after a position, or none |
| Cli.FirstOccurrence | dist/cli.mjs:492 | an occurrence with none before it is the one `replace` finds |
| Cli.ReplaceJsExt | dist/cli.mjs:492 | `.replace(/\.(\w+)$/, ".mjs")` on a JavaScript path swaps just its extension |
| Cli.FirstSrc | dist/cli.mjs:490-492 | on a path the guard accepts, the first `/src/` lies before the extension |
| Cli.ReplaceFirstKept | dist/cli.mjs:492 | adding a tail after the first occurrence of a pattern keeps that occurrence the one replaced |
| Cli.TranspiledShape | dist/cli.mjs:492 | the output is the path up to its first `/src/`, then `/.localhack/build/`, then the rest of the stem, then `.mjs` |
| Cli.TranspiledPath | dist/cli.mjs:490-492 | every accepted path is given an output path that ends in `.mjs` |
| Cli.EscapingPathAccepted | dist/cli.mjs:490 | the guard accepts `/home/u/src/app/src/main.js` and its first `/src/` is the outer one |
| Cli.EscapedOutput | dist/cli.mjs:492 | the output for that file is `/home/u` followed by `/.localhack/build/`, `app/src/main` and `.mjs` |
| Cli.EscapedOutside | dist/cli.mjs:492 | that output path is not under `/home/u/src/app/.localhack/build/` |
| Cli.TranspiledEscapesRoot | dist/cli.mjs:492 | that file is written to `/home/u/.localhack/build/app/src/main.mjs`, outside the project's build directory |
| Cli.JsExtSuffix | dist/cli.mjs:436 | text in front of a JavaScript path does not change its extension |
| Cli.TranspiledFromSrc | dist/cli.mjs:492 | a path that starts with `/src/` maps to `/.localhack/build/`, then its stem, then `.mjs` |
| Cli.TranspiledUnderRoot | dist/cli.mjs:386-390 | the corrected output mirrors every file under the root's `src` at the same place under the root's `.localhack/build` |
| Cli.TranspiledAgrees | dist/cli.mjs:492 | the corrected and the written output agree when the root holds no `/src/` of its own |
| Cli.Transpiling | dist/cli.mjs:484-492 | a transition exactly for a string path the guard accepts with a truthy text; it faults only on a path whose string form is not modelled |
| Cli.RouteReachesEveryCommand | dist/cli.mjs:586-599 | each command is sent, last, for its own `cmd`, and everything but usage and test is preceded by a build |
| Cli.RouteOnlyKnownNames | dist/cli.mjs:586-599 | only known names send anything, and the last command sent names the `cmd` |
| Cli.HasCmd | dist/cli.mjs:579 | `"cmd" in input` on a plain object is whether it has that key |
| Cli.CliStateRecords | dist/cli.mjs:581-583 | the state records `cwd`, `cmd` and `args` and nothing else changes |
| Cli.Cli | dist/cli.mjs:578-601 | a plain-object message gets a transition exactly when it has a `cmd` field |
| Literate.Blocks | dist/cli.mjs:419 | an info string with no group has no blocks |
| Literate.Push | dist/cli.mjs:419-420 | a known info string keeps its place, and a new one goes last with one block |
| Literate.PushBlocks | dist/cli.mjs:419-420 | a push adds the content under its own info string only |
| Literate.PushKeepsDistinct | dist/cli.mjs:419-420 | the dictionary never holds an info string twice, and pushing keeps every existing info string in its place |
| Literate.PushNonEmpty | dist/cli.mjs:419-420 | no group is ever empty |
| Literate.GroupIsFences | dist/cli.mjs:415-422 | the first loop's dictionary holds each info string once, no empty group, and under each info string exactly the contents of its fences, in order |
| Literate.InCodeIffBlocks | dist/cli.mjs:415-422 | an info string is in the dictionary exactly when it has blocks, so exactly when some fence has it |
| Literate.GroupLoop | dist/cli.mjs:415-422 | the loop over `iter(markdown)` computes the specified dictionary, or the first fault |
| Literate.Retarget | dist/cli.mjs:426 | a path that does not end in `.md` is kept, and one that does keeps everything before that suffix |
| Literate.ExpandPlain | dist/cli.mjs:426 | a replacement string without `$` is inserted as it is |
| Literate.RetargetPlain | dist/cli.mjs:426 | for an info string without `$`, a `.md` path swaps that suffix for `.` plus the info string |
| Literate.RetargetPatterns | dist/cli.mjs:426 | in an info string, `$&`, `` $` ``, `$$` and `$'` expand to the matched `.md`, the text before it, a `$`, and the text after it |
| Literate.JoinPiece | dist/cli.mjs:427 | `join` turns a string into itself and null or undefined into nothing |
| Literate.Join | dist/cli.mjs:427 | the join faults exactly when some block cannot become text |
| Literate.JoinStrings | dist/cli.mjs:427 | string blocks join into the texts with the separator between two |
| Literate.JoinTextPrefix | dist/cli.mjs:427 | the text of the first n blocks is a prefix of the text of all of them |
| Literate.Message | dist/cli.mjs:424-428 | the message is the virtual file at the retargeted path holding the joined blocks, and a path that is not a string faults |
| Literate.Emit | dist/cli.mjs:423-429 | one message per entry unless a fault stops the loop early |
| Literate.EmitSends | dist/cli.mjs:423-429 | each message sent is the one for its entry, and a fault is the fault of the first entry that failed |
| Literate.EmitLoop | dist/cli.mjs:423-429 | the loop over `entries(code)` sends exactly the specified messages |
| Literate.Tangle | dist/cli.mjs:408-430 | a transition exactly for a truthy path and a truthy markdown tree; a grouping fault is thrown before anything is sent |
| Literate.TangleEffect | dist/cli.mjs:408-430 | the two loops together compute the specified outcome |
| Literate.TangleSendsFences | dist/cli.mjs:408-430 | for string fence contents, one virtual file per info string, nothing thrown, each holding exactly its fences' contents joined by a blank line |
| Literate.BlocksAt | dist/cli.mjs:419 | the i-th group is what `code[info]` reads |
| Literate.FencesAreStrings | dist/cli.mjs:415-421 | fences with string contents give string blocks |
| Literate.EmitClean | dist/cli.mjs:423-429 | with a string path and joinable blocks nothing throws |

## Left out

- `T.Number` and `T.String` (lines 86-87) are not modelled. They need floating point and JavaScript's number formatting.
- `writeToCache` (lines 341-349) and `alias` (lines 359-362) are not modelled.
  - Both read and write a free variable `state`, which is not defined in the file, so both throw a ReferenceError whenever they reach it.
  - The write-through of the cache is therefore not part of the model.
- Immer internals are not modelled: structural sharing, `current`, `isModified` (lines 183-189, 204-213), and copy-on-write identity.
  - Drafts are plain values, so aliasing between drafts and update in place are not captured.
  - A transition's edit takes effect only on plain objects.
- `uuid()` and `new Date().toISOString()` become the parameters `newId` and `now`.
- The file-system, esbuild, electron and process plugins are left out: `globbing`, `reading`, `bundling`, `watching` and the command plugins. Also left out is the file I/O that `writing` and `transpiling` perform.
  - Only the guards, the file mode and the output path are modelled.
- `parseMarkdown` and markdown-it are not modelled. `tangle` takes the parsed token tree as a value.
- The test harness (`test`, `eq`, `throws`, lines 6-83) is not modelled. Its inline tests appear as lemmas.
- Asynchronous effects, and the order in which effects from different transactions finish, are not modelled.
- `JsValue.Entries` keeps insertion order. JavaScript lists integer-like keys first in ascending order; that reordering is not modelled.
- Property lookups on plain objects ignore members inherited from `Object.prototype` (`constructor`, `toString`, ...). For example, `tangle` with a fence whose info string is `constructor` would throw in JavaScript. The model groups it like any other name.
- Numbers are integers, so NaN and fractions are not modelled.
- Property keys from Arrays, Sets, Maps and functions are not modelled (`Unsupported`). The same goes for `String(x)` on such objects.
- Sift.Dispatcher.Send: the drain of the queue recurses once per queued atom and can run forever in JavaScript. The model follows at most `fuel` resends and reports `OutOfFuel` beyond that.
- Memory.FindIdLoop: the entries of `state.indexers` are read once, before the loop. An indexer that changes `state.indexers` while it runs is not modelled.
- Literate.Group: markdown tokens are plain objects. Fences of other token shapes are not modelled.
- Cli.Transpiling: uses the corrected output path, `TranspiledUnder`; the path as written is `Cli.Transpiled` (see Findings). The working directory is the parameter `root`.
- SiftLaws.PluginsOnlyGrow: the chain is kept in the draft's own `plugins` field, beside the state value that transitions see and return. In the source it is `state2.plugins` on the same draft, so a transition could reassign or truncate it. The model does not capture such a transition, and the law holds only for transitions that leave `state2.plugins` alone.
- Reify.ToSet: `new Set` compares objects by identity (SameValueZero), while the model compares values structurally. Two equal but distinct objects, as in `T.Set([{a: 1}, {a: 1}])`, are two elements in JavaScript and one in the model. For primitive elements the two agree.
- Reify.DedupSpec: inherits that structural equality; repeats are judged by value, not by identity.
- Memory.WriteKeyConsistent: states only the loop invariant (written pairs map to the id, the message's shape); the log and the frame of the same step are stated by Memory.WriteKeyLog.
- Memory.WriteKeysConsistent: likewise; the log and the frame are Memory.WriteKeysLog and Memory.WriteKeysFrame.
- Memory.WriteTableConsistent: likewise; the log and the frame are Memory.WriteTableLog.
- Memory.WriteAllConsistent: likewise; the log and the frame are Memory.WriteAllLog, and the whole promise is Memory.WriteIndexesMapsKeys.
- Literate.Retarget: its own contract states only what every info string keeps; the full result is stated by Literate.RetargetPlain for info strings without `$` and by Literate.RetargetPatterns for the four replacement patterns.
- SiftExample.TestWorld: the plugins of the `make` test are given as a world of function ids. Their property writes on function values are not modelled, and the `send2` an effect receives is the value `Fun(0)`; only the calls the test makes are modelled.

## Findings

| source | as written | input that shows it | evidently intended | confidence | as-written member | corrected member |
|---|---|---|---|---|---|---|
| dist/cli.mjs:492 | the output path replaces the first `/src/` anywhere in the absolute path | a project at `/home/u/src/app` with source `/home/u/src/app/src/main.js` is written to `/home/u/.localhack/build/app/src/main.mjs` | the project's own `src` directory (line 387) maps to its `.localhack/build` directory (line 390) | medium, not executed | Cli.TranspiledEscapesRoot | Cli.TranspiledUnderRoot |
