# Skinny configuration store, modelled in Dafny

Skinny keeps its settings in `Skinny\Core\Configure`. This is one store per process, with four parts:

- **The tree.** A nested tree of values, addressed by dot-separated key paths such as `Discord.token` or `Configure Test.Test Case`. A segment may hold spaces.
- **A `debug` entry.** It is present from the start.
- **A registry of named engines.** Resources are loaded from these engines and dumped to them.
- **A display-errors flag.** Writes to the `debug` key drive it.

The store's implementation file is not part of this model. Its behaviour is taken from the assertions of `tests/Core/Configure/ConfigureTest.php`, one call at a time. Where the tests leave a case open, the model makes a choice of its own. Those choices are listed under "Decisions" below.

Modules:

- `Values` (`values.dfy`): the value variant `Null | Bool | Int | Str | Map`, and PHP truthiness.
- `Paths` (`paths.dfy`): splitting a path at its dots (PHP `explode('.')`) and joining it back, with both round trips.
- `Tree` (`tree.dfy`): the path operations on the nested tree, as pure recursive functions:
  - lookup `At`;
  - `Insert`, which creates missing levels and replaces non-mapping levels;
  - `Remove`, which does nothing for a missing path;
  - deep `Merge`, where the loaded side wins;
  - the lemmas that relate them.
- `Engines` (`engines.dfy`): an engine as the set of named resources it can read. It also holds the key filter that `dump` applies.
- `Configure` (`configure.dfy`): the `ConfigStore` class. Its fields are `tree`, `engines`, `engineNames` (registration order, as a PHP array keeps it) and `displayErrors`. It has one method per store operation. Each mutating method states its new registry and flag exactly. `Write`, `Delete`, `Consume`, `Clear` and `Dump` also state the exact new tree, through the `Tree` functions. `WriteAll` and `Load` state the exact new tree only when the written keys have no dots: `WriteAll` as the old tree overridden by the map, `Load` through `Loaded`. For other keys they state which top-level keys change (see "## Left out"). The read-only methods are tied to the functions `ReadPath`, `CheckPath` and `TokenCheck`.
- `ConfigureProperties` (`properties.dfy`): lemmas about those functions that relate several calls. They cover read-after-write, check's null identity, delete and consume, load with and without merge, dump, the debug flag and the token check.
- `ConfigureScenarios` (`scenarios.dfy`): callers that replay the consume, check, debug, engine-setup, clear, default-load, dump, partial-dump, dump-without-engine and token tests against the class. They prove the asserted outcomes from the method contracts alone. For the two dump tests they prove what the engine is handed, not the file text. The load tests with merge and without it depend on fixture contents that are not visible. They are covered only by the lemmas in `ConfigureProperties`, stated for any loaded data.

Decisions:

- **Empty path.** `read()` with no path, and `read("")`, return the whole tree. `check` of no path or of `""` is false. `consume` of no path or of `""` returns null and changes nothing.
- **Null identity.** A stored null reads back as null, the same as a missing key. `check` compares against null and does not test truthiness.
- **`consume` of a path holding null** returns null and removes nothing.
- **The debug flag.** It changes only when the written map has a non-null `debug` entry. The entry's truthiness becomes the flag. `load` hands its result to `write`, so a `debug` entry in that result drives the flag too.
- **Self-registration.** A load through the name `default` registers the default engine first when that name is unregistered. The default engine is a constructor parameter. The load then fails if the resource is missing, and the engine stays registered. `ConfigureTest.php:271-279` relies on this with no `default` engine registered beforehand. The model keys the registration on the `default` name being unregistered, whatever other engines are registered.
- **Other unregistered engines.** A load through any other unregistered name fails with `NotFound`. A dump to any unregistered name, `default` included, fails with `EngineNotRegistered`.
- **The merge flag** is an explicit parameter of `Load`. The model treats the calls that omit it (`ConfigureTest.php:290`, `ConfigureTest.php:314`, `ConfigureTest.php:337`) as passing `false`, the value `ConfigureTest.php:319` passes explicitly.

## Model

| member | source | states |
|---|---|---|
| Values.Truthy | tests/Core/Configure/ConfigureTest.php:154-160 | PHP's falsy table: a value is falsy exactly when it is null, false, 0, "", "0" or the empty mapping, and truthy otherwise (so `true` turns display of errors on and `false` off) |
| Paths.Split | tests/Core/Configure/ConfigureTest.php:233-241 | a path splits into at least one segment; no segment holds a dot; a dot-free path, spaces included, is one segment |
| Paths.JoinSplit | tests/Core/Configure/ConfigureTest.php:89-95 | joining the segments of a split path gives the path back |
| Paths.SplitJoin | tests/Core/Configure/ConfigureTest.php:239-240 | dot-free segments joined with dots, such as `Configure Test.Test Case`, split back into exactly those segments |
| Paths.SplitConcat | tests/Core/Configure/ConfigureTest.php:130-140 | the segments of `P.Q` are those of P followed by those of Q |
| Paths.SplitPlainDot | tests/Core/Configure/ConfigureTest.php:89-90 | `a.Q` with a dot-free `a` splits into `a` followed by the segments of Q |
| Tree.At | tests/Core/Configure/ConfigureTest.php:86-107 | definition: the value at a path, following one mapping level per segment; null where a segment is missing or meets a non-mapping. Its properties are in the `Tree.AtInsert…` and `Tree.AtRemove…` lemmas |
| Tree.Insert | tests/Core/Configure/ConfigureTest.php:114-145 | a write adds its first segment to the top-level keys and leaves every other top-level entry as it was |
| Tree.Remove | tests/Core/Configure/ConfigureTest.php:168-193 | a delete adds no key and leaves every other top-level entry as it was |
| Tree.Merge | tests/Core/Configure/ConfigureTest.php:347-361 | the merged keys are the union; keys only in the tree keep their value; a loaded value that is not merged mapping-into-mapping replaces the old one |
| Tree.AtInsertBeneath | tests/Core/Configure/ConfigureTest.php:126-140 | after inserting V at P, each path P+Q reads the part of V at Q |
| Tree.AtInsertOther | tests/Core/Configure/ConfigureTest.php:89-95 | an insert leaves every path that parts from it unchanged |
| Tree.InsertEmpty | tests/Core/Configure/ConfigureTest.php:142-144 | inserting into an empty mapping gives the independently defined chain of single-entry levels `Nest` |
| Tree.AtInsertFresh | tests/Core/Configure/ConfigureTest.php:142-144 | a deep insert below a path holding no mapping makes that path read the newly created levels |
| Tree.AtRemoveBeneath | tests/Core/Configure/ConfigureTest.php:186-192 | after removing P, P and every path beneath it read null |
| Tree.AtRemoveOther | tests/Core/Configure/ConfigureTest.php:471-472 | a removal leaves every path that parts from it unchanged |
| Tree.AtRemoveChild | tests/Core/Configure/ConfigureTest.php:474-476 | removing child k of the mapping at P leaves P holding that mapping without k |
| Tree.SiblingsDiverge | tests/Core/Configure/ConfigureTest.php:89-90 | paths sharing a prefix and then naming different keys part ways |
| Tree.MergeWins | tests/Core/Configure/ConfigureTest.php:295-302 | a non-null scalar that the loaded data holds at a path is what the merged tree holds there |
| Tree.MergeKeeps | tests/Core/Configure/ConfigureTest.php:352-358 | a value the loaded data does not override at any level survives the merge |
| Tree.AtSubtree | tests/Core/Configure/ConfigureTest.php:352-358 | a path the loaded data does not override finds nothing in that data |
| Tree.MergeSelf | tests/Core/Configure/ConfigureTest.php:286-303 | merging a tree with itself gives the same tree |
| Tree.MergeSubmap | tests/Core/Configure/ConfigureTest.php:286-303 | merging in a part of the tree, with equal values, gives the tree back |
| Engines.ReadResource | tests/Core/Configure/ConfigureTest.php:260-264 | definition: an engine's read, the stored mapping or a failure for a resource it does not hold. Read after dump is stated by `Engines.DumpResource`; the NotFound failure of a load by `Configure.ConfigStore.Load` |
| Engines.DumpResource | tests/Core/Configure/ConfigureTest.php:421-433 | after a dump the engine reads back exactly the dumped mapping under that name; other resources are unchanged |
| Engines.FilterKeys | tests/Core/Configure/ConfigureTest.php:440-451 | definition: the tree for an empty key list, else the top-level entries whose key is listed. Its properties are in `ConfigureProperties.FullDumpIsTree`, `ConfigureProperties.PartialDumpKeepsListed`, `ConfigureProperties.PartialDumpLeavesOut` and `ConfigureProperties.DumpThenLoadIsIdentity` |
| Configure.TokenCheck | tests/Core/Configure/ConfigureTest.php:39-54 | definition: the outcome of checkTokenKey on a tree. What it gives after a token is written is stated by `ConfigureProperties.TokenCheckAfterWrite` |
| Configure.MissingKeyMessage | tests/Core/Configure/ConfigureTest.php:72-78 | definition: the text of readOrFail's failure. That it names the path is stated by `ConfigureProperties.MissingKeyMessageNamesPath` |
| Configure.ReadPath | tests/Core/Configure/ConfigureTest.php:86-107 | definition: what read returns, the whole tree for no path or `""`, else `Tree.At` of the split path. Its properties are in `ConfigureProperties.WriteThenRead`, `ConfigureProperties.FreshStore` and the delete lemmas |
| Configure.CheckPath | tests/Core/Configure/ConfigureTest.php:200-252 | definition: what check returns, a non-empty path whose value is not null. Its properties are in `ConfigureProperties.CheckUsesNullIdentity` and `ConfigureProperties.ClearedReadsNull` |
| Configure.DebugFlag | tests/Core/Configure/ConfigureTest.php:152-160 | definition: the display-errors flag after a write of a map's entries. Its properties are in `ConfigureProperties.DebugWriteSetsFlag` |
| Configure.LoadValues | tests/Core/Configure/ConfigureTest.php:286-361 | definition: what load hands to write, the loaded data or the tree deep-merged with it. Used by `Configure.ConfigStore.Load` for the flag |
| Configure.Loaded | tests/Core/Configure/ConfigureTest.php:286-361 | definition: the tree after a load of dot-free keys, top-level replacement or deep merge. Its properties are in `ConfigureProperties.LoadKeepsAbsentKeys`, `ConfigureProperties.LoadReplaces`, `ConfigureProperties.LoadMergeKeepsOld`, `ConfigureProperties.LoadMergeNewWins` and `ConfigureProperties.DumpThenLoadIsIdentity` |
| Configure.EngineFor | tests/Core/Configure/ConfigureTest.php:260-279 | definition: the engine a load reads from, the registered one, else the default engine for the name `default`, else none. Its consequences for registry and errors are stated by `Configure.ConfigStore.Load` |
| Configure.Without | tests/Core/Configure/ConfigureTest.php:390-391 | the registered names without the dropped one, the others all kept, still each listed once |
| Configure.ConfigStore.constructor | tests/Core/Configure/ConfigureTest.php:97-102 | the store starts with only the `debug` entry at a non-negative level and with no engines |
| Configure.ConfigStore.Write | tests/Core/Configure/ConfigureTest.php:114-160 | returns true; the tree becomes the insert of the value at the split path; a non-null write to `debug` sets the flag from its truthiness |
| Configure.ConfigStore.WriteAll | tests/Core/Configure/ConfigureTest.php:27-30 | returns true; top-level keys are the old ones plus the first segments of the entries; keys no entry names keep their values; with dot-free keys the tree is the old tree overridden by the map |
| Configure.ConfigStore.Read | tests/Core/Configure/ConfigureTest.php:86-107 | returns the value at the path, null when it does not resolve, the whole tree for no path |
| Configure.ConfigStore.ReadOrFail | tests/Core/Configure/ConfigureTest.php:61-79 | succeeds exactly when check holds, with the non-null value at the path; otherwise fails with MissingKey naming the path |
| Configure.ConfigStore.Check | tests/Core/Configure/ConfigureTest.php:200-252 | true exactly for a non-empty path whose value is not null |
| Configure.ConfigStore.Delete | tests/Core/Configure/ConfigureTest.php:168-193 | returns true; the tree becomes the removal of the split path; registry and flag unchanged |
| Configure.ConfigStore.Consume | tests/Core/Configure/ConfigureTest.php:463-493 | returns the value the path held (null for no or empty path); removes it when it was not null, else changes nothing |
| Configure.ConfigStore.Clear | tests/Core/Configure/ConfigureTest.php:399-405 | returns true and leaves an empty tree, `debug` gone too; registry and flag unchanged |
| Configure.ConfigStore.Config | tests/Core/Configure/ConfigureTest.php:379-387 | binds the name to the engine, replacing an earlier binding in its place; a new name is appended to the order |
| Configure.ConfigStore.IsConfigured | tests/Core/Configure/ConfigureTest.php:387-388 | true exactly when the name is registered |
| Configure.ConfigStore.ConfiguredNames | tests/Core/Configure/ConfigureTest.php:383-385 | the registered names, each once, nothing else |
| Configure.ConfigStore.Drop | tests/Core/Configure/ConfigureTest.php:390-391 | returns whether the name was registered and unregisters it |
| Configure.ConfigStore.Load | tests/Core/Configure/ConfigureTest.php:260-361 | registers the default engine on demand; fails with NotFound and leaves tree and flag unchanged for an unknown engine or resource; otherwise returns true, and with dot-free keys the tree is the old tree overridden key by key (no merge) or deep-merged with the data |
| Configure.ConfigStore.Dump | tests/Core/Configure/ConfigureTest.php:411-456 | fails with EngineNotRegistered for an unknown engine; otherwise the engine's resource becomes the filtered tree; the tree is unchanged |
| Configure.ConfigStore.CheckTokenKey | tests/Core/Configure/ConfigureTest.php:39-54 | returns the token check of the current tree |
| ConfigureProperties.WriteThenRead | tests/Core/Configure/ConfigureTest.php:114-124 | after write(P, V), read(P) is V, null included |
| ConfigureProperties.WriteThenReadBeneath | tests/Core/Configure/ConfigureTest.php:126-140 | after writing a nested map at P, each P.Q reads the matching subtree |
| ConfigureProperties.DeepWriteCreatesLevels | tests/Core/Configure/ConfigureTest.php:142-144 | a deep write below a path with no mapping creates the intermediate levels |
| ConfigureProperties.WriteKeepsOthers | tests/Core/Configure/ConfigureTest.php:89-95 | a write leaves every path that parts from it as it was |
| ConfigureProperties.SiblingPaths | tests/Core/Configure/ConfigureTest.php:89-90 | P.a and P.b with different dot-free a and b part ways |
| ConfigureProperties.CheckUsesNullIdentity | tests/Core/Configure/ConfigureTest.php:213-226 | after write(P, V), check(P) holds exactly when V is not null, so 0, "0" and false count; no path and "" never check |
| ConfigureProperties.FreshStore | tests/Core/Configure/ConfigureTest.php:97-106 | a fresh store reads its debug level, lists `debug` in the whole tree and reads null elsewhere |
| ConfigureProperties.ClearedReadsNull | tests/Core/Configure/ConfigureTest.php:399-405 | after clear every path reads null and none checks |
| ConfigureProperties.MissingKeyMessageNamesPath | tests/Core/Configure/ConfigureTest.php:72-79 | readOrFail's failure message contains the path |
| ConfigureProperties.DeleteThenRead | tests/Core/Configure/ConfigureTest.php:170-176 | after delete(P), P reads null |
| ConfigureProperties.DeleteClearsBeneath | tests/Core/Configure/ConfigureTest.php:178-192 | after delete(P), every P.Q reads null |
| ConfigureProperties.DeleteKeepsOthers | tests/Core/Configure/ConfigureTest.php:468-472 | delete and consume leave paths that part from P unchanged |
| ConfigureProperties.ConsumeChildLeavesRest | tests/Core/Configure/ConfigureTest.php:474-476 | consuming P.k leaves P with the other children only |
| ConfigureProperties.LoadKeepsAbsentKeys | tests/Core/Configure/ConfigureTest.php:332-361 | top-level keys absent from the data survive a load in both modes |
| ConfigureProperties.LoadReplaces | tests/Core/Configure/ConfigureTest.php:319-324 | without merge a loaded key's whole subtree replaces the old one |
| ConfigureProperties.LoadMergeKeepsOld | tests/Core/Configure/ConfigureTest.php:352-358 | with merge, old values the data does not override survive |
| ConfigureProperties.LoadMergeNewWins | tests/Core/Configure/ConfigureTest.php:295-302 | with merge, loaded scalars win |
| ConfigureProperties.DumpThenLoadIsIdentity | tests/Core/Configure/ConfigureTest.php:440-451 | the engine reads back the filtered tree, and loading it in either mode leaves the tree unchanged |
| ConfigureProperties.FullDumpIsTree | tests/Core/Configure/ConfigureTest.php:421-426 | a dump with no key list hands the engine the whole tree under the resource name |
| ConfigureProperties.PartialDumpKeepsListed | tests/Core/Configure/ConfigureTest.php:443-450 | a partial dump keeps each listed top-level key the tree has, and every path beneath it reads as in the tree |
| ConfigureProperties.PartialDumpLeavesOut | tests/Core/Configure/ConfigureTest.php:445-451 | a partial dump omits every unlisted top-level key, `debug` included |
| ConfigureProperties.DebugWriteSetsFlag | tests/Core/Configure/ConfigureTest.php:152-160 | a non-null write to `debug` sets the flag from its truthiness; any other write leaves it |
| ConfigureProperties.TokenCheckAfterWrite | tests/Core/Configure/ConfigureTest.php:39-54 | after writing V at Discord.token the check fails, with InvalidCredential naming that key, exactly when V is the placeholder `insert-your-token-here`, and passes otherwise |
| ConfigureScenarios.ConsumeFactsBefore | tests/Core/Configure/ConfigureTest.php:466-469 | in the tree holding only P = {a, b}, P.a reads its value |
| ConfigureScenarios.ConsumeFactsAfter | tests/Core/Configure/ConfigureTest.php:468-476 | after consuming P.a, P.b still reads its value and P holds only b |

## Left out

- `version()` and its semantic-version comparison (`ConfigureTest.php:368-372`): the version constant is not visible, and the comparison is a library call.
- The PhpConfig engine's file format and filesystem effects: the `<?php` and `return` contents, and `file_get_contents` and `unlink`. An engine is only the map from resource names to the mappings it holds.
- Configure.ConfigStore.Dump: returns true where the engine reports a positive byte count. The count depends on the file format.
- The fixture resources `var_test` and `var_test2`: their contents are not visible. The load lemmas are stated for any loaded data.
- `ini_get` and `ini_set`: the display-errors setting is the boolean field `displayErrors`.
- Configure.ConfigStore.WriteAll: the order of the map's entries (PHP array order) is not modelled. So the exact new tree is stated only for keys without dots. For dotted keys only which top-level keys change is stated.
- Configure.ConfigStore.Load: the exact new tree is stated for loaded data whose top-level keys have no dots. For other data the contract gives the flag, and, without merge, which top-level keys stay.
- The order of entries inside the tree, which a dump would write out: the tree is a Dafny `map`.
- Floating-point values, PHP's conversion of numeric-string keys into integer keys, and the `{n}` and `[...]` path expressions of the underlying array-path utility.
- Exceptions are `Result` and `Outcome` values. Only the readOrFail message text is modelled, because it is the only one a test fixes.
- `src/Module/Modules/Basic.php`: a switch over command strings. It only calls network wrapper methods and formats clock time.
- Concurrency: the store is single-threaded and every method runs to completion.
