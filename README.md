# putout: a verified model of the decision logic around the engine

putout is a JavaScript linter and code transformer. This project models
the code that surrounds its rewriting engine:

- the per-file rule overlay built from the `match` section of a configuration;
- plugin list normalisation and resolution;
- one rule (`remove-useless-for-of`);
- per-segment processing and line shifting;
- dispatch to the JS and markdown processors, with segment extraction and reinsertion;
- the remark plugin;
- staged-file selection through git;
- the command-line batch driver.

The engine (`putout` itself), the linter pass, `parse-error`, `cache-files`,
`merge`, `ruler-processor`, the formatter, remark's parser and printer, git
and the filesystem are not part of this model. Each is a function-typed
parameter whose result is whatever the caller passes in. The engine, the
collaborators of `process-file.js` (the file cache's `canUseCache` and
`getPlaces`, `putout.ignores`, `parse-error` and the linter pass), `getFiles`
and `runProcessors` may throw here. Every other collaborator is modelled as
never throwing; "## Left out" lists them. Every property proved here holds for
every choice of those collaborators that meets the stated hypotheses. The lemmas that say a segment
never throws require `ProcessFile.Reliable`: no collaborator but the engine
throws. The lemmas beside them state that any other collaborator's throw
escapes.

Modules, one file each:

- `Wrappers`: `Option` and `Result`.
- `Js`: the JavaScript values the core distinguishes, truthiness, thrown errors, and `split`/`join`.
- `Places`: places, positions, segments and engine results.
- `ParseMatch`: `parse-options/parse-match.js`.
- `GetPlugins`: `get-plugins.js`.
- `RemoveUselessForOf`: the rule, over a small AST with a scope map.
- `ProcessFile`: `cli/process-file.js`.
- `ProcessMarkdown`: `cli/processor/process-markdown.js`. The document is its sequence of nodes in visit order. `postProcess` rewrites an array of them in place.
- `Processor`: `cli/processor/index.js`.
- `RemarkPutout`: `remark-putout/lib/putout.js`. The virtual file is a class whose `messages` grow.
- `Staged`: `cli/staged.js`. The one-slot `namesStore` is a class shared by `Get` and `Set`.
- `Cli`: `cli/index.js`. Each side effect is an event of a ghost trace.

Loops in the source are loops here. Each such method is proved equal to a
recursive specification function. The properties are lemmas about that
function.

Behaviours of the code a reader may not expect, stated as the code has them:

- An empty array literal makes `remove-useless-for-of` return `''`. So `for (const item of []) { doThing(); }` is deleted entirely, body included (`RemoveUselessForOf.ReplaceEmpty`). The rule's own test expects exactly this: the `empty` fixture becomes an empty line (`packages/plugin-remove-useless-for-of/test/remove-useless-for-of.js:12-15`).
- The comment in `remark-putout/lib/putout.js` speaks of combining the block position with the position inside the block. The code, and its test, report every message at the block's start (`RemarkPutout.PlacesAtBlockStart`).
- Two behaviours of the code are stated as they are:
  - `exit(STAGE)` is not returned from, so `exit(PLACE)` can follow it (`Cli.StageThenPlace`).
  - The JS processor's `postProcess` returns the raw source, so a fix to a `.js` file never differs from the raw text (`Processor.JsFileIgnoresRewrite`) and is never written by the driver.

## Model

| member | source | states |
|---|---|---|
| ParseMatch.ParseMatch | packages/putout/lib/parse-options/parse-match.js:6-30 | the result is `MatchOverlay`: a falsy `match` or `name` gives `{}` without a `rules` key; otherwise it is the fold over the entries in key order |
| ParseMatch.FoldOutcome | packages/putout/lib/parse-options/parse-match.js:13-24 | the fold of the entry loop, `Fold`, throws iff a matching non-`off` entry follows a matching `off`; `rules` is `null` iff some matching entry is `off` and none is assigned after it; `rules` is an object iff no matching entry is `off` |
| ParseMatch.FoldContents | packages/putout/lib/parse-options/parse-match.js:16-23 | the keys of `rules` are exactly those defined by matching entries, and each value comes from the last matching entry defining it (later entries override) |
| ParseMatch.NonMatchingIgnored | packages/putout/lib/parse-options/parse-match.js:14-16 | deleting every entry whose pattern does not match the name leaves the result unchanged |
| ParseMatch.NoMatchGivesEmptyRules | packages/putout/lib/parse-options/parse-match.js:10-29 | when no pattern matches, the result is `{rules: {}}` |
| ParseMatch.OffResets | packages/putout/lib/parse-options/parse-match.js:17-21 | a matching `off` entry makes `rules` `null`, whatever was merged before |
| GetPlugins.DisabledOnlyByFalse | packages/putout/lib/get-plugins.js:9 | `IsDisabled`: a rule is disabled iff its value is the boolean `false`; `'off'`, `0`, `null` and `undefined` are not disabled |
| GetPlugins.ParsePluginNames | packages/putout/lib/get-plugins.js:12-26 | the loop yields exactly `Flatten` of the plugin list, each item's pairs in turn
| GetPlugins.FlattenAppend | packages/putout/lib/get-plugins.js:15-23 | flattening distributes over concatenation, so input order is kept |
| GetPlugins.FlattenOne | packages/putout/lib/get-plugins.js:16-22 | a string becomes the one-element tuple `[name]`; an object contributes all of its entries in order |
| GetPlugins.RequirePlugin | packages/putout/lib/get-plugins.js:48-70 | a success is `[name, plugin]` with a truthy plugin; a failure is the "could not be found" error for that name |
| GetPlugins.FirstTruthyIsFirst | packages/putout/lib/get-plugins.js:49-67 | the chosen candidate is truthy and every earlier candidate is falsy; with no choice, all candidates are falsy |
| GetPlugins.ResolutionOrder | packages/putout/lib/get-plugins.js:48-69 | resolution tries the inline function, then `@putout/plugin-<name>`, then `putout-plugin-<name>`; the first truthy one wins, and if there is none it throws |
| GetPlugins.GetPlugins | packages/putout/lib/get-plugins.js:28-46 | the exported loop returns the resolution of the enabled names of the flattened list, or the first resolution error |
| GetPlugins.Resolve | packages/putout/lib/get-plugins.js:37-43 | a successful resolution is no longer than the name list and holds only truthy plugins; a failure is the "could not be found" error of one of the names |
| GetPlugins.EnabledShorter | packages/putout/lib/get-plugins.js:38-39 | skipping the disabled pairs never lengthens the list |
| GetPlugins.ResolveKeepsEnabled | packages/putout/lib/get-plugins.js:37-43 | on success, the output names are exactly the names not disabled, in input order |
| GetPlugins.ResolveIsRequire | packages/putout/lib/get-plugins.js:37-43 | on success the output has one entry per pair not disabled, in order, and the k-th is what `requirePlugin` returns for the k-th such pair; so it is never longer than the parsed name list |
| GetPlugins.ResolveFailsIff | packages/putout/lib/get-plugins.js:37-69 | resolution throws iff some name that is not disabled has no truthy candidate |
| GetPlugins.ResolveFirstFailure | packages/putout/lib/get-plugins.js:37-43 | a failed resolution throws the "could not be found" error of the first pair that is not disabled and has no truthy candidate; every earlier pair is disabled or resolvable |
| GetPlugins.DisabledNeverResolved | packages/putout/lib/get-plugins.js:38-39 | a disabled name is skipped, so it can never cause the "could not be found" error |
| RemoveUselessForOf.GuardSpec | packages/plugin-remove-useless-for-of/lib/remove-useless-for-of.js:10-24 | `Guard`, the rule's `match`, accepts iff the array has fewer than 2 elements, the binding is an identifier, and the binding has fewer than 2 references; each rejection case is stated on its own |
| RemoveUselessForOf.ReplaceAtThenNodeAt | packages/plugin-remove-useless-for-of/lib/remove-useless-for-of.js:46-47 | `replaceWith` at a path succeeds iff the path exists, and afterwards the path holds the new node |
| RemoveUselessForOf.ReplaceEmpty | packages/plugin-remove-useless-for-of/lib/remove-useless-for-of.js:31-32 | in `Replace`, the rule's `replace`, with no elements, the loop is removed and its body is not kept |
| RemoveUselessForOf.ReplaceNoReference | packages/plugin-remove-useless-for-of/lib/remove-useless-for-of.js:40-41 | with one element and no reference, the loop becomes its body |
| RemoveUselessForOf.ReplaceOneReference | packages/plugin-remove-useless-for-of/lib/remove-useless-for-of.js:43-49 | with one element and one reference, the reference site holds the element and the loop becomes that rewritten body |
| RemoveUselessForOf.OneElementScenario | packages/plugin-remove-useless-for-of/lib/remove-useless-for-of.js:27-50 | `for (const item of [x]) console.log(item)` is accepted and becomes `console.log(x)` |
| RemoveUselessForOf.TwoElementsScenario | packages/plugin-remove-useless-for-of/lib/remove-useless-for-of.js:11-12 | a two-element array literal is rejected |
| ProcessFile.TSSuffixes | packages/putout/lib/cli/process-file.js:39 | `IsTS`: every name ending in `.ts` or `.tsx` are TypeScript |
| ProcessFile.TSOnlySuffixes | packages/putout/lib/cli/process-file.js:39 | a TypeScript name ends in `.ts` or `.tsx` |
| ProcessFile.Shifted | packages/putout/lib/cli/process-file.js:80-97 | shifting keeps length and order, adds the start line to each line, and keeps column, rule and message |
| ProcessFile.ShiftedAppend | packages/putout/lib/cli/process-file.js:70-72 | shifting the concatenated places equals concatenating the shifted parts |
| ProcessFile.FormatPlaces | packages/putout/lib/cli/process-file.js:80-97 | the loop returns exactly the shifted places |
| ProcessFile.MissingOptionsThrow | packages/putout/lib/cli/process-file.js:19-22 | in `Process`, the inner function, without `options`, destructuring `dir` throws a TypeError |
| ProcessFile.NeverThrowsWithOptions | packages/putout/lib/cli/process-file.js:19-78 | with `options`, and unless a collaborator other than the engine throws, the segment processor always returns: engine errors are caught |
| ProcessFile.UncaughtThrows | packages/putout/lib/cli/process-file.js:24-37 | a throw of the cache check, of the cached places on a hit, or of the ignore list is the segment's own throw |
| ProcessFile.UncaughtThrowsAfterEngine | packages/putout/lib/cli/process-file.js:53-68 | once the engine has run, a throw of `parseError` (under an engine error) or of the linter (without a ruler flag) is the segment's own throw |
| ProcessFile.ThrowsOnlyFromCollaborators | packages/putout/lib/cli/process-file.js:19-78 | with `options`, the segment throws nothing but what the cache, the ignore list, `parseError` or the linter throws |
| ProcessFile.CacheHit | packages/putout/lib/cli/process-file.js:24-31 | on a cache hit the result is the cached places with the segment's source, whatever the engine and linter do |
| ProcessFile.Ignored | packages/putout/lib/cli/process-file.js:33-37 | an ignored file yields no places and its own source |
| ProcessFile.EngineSeesOptions | packages/putout/lib/cli/process-file.js:40-47 | in `EngineOptions` the engine sees every file option unchanged; `fix` and `isTS` come from the processor only when the options lack them |
| ProcessFile.EngineThrows | packages/putout/lib/cli/process-file.js:49-77 | when the engine throws, the code falls back to the source; under a ruler flag the places are the shifted `parseError` places; otherwise the linter runs on the source, its code is returned, and its places follow the `parseError` places, all shifted |
| ProcessFile.RawLogsEngineError | packages/putout/lib/cli/process-file.js:49-51 | the engine's error is handed to `logError` exactly in raw mode, and a returned result logs nothing |
| ProcessFile.RulerSkipsLinter | packages/putout/lib/cli/process-file.js:53-62 | with a ruler flag set, the linter is never consulted, the code is the engine's (or the source), and the places are the engine's (or `parseError`'s), shifted |
| ProcessFile.LinterAppends | packages/putout/lib/cli/process-file.js:53-77 | otherwise the linter runs on the engine's code (or the source, when the engine threw), its places follow the engine's (or `parseError`'s), all shifted and none dropped, and the code is the linter's |
| ProcessMarkdown.Extract | packages/putout/lib/cli/processor/process-markdown.js:13-36 | one segment per allow-listed code node |
| ProcessMarkdown.PreProcess | packages/putout/lib/cli/processor/process-markdown.js:13-36 | the visit loop collects exactly the extracted segments |
| ProcessMarkdown.Refilled | packages/putout/lib/cli/processor/process-markdown.js:38-63 | reinsertion keeps the number of nodes |
| ProcessMarkdown.Apply | packages/putout/lib/cli/processor/process-markdown.js:40-50 | the in-place visit leaves the tree equal to the refilled node sequence |
| ProcessMarkdown.PostProcess | packages/putout/lib/cli/processor/process-markdown.js:38-63 | the output is the stringified refilled tree |
| ProcessMarkdown.ExtractAt | packages/putout/lib/cli/processor/process-markdown.js:16-25 | the k-th segment is the k-th allow-listed node in visit order, with its value and fence start line |
| ProcessMarkdown.ExtractOnlyAllowListed | packages/putout/lib/cli/processor/process-markdown.js:19-20 | every segment comes from a code node whose language is exactly `js`, `javascript` or `typescript` |
| ProcessMarkdown.SameOrder | packages/putout/lib/cli/processor/process-markdown.js:41-48 | the node that produced the k-th segment receives the k-th rewritten source |
| ProcessMarkdown.RoundTrip | packages/putout/lib/cli/processor/process-markdown.js:22-48 | feeding the extracted sources back changes no node |
| ProcessMarkdown.RefillKeepsShape | packages/putout/lib/cli/processor/process-markdown.js:44-45 | other nodes are untouched, and an allow-listed node changes only its value |
| ProcessMarkdown.NoCodeIdentity | packages/putout/lib/cli/processor/process-markdown.js:41-48 | a document without allow-listed code comes back unchanged |
| ProcessMarkdown.ExtractEmptyIff | packages/putout/lib/cli/processor/process-markdown.js:16-25 | nothing is extracted iff no node is an allow-listed code block |
| Processor.LastIndexOf | packages/putout/lib/cli/processor/index.js:9 | the result is the last index holding the character, or -1 |
| Processor.ExtName | packages/putout/lib/cli/processor/index.js:9 | the extension holds no dot and no slash |
| Processor.ExtNameOf | packages/putout/lib/cli/processor/index.js:9 | `stem.ext` has extension `ext` |
| Processor.LastDot | packages/putout/lib/cli/processor/index.js:9 | the dot before a dot-free extension is the last dot of the name |
| Processor.AsWrittenAlwaysThrows | packages/putout/lib/cli/processor/index.js:27-34 | (as written) every request as written makes the segment processor throw the `dir` TypeError |
| Processor.AsWrittenDropsOptions | packages/putout/lib/cli/processor/index.js:27-34 | (as written) the request as written is the corrected one without its options |
| Processor.AsWrittenThrows | packages/putout/lib/cli/processor/index.js:27-34 | (as written) the callback the dispatch gets as written throws the `dir` TypeError on every request |
| Processor.RunSegmentsThrowing | packages/putout/lib/cli/processor/index.js:26-38 | with a callback that always throws, a segment run fails iff there is at least one segment |
| Processor.DispatchStepThrowing | packages/putout/lib/cli/processor/index.js:15-41 | with such a callback, one processor fails the file iff it claims it and extracts at least one segment |
| Processor.DispatchThrowing | packages/putout/lib/cli/processor/index.js:15-41 | with such a callback, dispatch fails iff some processor claims the file and extracts at least one segment, and the error is the callback's |
| Processor.FileThrowing | packages/putout/lib/cli/processor/index.js:8-63 | with such a callback, every file the JS processor claims fails, a `.md` file fails iff it has an allow-listed code block, and every other file passes |
| Processor.ProcessorsCall | packages/putout/lib/cli/processor/index.js:15-63 | the callback is reached exactly for a claimed JS extension, or for `md` with an allow-listed block |
| Processor.FileAsWritten | packages/putout/lib/cli/processor/index.js:8-63 | (as written) every JS-claimed file throws the `dir` TypeError, a `.md` file throws it iff it has an allow-listed code block, and every other file passes |
| Processor.ForwardedNeverThrows | packages/putout/lib/cli/processor/index.js:27-34 | (corrected) with the options forwarded, and unless a collaborator other than the engine throws, the segment processor never throws |
| Processor.RunSegments | packages/putout/lib/cli/processor/index.js:26-38 | (corrected) a successful run yields one result per segment |
| Processor.ProcessList | packages/putout/lib/cli/processor/index.js:24-38 | (corrected) the inner loop throws iff the segment run does; otherwise it yields the codes and the concatenated places in segment order |
| Processor.RunProcessors | packages/putout/lib/cli/processor/index.js:8-50 | (corrected) the dispatch loop returns the reference dispatch over `[jsProcessor, mdProcessor]` |
| Processor.RunSegmentsSpec | packages/putout/lib/cli/processor/index.js:26-38 | every result is that segment's own processing result, and the run throws iff some segment throws |
| Processor.ProcessedIffClaimed | packages/putout/lib/cli/processor/index.js:15-21 | in `Dispatch`, the reference dispatch, the file is `isProcessed` iff some processor claims the extension; otherwise there are no places and the source is `''` |
| Processor.DispatchStepClaims | packages/putout/lib/cli/processor/index.js:15-21 | in `DispatchStep`, a processor that claims the extension marks the file processed; one that does not leaves the state unchanged |
| Processor.LastClaimingWins | packages/putout/lib/cli/processor/index.js:19-41 | `processedSource` is the last claiming processor's `postProcess` output, and its places are appended after the earlier ones |
| Processor.JsFileIgnoresRewrite | packages/putout/lib/cli/processor/index.js:51-63 | a JS file is one segment at line 0; its result is the raw text whatever the rewrite, and its places are that segment's |
| Processor.MarkdownFile | packages/putout/lib/cli/processor/index.js:19-41 | a markdown file processes the extracted segments in order and stringifies the refilled tree |
| Processor.CorrectedNeverThrows | packages/putout/lib/cli/processor/index.js:27-34 | (corrected) with the corrected request, and unless a collaborator other than the engine throws, dispatch never throws |
| RemarkPutout.UnanchoredFilter | packages/remark-putout/lib/putout.js:16-17 | any language containing `js` is processed (so `json` is, unlike in the markdown processor); `ts` and a missing language are not |
| RemarkPutout.VirtualNameIsTS | packages/remark-putout/lib/putout.js:19 | under the engine's `/\.tsx?$/` test (`ProcessFile.IsTS`), the virtual name marks a block as TypeScript iff its language is exactly `typescript`; `ts` and `tsx` blocks are checked as JavaScript |
| RemarkPutout.WithoutFix | packages/remark-putout/lib/putout.js:20-26 | the options object handed to `parseOptions` has `fix: false` and keeps every other user option |
| RemarkPutout.ProcessNode | packages/remark-putout/lib/putout.js:13-49 | the visitor appends exactly the node's messages, `NodeMessages`, to the file |
| RemarkPutout.Plugin | packages/remark-putout/lib/putout.js:9-11 | the plugin appends the messages of every code node, in visit order |
| RemarkPutout.PlaceMessagesSpec | packages/remark-putout/lib/putout.js:41-48 | one message per place carrying its message, all at the given position |
| RemarkPutout.EngineErrorOneMessage | packages/remark-putout/lib/putout.js:28-37 | an engine error gives exactly one message, the error's, at the block's start |
| RemarkPutout.PlacesAtBlockStart | packages/remark-putout/lib/putout.js:39-48 | otherwise there is one message per place, each with the place's message and the block's start line and column |
| Staged.FromEntries | packages/putout/lib/cli/staged.js:105-113 | the loop builds exactly the entry map |
| Staged.Store.Get | packages/putout/lib/cli/staged.js:42-62 | with no directory, `[]` and the store untouched; otherwise the store holds the selected names and the result is them prefixed |
| Staged.Store.Set | packages/putout/lib/cli/staged.js:74-101 | with no directory, `undefined` and no `add`; otherwise every stored name is added in order, and the result is those whose status is staged |
| Staged.StatusPairs | packages/putout/lib/cli/staged.js:83-87 | one `[filepath, status]` pair per stored name, in order |
| Staged.StagedStrExactly | packages/putout/lib/cli/staged.js:21 | `IsStagedStr` accepts exactly the statuses `added`, `modified`, `*added` and `*modified` |
| Staged.StagedNamesSpec | packages/putout/lib/cli/staged.js:54-57 | `StagedNames` selects a name iff some row for it is staged (column 3 is 2 or 3) and modified (column 2 is 2) |
| Staged.StagedNamesAppend | packages/putout/lib/cli/staged.js:54-57 | selection keeps row order |
| Staged.FromEntriesLast | packages/putout/lib/cli/staged.js:105-113 | each key maps to the value of its last occurrence |
| Staged.FromEntriesKeys | packages/putout/lib/cli/staged.js:105-113 | the keys are exactly the entries' keys |
| Staged.StatusOfName | packages/putout/lib/cli/staged.js:83-87 | the status map gives every stored name its own `git.status` |
| Staged.StagedFilterSpec | packages/putout/lib/cli/staged.js:88 | the filter keeps exactly the names whose status is staged |
| Staged.SetReportsStaged | packages/putout/lib/cli/staged.js:80-100 | `set` reports exactly the stored names whose own status is staged |
| Js.JoinSplit | packages/putout/lib/cli/index.js:28 | joining the comma-split pieces gives the string back |
| Js.SplitJoin | packages/putout/lib/cli/index.js:32 | splitting joined comma-free names gives the names back |
| Cli.Exit | packages/putout/lib/cli/index.js:278-289 | exactly one halt, and it comes last: 0 when falsy, `n` for a number, 1 for an error after logging the raw error or its coloured message |
| Cli.ExitLogsOnlyErrors | packages/putout/lib/cli/index.js:278-289 | something is logged iff `exit` gets an error |
| Cli.LastFormatWins | packages/putout/lib/cli/index.js:31 | a repeated `--format` uses the value given last |
| Cli.PluginNames | packages/putout/lib/cli/index.js:32 | an array passes through; a string is split on commas into comma-free pieces that join back to it |
| Cli.EnvNames | packages/putout/lib/cli/index.js:27-28 | no names iff `PUTOUT_FILES` is empty; otherwise comma-free pieces that join back to it |
| Cli.EnvSingleName | packages/putout/lib/cli/index.js:28 | a single name without commas is the one name |
| Cli.FixableIff | packages/putout/lib/cli/index.js:207-248 | a file is fixable iff none of its places has rule `eslint/null` |
| Cli.ProcessName | packages/putout/lib/cli/index.js:195-253 | one iteration performs exactly the events and result of the per-file step `FileStep` |
| Cli.ProcessNames | packages/putout/lib/cli/index.js:189-254 | the loop performs exactly the events and result of the per-file fold, stopping at the first exception |
| Cli.FileLoopNext | packages/putout/lib/cli/index.js:189-254 | one more iteration appends that file's events after the earlier ones and stops the loop when the file throws; once a file has thrown, nothing more happens |
| Cli.Execute | packages/putout/lib/cli/index.js:34-276 | the driver performs exactly the events and result of the reference run `Run` |
| Cli.Conclude | packages/putout/lib/cli/index.js:256-276 | after the loop it performs exactly the reference events |
| Cli.RemoveBeforeWrite | packages/putout/lib/cli/index.js:243-246 | every write of a file comes right after removing its cache entry |
| Cli.WritesIff | packages/putout/lib/cli/index.js:243-246 | a file is written, and its cache entry removed, iff fix is on, it was processed, and its processed source differs from the raw one; so there is no removal when the sources are equal or fix is off |
| Cli.SetInfoIff | packages/putout/lib/cli/index.js:248-251 | cache info is stored iff the file was processed and no place has rule `eslint/null` |
| Cli.NoProcessorAfterReport | packages/putout/lib/cli/index.js:238-241 | an unclaimed file throws "No processors found" after its report line was read and written, and does nothing else |
| Cli.ReconcileOnce | packages/putout/lib/cli/index.js:256-258 | `reconcile` happens exactly once when every file went through, and never otherwise |
| Cli.EarlyRunReconcilesNever | packages/putout/lib/cli/index.js:122-159 | a run that returns before the loop (version, help, a `getFiles` error, no files) never reconciles |
| Cli.RunCompleted | packages/putout/lib/cli/index.js:141-276 | a run that got through every file is the events before the loop, `cacheFiles`, the loop's events, `reconcile` and what follows it, in that order |
| Cli.NoWritesWithoutFix | packages/putout/lib/cli/index.js:243 | outside fix mode there is no file write and no cache removal in the whole run |
| Cli.EarlyRunNoWrites | packages/putout/lib/cli/index.js:122-159 | a run that returns before the loop writes no file and removes no cache entry |
| Cli.ExitWithPlaces | packages/putout/lib/cli/index.js:260-275 | with places left, no `--enable-all`/`--disable-all`, and no `--fix --staged` run whose `staged.set` returns `undefined`, the run ends with `exit(PLACE)`; this includes pre-commit runs whose `set` returns a list |
| Cli.NoPlacesNoExit | packages/putout/lib/cli/index.js:274-276 | with no places, a plain run ends at `reconcile` without halting |
| Cli.StageThenPlace | packages/putout/lib/cli/index.js:266-275 | when nothing is left staged, `exit(STAGE)` is followed by `exit(PLACE)` if places remain |
| Cli.UndefinedStagedThrows | packages/putout/lib/cli/index.js:268-270 | `set` returning `undefined` makes the `length` read throw |
| Cli.RulerAllExits | packages/putout/lib/cli/index.js:260-264 | `--enable-all`/`--disable-all` runs the ruler on the merged places and then `exit()` |
| Cli.VersionOnly | packages/putout/lib/cli/index.js:122-125 | `--version` logs the version and halts with 0, and nothing else happens |
| Cli.GlobsRequested | packages/putout/lib/cli/index.js:147-153 | the run starts with the ruler, `staged.get` and `getFiles` on the ordered glob list |

## Left out

- The rewriting engine, the linter pass (`./eslint`), `parse-error`, `cache-files`, `merge`, `ruler-processor`, `get-options`, the formatter, `make-report`, `parse-options` (which the remark plugin calls on the virtual name and its options), `parse-sep`'s pattern test and `putout.ignores` are not part of this model. Each is a parameter: its source is not shown, so its result is whatever the caller passes in. In `process-file.js` the engine and the five collaborators around it may throw; only the engine's throw is caught, and the others escape (`ProcessFile.UncaughtThrows`).
- These collaborators are modelled as never throwing, although the source does not catch a throw from them: the `parse-sep` pattern test behind `ParseMatch` (`RegExp` on a bad pattern throws a SyntaxError), `parseOptions` in the remark plugin, remark's `parse` and `stringify`, `git.status` in `Staged`, and, in the driver, `getOptions`, the path resolution, `makeReport`, `merge`, and the `ruler-processor` and `cache-files` calls (`RulerInit`, `RulerApply`, `CacheFiles`, `RemoveEntry`, `SetInfo`, `Reconcile`, which are trace events only). A throw from any of them would end the run where it happens; no lemma here covers those runs.
- The remark/unified parser and printer (`remark-parse`, `remark-stringify`, `unist-util-visit`) are parameters too. A document is its sequence of nodes in visit order. Byte-exact output is not a property of the code.
- ProcessMarkdown.PostProcess and ProcessMarkdown.Apply require at least as many rewritten sources as allow-listed code nodes. With fewer, the source would assign `undefined` to the remaining nodes. Every caller in the source passes exactly that many.
- RemoveUselessForOf.Replace works on values: it returns the replacement node rather than mutating the tree through `replaceWith`. Path aliasing between the two `replaceWith` calls is not modelled.
- ParseMatch: `Object.keys` ordering, which puts integer-like keys first, is not modelled. The entries are taken in the order given.
- ParseMatch: an entry is either `'off'` or a rules object. Any other value, such as another string that `Object.assign` would copy character by character, is not modelled.
- GetPlugins.Resolve: its own failure clause says only that the error is some name's "could not be found"; which name (the first enabled one without a truthy candidate) is stated by `GetPlugins.ResolveFirstFailure`.
- RemarkPutout.WithoutFix: the engine receives what `parseOptions` makes of these options, and `parseOptions` is a parameter, so the model does not show that `fix: false` reaches the engine.
- GetPlugins: an object item's entries are taken in the order given. `Object.entries` puts integer-like keys first, in ascending order, and throws on a `null` item; neither is modelled.
- GetPlugins: the `rules = []` default is modelled as an empty map. `require` and `Module._findPath` are one `load` parameter per module path.
- Processor.ExtName does not model how `path.extname` removes trailing slashes: `a.js/` has extension `''` here but `js` in Node.
- Numbers are unbounded integers. NaN and fractional values are not modelled.
- The `console.log` inside `formatPlaces` is a debug side effect and is left out.
- Staged: `findGit`, `statusMatrix`, `git.status`, `git.add` and `Promise.all` are I/O and concurrency. They are given as the directory, the rows and a status function. `findGit` throwing when no `.git` directory exists is not modelled.
- Cli: yargs parsing, chalk colouring, `ci-info` and `supportedFiles.add(args.ext)` are left out, and so is the `ci` override of `format` and `cache`. The driver starts from the parsed values.
- Cli: `getFormatter` is left out, together with the `exit` it may call. `readFile` and `writeFile` are assumed not to throw.
- Cli: the driver takes the results of `staged.get` and `staged.set` as parameters (`World.stagedNames`, `World.stagedSet`), not from a shared `Staged.Store`. So it also admits worlds where `get` found names but `set` returns `undefined`, which the source cannot produce; every driver lemma holds for those too.
- Cli: `exit-codes` is not part of this model, so `PLACE` and `STAGE` are parameters.
- Cli: `runProcessors` is a parameter of the driver. Its model is the corrected `Processor.RunProcessors`, which forwards the options; the code as written is `Processor.FileAsWritten`.
- Cli: the raw-mode `logError` call of `process-file.js:49-51` is computed per segment (`ProcessFile.RawLogsEngineError`, the `logged` field), but `Processor.Processed` and the driver's event trace do not carry it, so the trace never shows that log line.
- `packages/eslint-plugin-putout/lib/index.js` is a static configuration table. The `madrun.js` files are build scripts. Both are left out.

## Findings

| source | as written | input that shows it | evidently intended | confidence | as-written member | corrected member |
|---|---|---|---|---|---|---|
| packages/putout/lib/cli/processor/index.js:27-34 | `runProcessors` calls `process` without `options`, and `process-file.js:19-22` destructures `{dir}` from `options`, which throws a TypeError | any file the JS processor claims, e.g. `a.js`, or a `.md` file with a `js` code block (a `.md` file without an allow-listed block never calls `process` and passes; `Processor.FileAsWritten`) | the caller's `options` is forwarded with each segment | not executed | Processor.RequestAsWritten | Processor.SegmentRequest |
