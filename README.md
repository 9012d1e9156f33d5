# lazaretto, modelled in Dafny

lazaretto runs a Node.js entry file inside a worker thread and lets a test replace what the
file sees. A test can override globals, builtin modules, installed libraries and the
CommonJS scope identifiers. It can evaluate expressions in the worker and read back a
shared context. This project models the part of lazaretto that makes decisions:

- **Classification of overrides** (`Mockery`, lib/mockery.js). Each mocked name is filed
  into exactly one of the scoped (`s`), global (`g`), builtin (`b`) or library (`l`)
  tables, or the call fails. The `scopeMocks` code builder and `serializeFn` are modelled
  too.
- **Hand-over to the worker** (`Wire`). The tables go to the worker as JSON in an
  environment variable. JSON drops every value that is a function.
- **Preload** (`Preload`, lib/preload.js). The worker evaluates the overrides and builds
  the `builtins` and `libraries` interception sets. It handles `fs/promises` specially,
  stacks re-export wrappers on builtin modules for mocked globals, and fills
  `require.cache`.
- **ESM loader hooks** (`Loader`, lib/loader.mjs). `resolve` is an ordered decision chain.
  `getFormat` marks mock URLs as modules. `getSource` turns a mock's own property names
  into an export list.
- **Instrumented entry** (`Instrument`, index.js:11-25, 69, 72). Covers the `scope` object
  literal, the shims, the comms block flattened onto one line, and the concatenation in
  front of the entry's text.
- **Error diagnosis** (`Diagnosis`, index.js:144-185). Covers frame selection, the line
  number, the messages, and the excerpt window with the failing line marked.
- **The `hook` state machine** (`Hook`, index.js:125-193). Covers the `done` flag, the two
  listeners and every call of the callback.
- **The host session** (`Session`, index.js:93-121). Covers the `exited` flag, merging of
  `context` messages, and `sandbox.fin`.

`Text` models the JavaScript string operations the source relies on: `split`, `join`,
`trim`, `indexOf`, `startsWith`, lower-casing and unary `+`. `Values` models the JavaScript
values that preload and the loader handle.

Everything the source reaches outside itself is a parameter, not part of the model:

- the set of global names;
- `createRequire(entry).resolve`, as a partial function;
- whether a text compiles (`new Script`);
- compiling override text (`Function(...)`), running the compiled override, `require`,
  loading a library and dynamic `import`;
- `path.resolve` and `pathToFileURL`;
- base64 decoding;
- the `sanity` check;
- the first line of `node -c` output.

## Notes on the code

- **`process`.** `process` is excluded from `possibleConflict` (lib/mockery.js:6-8), so an
  unflagged `process` mock is resolved like any other name and filed under `b` only.
- **Lower-case globals.** A lower-case global without `global: true` is resolved: it is
  filed under `b` when the name resolves to itself, under `l` when it resolves elsewhere,
  and under `g` only when resolution throws (lib/mockery.js:56-68).
- **Library keys.** `mocks.library` is keyed by the resolved path (lib/preload.js:78, 82),
  while `libraries` holds the names (lib/preload.js:9). See the lib/preload.js:78 finding.
- **`fin`.** `sandbox.fin` rejects with "Sandbox already finished" once the worker has
  exited (index.js:117), so a second `fin` does not succeed.
- **Line numbers.** The reported line is the raw line of the instrumented text
  (index.js:162). The injected shims and comms sit on the entry's first line
  (`Instrument.LinesPreserved`), so the raw line is the entry's own line only when the
  prefix and the shims are one line each. The comms block is always one line
  (`Instrument.FlattenedOneLine`), and the ESM shims are one line when the entry URL is
  (`Instrument.EsmShimsOneLine`). The CommonJS shims carry the scoped overrides' text
  verbatim (index.js:25, lib/mockery.js:84). A scoped override written over several lines
  therefore makes the shims span lines, and each line break in it moves every later line
  of the entry down by one (`Instrument.CjsShimsBreak`, `Instrument.ShimsShiftLines`).
- **Window and numbering.** The excerpt is `lines.slice(from, to)`, which excludes `to`, and
  the lines are numbered from 0 (index.js:177-183). See the index.js:182-183 finding.
- **`sync` reply.** The worker answers `sync` with `[cmd, workerData.context]` (index.js:35).
- **Failing overrides.** An override that does not compile, or that throws or rejects, in
  any of the three loops of lib/preload.js, rejects preload with its error. `Function(...)`
  runs before the `try` of the library loop (lib/preload.js:74), so a library override with
  a syntax error rejects before the library is loaded and is never caught. In the library loop an error whose `code`
  is `ERR_REQUIRE_ESM` takes the import branch even when the override itself threw it
  (lib/preload.js:79-82), so that override then runs a second time, on the namespace.

- **Stale overrides.** index.js:83 sets `LAZARETTO_OVERRIDES` only when `mockery` returns
  tables, and nothing deletes it. A later sandbox created without mocks in the same process
  inherits the variable, and its worker applies the earlier call's overrides. See the
  index.js:83 finding.

## Model

| member | source | states |
|---|---|---|
| Mockery.SerializeFn | lib/mockery.js:19-32 | the source text when it compiles; otherwise the rewrite (`async` → `async function `, else a `function ` prefix) when that compiles; otherwise a syntax error; a success always compiles |
| Mockery.RewriteOnlyInserts | lib/mockery.js:26-27 | the rewrite only inserts ` function ` at one position or prefixes `function `; no character of the override is lost |
| Mockery.SerializeIdempotent | lib/mockery.js:19-32 | serializing an already serialized override returns it unchanged |
| Mockery.Decide | lib/mockery.js:43-79 | every successful decision comes from an override that serializes |
| Mockery.ScopedFirst | lib/mockery.js:46-49 | a name goes to `s` iff it is one of the five CommonJS identifiers and the entry is not ESM |
| Mockery.GlobalFlagSkipsResolution | lib/mockery.js:51-55 | for a global name that is not scoped and has `global === true`, the decision does not depend on resolution at all, and a success files it under `g` |
| Mockery.ConflictResolution | lib/mockery.js:56-68 | a lower-case global other than `process` without `global: true` goes to `b` iff it resolves to itself, to `l` iff it resolves elsewhere, to `g` iff resolution throws |
| Mockery.OtherNamesResolve | lib/mockery.js:71-78 | any other name goes to `b` iff it resolves to itself, to `l` iff it resolves elsewhere, and fails with the message naming the mock and the entry iff it does not resolve |
| Mockery.MarkerOnlyForBuiltinConflict | lib/mockery.js:61 | `b` receives the `serializeFn` function instead of the text exactly for a lower-case global that resolves to itself |
| Mockery.DecideIntended | lib/mockery.js:61 | with the text stored, no decision yields the marker, and the corrected decision fails exactly when the original does |
| Mockery.Classify | lib/mockery.js:43-79 | the loop over the entries of `mock`: each entry decided in order and appended to the table its decision names; the first failing entry's error ends it |
| Mockery.ClassifyFiles | lib/mockery.js:43-79 | a successful classification decided every entry, and each table lists, in input order, exactly the names filed under it |
| Mockery.FiledMembers | lib/mockery.js:43-79 | a name is in a table iff some entry with that name was decided into that table |
| Mockery.ExactlyOneTable | lib/mockery.js:43-79 | for distinct names, every input name is in exactly the table its decision names, and no table holds a name that was not in the input |
| Mockery.FailureExtends | lib/mockery.js:76-78 | once a prefix of the entries fails, the whole loop fails with the same error |
| Mockery.ClassifyFailsAtFirst | lib/mockery.js:43-79 | the loop throws iff some entry throws, and then with the first such entry's error |
| Mockery.EsmScopesNothing | lib/mockery.js:36 | under ESM the scoped table is empty |
| Mockery.ScopedAreCjsIdentifiers | lib/mockery.js:46-49 | every scoped name is a CommonJS identifier, and a non-empty `s` implies CommonJS |
| Mockery.StoresOnlyText | lib/mockery.js:44-75 | a decider that never yields the marker leaves only override text in `b` |
| Mockery.IntendedStoresText | lib/mockery.js:61 | with line 61 corrected, `b` holds only override text |
| Mockery.DecideEntry | lib/mockery.js:44-78 | the loop body run step by step, with its early exits, yields exactly the decision `Decide` specifies |
| Mockery.Mockery | lib/mockery.js:34-79 | the loop run in place returns null for a falsy `mock`, else the first error or the four tables `Classified` defines |
| Mockery.ScopeStatements | lib/mockery.js:84 | one re-binding statement per scoped entry, in order |
| Mockery.ScopeMocks | lib/mockery.js:81-87 | the statements joined by `;`, empty exactly when nothing is scoped |
| Mockery.ScopeMocksSplit | lib/mockery.js:81-87 | splitting the code on `;` gives back one statement per entry when no name or text contains `;` |
| Wire.Encoded | index.js:83 | what the worker parses back from `JSON.stringify(mocking)`: the entry, `g` and `l` as they are, `b` without its function values |
| Wire.Transfer | index.js:83 | as written, the worker sees the encoded tables when mockery returned some, and otherwise whatever value the variable already held |
| Wire.TransferIntended | index.js:83 | corrected, the variable is set exactly when the call has tables, and then holds what the code as written sets |
| Wire.Texts | index.js:83 | JSON keeps at most the entries of `b` |
| Wire.TextsKeep | index.js:83 | an entry of `b` reaches the worker iff it holds text, and it keeps that text |
| Wire.TextsAllText | index.js:83 | a `b` table of texts only reaches the worker unchanged and in order |
| Wire.BuiltinConflictLost | lib/mockery.js:61 | as written, a mock of a lower-case global that resolves to itself is filed under `b` with the marker, and the worker receives an empty `b` |
| Wire.ConsoleIsPossibleConflict | lib/mockery.js:6-8 | `console` is a possible conflict; `Buffer` and `process` are not |
| Wire.IntendedTransfersBuiltins | lib/mockery.js:61 | corrected, every builtin override reaches the worker under the same names in the same order |
| Preload.Evaluate | lib/preload.js:38-39 | an override that does not compile rejects with its SyntaxError, which has no `code`; otherwise the compiled override applied to the original value, or what it throws |
| Preload.KeySet | lib/preload.js:8-9 | `new Set(Object.keys(t))` holds exactly the table's names |
| Preload.GlobalStage | lib/preload.js:37-40 | when no override throws, the global loop adds exactly the names of `g` to the global mocks and leaves the builtin and library mocks, `builtins` and the cache alone; an override that throws rejects preload |
| Preload.GlobalFailureExtends | lib/preload.js:37-40 | once a prefix of the global overrides throws, the whole global loop rejects with the same error |
| Preload.GlobalFailsAtFirst | lib/preload.js:38-39 | the global loop rejects only with the error of the first override that throws when applied to its global's value at that point |
| Preload.GlobalStagePreservesAgreement | lib/preload.js:39 | `mocks.global[name]` and `global[name]` hold the same value after each step |
| Preload.GlobalMockApplied | lib/preload.js:37-40 | with distinct names, each global mock is what its override returns when applied to the original global value |
| Preload.GlobalUntouched | lib/preload.js:37-40 | a global that is not overridden keeps its value |
| Preload.BuiltinStage | lib/preload.js:42-53 | when it succeeds, the builtin loop adds the names of `b`, and at most `fs/promises` besides, to `mocks.builtin`; `builtins` grows by at most `fs/promises`; globals, libraries and the cache are untouched |
| Preload.BuiltinMockApplied | lib/preload.js:43-44 | with distinct names, each builtin mock other than `fs/promises` is what its override returns when applied to `require(name)` |
| Preload.BuiltinFailsAtFirst | lib/preload.js:42-53 | the builtin loop rejects only with the error of the first override that throws, or of `in` on a non-object `fs` mock |
| Preload.FsPromises | lib/preload.js:43-52 | an `fs` override that throws rejects with its error; mocking `fs` with a value that has `promises` adds `fs/promises` to `builtins`, mapped to that property; without `promises` only `fs` is set; `in` on a non-object throws |
| Preload.ParaStage | lib/preload.js:54-66 | a module has a wrapper iff it had one already or some mocked global is listed for it in `globalsFromBuiltinExports` while the module itself is not mocked |
| Preload.ParaGet | lib/preload.js:59-65 | through stacked wrappers, a key reads the mock of the global it names when that global is re-exported by the module, and the module's own property otherwise |
| Preload.NotReexported | lib/preload.js:56-58 | a module without a wrapper has no wrapped key |
| Preload.LibraryStep | lib/preload.js:74-86 | one library override: its mock stored under the resolved path, and the cache entry replaced in the CommonJS branch |
| Preload.LibraryMock | lib/preload.js:74-86 | a library mock, in either branch, is keyed by the path the name resolves to |
| Preload.LibraryMockApplied | lib/preload.js:74-86 | an override that does not compile rejects with its syntax error before the library is loaded; otherwise the CommonJS branch applies the override to the cached module and replaces the cache entry; an error with code `ERR_REQUIRE_ESM`, from loading or from the override, applies it to the imported namespace; it fails only when compiling fails, loading fails, the import fails or the override throws |
| Preload.LibraryStage | lib/preload.js:73-87 | after a successful library loop every name of `l` has its mock under the path it resolves to, in the CommonJS and the ESM branch alike; every new key is such a path; globals and builtins are untouched |
| Preload.LibraryFailsAtFirst | lib/preload.js:73-87 | the library loop rejects only with the error of the first override that fails to load, to import or to apply |
| Preload.LibraryFrame | lib/preload.js:73-87 | a key that no library name resolves to keeps its cache entry and its library mock |
| Preload.LibraryMocksApplied | lib/preload.js:73-87 | with no two names resolving to the same path, each library mock is its override applied to the module as the cache held it before the loop (or to the ES namespace), and a CommonJS cache entry holds that mock |
| Preload.LibraryStageByName | lib/preload.js:78-82 | corrected, library mocks are keyed by name: the keys are exactly the names of `l`; the loop fails exactly when the loop as written does and leaves the same cache |
| Preload.BuiltinFailureExtends | lib/preload.js:42-53 | once a prefix of the builtin overrides fails, the whole builtin loop fails with the same error |
| Preload.LibraryFailureExtends | lib/preload.js:79-85 | once a prefix of the library overrides fails, the whole library loop fails with the same error |
| Preload.WithoutOverrides | lib/preload.js:33 | without `LAZARETTO_OVERRIDES`, the mocks, `builtins` and `libraries` are empty, the entry is the working directory, and `global` and the cache are unchanged |
| Preload.ReexportTargets | lib/preload.js:11-22 | the globals re-exported by builtins belong to `timers`, `buffer`, `url` or `util` |
| Preload.PreloadSpec | lib/preload.js:26-89 | preload: without `LAZARETTO_OVERRIDES` the empty tables; otherwise the global, builtin, re-export, registration and library stages in order, the first failure rejecting |
| Preload.StaleMocksApplied | index.js:83 | as written, a sandbox created without mocks after one created with mocks preloads the earlier call's entry, global mocks and library names |
| Preload.IntendedNoStaleMocks | index.js:83 | corrected, a sandbox created without mocks preloads empty tables with the working directory as entry, whatever came before |
| Preload.PreloadedTables | lib/preload.js:26-89 | after preload: `libraries` are the names of `l`; the global mocks are keyed by exactly the names of `g` and agree with `global`; every name of `b` is a builtin mock; `builtins` is exactly the keys of `mocks.builtin`, each in the cache; library mocks are keyed by exactly the resolved paths of the names of `l` |
| Preload.PreloadedValues | lib/preload.js:37-71 | after preload, with distinct names: each global mock is its override applied to the original global; each builtin mock but `fs/promises` is its override applied to `require(name)`; the `require.cache` entry of every builtin mock that is not also a library key holds that mock |
| Preload.PreloadedLibraries | lib/preload.js:73-87 | after preload, with no two library names resolving to the same path, each library mock is its override applied to the module as registration left the cache (or to the ES namespace), and a CommonJS cache entry holds it |
| Preload.ReexportedGlobal | lib/preload.js:55-67 | a mocked global listed in `globalsFromBuiltinExports` is served on its module when that module is not mocked |
| Preload.Reexported | lib/preload.js:54-71 | a builtin mock that is a wrapper (not from `b`, not `fs/promises`) answers each mocked global re-exported by that module with its mock and every other key with the real module's property |
| Preload.Preload | lib/preload.js:26-89 | the stages run in place in source order compute `PreloadSpec` |
| Preload.ApplyGlobals | lib/preload.js:37-40 | the loop over `g` computes `GlobalStage`, stopping at the first override that throws |
| Preload.ApplyBuiltins | lib/preload.js:42-53 | the loop over `b` computes `BuiltinStage` |
| Preload.WrapReexports | lib/preload.js:54-66 | the loop over the names of `g` computes `ParaStage` |
| Preload.RegisterBuiltins | lib/preload.js:67-71 | the merge and the registration loop compute `Register` |
| Preload.MockLibrary | lib/preload.js:74-86 | compiling one library override, then its `try`/`catch`, computes `LibraryMock` |
| Preload.ApplyLibraries | lib/preload.js:73-87 | the loop over `l` computes `LibraryStage` |
| Loader.DataCjs | lib/loader.mjs:17-27 | the `data:cjs` branch: the text after the first `;` cut at `,` into the file and its base64 code; the file goes to the default resolver and is recorded as compiled from the decoded code |
| Loader.Resolve | lib/loader.mjs:16-58 | `resolve`: `data:cjs` specifiers first, then mocked builtins, library names, relative specifiers from the entry, absolute paths, and the default resolver, the first that applies deciding |
| Loader.Target | lib/loader.mjs:69-70 | the mock type after `-` in the scheme and the second `:`-piece as the name |
| Loader.GetSource | lib/loader.mjs:67-90 | `getSource`: for a mock URL, the module text re-exporting the mock's own names that `sanity` accepts, with `export default mod` when it has no own `default`; a missing mock throws; other URLs go to the default |
| Loader.ResolutionOrder | lib/loader.mjs:29-57 | resolution tries builtins, then libraries, then relative specifiers from the entry (a library mock or a file URL), then absolute paths, then the default resolver |
| Loader.RelativeElsewhereDelegated | lib/loader.mjs:39-57 | a relative specifier from any other parent goes to the default resolver unchanged |
| Loader.DataCjsRoundTrip | lib/loader.mjs:17-26 | a `data:cjs;<file>,<base64>` specifier delegates to `file` with the decoded code when the file has no `;` or `,` |
| Loader.GetFormat | lib/loader.mjs:60-65 | `module` exactly for `mock-builtin:` and `mock-library:` URLs |
| Loader.ExportFilter | lib/loader.mjs:73-79 | the re-exported names are exactly the own names `sanity` accepts |
| Loader.TargetOfMockUrl | lib/loader.mjs:69-70 | the type and the name read back from a mock URL are the ones it was built from, for a name without `:` |
| Loader.MockUrlIsMock | lib/loader.mjs:61 | every mock URL that resolve builds is recognised by getFormat and getSource |
| Loader.BuiltinServed | lib/loader.mjs:29-33 | a mocked builtin resolves to its mock URL (ahead of libraries), is an ES module, and its source re-exports `mocks.builtin[name]` |
| Loader.LibraryServed | lib/loader.mjs:34-38 | a library name that is not a builtin resolves to `mock-library:<name>` and is served from `mocks.library[name]` |
| Loader.DefaultExportIffNoOwnDefault | lib/loader.mjs:80 | `export default mod` is appended, last, iff the mock has no own `default`; no other line is a default export |
| Loader.ExportedNames | lib/loader.mjs:72-79 | `export const k` appears iff `k` is an own name that `sanity` accepts |
| Loader.ExportLineInjective | lib/loader.mjs:77 | different names give different export lines |
| Values.Get | lib/loader.mjs:71-77 | property read: a string's indices and `length`, an object's first own property of that name, a proxy's wrapped key or its target's property, `undefined` otherwise |
| Values.Has | lib/preload.js:47 | the `in` operator: a TypeError on a primitive or `undefined`, the own names of an object, a proxy asks its target |
| Values.OwnNames | lib/loader.mjs:72 | `Object.getOwnPropertyNames`: a TypeError on `undefined`, none for a number or boolean, a string's indices and `length`, an object's own names in order, a proxy's target's names |
| Values.StringProperties | lib/loader.mjs:71-72 | `Object.getOwnPropertyNames` of a string mock gives its indices and `length`, never `default`; each index reads back its character and `length` the length |
| Loader.StringMockExports | lib/loader.mjs:72-80 | for a mock whose value is a string, `export const length = mod['length']` appears iff `sanity` accepts `length`, and `export default mod` is the last line |
| Loader.TargetCutsAtColon | lib/loader.mjs:69 | as written, a mock name containing `:` is cut at it |
| Loader.NodeFsReadsNode | lib/loader.mjs:69 | as written, `mock-builtin:node:fs` is looked up as `node` |
| Loader.TargetIntendedOfMockUrl | lib/loader.mjs:69-71 | corrected, every mock URL gives back its type and its whole name |
| Loader.OwnDefaultLosesDefaultExport | lib/loader.mjs:80 | as written, a mock with an own `default` gets no default export at all |
| Loader.ExactlyOneDefaultExport | lib/loader.mjs:80 | corrected, every synthesized module has exactly one default export, the last line |
| Loader.IntendedBuiltinServed | lib/loader.mjs:67-86 | corrected, every mocked builtin, `:` or not, is served from its own mock |
| Loader.DataCjsCutsAtComma | lib/loader.mjs:18-19 | as written, an entry path containing `,` is cut there, and the code is decoded from the rest of the path |
| Loader.DataCjsIntendedRoundTrip | lib/loader.mjs:18-19 | corrected, any entry path and its code come back out of the specifier |
| Loader.LibraryMockUnreachable | lib/loader.mjs:34-71 | as written, a library imported by name resolves to `mock-library:<name>`, but `mocks.library` is keyed by path, so getSource throws a TypeError |
| Loader.LibraryByNameServed | lib/loader.mjs:34-71 | corrected, with library mocks keyed by name, every library mock is found |
| Instrument.Scoping | index.js:11-18 | the `scope` object literal as written: each string ref followed by `,`, each pair ref as `a:b` with no separator |
| Instrument.SingleScope | index.js:11 | a `scope` that is not an array is the one-element array of it |
| Instrument.PairsRunTogether | index.js:14-16 | as written, two pair refs render as `{a:xb:y}`, one entry where two were meant |
| Instrument.ListedSplit | index.js:12-18 | corrected, the literal lists one comma-separated entry per string or pair ref, in order |
| Instrument.AgreeWithoutPairs | index.js:12-18 | without pair refs, the literal as written equals the corrected one |
| Instrument.EsmShimsOneLine | index.js:23-24 | the ESM shims are one line when the entry URL is |
| Instrument.CjsShimsOneLine | index.js:25 | the CommonJS shims are one line when no scoped override text spans lines |
| Instrument.Shims | index.js:23-25 | under ESM the `import.meta` shims; under CommonJS the `module`/`require.main` shims followed by `scopeMocks()` when there are tables, and `;` |
| Instrument.CjsShimsBreak | index.js:25 | a scoped override whose text contains a line break makes the CommonJS shims contain one |
| Instrument.TrimmedLines | index.js:69 | one trimmed, `;`-terminated statement per template line |
| Instrument.FlattenedOneLine | index.js:69 | the flattened comms block has no line break, whatever the template |
| Instrument.FlattenedStatements | index.js:69 | the flattened block has one statement per template line, each the trimmed line plus `;` |
| Instrument.Code | index.js:72 | the instrumented source: prefix, shims, comms and the entry's text concatenated |
| Instrument.LinesPreserved | index.js:72 | when the prefix and the shims are one line (the comms always is), the instrumented source has the entry's lines from the second on unchanged and at the same numbers; the first line carries the injected code before it |
| Instrument.ShimsShiftLines | index.js:25 | with a one-line prefix, shims spanning `k` line breaks add `k` lines, and the entry's lines from the second on appear `k` lines further down |
| Diagnosis.Frame | index.js:144-158 | under ESM the first stack line containing the data URL, under CommonJS the first stack line; an ESM syntax error with no frame falls back on `:` plus the first line of the failed `node -c` output |
| Diagnosis.LineOf | index.js:162 | unary `+` of the third `:`-piece of the frame under ESM and the second under CommonJS, NaN when there is none |
| Diagnosis.Decorate | index.js:161-184 | `cb`'s argument: the bare error without a usable frame; a clonability message for a `DataCloneError` from `expr`; otherwise the prefixed banner with the excerpt |
| Diagnosis.FirstContaining | index.js:146 | the index of the first stack line containing the pattern, or -1 iff none does |
| Diagnosis.EsmFrameIsFirst | index.js:145-147 | under ESM the frame is the first stack line pointing into the entry's data URL |
| Diagnosis.EsmLineOf | index.js:162 | under ESM, a frame `a:b:<n>…` is read as line `n` |
| Diagnosis.CjsLineOf | index.js:162 | under CommonJS, a frame `a:<n>…` is read as line `n` |
| Diagnosis.RecheckedFrame | index.js:153-158 | an ESM syntax error with no frame falls back on `:` plus the first line of the failed `node -c` output |
| Diagnosis.RecheckedLine | index.js:156-162 | that fallback frame `:file:<n>` is read as line `n` |
| Diagnosis.Annotate | index.js:178 | annotating line `n` keeps the array length when `n` is inside the file and grows it to `n` otherwise; line 0 or NaN changes no element |
| Diagnosis.Bounds | index.js:181-182 | the window never ends past the array |
| Diagnosis.Excerpt | index.js:183 | the excerpt has `to - from` lines, or none |
| Diagnosis.ExcerptLines | index.js:178-183 | each kept line is its 0-based index, `: `, and the entry's line, the failing one with the banner appended |
| Diagnosis.DiagnosisLines | index.js:177-183 | the diagnosis text splits into exactly the window's lines, numbered by index, the failing line marked |
| Diagnosis.AsWrittenMissesLast | index.js:182-183 | as written, the window never reaches the last element of the split source |
| Diagnosis.LastLineLost | index.js:177-183 | as written, an error on the second line of any two-line file `x\ny` is reported with the excerpt `0: x` only |
| Diagnosis.LastLineShown | index.js:177-183 | corrected, the same error shows `0: x` and `1: y` with the banner appended |
| Diagnosis.IntendedShowsFailingLine | index.js:177-183 | corrected, the window runs from five lines before to five after, clamped to the file, and always shows the failing line marked |
| Diagnosis.ReportShape | index.js:161-184 | the error is decorated iff a non-empty frame was found; it has no excerpt iff it is a `DataCloneError` from `expr`; the message starts with the sandbox prefix; a clone failure quotes the trimmed expression |
| Diagnosis.CloneMessageQuotes | index.js:170-173 | the clonability message starts with the prefix and the trimmed expression |
| Hook.ErrorPath | index.js:140-186 | the error listener: the message listener detached, `done` set, and `cb` called with the error decorated using the window as written |
| Hook.Step | index.js:128-142 | one event: an `err` message takes the error path, a reply to another command is ignored, the matching reply detaches the error listener and calls back unless done; the `error` event is handled once |
| Hook.StepGood | index.js:128-142 | every message or error event keeps the closure state good: calls only once `done`, success only as the first call, at most one more call per attached listener |
| Hook.RunGood | index.js:125-193 | every state reached from the start of a `hook` call is good |
| Hook.AtMostOneSuccess | index.js:134-138 | whatever the worker sends, `cb` is called at most twice, succeeds at most once, and a success is always the first call |
| Hook.FailureFinal | index.js:140-142 | once `cb` has failed, no success follows and the promise's outcome stays the failure |
| Hook.ErrPreempts | index.js:129-131 | an `err` message takes the error path whatever command is pending: the message listener is detached, `done` is set and `cb` fails with the error decorated using the window as written |
| Hook.OtherRepliesIgnored | index.js:133 | a reply to another command changes nothing |
| Hook.ReplySettles | index.js:133-137 | the matching reply as the first event settles the promise with its arguments, whatever follows |
| Hook.ReplyFirst | index.js:133-137 | after the matching reply, the first call of `cb` stays the success |
| Hook.Pending.constructor | index.js:189-190 | both listeners attached, not done, no call |
| Hook.Pending.Error | index.js:140-186 | the error listener run in place computes `ErrorPath`: the message listener is detached, `done` is set and `cb` fails with the error decorated using the window as written |
| Hook.Pending.Deliver | index.js:128-142 | delivering an event in place computes `Step`, whose error branches decorate with the window as written |
| Session.OnMessage | index.js:94-97 | a `context` message merges its object into the context; any other message changes nothing |
| Session.Fin | index.js:112-121 | `fin`: under ESM it clears the loader's variables; after exit it rejects; otherwise it syncs, merges the returned context and terminates, or rejects with the sync error |
| Session.Assign | index.js:96 | `Object.assign`: the keys are the union, and the source's values win |
| Session.AssignTwice | index.js:96 | merging the same context twice is merging it once |
| Session.AssignInOrder | index.js:96 | successive merges equal one merge of the later over the earlier |
| Session.OtherTagsIgnored | index.js:95 | messages with any tag other than `context` leave the context alone |
| Session.FinClearsLoaderEnv | index.js:113-116 | under ESM the loader's two variables are gone after `fin`, whatever its outcome, and nothing else in the environment changes |
| Session.FinAfterExit | index.js:117 | once the worker has exited, `fin` rejects with "Sandbox already finished" and neither merges nor terminates |
| Session.FinBeforeExit | index.js:118-120 | before exit, `fin` succeeds iff `sync` does, then merges the returned context and terminates; otherwise it rejects with the sync error |
| Session.SecondFinRejects | index.js:99-120 | `fin` is not idempotent: after a successful `fin` and the resulting exit, a second `fin` rejects and the merged context stays |
| Session.Sandbox.constructor | index.js:93 | a new sandbox has not exited and is not terminated |
| Session.Sandbox.Receive | index.js:94-97 | the context listener in place computes `OnMessage` |
| Session.Sandbox.Exit | index.js:99-101 | the exit listener sets `exited` |
| Session.Sandbox.Finish | index.js:112-121 | `fin` in place computes `Fin` |

## Left out

- Worker creation, message transport, `worker.terminate` and the timing of the exit event
  (index.js:85-101). They are concurrency and I/O. `Hook` and `Session` take the events in
  order as input.
- The comms block's behaviour inside the worker (index.js:26-68): `vm`, `runInNewContext`
  and the entry-module Proxy. These are runtime semantics of Node's `vm`. Only its text
  shape is modelled, with the template as a parameter.
- lib/context.js and lib/include.js. They are Proxies over worker messaging and dynamic
  `import`.
- lib/hook.mjs. It only registers the loader.
- lib/sanity.js is not part of this model. `sanity` is an abstract predicate on the
  declaration text.
- `Module.prototype._compile` patching (lib/loader.mjs:21-25). It is runtime state.
  The `CompiledFrom` resolution in `Loader` records which file gets which code.
- `process.emitWarning` (lib/mockery.js:10-15, 59). It is a side effect that does not
  affect the result.
- The `serializeFn` catch branch for a non-`SyntaxError`, which returns `undefined`
  (lib/mockery.js:24-31). `parses` is a total predicate, so the model has no third
  outcome.
- Prototype chains: inherited properties of `mock`, of `globalsFromBuiltinExports` and of
  the mock tables. A missing property reads as `undefined`.
- Integer-like keys: JavaScript objects enumerate them first. The model keeps insertion
  order for every key.
- The stack rewriting regular expressions, `escape-string-regexp` and base64 encoding
  (index.js:73-76, 149-151, 157, 163-164). These are library string utilities. `err.stack`
  of the decorated error is therefore not modelled, and the banner search treats the
  escaped message as a plain substring.
- `cp.spawnSync` (index.js:154). It is an external process. Only the first line of its
  error output is a parameter.
- URL parsing and percent-encoding of `pathToFileURL`. The URL becomes an oracle.
- `context()` being awaited in preload (lib/preload.js:32). It is worker messaging.
- `path.isAbsolute` (lib/loader.mjs:51): modelled by the POSIX rule, a leading `/`. Windows
  paths such as `C:\x` are not treated as absolute.
- `require(name)` of a builtin (lib/preload.js:44, 59) is a total oracle. The names of `b`
  resolve to themselves, and the modules that re-export globals always exist.
- Thrown errors are modelled by their message (and, for an override, their `code`). Preload
  rejects with the error object itself.
- Preload.BuiltinMockApplied and Preload.PreloadedValues: state nothing about the value of an
  `fs/promises` override, which a later `fs` override with a `promises` property replaces.
  They also assume distinct names, as object keys are.
- Preload.LibraryMocksApplied and Preload.PreloadedLibraries: assume no two names of `l`
  resolve to the same path. With a shared path the later override is applied to the earlier
  one's mock.
- Text.IsLowerCase: lower-cases ASCII letters only, while `toLowerCase` also folds non-ASCII
  letters. Global names are ASCII identifiers.
- Text.NumberOf: reads only decimal digits with surrounding white space. Signs, decimals,
  exponents and hex forms read as NaN here, though unary `+` accepts them. Frame pieces
  are line numbers.
- Wire.Texts: the contract states only the length bound. The content is stated by
  `Wire.TextsKeep` and `Wire.TextsAllText`.
- Diagnosis.Bounds: the contract states only the bound that makes the slice defined. The
  window itself is stated by `Diagnosis.DiagnosisLines`, `Diagnosis.AsWrittenMissesLast`
  and `Diagnosis.IntendedShowsFailingLine`.

## Findings

| source | as written | input that shows it | evidently intended | confidence | as-written member | corrected member |
|---|---|---|---|---|---|---|
| lib/mockery.js:61 | `b[name] = serializeFn` stores the function, which `JSON.stringify` drops | a mock for `console` on a host where `console` resolves to itself | `b[name] = serializedFn`, like every other branch | not executed; high | Wire.BuiltinConflictLost | Wire.IntendedTransfersBuiltins |
| index.js:14-16 | a pair ref appends `a:b` without a separator | `scope: [['a','x'],['b','y']]` renders `{a:xb:y}` | `{a:x,b:y,}`, one entry per ref | not executed; high | Instrument.PairsRunTogether | Instrument.ListedSplit |
| index.js:182-183 | `to` is clamped to `length - 1` and `slice` excludes it | an error on the last line of a file with no trailing newline, e.g. line 2 of `a\nb`, gives the excerpt `0: a`; a file ending in `\n` has an empty last element, so its failing line is still shown | `to` clamped to `length`, so the failing line is always shown | not executed; medium | Diagnosis.LastLineLost | Diagnosis.IntendedShowsFailingLine |
| lib/preload.js:78 | `mocks.library` is keyed by resolved path while `libraries` holds names | a library `lib` resolving to `/x/node_modules/lib/index.js`, imported as `lib` | mocks keyed by the name the loader looks up | not executed; medium | Loader.LibraryMockUnreachable | Loader.LibraryByNameServed |
| lib/loader.mjs:80 | a mock with an own `default` gets no default export | a mock whose value has a property `default` | `export default mod['default']` | not executed; medium | Loader.OwnDefaultLosesDefaultExport | Loader.ExactlyOneDefaultExport |
| lib/loader.mjs:69 | the name is the second `:`-piece of the URL | a builtin mocked as `node:fs` is looked up as `node` | the name is everything after the first `:` | not executed; high | Loader.NodeFsReadsNode | Loader.TargetIntendedOfMockUrl |
| index.js:83 | `LAZARETTO_OVERRIDES` is set only when `mocking` is non-null and never deleted | `lazaretto({ entry, mock: { lodash: f } })`, then `lazaretto({ entry })` in the same process: the second worker mocks `lodash` with `f` again | each worker sees only its own call's overrides | not executed; medium | Preload.StaleMocksApplied | Preload.IntendedNoStaleMocks |
| lib/loader.mjs:18-19 | the file is cut at its first `,` | an entry path `/tmp/a,b.js` | the file is everything up to the last `,` | not executed; high | Loader.DataCjsCutsAtComma | Loader.DataCjsIntendedRoundTrip |
