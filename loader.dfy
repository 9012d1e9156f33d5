/**
 * lib/loader.mjs: the ES module loader hooks of the worker. `resolve` maps a specifier to a
 * URL (mocked builtins and libraries get a `mock-builtin:` or `mock-library:` URL, relative
 * specifiers from the instrumented entry are resolved against the entry's directory, the
 * `data:cjs` entry is compiled from its embedded source), `getFormat` declares mock URLs to
 * be ES modules, and `getSource` synthesizes a module re-exporting a mock's own properties.
 *
 * `path.resolve`, `pathToFileURL`, base64 decoding and the `sanity` identifier check are
 * oracles; `path.isAbsolute` is the POSIX test for a leading `/`.
 */
module Loader {
  import opened Wrappers
  import opened Text
  import opened Values
  import Preload
  import Wire

  /** LAZARETTO_LOADER_DATA_URL and LAZARETTO_LOADER_RELATIVE_DIR, set together under ESM. */
  datatype EntryData = EntryData(dataUrl: string, relativeDir: string)

  datatype LoaderEnv = LoaderEnv(
    mocks: Preload.Mocks,                 // global[Symbol.for('kLazarettoMocks')]
    builtins: set<string>,
    libraries: set<string>,
    entryData: Option<EntryData>,
    pathResolve: (string, string) -> string,   // path.resolve(dir, specifier)
    fileUrl: string -> string,                 // pathToFileURL(path).href
    decode: string -> string,                  // Buffer.from(text, 'base64').toString()
    sanity: string -> bool)                    // sanity(code) does not throw

  /** The loader's environment once preload has run. */
  function FromPreload(p: Preload.Preloaded, entryData: Option<EntryData>, pathResolve: (string, string) -> string,
                       fileUrl: string -> string, decode: string -> string, sanity: string -> bool): LoaderEnv
  {
    LoaderEnv(p.mocks, p.builtins, p.libraries, entryData, pathResolve, fileUrl, decode, sanity)
  }

  datatype Resolution =
    | Served(url: string)                       // `{ url }`
    | Delegated(specifier: string)              // defaultResolve(specifier, ...)
    | CompiledFrom(file: string, code: string)  // defaultResolve(file, ...) with `_compile` of `file` replaced by `code`

  const TypeError := "TypeError"

  // ---------------------------------------------------------------- resolve

  /** The URL of a mock: `mock-builtin:<name>` or `mock-library:<name>`. */
  function MockUrl(kind: string, name: string): string
  {
    "mock-" + kind + ":" + name
  }

  /** The `data:cjs;<file>,<base64>` branch: the second `;`-piece, cut at its first two `,`-pieces. */
  function DataCjs(env: LoaderEnv, specifier: string): Result<Resolution, string>
  {
    var parts := Split(specifier, ';');
    if |parts| < 2 then Failure(TypeError)      // `contents` is undefined
    else
      var fields := Split(parts[1], ',');
      if |fields| < 2 then Failure(TypeError)   // Buffer.from(undefined, 'base64')
      else Success(CompiledFrom(fields[0], env.decode(fields[1])))
  }

  /** A `.`-specifier imported by the instrumented entry itself. */
  predicate FromEntry(env: LoaderEnv, specifier: string, parentURL: Option<string>)
  {
    StartsWith(specifier, ".") && parentURL.Some? && parentURL.value != "" &&
    env.entryData.Some? && parentURL.value == env.entryData.value.dataUrl
  }

  /** resolve(specifier, { parentURL }): the first matching rule wins. */
  function Resolve(env: LoaderEnv, specifier: string, parentURL: Option<string>): Result<Resolution, string>
  {
    if Contains(specifier, "data:cjs") then DataCjs(env, specifier)
    else if specifier in env.builtins then Success(Served(MockUrl("builtin", specifier)))
    else if specifier in env.libraries then Success(Served(MockUrl("library", specifier)))
    else if FromEntry(env, specifier, parentURL) then
      var absolute := env.pathResolve(env.entryData.value.relativeDir, specifier);
      if absolute in env.libraries then Success(Served(MockUrl("library", absolute)))
      else Success(Served(env.fileUrl(absolute)))
    else if StartsWith(specifier, "/") then Success(Served(env.fileUrl(specifier)))
    else Success(Delegated(specifier))
  }

  /** The order of the rules: data:cjs, builtins, libraries, relative from the entry, absolute paths, then the default. */
  lemma ResolutionOrder(env: LoaderEnv, specifier: string, parentURL: Option<string>)
    requires !Contains(specifier, "data:cjs")
    ensures specifier in env.builtins ==> Resolve(env, specifier, parentURL) == Success(Served(MockUrl("builtin", specifier)))
    ensures specifier !in env.builtins && specifier in env.libraries ==>
      Resolve(env, specifier, parentURL) == Success(Served(MockUrl("library", specifier)))
    ensures specifier !in env.builtins && specifier !in env.libraries && FromEntry(env, specifier, parentURL) ==>
      var absolute := env.pathResolve(env.entryData.value.relativeDir, specifier);
      Resolve(env, specifier, parentURL) ==
        Success(Served(if absolute in env.libraries then MockUrl("library", absolute) else env.fileUrl(absolute)))
    ensures specifier !in env.builtins && specifier !in env.libraries && !FromEntry(env, specifier, parentURL) ==>
      Resolve(env, specifier, parentURL) ==
        Success(if StartsWith(specifier, "/") then Served(env.fileUrl(specifier)) else Delegated(specifier))
  {
  }

  /** A relative specifier imported from anywhere but the entry is left to the default resolver, unchanged. */
  lemma RelativeElsewhereDelegated(env: LoaderEnv, specifier: string, parentURL: Option<string>)
    requires StartsWith(specifier, ".") && !Contains(specifier, "data:cjs")
    requires specifier !in env.builtins && specifier !in env.libraries && !FromEntry(env, specifier, parentURL)
    ensures Resolve(env, specifier, parentURL) == Success(Delegated(specifier))
  {
    assert specifier[0] == '.';
  }

  /** The specifier index.js builds for a CommonJS entry. */
  function DataCjsUrl(file: string, encoded: string): string
  {
    "data:cjs;" + file + "," + encoded
  }

  /** The entry file and its embedded code come back out of the specifier (base64 has neither `;` nor `,`). */
  lemma DataCjsRoundTrip(env: LoaderEnv, file: string, encoded: string, parentURL: Option<string>)
    requires ';' !in file && ',' !in file && ';' !in encoded && ',' !in encoded
    ensures Resolve(env, DataCjsUrl(file, encoded), parentURL) == Success(CompiledFrom(file, env.decode(encoded)))
  {
    var u := DataCjsUrl(file, encoded);
    PrefixContained(u, "data:cjs");
    var contents := file + "," + encoded;
    assert u == "data:cjs" + [';'] + contents;
    SplitAfterPiece("data:cjs", contents, ';');
    assert ';' !in contents;
    SplitWithout(contents, ';');
    assert contents == file + [','] + encoded;
    SplitAfterPiece(file, encoded, ',');
    SplitWithout(encoded, ',');
  }

  // ---------------------------------------------------------------- getFormat and getSource

  predicate IsMockUrl(url: string)
  {
    Contains(url, "mock-builtin:") || Contains(url, "mock-library:")
  }

  datatype Format = ModuleFormat | DefaultFormat(url: string)

  /** getFormat: `module` exactly for mock URLs, the default format otherwise. */
  function GetFormat(url: string): (r: Format)
    ensures r == ModuleFormat <==> IsMockUrl(url)
  {
    if IsMockUrl(url) then ModuleFormat else DefaultFormat(url)
  }

  /** The mock type (after `-` in the scheme) and name (the second `:`-piece) a mock URL names; `undefined` for a missing piece. */
  function Target(url: string): (string, string)
  {
    var parts := Split(url, ':');
    var kinds := Split(parts[0], '-');
    (if |kinds| > 1 then kinds[1] else "undefined", if |parts| > 1 then parts[1] else "undefined")
  }

  /** `mocks[type][name]`: a TypeError for a type that is not a table. */
  function MockedModule(mocks: Preload.Mocks, kind: string, name: string): Result<Value, string>
  {
    if kind == "global" then Success(Preload.ValueAt(mocks.global, name))
    else if kind == "library" then Success(Preload.ValueAt(mocks.library, name))
    else if kind == "builtin" then Success(Preload.ValueAt(mocks.builtin, name))
    else Failure(TypeError)
  }

  /** The declaration `sanity` is asked to accept before a property is re-exported under its own name. */
  function Declaration(k: string): string
  {
    "const " + k + " = 1"
  }

  function ExportLine(k: string): string
  {
    "export const " + k + " = mod['" + k + "']"
  }

  const DefaultExport := "export default mod"

  /** The own property names that `sanity` accepts as binding names, in order. */
  function ExportFilter(api: seq<string>, sanity: string -> bool): (r: seq<string>)
    ensures |r| <= |api|
    ensures forall k :: k in r <==> k in api && sanity(Declaration(k))
  {
    if |api| == 0 then []
    else (if sanity(Declaration(api[0])) then [api[0]] else []) + ExportFilter(api[1..], sanity)
  }

  /** One line per re-exported name, then `export default mod` unless the mock has an own `default`. */
  function ExportLines(api: seq<string>, sanity: string -> bool): seq<string>
  {
    var names := ExportFilter(api, sanity);
    seq(|names|, i requires 0 <= i < |names| => ExportLine(names[i])) + (if "default" in api then [] else [DefaultExport])
  }

  /** The synthesized module text. */
  function SourceText(kind: string, name: string, exports: seq<string>): string
  {
    "\n      const mod = global[Symbol.for('kLazarettoMocks')]." + kind + "['" + name + "']\n      " +
    Join(exports, "\n      ") + "\n    "
  }

  datatype Source = MockSource(text: string) | DefaultSource(url: string)

  /** The module synthesized for the mock `mocks[kind][name]`. */
  function MockSourceFor(env: LoaderEnv, kind: string, name: string): Result<Source, string>
  {
    match MockedModule(env.mocks, kind, name)
    case Failure(e) => Failure(e)
    case Success(mod) =>
      match OwnNames(mod)
      case Failure(e) => Failure(e)
      case Success(api) => Success(MockSource(SourceText(kind, name, ExportLines(api, env.sanity))))
  }

  /** getSource. */
  function GetSource(env: LoaderEnv, url: string): Result<Source, string>
  {
    if IsMockUrl(url) then MockSourceFor(env, Target(url).0, Target(url).1)
    else Success(DefaultSource(url))
  }

  /** A mock URL for a name without `:` names that mock. */
  lemma TargetOfMockUrl(kind: string, name: string)
    requires kind == "builtin" || kind == "library"
    requires ':' !in name
    ensures Target(MockUrl(kind, name)) == (kind, name)
  {
    PlainKind(kind);
    SplitMockUrl(kind, name);
    SplitWithout(name, ':');
    SplitScheme(kind);
  }

  lemma PlainKind(kind: string)
    requires kind == "builtin" || kind == "library"
    ensures ':' !in kind && '-' !in kind
  {
  }

  lemma SplitMockUrl(kind: string, name: string)
    requires ':' !in kind
    ensures Split(MockUrl(kind, name), ':') == ["mock-" + kind] + Split(name, ':')
  {
    var scheme := "mock-" + kind;
    assert ':' !in scheme;
    assert MockUrl(kind, name) == scheme + [':'] + name;
    SplitAfterPiece(scheme, name, ':');
  }

  lemma SplitScheme(kind: string)
    requires '-' !in kind
    ensures Split("mock-" + kind, '-') == ["mock", kind]
  {
    assert "mock-" + kind == "mock" + ['-'] + kind;
    SplitAfterPiece("mock", kind, '-');
    SplitWithout(kind, '-');
  }

  /** Mock URLs are mock URLs to getFormat and getSource. */
  lemma MockUrlIsMock(kind: string, name: string)
    requires kind == "builtin" || kind == "library"
    ensures IsMockUrl(MockUrl(kind, name))
  {
    if kind == "builtin" {
      PrefixContained(MockUrl(kind, name), "mock-builtin:");
    } else {
      PrefixContained(MockUrl(kind, name), "mock-library:");
    }
  }

  /**
   * resolve, getFormat and getSource together: a mocked builtin is served as an ES module
   * re-exporting `mocks.builtin[name]`.
   */
  lemma BuiltinServed(env: LoaderEnv, name: string, parentURL: Option<string>)
    requires name in env.builtins && !Contains(name, "data:cjs") && ':' !in name
    ensures Resolve(env, name, parentURL) == Success(Served(MockUrl("builtin", name)))
    ensures GetFormat(MockUrl("builtin", name)) == ModuleFormat
    ensures GetSource(env, MockUrl("builtin", name)) == MockSourceFor(env, "builtin", name)
    ensures MockedModule(env.mocks, "builtin", name) == Success(Preload.ValueAt(env.mocks.builtin, name))
  {
    MockUrlIsMock("builtin", name);
    TargetOfMockUrl("builtin", name);
  }

  /** A library name (not also a builtin) is served from `mocks.library[name]`. */
  lemma LibraryServed(env: LoaderEnv, name: string, parentURL: Option<string>)
    requires name in env.libraries && name !in env.builtins && !Contains(name, "data:cjs") && ':' !in name
    ensures Resolve(env, name, parentURL) == Success(Served(MockUrl("library", name)))
    ensures GetFormat(MockUrl("library", name)) == ModuleFormat
    ensures GetSource(env, MockUrl("library", name)) == MockSourceFor(env, "library", name)
  {
    MockUrlIsMock("library", name);
    TargetOfMockUrl("library", name);
  }

  /** `export default mod` is the one default export when the mock has no own `default`, and it comes last. */
  predicate IsDefaultExport(line: string)
  {
    StartsWith(line, "export default")
  }

  lemma ExportLineNotDefault(k: string)
    ensures !IsDefaultExport(ExportLine(k))
  {
    assert ExportLine(k)[7] == 'c';
  }

  lemma DefaultExportIffNoOwnDefault(api: seq<string>, sanity: string -> bool)
    ensures var lines := ExportLines(api, sanity);
      ("default" !in api ==> |lines| > 0 && lines[|lines| - 1] == DefaultExport) &&
      (forall i :: 0 <= i < |lines| && IsDefaultExport(lines[i]) ==> "default" !in api && i == |lines| - 1)
  {
    var names := ExportFilter(api, sanity);
    var lines := ExportLines(api, sanity);
    forall i | 0 <= i < |names|
      ensures !IsDefaultExport(lines[i])
    {
      ExportLineNotDefault(names[i]);
    }
  }

  /** Every re-exported name is an own property name that sanity accepts, and each such name is re-exported. */
  lemma ExportedNames(api: seq<string>, sanity: string -> bool, k: string)
    ensures ExportLine(k) in ExportLines(api, sanity) <==> k in api && sanity(Declaration(k))
  {
    var names := ExportFilter(api, sanity);
    var lines := ExportLines(api, sanity);
    if ExportLine(k) in lines {
      var i :| 0 <= i < |lines| && lines[i] == ExportLine(k);
      if i < |names| {
        ExportLineInjective(names[i], k);
      } else {
        ExportLineNotDefault(k);
      }
    }
    if k in api && sanity(Declaration(k)) {
      var i :| 0 <= i < |names| && names[i] == k;
      assert lines[i] == ExportLine(k);
    }
  }

  /** Different names give different export lines. */
  lemma ExportLineInjective(a: string, b: string)
    requires ExportLine(a) == ExportLine(b)
    ensures a == b
  {
    var p := "export const ";
    assert ExportLine(a) == p + (a + " = mod['" + a + "']");
    assert ExportLine(b) == p + (b + " = mod['" + b + "']");
    var ta := a + " = mod['" + a + "']";
    var tb := b + " = mod['" + b + "']";
    assert ta == ExportLine(a)[|p|..] == tb;
    assert |ta| == 2 * |a| + 10 && |tb| == 2 * |b| + 10;
    assert ta[..|a|] == a && tb[..|b|] == b;
  }

  // ---------------------------------------------------------------- a name with `:` in a mock URL

  /** As written: a mocked name with a `:` (such as `node:fs`) is cut at it, and getSource looks up the wrong mock. */
  lemma TargetCutsAtColon(kind: string, a: string, b: string)
    requires kind == "builtin" || kind == "library"
    requires ':' !in a
    ensures Target(MockUrl(kind, a + ":" + b)) == (kind, a)
  {
    PlainKind(kind);
    SplitMockUrl(kind, a + ":" + b);
    assert a + ":" + b == a + [':'] + b;
    SplitAfterPiece(a, b, ':');
    SplitScheme(kind);
  }

  lemma NodeFsReadsNode()
    ensures Target(MockUrl("builtin", "node:fs")) == ("builtin", "node")
  {
    assert "node:fs" == "node" + ":" + "fs";
    TargetCutsAtColon("builtin", "node", "fs");
  }

  /** Corrected: the name is everything after the first `:`. */
  function TargetIntended(url: string): (string, string)
  {
    var parts := Split(url, ':');
    var kinds := Split(parts[0], '-');
    (if |kinds| > 1 then kinds[1] else "undefined", if |parts| > 1 then Join(parts[1..], ":") else "undefined")
  }

  lemma TargetIntendedOfMockUrl(kind: string, name: string)
    requires kind == "builtin" || kind == "library"
    ensures TargetIntended(MockUrl(kind, name)) == (kind, name)
  {
    PlainKind(kind);
    SplitMockUrl(kind, name);
    var parts := Split(MockUrl(kind, name), ':');
    assert parts[1..] == Split(name, ':');
    JoinSplit(name, ':');
    SplitScheme(kind);
  }

  /**
   * A mock whose value is a string: its indices and `length` are its own names, so the
   * synthesized module re-exports `length` when `sanity` accepts it, and still ends with
   * the default export.
   */
  lemma StringMockExports(s: string, sanity: string -> bool)
    ensures OwnNames(Str(s)).Success?
    ensures var lines := ExportLines(OwnNames(Str(s)).value, sanity);
      (ExportLine("length") in lines <==> sanity(Declaration("length"))) &&
      |lines| > 0 && lines[|lines| - 1] == DefaultExport
  {
    StringProperties(s);
    ExportedNames(StringNames(s), sanity, "length");
    DefaultExportIffNoOwnDefault(StringNames(s), sanity);
  }

  // ---------------------------------------------------------------- a mock with an own `default`

  /** As written: a mock with an own `default` property gets no default export at all. */
  lemma OwnDefaultLosesDefaultExport(api: seq<string>, sanity: string -> bool)
    requires "default" in api
    ensures forall i :: 0 <= i < |ExportLines(api, sanity)| ==> !IsDefaultExport(ExportLines(api, sanity)[i])
  {
    DefaultExportIffNoOwnDefault(api, sanity);
  }

  const OwnDefaultExport := "export default mod['default']"

  /** Corrected: the own `default` property is the default export when there is one, the mock itself otherwise. */
  function ExportLinesIntended(api: seq<string>, sanity: string -> bool): seq<string>
  {
    var names := ExportFilter(api, sanity);
    seq(|names|, i requires 0 <= i < |names| => ExportLine(names[i])) +
    [if "default" in api then OwnDefaultExport else DefaultExport]
  }

  /** Every synthesized module has exactly one default export, the last line. */
  lemma ExactlyOneDefaultExport(api: seq<string>, sanity: string -> bool)
    ensures var lines := ExportLinesIntended(api, sanity);
      |lines| > 0 && IsDefaultExport(lines[|lines| - 1]) &&
      forall i :: 0 <= i < |lines| - 1 ==> !IsDefaultExport(lines[i])
  {
    var names := ExportFilter(api, sanity);
    var lines := ExportLinesIntended(api, sanity);
    forall i | 0 <= i < |names|
      ensures !IsDefaultExport(lines[i])
    {
      ExportLineNotDefault(names[i]);
    }
    assert IsDefaultExport(OwnDefaultExport) && IsDefaultExport(DefaultExport);
  }

  /** getSource with both corrections. */
  function MockSourceForIntended(env: LoaderEnv, kind: string, name: string): Result<Source, string>
  {
    match MockedModule(env.mocks, kind, name)
    case Failure(e) => Failure(e)
    case Success(mod) =>
      match OwnNames(mod)
      case Failure(e) => Failure(e)
      case Success(api) => Success(MockSource(SourceText(kind, name, ExportLinesIntended(api, env.sanity))))
  }

  function GetSourceIntended(env: LoaderEnv, url: string): Result<Source, string>
  {
    if IsMockUrl(url) then MockSourceForIntended(env, TargetIntended(url).0, TargetIntended(url).1)
    else Success(DefaultSource(url))
  }

  /** Corrected: every mocked builtin, `:` or not, is served from its own mock. */
  lemma IntendedBuiltinServed(env: LoaderEnv, name: string, parentURL: Option<string>)
    requires name in env.builtins && !Contains(name, "data:cjs")
    ensures Resolve(env, name, parentURL) == Success(Served(MockUrl("builtin", name)))
    ensures GetSourceIntended(env, MockUrl("builtin", name)) == MockSourceForIntended(env, "builtin", name)
  {
    MockUrlIsMock("builtin", name);
    TargetIntendedOfMockUrl("builtin", name);
  }

  // ---------------------------------------------------------------- a `,` in the entry path

  /** As written: an entry path with a `,` is cut at it, and the code is decoded from the rest of the path. */
  lemma DataCjsCutsAtComma(env: LoaderEnv, a: string, b: string, encoded: string, parentURL: Option<string>)
    requires ';' !in a && ',' !in a && ';' !in b && ',' !in b && ';' !in encoded && ',' !in encoded
    ensures Resolve(env, DataCjsUrl(a + "," + b, encoded), parentURL) == Success(CompiledFrom(a, env.decode(b)))
  {
    var u := DataCjsUrl(a + "," + b, encoded);
    PrefixContained(u, "data:cjs");
    var contents := a + "," + b + "," + encoded;
    assert u == "data:cjs" + [';'] + contents;
    SplitAfterPiece("data:cjs", contents, ';');
    assert ';' !in contents;
    SplitWithout(contents, ';');
    assert contents == a + [','] + (b + [','] + encoded);
    SplitAfterPiece(a, b + [','] + encoded, ',');
    SplitAfterPiece(b, encoded, ',');
    SplitWithout(encoded, ',');
  }

  /** Corrected: the file is everything between the first `;` and the last `,`. */
  function DataCjsIntended(env: LoaderEnv, specifier: string): Result<Resolution, string>
  {
    var parts := Split(specifier, ';');
    if |parts| < 2 then Failure(TypeError)
    else
      var fields := Split(Join(parts[1..], ";"), ',');
      if |fields| < 2 then Failure(TypeError)
      else Success(CompiledFrom(Join(fields[..|fields| - 1], ","), env.decode(fields[|fields| - 1])))
  }

  /** Any entry path comes back out of the specifier, with its code. */
  lemma DataCjsIntendedRoundTrip(env: LoaderEnv, file: string, encoded: string)
    requires ',' !in encoded
    ensures DataCjsIntended(env, DataCjsUrl(file, encoded)) == Success(CompiledFrom(file, env.decode(encoded)))
  {
    var u := DataCjsUrl(file, encoded);
    var contents := file + "," + encoded;
    assert u == "data:cjs" + [';'] + contents;
    SplitAfterPiece("data:cjs", contents, ';');
    var parts := Split(u, ';');
    assert parts[1..] == Split(contents, ';');
    JoinSplit(contents, ';');
    assert contents == file + [','] + encoded;
    SplitBeforeLast(file, encoded, ',');
    var fields := Split(contents, ',');
    assert fields[..|fields| - 1] == Split(file, ',');
    JoinSplit(file, ',');
  }

  // ---------------------------------------------------------------- library mocks and their keys

  /**
   * As written: preload keys `mocks.library` by resolved path while `libraries` holds the
   * names, so a library imported under its name is routed to a mock URL whose lookup finds
   * nothing, and getSource throws.
   */
  lemma LibraryMockUnreachable(o: Wire.Overrides, cwd: string, rt: Preload.Runtime, global0: map<string, Value>,
                               cache0: map<string, Value>, out: Preload.Outcome, env: LoaderEnv, name: string, parentURL: Option<string>)
    requires Preload.PreloadSpec(Some(o), cwd, rt, global0, cache0) == Success(out)
    requires env.mocks == out.result.mocks && env.builtins == out.result.builtins && env.libraries == out.result.libraries
    requires name in Preload.KeySet(o.l) && name !in env.builtins && !Contains(name, "data:cjs") && ':' !in name
    requires forall i :: 0 <= i < |o.l| ==> Preload.PathOf(rt.load(o.l[i].0)) != Some(name)
    ensures Resolve(env, name, parentURL) == Success(Served(MockUrl("library", name)))
    ensures GetSource(env, MockUrl("library", name)) == Failure(TypeError)
  {
    Preload.PreloadedTables(o, cwd, rt, global0, cache0, out);
    LibraryServed(env, name, parentURL);
    assert name !in env.mocks.library;
  }

  /** Corrected: keyed by name, every library mock is found by getSource. */
  lemma LibraryByNameServed(t: Preload.Tables, l: seq<(string, string)>, rt: Preload.Runtime, tl: Preload.Tables,
                            env: LoaderEnv, name: string, parentURL: Option<string>)
    requires Preload.LibraryStageByName(t, l, rt) == Success(tl)
    requires env.mocks == tl.mocks && env.libraries == Preload.KeySet(l)
    requires name in env.libraries && name !in env.builtins && !Contains(name, "data:cjs")
    ensures Resolve(env, name, parentURL) == Success(Served(MockUrl("library", name)))
    ensures GetSourceIntended(env, MockUrl("library", name)) == MockSourceForIntended(env, "library", name)
    ensures name in env.mocks.library && MockedModule(env.mocks, "library", name) == Success(env.mocks.library[name])
  {
    MockUrlIsMock("library", name);
    TargetIntendedOfMockUrl("library", name);
  }
}
