/**
 * lib/preload.js: inside the worker, evaluates the override tables received from the host
 * and builds the interception tables the loader serves from: the mocked values per kind
 * (`mocks.global`, `mocks.builtin`, `mocks.library`), the set of builtin names to intercept,
 * the set of library names, and the `require.cache` entries.
 *
 * Compiling an override (`Function(...)`), applying it to the original value, `require`,
 * `createRequire(entry)` and dynamic `import` are oracles of a `Runtime`.
 */
module Preload {
  import opened Wrappers
  import opened Values
  import opened Wire
  import Mockery

  /** Globals that a builtin module also exports, and that module. */
  const GlobalsFromBuiltinExports: map<string, string> := map[
    "setTimeout" := "timers", "clearTimeout" := "timers",
    "setImmediate" := "timers", "clearImmediate" := "timers",
    "setInterval" := "timers", "clearInterval" := "timers",
    "Buffer" := "buffer", "URL" := "url",
    "TextEncoder" := "util", "TextDecoder" := "util"]

  /** What `entryRequire(name)` does for a library mock. */
  datatype Load =
    | Loaded(path: string, exports: Value)  // loaded as CommonJS and cached under the resolved `path`
    | RequiresEsm(path: string)             // threw ERR_REQUIRE_ESM; `entryRequire.resolve(name)` is `path`
    | LoadFailed(message: string)           // threw anything else: rethrown

  /** An error an override throws (or rejects with): its `code` property and its message. */
  datatype Thrown = Thrown(code: string, message: string)

  const RequireEsmCode := "ERR_REQUIRE_ESM"

  datatype Runtime = Runtime(
    compile: string -> Option<string>,              // the SyntaxError that Function('...args', `return (${override})(...args)`) throws, if any
    run: (string, Value) -> Result<Value, Thrown>,  // the compiled override applied to the original, awaited
    require: string -> Value,                       // require(name) of a builtin module
    load: string -> Load,                           // entryRequire(name), then entryRequire.resolve(name)
    dynamicImport: string -> Result<Value, string>) // await include(name): the module namespace of an ES module

  /**
   * `const mock = Function(...)`, then `await mock(original, ...)`: the override's syntax error
   * or what it throws rejects. A SyntaxError carries no `code`.
   */
  function Evaluate(override: string, original: Value, rt: Runtime): Result<Value, Thrown>
  {
    match rt.compile(override)
    case Some(e) => Failure(Thrown("", e))
    case None => rt.run(override, original)
  }

  datatype Mocks = Mocks(global: map<string, Value>, library: map<string, Value>, builtin: map<string, Value>)

  /** Everything preload writes: the mocks object, the global object, the `builtins` set and `require.cache` (exports per key). */
  datatype Tables = Tables(mocks: Mocks, global: map<string, Value>, builtins: set<string>, cache: map<string, Value>)

  /** The object preload resolves to. */
  datatype Preloaded = Preloaded(mocks: Mocks, entry: string, builtins: set<string>, libraries: set<string>)

  /** The result together with the global object and `require.cache` it leaves behind. */
  datatype Outcome = Outcome(result: Preloaded, global: map<string, Value>, cache: map<string, Value>)

  /** A property read on a plain object: `undefined` when absent. */
  function ValueAt(m: map<string, Value>, k: string): Value
  {
    if k in m then m[k] else Undefined
  }

  /** `new Set(Object.keys(t))`. */
  function KeySet(t: seq<(string, string)>): (r: set<string>)
    ensures forall n :: n in r <==> n in Mockery.Names(t)
  {
    set i | 0 <= i < |t| :: t[i].0
  }

  lemma KeySetPrefix(t: seq<(string, string)>)
    requires |t| > 0
    ensures KeySet(t) == KeySet(t[..|t| - 1]) + {t[|t| - 1].0}
  {
    assert forall i :: 0 <= i < |t| - 1 ==> t[..|t| - 1][i] == t[i];
  }

  predicate DistinctKeys(t: seq<(string, string)>)
  {
    forall i, j :: 0 <= i < j < |t| ==> t[i].0 != t[j].0
  }

  // ---------------------------------------------------------------- global overrides

  /** `mocks.global[name] = global[name] = await mock(global[name], ...)`: an override that throws rejects preload. */
  function GlobalStep(t: Tables, name: string, override: string, rt: Runtime): Result<Tables, string>
  {
    match Evaluate(override, ValueAt(t.global, name), rt)
    case Failure(x) => Failure(x.message)
    case Success(v) => Success(t.(mocks := t.mocks.(global := t.mocks.global[name := v]), global := t.global[name := v]))
  }

  function GlobalStage(t: Tables, g: seq<(string, string)>, rt: Runtime): (r: Result<Tables, string>)
    ensures r.Success? ==> r.value.mocks.library == t.mocks.library && r.value.mocks.builtin == t.mocks.builtin
    ensures r.Success? ==> r.value.builtins == t.builtins && r.value.cache == t.cache
    ensures r.Success? ==> r.value.mocks.global.Keys == t.mocks.global.Keys + KeySet(g)
    decreases |g|
  {
    if |g| == 0 then Success(t)
    else
      match GlobalStage(t, g[..|g| - 1], rt)
      case Failure(e) => Failure(e)
      case Success(t1) =>
        KeySetPrefix(g);
        GlobalStep(t1, g[|g| - 1].0, g[|g| - 1].1, rt)
  }

  /** Each mocked global holds the same value on the global object as in `mocks.global`. */
  predicate GlobalsAgree(t: Tables)
  {
    forall n :: n in t.mocks.global ==> n in t.global && t.global[n] == t.mocks.global[n]
  }

  lemma {:induction false} GlobalStagePreservesAgreement(t: Tables, g: seq<(string, string)>, rt: Runtime)
    requires GlobalsAgree(t)
    ensures GlobalStage(t, g, rt).Success? ==> GlobalsAgree(GlobalStage(t, g, rt).value)
    decreases |g|
  {
    if |g| > 0 {
      GlobalStagePreservesAgreement(t, g[..|g| - 1], rt);
    }
  }

  /** With distinct names (as object keys are), each global mock is its override applied to the original global value. */
  lemma {:induction false} GlobalMockApplied(t: Tables, g: seq<(string, string)>, rt: Runtime)
    requires DistinctKeys(g) && GlobalStage(t, g, rt).Success?
    ensures forall i :: 0 <= i < |g| ==>
      Evaluate(g[i].1, ValueAt(t.global, g[i].0), rt) == Success(GlobalStage(t, g, rt).value.mocks.global[g[i].0])
    decreases |g|
  {
    if |g| > 0 {
      var g' := g[..|g| - 1];
      assert DistinctKeys(g');
      var t1 := GlobalStage(t, g', rt).value;
      GlobalMockApplied(t, g', rt);
      GlobalUntouched(t, g', rt, g[|g| - 1].0);
      forall i | 0 <= i < |g| - 1
        ensures Evaluate(g[i].1, ValueAt(t.global, g[i].0), rt) == Success(GlobalStage(t, g, rt).value.mocks.global[g[i].0])
      {
        assert g'[i] == g[i];
      }
    }
  }

  /** A name not among the first overrides still holds its original global value. */
  lemma {:induction false} GlobalUntouched(t: Tables, g: seq<(string, string)>, rt: Runtime, n: string)
    requires n !in KeySet(g) && GlobalStage(t, g, rt).Success?
    ensures ValueAt(GlobalStage(t, g, rt).value.global, n) == ValueAt(t.global, n)
    decreases |g|
  {
    if |g| > 0 {
      GlobalUntouched(t, g[..|g| - 1], rt, n);
      KeySetPrefix(g);
    }
  }

  lemma {:induction false} GlobalFailureExtends(t: Tables, g: seq<(string, string)>, k: nat, rt: Runtime, e: string)
    requires k <= |g| && GlobalStage(t, g[..k], rt) == Failure(e)
    ensures GlobalStage(t, g, rt) == Failure(e)
    decreases |g| - k
  {
    if k < |g| {
      assert g[..k + 1][..k] == g[..k];
      GlobalFailureExtends(t, g, k + 1, rt, e);
    } else {
      assert g[..k] == g;
    }
  }

  /** The override of `name` throws `e` when applied to the value the global has in `t`. */
  predicate GlobalThrows(t: Tables, name: string, override: string, rt: Runtime, e: string)
  {
    Evaluate(override, ValueAt(t.global, name), rt).Failure? && Evaluate(override, ValueAt(t.global, name), rt).error.message == e
  }

  /** The global loop rejects only with the error of the first override that throws, applied to the value its global then has. */
  lemma {:induction false} GlobalFailsAtFirst(t: Tables, g: seq<(string, string)>, rt: Runtime) returns (k: nat)
    requires GlobalStage(t, g, rt).Failure?
    ensures k < |g| && GlobalStage(t, g[..k], rt).Success?
    ensures GlobalThrows(GlobalStage(t, g[..k], rt).value, g[k].0, g[k].1, rt, GlobalStage(t, g, rt).error)
    decreases |g|
  {
    var n := |g| - 1;
    var g' := g[..n];
    if GlobalStage(t, g', rt).Failure? {
      k := GlobalFailsAtFirst(t, g', rt);
      assert g'[..k] == g[..k] && g'[k] == g[k];
    } else {
      k := n;
    }
  }


  // ---------------------------------------------------------------- builtin overrides

  /** One builtin override: the mocked module, and for `fs` with a `promises` property also `fs/promises`. */
  function BuiltinStep(t: Tables, name: string, override: string, rt: Runtime): Result<Tables, string>
  {
    match Evaluate(override, rt.require(name), rt)
    case Failure(x) => Failure(x.message)
    case Success(v) =>
      var t1 := t.(mocks := t.mocks.(builtin := t.mocks.builtin[name := v]));
      if name == "fs" then
        match Has(v, "promises")
        case Failure(e) => Failure(e)
        case Success(false) => Success(t1)
        case Success(true) =>
          Success(t1.(builtins := t1.builtins + {"fs/promises"},
                      mocks := t1.mocks.(builtin := t1.mocks.builtin["fs/promises" := Get(v, "promises")])))
      else Success(t1)
  }

  function BuiltinStage(t: Tables, b: seq<(string, string)>, rt: Runtime): (r: Result<Tables, string>)
    ensures r.Success? ==> r.value.mocks.global == t.mocks.global && r.value.global == t.global
    ensures r.Success? ==> r.value.mocks.library == t.mocks.library && r.value.cache == t.cache
    ensures r.Success? ==> t.mocks.builtin.Keys + KeySet(b) <= r.value.mocks.builtin.Keys <= t.mocks.builtin.Keys + KeySet(b) + {"fs/promises"}
    ensures r.Success? ==> t.builtins <= r.value.builtins && r.value.builtins - t.builtins <= {"fs/promises"}
    ensures r.Success? ==> r.value.builtins - t.builtins <= r.value.mocks.builtin.Keys
    decreases |b|
  {
    if |b| == 0 then Success(t)
    else
      match BuiltinStage(t, b[..|b| - 1], rt)
      case Failure(e) => Failure(e)
      case Success(t1) =>
        KeySetPrefix(b);
        BuiltinStep(t1, b[|b| - 1].0, b[|b| - 1].1, rt)
  }

  /** Mocking `fs` with a value that has `promises` also intercepts `fs/promises`, serving that property; `in` on a non-object throws. */
  lemma FsPromises(t: Tables, override: string, rt: Runtime)
    ensures var r := BuiltinStep(t, "fs", override, rt);
      match Evaluate(override, rt.require("fs"), rt)
      case Failure(x) => r == Failure(x.message)
      case Success(v) =>
        (r.Failure? <==> Has(v, "promises").Failure?) &&
        (r.Success? ==> r.value.mocks.builtin["fs"] == v) &&
        (Has(v, "promises") == Success(true) ==>
          "fs/promises" in r.value.builtins && r.value.mocks.builtin["fs/promises"] == Get(v, "promises")) &&
        (Has(v, "promises") == Success(false) ==>
          r.value.builtins == t.builtins && r.value.mocks.builtin == t.mocks.builtin["fs" := v])
  {
  }

  /** Why one builtin override rejects: the override throws, or it is `fs` and `in` throws on its value. */
  predicate BuiltinThrows(name: string, override: string, rt: Runtime, e: string)
  {
    match Evaluate(override, rt.require(name), rt)
    case Failure(x) => x.message == e
    case Success(v) => name == "fs" && Has(v, "promises") == Failure(e)
  }

  /** The builtin loop rejects only with the error of the first override that throws. */
  lemma {:induction false} BuiltinFailsAtFirst(t: Tables, b: seq<(string, string)>, rt: Runtime) returns (k: nat)
    requires BuiltinStage(t, b, rt).Failure?
    ensures k < |b| && BuiltinStage(t, b[..k], rt).Success?
    ensures BuiltinThrows(b[k].0, b[k].1, rt, BuiltinStage(t, b, rt).error)
    decreases |b|
  {
    var n := |b| - 1;
    var b' := b[..n];
    if BuiltinStage(t, b', rt).Failure? {
      k := BuiltinFailsAtFirst(t, b', rt);
      assert b'[..k] == b[..k] && b'[k] == b[k];
    } else {
      k := n;
    }
  }


  /** With distinct names, each builtin mock other than `fs/promises` is its override applied to the module `require` returns. */
  lemma {:induction false} BuiltinMockApplied(t: Tables, b: seq<(string, string)>, rt: Runtime)
    requires DistinctKeys(b) && BuiltinStage(t, b, rt).Success?
    ensures forall i :: 0 <= i < |b| && b[i].0 != "fs/promises" ==>
      Evaluate(b[i].1, rt.require(b[i].0), rt) == Success(BuiltinStage(t, b, rt).value.mocks.builtin[b[i].0])
    decreases |b|
  {
    if |b| > 0 {
      var n := |b| - 1;
      var b' := b[..n];
      assert forall i :: 0 <= i < n ==> b'[i] == b[i];
      assert DistinctKeys(b');
      BuiltinMockApplied(t, b', rt);
      var t1 := BuiltinStage(t, b', rt).value;
      assert BuiltinStep(t1, b[n].0, b[n].1, rt) == BuiltinStage(t, b, rt);
      BuiltinStepKeeps(t1, b[n].0, b[n].1, rt);
    }
  }

  /** One builtin override sets its own mock and keeps every other one but `fs/promises`. */
  lemma BuiltinStepKeeps(t: Tables, name: string, override: string, rt: Runtime)
    requires BuiltinStep(t, name, override, rt).Success?
    ensures name != "fs/promises" ==>
      Evaluate(override, rt.require(name), rt) == Success(BuiltinStep(t, name, override, rt).value.mocks.builtin[name])
    ensures forall k :: k in t.mocks.builtin && k != name && k != "fs/promises" ==>
      BuiltinStep(t, name, override, rt).value.mocks.builtin[k] == t.mocks.builtin[k]
  {
  }


  // ---------------------------------------------------------------- builtins re-exporting a mocked global

  /** The mocked global `name` gets a wrapper on the builtin module `m` that also exports it, unless `m` is mocked itself. */
  predicate Reexports(name: string, m: string, builtin: map<string, Value>)
  {
    ExportedBy(name, m) && m !in builtin
  }

  /** The builtin module `m` also exports the global `name`. */
  predicate ExportedBy(name: string, m: string)
  {
    name in GlobalsFromBuiltinExports && GlobalsFromBuiltinExports[name] == m
  }

  /** `paraMocks[m] = new Proxy(paraMocks[m] || require(m), { get: name -> mocks.global[name], else pass through })`. */
  function ParaStep(para: map<string, Value>, t: Tables, name: string, rt: Runtime): map<string, Value>
  {
    if name !in GlobalsFromBuiltinExports then para
    else
      var m := GlobalsFromBuiltinExports[name];
      if m in t.mocks.builtin then para
      else para[m := Wrapper(if m in para then para[m] else rt.require(m), name, ValueAt(t.mocks.global, name))]
  }

  /** The wrapping loop over `Object.keys(g)`. */
  function ParaStage(para: map<string, Value>, t: Tables, g: seq<(string, string)>, rt: Runtime): (r: map<string, Value>)
    ensures forall m :: m in r <==> m in para || exists i :: 0 <= i < |g| && Reexports(g[i].0, m, t.mocks.builtin)
    decreases |g|
  {
    if |g| == 0 then para
    else
      var r := ParaStep(ParaStage(para, t, g[..|g| - 1], rt), t, g[|g| - 1].0, rt);
      assert forall i :: 0 <= i < |g| - 1 ==> g[..|g| - 1][i] == g[i];
      r
  }

  /** What a wrapped module was before the first wrapper: an earlier wrapper, or the module itself. */
  function Base(para: map<string, Value>, m: string, rt: Runtime): Value
  {
    if m in para then para[m] else rt.require(m)
  }

  /**
   * Stacked wrappers: reading a key of a wrapped module gives the mock of that global when
   * the global is mocked and re-exported by the module, and the module's own property otherwise.
   */
  lemma {:induction false} ParaGet(para: map<string, Value>, t: Tables, g: seq<(string, string)>, rt: Runtime, m: string, k: string)
    requires m in ParaStage(para, t, g, rt)
    ensures Get(ParaStage(para, t, g, rt)[m], k) ==
      if k in Mockery.Names(g) && Reexports(k, m, t.mocks.builtin) then ValueAt(t.mocks.global, k)
      else Get(Base(para, m, rt), k)
    decreases |g|
  {
    if |g| == 0 {
      return;
    }
    var g' := g[..|g| - 1];
    var last := g[|g| - 1].0;
    var prev := ParaStage(para, t, g', rt);
    var r := ParaStage(para, t, g, rt);
    assert r == ParaStep(prev, t, last, rt);
    NamesPrefix(g);
    if Reexports(last, m, t.mocks.builtin) {
      assert r[m] == Wrapper(Base(prev, m, rt), last, ValueAt(t.mocks.global, last));
      if k != last {
        if m in prev {
          ParaGet(para, t, g', rt, m, k);
        } else {
          NotReexported(para, t, g', rt, m, k);
        }
      }
    } else {
      assert m in prev && r[m] == prev[m];
      ParaGet(para, t, g', rt, m, k);
    }
  }

  lemma NamesPrefix(g: seq<(string, string)>)
    requires |g| > 0
    ensures Mockery.Names(g) == Mockery.Names(g[..|g| - 1]) + [g[|g| - 1].0]
  {
  }

  /** A module that no earlier name wrapped has no earlier mocked key. */
  lemma NotReexported(para: map<string, Value>, t: Tables, g: seq<(string, string)>, rt: Runtime, m: string, k: string)
    requires m !in ParaStage(para, t, g, rt)
    ensures m !in para && !(k in Mockery.Names(g) && Reexports(k, m, t.mocks.builtin))
  {
    assert forall i :: 0 <= i < |g| ==> !Reexports(g[i].0, m, t.mocks.builtin);
    assert forall i :: 0 <= i < |g| ==> Mockery.Names(g)[i] == g[i].0;
  }

  // ---------------------------------------------------------------- registration

  /** `Object.assign(mocks.builtin, paraMocks)`, then every builtin mock is intercepted and cached by name. */
  function Register(t: Tables, para: map<string, Value>): Tables
  {
    var builtin := t.mocks.builtin + para;
    t.(mocks := t.mocks.(builtin := builtin), builtins := t.builtins + builtin.Keys, cache := t.cache + builtin)
  }

  // ---------------------------------------------------------------- library overrides

  /** What one library override yields: the path it is keyed under, the mock, and whether the CommonJS cache entry now holds it. */
  datatype Applied = Applied(path: string, mock: Value, cached: bool)

  /** The module a CommonJS library is mocked from: its `require.cache` entry. */
  function CachedExports(cache: map<string, Value>, path: string, exports: Value): Value
  {
    if path in cache then cache[path] else exports
  }

  /** The `catch` branch for ERR_REQUIRE_ESM: the override applied to the namespace `include(name)` imports. */
  function ViaImport(path: string, name: string, override: string, rt: Runtime): Result<Applied, string>
  {
    match rt.dynamicImport(name)
    case Failure(e) => Failure(e)
    case Success(ns) =>
      match rt.run(override, ns)
      case Failure(x) => Failure(x.message)
      case Success(v) => Success(Applied(path, v, false))
  }

  /**
   * One library override. `Function(...)` compiles it before the `try`, so its syntax error
   * rejects before the library is loaded. In the `try`/`catch`, any error with code
   * ERR_REQUIRE_ESM, whether from loading or from the override itself, takes the import
   * branch; every other error is rethrown.
   */
  function LibraryMock(cache: map<string, Value>, name: string, override: string, rt: Runtime): (r: Result<Applied, string>)
    ensures r.Success? ==> PathOf(rt.load(name)) == Some(r.value.path)
  {
    match rt.compile(override)
    case Some(e) => Failure(e)
    case None =>
      match rt.load(name)
      case LoadFailed(e) => Failure(e)
      case Loaded(path, exports) =>
        (match rt.run(override, CachedExports(cache, path, exports))
         case Success(v) => Success(Applied(path, v, true))
         case Failure(x) => if x.code == RequireEsmCode then ViaImport(path, name, override, rt) else Failure(x.message))
      case RequiresEsm(path) => ViaImport(path, name, override, rt)
  }

  /**
   * A library mock is the compiled override applied to the cached CommonJS module, or to the
   * ES module namespace. It fails only when the override does not compile (whatever loading
   * would do), loading fails, the import fails or the override throws.
   */
  lemma LibraryMockApplied(cache: map<string, Value>, name: string, override: string, rt: Runtime)
    ensures var r := LibraryMock(cache, name, override, rt);
      (rt.compile(override).Some? ==> r == Failure(rt.compile(override).value)) &&
      (r.Success? ==> rt.compile(override) == None) &&
      (r.Success? && r.value.cached ==>
        rt.load(name).Loaded? && rt.run(override, CachedExports(cache, rt.load(name).path, rt.load(name).exports)) == Success(r.value.mock)) &&
      (r.Success? && !r.value.cached ==>
        rt.dynamicImport(name).Success? && rt.run(override, rt.dynamicImport(name).value) == Success(r.value.mock)) &&
      (r.Failure? ==>
        rt.compile(override) == Some(r.error) || rt.load(name) == LoadFailed(r.error) || rt.dynamicImport(name) == Failure(r.error) ||
        exists x :: rt.run(override, x).Failure? && rt.run(override, x).error.message == r.error)
  {
  }

  /** One library override: keyed by the path the name resolves to from the entry, in both branches. */
  function LibraryStep(t: Tables, name: string, override: string, rt: Runtime): Result<Tables, string>
  {
    match LibraryMock(t.cache, name, override, rt)
    case Failure(e) => Failure(e)
    case Success(a) =>
      Success(t.(mocks := t.mocks.(library := t.mocks.library[a.path := a.mock]),
                 cache := if a.cached then t.cache[a.path := a.mock] else t.cache))
  }

  /** The path a library name is keyed under, when it loads. */
  function PathOf(ld: Load): Option<string>
  {
    match ld
    case Loaded(path, _) => Some(path)
    case RequiresEsm(path) => Some(path)
    case LoadFailed(_) => None
  }

  function LibraryStage(t: Tables, l: seq<(string, string)>, rt: Runtime): (r: Result<Tables, string>)
    ensures r.Success? ==> r.value.mocks.global == t.mocks.global && r.value.global == t.global
    ensures r.Success? ==> r.value.mocks.builtin == t.mocks.builtin && r.value.builtins == t.builtins
    ensures r.Success? ==> t.cache.Keys <= r.value.cache.Keys
    ensures r.Success? ==> forall i :: 0 <= i < |l| ==> PathOf(rt.load(l[i].0)).Some? && PathOf(rt.load(l[i].0)).value in r.value.mocks.library
    ensures r.Success? ==> forall p :: p in r.value.mocks.library ==>
      p in t.mocks.library || exists i :: 0 <= i < |l| && PathOf(rt.load(l[i].0)) == Some(p)
    decreases |l|
  {
    if |l| == 0 then Success(t)
    else
      var l' := l[..|l| - 1];
      assert forall i :: 0 <= i < |l| - 1 ==> l'[i] == l[i];
      match LibraryStage(t, l', rt)
      case Failure(e) => Failure(e)
      case Success(t1) => LibraryStep(t1, l[|l| - 1].0, l[|l| - 1].1, rt)
  }

  /** The library loop rejects only with the error of the first override that fails to load, to import or to apply. */
  lemma {:induction false} LibraryFailsAtFirst(t: Tables, l: seq<(string, string)>, rt: Runtime) returns (k: nat)
    requires LibraryStage(t, l, rt).Failure?
    ensures k < |l| && LibraryStage(t, l[..k], rt).Success?
    ensures LibraryMock(LibraryStage(t, l[..k], rt).value.cache, l[k].0, l[k].1, rt) == Failure(LibraryStage(t, l, rt).error)
    decreases |l|
  {
    var n := |l| - 1;
    var l' := l[..n];
    if LibraryStage(t, l', rt).Failure? {
      k := LibraryFailsAtFirst(t, l', rt);
      assert l'[..k] == l[..k] && l'[k] == l[k];
    } else {
      k := n;
    }
  }


  /** The tables hold the mock under its path, and in the cache too when it replaced the CommonJS entry. */
  predicate HoldsMock(r: Tables, a: Applied)
  {
    a.path in r.mocks.library && r.mocks.library[a.path] == a.mock &&
    (a.cached ==> a.path in r.cache && r.cache[a.path] == a.mock)
  }

  /** No two library names resolve to the same path. */
  predicate DistinctPaths(l: seq<(string, string)>, rt: Runtime)
  {
    forall i, j :: 0 <= i < j < |l| ==> PathOf(rt.load(l[i].0)) != PathOf(rt.load(l[j].0))
  }

  /** A key no library name resolves to keeps its cache entry and its library mock. */
  lemma {:induction false} LibraryFrame(t: Tables, l: seq<(string, string)>, rt: Runtime, k: string)
    requires LibraryStage(t, l, rt).Success?
    requires forall i :: 0 <= i < |l| ==> PathOf(rt.load(l[i].0)) != Some(k)
    ensures var r := LibraryStage(t, l, rt).value;
      (k in r.cache <==> k in t.cache) && (k in t.cache ==> r.cache[k] == t.cache[k]) &&
      (k in r.mocks.library <==> k in t.mocks.library) && (k in t.mocks.library ==> r.mocks.library[k] == t.mocks.library[k])
    decreases |l|
  {
    if |l| > 0 {
      var l' := l[..|l| - 1];
      assert forall i :: 0 <= i < |l'| ==> l'[i] == l[i];
      LibraryFrame(t, l', rt, k);
    }
  }

  /**
   * With no two names resolving to the same path, each library mock is its override applied
   * to the module as the cache held it before the loop (or to the ES module namespace), and
   * in the CommonJS branch the cache entry holds the mock too.
   */
  lemma {:induction false} LibraryMocksApplied(t: Tables, l: seq<(string, string)>, rt: Runtime)
    requires DistinctPaths(l, rt) && LibraryStage(t, l, rt).Success?
    ensures forall i :: 0 <= i < |l| ==>
      LibraryMock(t.cache, l[i].0, l[i].1, rt).Success? &&
      HoldsMock(LibraryStage(t, l, rt).value, LibraryMock(t.cache, l[i].0, l[i].1, rt).value)
    decreases |l|
  {
    if |l| > 0 {
      var l' := l[..|l| - 1];
      assert forall i :: 0 <= i < |l'| ==> l'[i] == l[i];
      assert DistinctPaths(l', rt);
      LibraryMocksApplied(t, l', rt);
      var t1 := LibraryStageLast(t, l, rt);
      LibraryMocksAppliedLast(t, t1, LibraryStage(t, l, rt).value, l, rt);
    }
  }

  /** The inductive step of LibraryMocksApplied: the last override keeps the earlier mocks and holds its own. */
  lemma LibraryMocksAppliedLast(t: Tables, t1: Tables, r: Tables, l: seq<(string, string)>, rt: Runtime)
    requires DistinctPaths(l, rt) && |l| > 0
    requires LibraryStage(t, l[..|l| - 1], rt) == Success(t1)
    requires LibraryStep(t1, l[|l| - 1].0, l[|l| - 1].1, rt) == Success(r)
    requires LibraryMock(t1.cache, l[|l| - 1].0, l[|l| - 1].1, rt).Success?
    requires PathOf(rt.load(l[|l| - 1].0)) == Some(LibraryMock(t1.cache, l[|l| - 1].0, l[|l| - 1].1, rt).value.path)
    requires forall i :: 0 <= i < |l| - 1 ==>
      LibraryMock(t.cache, l[i].0, l[i].1, rt).Success? && HoldsMock(t1, LibraryMock(t.cache, l[i].0, l[i].1, rt).value)
    ensures forall i :: 0 <= i < |l| ==>
      LibraryMock(t.cache, l[i].0, l[i].1, rt).Success? && HoldsMock(r, LibraryMock(t.cache, l[i].0, l[i].1, rt).value)
  {
    var n := |l| - 1;
    var l' := l[..n];
    var p := LibraryMock(t1.cache, l[n].0, l[n].1, rt).value.path;
    assert forall i :: 0 <= i < n ==> l'[i] == l[i];
    assert forall i :: 0 <= i < n ==> PathOf(rt.load(l'[i].0)) != Some(p);
    LibraryFrame(t, l', rt, p);
    LibraryMockSameEntry(t1.cache, t.cache, l[n].0, l[n].1, rt);
    LibraryMocksAppliedStep(t, t1, r, l, rt);
  }

  /** The library loop is its prefix followed by the last override. */
  lemma LibraryStageLast(t: Tables, l: seq<(string, string)>, rt: Runtime) returns (t1: Tables)
    requires |l| > 0 && LibraryStage(t, l, rt).Success?
    ensures LibraryStage(t, l[..|l| - 1], rt) == Success(t1)
    ensures LibraryStep(t1, l[|l| - 1].0, l[|l| - 1].1, rt) == LibraryStage(t, l, rt)
    ensures LibraryMock(t1.cache, l[|l| - 1].0, l[|l| - 1].1, rt).Success?
    ensures PathOf(rt.load(l[|l| - 1].0)) == Some(LibraryMock(t1.cache, l[|l| - 1].0, l[|l| - 1].1, rt).value.path)
  {
    t1 := LibraryStage(t, l[..|l| - 1], rt).value;
  }


  lemma LibraryMocksAppliedStep(t: Tables, t1: Tables, r: Tables, l: seq<(string, string)>, rt: Runtime)
    requires DistinctPaths(l, rt) && |l| > 0
    requires LibraryStep(t1, l[|l| - 1].0, l[|l| - 1].1, rt) == Success(r)
    requires LibraryMock(t1.cache, l[|l| - 1].0, l[|l| - 1].1, rt) == LibraryMock(t.cache, l[|l| - 1].0, l[|l| - 1].1, rt)
    requires forall i :: 0 <= i < |l| - 1 ==>
      LibraryMock(t.cache, l[i].0, l[i].1, rt).Success? && HoldsMock(t1, LibraryMock(t.cache, l[i].0, l[i].1, rt).value)
    ensures forall i :: 0 <= i < |l| ==>
      LibraryMock(t.cache, l[i].0, l[i].1, rt).Success? && HoldsMock(r, LibraryMock(t.cache, l[i].0, l[i].1, rt).value)
  {
    var n := |l| - 1;
    forall i | 0 <= i < |l|
      ensures LibraryMock(t.cache, l[i].0, l[i].1, rt).Success? && HoldsMock(r, LibraryMock(t.cache, l[i].0, l[i].1, rt).value)
    {
      var a := LibraryMock(t.cache, l[i].0, l[i].1, rt);
      LibraryStepHolds(t1, l[n].0, l[n].1, rt, a.value);
      if i < n {
        assert PathOf(rt.load(l[i].0)) != PathOf(rt.load(l[n].0));
      }
    }
  }

  /** One library override holds its mock afterwards and keeps every mock held under another path. */
  lemma LibraryStepHolds(t: Tables, name: string, override: string, rt: Runtime, a: Applied)
    requires LibraryStep(t, name, override, rt).Success?
    ensures HoldsMock(LibraryStep(t, name, override, rt).value, LibraryMock(t.cache, name, override, rt).value)
    ensures HoldsMock(t, a) && a.path != LibraryMock(t.cache, name, override, rt).value.path ==>
      HoldsMock(LibraryStep(t, name, override, rt).value, a)
  {
  }

  /** Two caches that agree on the path a name resolves to give the same library mock. */
  lemma LibraryMockSameEntry(c1: map<string, Value>, c2: map<string, Value>, name: string, override: string, rt: Runtime)
    requires rt.load(name).Loaded? ==>
      (rt.load(name).path in c1 <==> rt.load(name).path in c2) &&
      (rt.load(name).path in c1 ==> c1[rt.load(name).path] == c2[rt.load(name).path])
    ensures LibraryMock(c1, name, override, rt) == LibraryMock(c2, name, override, rt)
  {
  }

  /** Library overrides keyed by the name the loader looks them up under; `require.cache` stays keyed by path. */
  function LibraryStepByName(t: Tables, name: string, override: string, rt: Runtime): Result<Tables, string>
  {
    match LibraryMock(t.cache, name, override, rt)
    case Failure(e) => Failure(e)
    case Success(a) =>
      Success(t.(mocks := t.mocks.(library := t.mocks.library[name := a.mock]),
                 cache := if a.cached then t.cache[a.path := a.mock] else t.cache))
  }

  /** Keyed by name, the loop fails exactly when the loop as written does, and leaves the same cache. */
  function LibraryStageByName(t: Tables, l: seq<(string, string)>, rt: Runtime): (r: Result<Tables, string>)
    ensures r.Success? ==> r.value.mocks.global == t.mocks.global && r.value.mocks.builtin == t.mocks.builtin
    ensures r.Success? ==> r.value.mocks.library.Keys == t.mocks.library.Keys + KeySet(l)
    ensures r.Success? <==> LibraryStage(t, l, rt).Success?
    ensures r.Success? ==> r.value.cache == LibraryStage(t, l, rt).value.cache
    decreases |l|
  {
    if |l| == 0 then Success(t)
    else
      var l' := l[..|l| - 1];
      assert forall i :: 0 <= i < |l| - 1 ==> l'[i] == l[i];
      KeySetPrefix(l);
      match LibraryStageByName(t, l', rt)
      case Failure(e) => Failure(e)
      case Success(t1) => LibraryStepByName(t1, l[|l| - 1].0, l[|l| - 1].1, rt)
  }

  lemma {:induction false} BuiltinFailureExtends(t: Tables, b: seq<(string, string)>, k: nat, rt: Runtime, e: string)
    requires k <= |b| && BuiltinStage(t, b[..k], rt) == Failure(e)
    ensures BuiltinStage(t, b, rt) == Failure(e)
    decreases |b| - k
  {
    if k < |b| {
      assert b[..k + 1][..k] == b[..k];
      BuiltinFailureExtends(t, b, k + 1, rt, e);
    } else {
      assert b[..k] == b;
    }
  }

  lemma {:induction false} LibraryFailureExtends(t: Tables, l: seq<(string, string)>, k: nat, rt: Runtime, e: string)
    requires k <= |l| && LibraryStage(t, l[..k], rt) == Failure(e)
    ensures LibraryStage(t, l, rt) == Failure(e)
    decreases |l| - k
  {
    if k < |l| {
      assert l[..k + 1][..k] == l[..k];
      LibraryFailureExtends(t, l, k + 1, rt, e);
    } else {
      assert l[..k] == l;
    }
  }

  // ---------------------------------------------------------------- preload()

  const NoMocks := Mocks(map[], map[], map[])

  /** preload(): empty tables without overrides; otherwise the four stages in source order. */
  function PreloadSpec(overrides: Option<Overrides>, cwd: string, rt: Runtime,
                       global0: map<string, Value>, cache0: map<string, Value>): Result<Outcome, string>
  {
    match overrides
    case None => Success(Outcome(Preloaded(NoMocks, cwd, {}, {}), global0, cache0))
    case Some(o) =>
      match GlobalStage(Tables(NoMocks, global0, KeySet(o.b), cache0), o.g, rt)
      case Failure(e) => Failure(e)
      case Success(t1) =>
        match BuiltinStage(t1, o.b, rt)
        case Failure(e) => Failure(e)
        case Success(t2) =>
          match LibraryStage(Register(t2, ParaStage(map[], t2, o.g, rt)), o.l, rt)
          case Failure(e) => Failure(e)
          case Success(t4) => Success(Outcome(Preloaded(t4.mocks, o.entry, t4.builtins, KeySet(o.l)), t4.global, t4.cache))
  }

  /** Without overrides nothing is mocked and nothing is intercepted; the entry defaults to the working directory. */
  lemma WithoutOverrides(cwd: string, rt: Runtime, global0: map<string, Value>, cache0: map<string, Value>)
    ensures PreloadSpec(None, cwd, rt, global0, cache0) ==
      Success(Outcome(Preloaded(Mocks(map[], map[], map[]), cwd, {}, {}), global0, cache0))
  {
  }

  /**
   * As written: in one process, a sandbox created without mocks after one created with mocks
   * receives the earlier tables, and its preload mocks the earlier sandbox's globals for the
   * earlier sandbox's entry.
   */
  lemma StaleMocksApplied(previous: Option<Overrides>, first: Mockery.Mocking, cwd: string, rt: Runtime,
                          global0: map<string, Value>, cache0: map<string, Value>, out: Outcome)
    requires PreloadSpec(Transfer(Transfer(previous, Some(first)), None), cwd, rt, global0, cache0) == Success(out)
    ensures out.result.entry == first.entry
    ensures out.result.mocks.global.Keys == KeySet(first.g)
    ensures out.result.libraries == KeySet(first.l)
  {
    PreloadedTables(Encoded(first), cwd, rt, global0, cache0, out);
  }

  /** Corrected: a sandbox created without mocks mocks nothing, whatever earlier sandboxes did. */
  lemma IntendedNoStaleMocks(cwd: string, rt: Runtime, global0: map<string, Value>, cache0: map<string, Value>)
    ensures PreloadSpec(TransferIntended(None), cwd, rt, global0, cache0) ==
      Success(Outcome(Preloaded(Mocks(map[], map[], map[]), cwd, {}, {}), global0, cache0))
  {
    WithoutOverrides(cwd, rt, global0, cache0);
  }

  /** The modules that re-export a global. */
  lemma ReexportTargets()
    ensures forall n :: n in GlobalsFromBuiltinExports ==> GlobalsFromBuiltinExports[n] in {"timers", "buffer", "url", "util"}
  {
  }

  /** The tables each stage of a successful preload leaves behind. */
  lemma Stages(o: Overrides, cwd: string, rt: Runtime, global0: map<string, Value>, cache0: map<string, Value>, out: Outcome)
    returns (t1: Tables, t2: Tables, t3: Tables)
    requires PreloadSpec(Some(o), cwd, rt, global0, cache0) == Success(out)
    ensures GlobalStage(Tables(NoMocks, global0, KeySet(o.b), cache0), o.g, rt) == Success(t1)
    ensures BuiltinStage(t1, o.b, rt) == Success(t2)
    ensures t3 == Register(t2, ParaStage(map[], t2, o.g, rt))
    ensures LibraryStage(t3, o.l, rt) == Success(Tables(out.result.mocks, out.global, out.result.builtins, out.cache))
    ensures out.result.entry == o.entry && out.result.libraries == KeySet(o.l)
  {
    t1 := GlobalStage(Tables(NoMocks, global0, KeySet(o.b), cache0), o.g, rt).value;
    t2 := BuiltinStage(t1, o.b, rt).value;
    t3 := Register(t2, ParaStage(map[], t2, o.g, rt));
  }

  /** The tables preload leaves behind. */
  lemma PreloadedTables(o: Overrides, cwd: string, rt: Runtime, global0: map<string, Value>, cache0: map<string, Value>, out: Outcome)
    requires PreloadSpec(Some(o), cwd, rt, global0, cache0) == Success(out)
    ensures out.result.entry == o.entry
    ensures out.result.libraries == KeySet(o.l)
    ensures out.result.mocks.global.Keys == KeySet(o.g)
    ensures forall n :: n in out.result.mocks.global ==> n in out.global && out.global[n] == out.result.mocks.global[n]
    ensures KeySet(o.b) <= out.result.mocks.builtin.Keys
    ensures out.result.builtins == out.result.mocks.builtin.Keys
    ensures forall k :: k in out.result.mocks.builtin ==> k in out.cache
    ensures forall i :: 0 <= i < |o.l| ==> PathOf(rt.load(o.l[i].0)).Some? && PathOf(rt.load(o.l[i].0)).value in out.result.mocks.library
    ensures forall p :: p in out.result.mocks.library ==> exists i :: 0 <= i < |o.l| && PathOf(rt.load(o.l[i].0)) == Some(p)
  {
    var t0 := Tables(NoMocks, global0, KeySet(o.b), cache0);
    var t1, t2, t3 := Stages(o, cwd, rt, global0, cache0, out);
    StagedTables(o, rt, t0, t1, t2, t3, Tables(out.result.mocks, out.global, out.result.builtins, out.cache));
  }

  lemma StagedTables(o: Overrides, rt: Runtime, t0: Tables, t1: Tables, t2: Tables, t3: Tables, t4: Tables)
    requires t0 == Tables(NoMocks, t0.global, KeySet(o.b), t0.cache)
    requires GlobalStage(t0, o.g, rt) == Success(t1)
    requires BuiltinStage(t1, o.b, rt) == Success(t2)
    requires t3 == Register(t2, ParaStage(map[], t2, o.g, rt))
    requires LibraryStage(t3, o.l, rt) == Success(t4)
    ensures t4.mocks.global.Keys == KeySet(o.g)
    ensures forall n :: n in t4.mocks.global ==> n in t4.global && t4.global[n] == t4.mocks.global[n]
    ensures KeySet(o.b) <= t4.mocks.builtin.Keys
    ensures t4.builtins == t4.mocks.builtin.Keys
    ensures forall k :: k in t4.mocks.builtin ==> k in t4.cache
    ensures forall i :: 0 <= i < |o.l| ==> PathOf(rt.load(o.l[i].0)).Some? && PathOf(rt.load(o.l[i].0)).value in t4.mocks.library
    ensures forall p :: p in t4.mocks.library ==> exists i :: 0 <= i < |o.l| && PathOf(rt.load(o.l[i].0)) == Some(p)
  {
    StagedGlobalTables(o, rt, t0, t1, t2, t3, t4);
    StagedBuiltinTables(o, rt, t0, t1, t2, t3, t4);
  }

  lemma StagedGlobalTables(o: Overrides, rt: Runtime, t0: Tables, t1: Tables, t2: Tables, t3: Tables, t4: Tables)
    requires t0.mocks == NoMocks
    requires GlobalStage(t0, o.g, rt) == Success(t1)
    requires BuiltinStage(t1, o.b, rt) == Success(t2)
    requires t3 == Register(t2, ParaStage(map[], t2, o.g, rt))
    requires LibraryStage(t3, o.l, rt) == Success(t4)
    ensures t4.mocks.global.Keys == KeySet(o.g)
    ensures forall n :: n in t4.mocks.global ==> n in t4.global && t4.global[n] == t4.mocks.global[n]
  {
    GlobalStagePreservesAgreement(t0, o.g, rt);
  }

  lemma StagedBuiltinTables(o: Overrides, rt: Runtime, t0: Tables, t1: Tables, t2: Tables, t3: Tables, t4: Tables)
    requires t0 == Tables(NoMocks, t0.global, KeySet(o.b), t0.cache)
    requires GlobalStage(t0, o.g, rt) == Success(t1)
    requires BuiltinStage(t1, o.b, rt) == Success(t2)
    requires t3 == Register(t2, ParaStage(map[], t2, o.g, rt))
    requires LibraryStage(t3, o.l, rt) == Success(t4)
    ensures KeySet(o.b) <= t4.mocks.builtin.Keys
    ensures t4.builtins == t4.mocks.builtin.Keys
    ensures forall k :: k in t4.mocks.builtin ==> k in t4.cache
    ensures forall i :: 0 <= i < |o.l| ==> PathOf(rt.load(o.l[i].0)).Some? && PathOf(rt.load(o.l[i].0)).value in t4.mocks.library
    ensures forall p :: p in t4.mocks.library ==> exists i :: 0 <= i < |o.l| && PathOf(rt.load(o.l[i].0)) == Some(p)
  {
    assert t1.builtins == KeySet(o.b) && t1.mocks.builtin == map[] && t1.mocks.library == map[];
    assert t2.builtins <= t2.mocks.builtin.Keys && t2.mocks.library == map[];
    RegisteredKeys(t2, ParaStage(map[], t2, o.g, rt), o.l, rt, t4);
    LibraryPaths(t3, o.l, rt, t4);
  }

  lemma RegisteredKeys(t2: Tables, para: map<string, Value>, l: seq<(string, string)>, rt: Runtime, t4: Tables)
    requires t2.builtins <= t2.mocks.builtin.Keys
    requires LibraryStage(Register(t2, para), l, rt) == Success(t4)
    ensures t4.mocks.builtin.Keys == t2.mocks.builtin.Keys + para.Keys
    ensures t4.builtins == t4.mocks.builtin.Keys
    ensures forall k :: k in t4.mocks.builtin ==> k in t4.cache
  {
  }

  lemma LibraryPaths(t3: Tables, l: seq<(string, string)>, rt: Runtime, t4: Tables)
    requires t3.mocks.library == map[]
    requires LibraryStage(t3, l, rt) == Success(t4)
    ensures forall i :: 0 <= i < |l| ==> PathOf(rt.load(l[i].0)).Some? && PathOf(rt.load(l[i].0)).value in t4.mocks.library
    ensures forall p :: p in t4.mocks.library ==> exists i :: 0 <= i < |l| && PathOf(rt.load(l[i].0)) == Some(p)
  {
  }


  /**
   * The values preload leaves: with distinct names, each global mock is its override applied
   * to the original global, and each builtin mock (but `fs/promises`) its override applied to
   * the module `require` returns; every builtin mock that is not also a library key is the
   * `require.cache` entry under its name.
   */
  lemma PreloadedValues(o: Overrides, cwd: string, rt: Runtime, global0: map<string, Value>, cache0: map<string, Value>, out: Outcome)
    requires PreloadSpec(Some(o), cwd, rt, global0, cache0) == Success(out)
    ensures DistinctKeys(o.g) ==> forall i :: 0 <= i < |o.g| ==>
      Evaluate(o.g[i].1, ValueAt(global0, o.g[i].0), rt) == Success(out.result.mocks.global[o.g[i].0])
    ensures DistinctKeys(o.b) ==> forall i :: 0 <= i < |o.b| && o.b[i].0 != "fs/promises" ==>
      Evaluate(o.b[i].1, rt.require(o.b[i].0), rt) == Success(out.result.mocks.builtin[o.b[i].0])
    ensures forall k :: k in out.result.mocks.builtin && k !in out.result.mocks.library ==>
      k in out.cache && out.cache[k] == out.result.mocks.builtin[k]
  {
    var t0 := Tables(NoMocks, global0, KeySet(o.b), cache0);
    var t1, t2, t3 := Stages(o, cwd, rt, global0, cache0, out);
    var t4 := Tables(out.result.mocks, out.global, out.result.builtins, out.cache);
    StagedGlobals(o, rt, t0, t1, t2, t4);
    StagedBuiltins(o, rt, t1, t2, t4);
    StagedCache(o, rt, t2, ParaStage(map[], t2, o.g, rt), t4);
  }

  lemma StagedGlobals(o: Overrides, rt: Runtime, t0: Tables, t1: Tables, t2: Tables, t4: Tables)
    requires GlobalStage(t0, o.g, rt) == Success(t1)
    requires BuiltinStage(t1, o.b, rt) == Success(t2)
    requires LibraryStage(Register(t2, ParaStage(map[], t2, o.g, rt)), o.l, rt) == Success(t4)
    ensures DistinctKeys(o.g) ==> forall i :: 0 <= i < |o.g| ==>
      Evaluate(o.g[i].1, ValueAt(t0.global, o.g[i].0), rt) == Success(t4.mocks.global[o.g[i].0])
  {
    if DistinctKeys(o.g) {
      GlobalMockApplied(t0, o.g, rt);
    }
  }

  lemma StagedBuiltins(o: Overrides, rt: Runtime, t1: Tables, t2: Tables, t4: Tables)
    requires BuiltinStage(t1, o.b, rt) == Success(t2)
    requires LibraryStage(Register(t2, ParaStage(map[], t2, o.g, rt)), o.l, rt) == Success(t4)
    ensures DistinctKeys(o.b) ==> forall i :: 0 <= i < |o.b| && o.b[i].0 != "fs/promises" ==>
      Evaluate(o.b[i].1, rt.require(o.b[i].0), rt) == Success(t4.mocks.builtin[o.b[i].0])
  {
    if DistinctKeys(o.b) {
      BuiltinMockApplied(t1, o.b, rt);
      var t3 := Register(t2, ParaStage(map[], t2, o.g, rt));
      assert forall k :: k in t2.mocks.builtin ==> t3.mocks.builtin[k] == t2.mocks.builtin[k];
    }
  }

  lemma StagedCache(o: Overrides, rt: Runtime, t2: Tables, para: map<string, Value>, t4: Tables)
    requires LibraryStage(Register(t2, para), o.l, rt) == Success(t4)
    ensures forall k :: k in t4.mocks.builtin && k !in t4.mocks.library ==>
      k in t4.cache && t4.cache[k] == t4.mocks.builtin[k]
  {
    var t3 := Register(t2, para);
    forall k | k in t4.mocks.builtin && k !in t4.mocks.library
      ensures k in t4.cache && t4.cache[k] == t4.mocks.builtin[k]
    {
      LibraryFrame(t3, o.l, rt, k);
    }
  }

  /**
   * With no two library names resolving to the same path, each library mock is its override
   * applied to the module as registration left `require.cache` (or to the ES module
   * namespace), and in the CommonJS branch the cache entry holds the mock.
   */
  lemma PreloadedLibraries(o: Overrides, cwd: string, rt: Runtime, global0: map<string, Value>, cache0: map<string, Value>, out: Outcome)
    requires PreloadSpec(Some(o), cwd, rt, global0, cache0) == Success(out)
    requires DistinctPaths(o.l, rt)
    ensures forall i :: 0 <= i < |o.l| ==>
      LibraryMock(cache0 + out.result.mocks.builtin, o.l[i].0, o.l[i].1, rt).Success? &&
      HoldsMock(Tables(out.result.mocks, out.global, out.result.builtins, out.cache),
                LibraryMock(cache0 + out.result.mocks.builtin, o.l[i].0, o.l[i].1, rt).value)
  {
    var t1, t2, t3 := Stages(o, cwd, rt, global0, cache0, out);
    LibraryMocksApplied(t3, o.l, rt);
  }

  /** Every mocked global that a builtin module re-exports is served on that module, unless the module is mocked itself. */
  lemma ReexportedGlobal(o: Overrides, cwd: string, rt: Runtime, global0: map<string, Value>, cache0: map<string, Value>, out: Outcome, name: string)
    requires PreloadSpec(Some(o), cwd, rt, global0, cache0) == Success(out)
    requires name in Mockery.Names(o.g) && name in GlobalsFromBuiltinExports
    requires GlobalsFromBuiltinExports[name] !in KeySet(o.b)
    ensures GlobalsFromBuiltinExports[name] in out.result.mocks.builtin
    ensures Get(out.result.mocks.builtin[GlobalsFromBuiltinExports[name]], name) == out.result.mocks.global[name]
  {
    var t1, t2, t3 := Stages(o, cwd, rt, global0, cache0, out);
    var t4 := Tables(out.result.mocks, out.global, out.result.builtins, out.cache);
    StagedGlobalTables(o, rt, Tables(NoMocks, global0, KeySet(o.b), cache0), t1, t2, t3, t4);
    assert t1.mocks.builtin == map[];
    assert t4.mocks.builtin == t3.mocks.builtin;
    StagedReexport(o, rt, t1, t2, t4.mocks.builtin, name);
  }

  lemma StagedReexport(o: Overrides, rt: Runtime, t1: Tables, t2: Tables, b4: map<string, Value>, name: string)
    requires t1.mocks.builtin == map[] && BuiltinStage(t1, o.b, rt) == Success(t2)
    requires b4 == t2.mocks.builtin + ParaStage(map[], t2, o.g, rt)
    requires name in Mockery.Names(o.g) && name in GlobalsFromBuiltinExports
    requires GlobalsFromBuiltinExports[name] !in KeySet(o.b)
    ensures GlobalsFromBuiltinExports[name] in b4
    ensures Get(b4[GlobalsFromBuiltinExports[name]], name) == ValueAt(t2.mocks.global, name)
  {
    var m := GlobalsFromBuiltinExports[name];
    ReexportTargets();
    assert m != "fs/promises";
    assert m !in t2.mocks.builtin;
    var i :| 0 <= i < |o.g| && Mockery.Names(o.g)[i] == name;
    assert o.g[i].0 == name;
    assert Reexports(o.g[i].0, m, t2.mocks.builtin);
    ParaGet(map[], t2, o.g, rt, m, name);
  }


  /**
   * A wrapped module answers each re-exported mocked global with its mock and every other
   * key with the original module's property, however many wrappers are stacked.
   */
  lemma Reexported(o: Overrides, cwd: string, rt: Runtime, global0: map<string, Value>, cache0: map<string, Value>, out: Outcome, m: string, k: string)
    requires PreloadSpec(Some(o), cwd, rt, global0, cache0) == Success(out)
    requires m in out.result.mocks.builtin && m !in KeySet(o.b) && m != "fs/promises"
    ensures Get(out.result.mocks.builtin[m], k) ==
      if k in Mockery.Names(o.g) && ExportedBy(k, m)
      then out.result.mocks.global[k]
      else Get(rt.require(m), k)
  {
    var t1, t2, t3 := Stages(o, cwd, rt, global0, cache0, out);
    var t4 := Tables(out.result.mocks, out.global, out.result.builtins, out.cache);
    StagedGlobalTables(o, rt, Tables(NoMocks, global0, KeySet(o.b), cache0), t1, t2, t3, t4);
    assert t1.mocks.builtin == map[];
    assert t4.mocks.builtin == t3.mocks.builtin;
    StagedWrapper(o, rt, t2, t4.mocks.builtin, m, k);
  }

  lemma StagedWrapper(o: Overrides, rt: Runtime, t2: Tables, b4: map<string, Value>, m: string, k: string)
    requires b4 == t2.mocks.builtin + ParaStage(map[], t2, o.g, rt)
    requires m in b4 && m !in t2.mocks.builtin
    ensures Get(b4[m], k) ==
      if k in Mockery.Names(o.g) && ExportedBy(k, m) then ValueAt(t2.mocks.global, k) else Get(rt.require(m), k)
  {
    ParaGet(map[], t2, o.g, rt, m, k);
  }



  /** preload() as the source runs it: the stages below fill the tables in place, in source order. */
  method Preload(overrides: Option<Overrides>, cwd: string, rt: Runtime, global0: map<string, Value>, cache0: map<string, Value>)
    returns (r: Result<Outcome, string>)
    ensures r == PreloadSpec(overrides, cwd, rt, global0, cache0)
  {
    if overrides.None? {
      return Success(Outcome(Preloaded(NoMocks, cwd, {}, {}), global0, cache0));
    }
    var o := overrides.value;
    var libraries := KeySet(o.l);
    var t := Tables(NoMocks, global0, KeySet(o.b), cache0);
    var rg := ApplyGlobals(t, o.g, rt);
    if rg.Failure? {
      return Failure(rg.error);
    }
    t := rg.value;
    var rb := ApplyBuiltins(t, o.b, rt);
    if rb.Failure? {
      return Failure(rb.error);
    }
    t := rb.value;
    var para := WrapReexports(t, o.g, rt);
    t := RegisterBuiltins(t, para);
    var rl := ApplyLibraries(t, o.l, rt);
    if rl.Failure? {
      return Failure(rl.error);
    }
    t := rl.value;
    return Success(Outcome(Preloaded(t.mocks, o.entry, t.builtins, libraries), t.global, t.cache));
  }

  /** lib/preload.js:37-40. */
  method ApplyGlobals(t: Tables, g: seq<(string, string)>, rt: Runtime) returns (r: Result<Tables, string>)
    ensures r == GlobalStage(t, g, rt)
  {
    var mocks, global := t.mocks, t.global;
    for i := 0 to |g|
      invariant GlobalStage(t, g[..i], rt) == Success(Tables(mocks, global, t.builtins, t.cache))
    {
      var name, override := g[i].0, g[i].1;
      assert g[..i + 1][..i] == g[..i];
      var compiled := rt.compile(override);
      if compiled.Some? {
        GlobalFailureExtends(t, g, i + 1, rt, compiled.value);
        return Failure(compiled.value);
      }
      var v := rt.run(override, ValueAt(global, name));
      if v.Failure? {
        GlobalFailureExtends(t, g, i + 1, rt, v.error.message);
        return Failure(v.error.message);
      }
      global := global[name := v.value];
      mocks := mocks.(global := mocks.global[name := v.value]);
    }
    assert g[..|g|] == g;
    return Success(Tables(mocks, global, t.builtins, t.cache));
  }

  /** lib/preload.js:42-53. */
  method ApplyBuiltins(t: Tables, b: seq<(string, string)>, rt: Runtime) returns (r: Result<Tables, string>)
    ensures r == BuiltinStage(t, b, rt)
  {
    var mocks, builtins := t.mocks, t.builtins;
    for i := 0 to |b|
      invariant BuiltinStage(t, b[..i], rt) == Success(Tables(mocks, t.global, builtins, t.cache))
    {
      var name, override := b[i].0, b[i].1;
      assert b[..i + 1][..i] == b[..i];
      var compiled := rt.compile(override);
      if compiled.Some? {
        BuiltinFailureExtends(t, b, i + 1, rt, compiled.value);
        return Failure(compiled.value);
      }
      var v := rt.run(override, rt.require(name));
      if v.Failure? {
        BuiltinFailureExtends(t, b, i + 1, rt, v.error.message);
        return Failure(v.error.message);
      }
      mocks := mocks.(builtin := mocks.builtin[name := v.value]);
      if name == "fs" {
        var has := Has(v.value, "promises");
        if has.Failure? {
          BuiltinFailureExtends(t, b, i + 1, rt, has.error);
          return Failure(has.error);
        }
        if has.value {
          builtins := builtins + {"fs/promises"};
          mocks := mocks.(builtin := mocks.builtin["fs/promises" := Get(v.value, "promises")]);
        }
      }
    }
    assert b[..|b|] == b;
    return Success(Tables(mocks, t.global, builtins, t.cache));
  }

  /** lib/preload.js:54-66. */
  method WrapReexports(t: Tables, g: seq<(string, string)>, rt: Runtime) returns (para: map<string, Value>)
    ensures para == ParaStage(map[], t, g, rt)
  {
    para := map[];
    for i := 0 to |g|
      invariant para == ParaStage(map[], t, g[..i], rt)
    {
      var name := g[i].0;
      assert g[..i + 1][..i] == g[..i];
      if name !in GlobalsFromBuiltinExports {
        continue;
      }
      var m := GlobalsFromBuiltinExports[name];
      if m in t.mocks.builtin {
        continue;
      }
      var base := if m in para then para[m] else rt.require(m);
      para := para[m := Wrapper(base, name, ValueAt(t.mocks.global, name))];
    }
    assert g[..|g|] == g;
  }

  /** lib/preload.js:67-71. */
  method RegisterBuiltins(t: Tables, para: map<string, Value>) returns (r: Tables)
    ensures r == Register(t, para)
  {
    var builtin := t.mocks.builtin + para;
    var builtins, cache := t.builtins, t.cache;
    var pending := builtin.Keys;
    ghost var done: set<string> := {};
    while pending != {}
      invariant pending == builtin.Keys - done && done <= builtin.Keys
      invariant builtins == t.builtins + done
      invariant cache.Keys == t.cache.Keys + done
      invariant forall k :: k in cache ==> cache[k] == if k in done then builtin[k] else t.cache[k]
      decreases pending
    {
      var name :| name in pending;
      builtins := builtins + {name};
      cache := cache[name := builtin[name]];
      pending := pending - {name};
      done := done + {name};
    }
    assert cache == t.cache + builtin;
    return t.(mocks := t.mocks.(builtin := builtin), builtins := builtins, cache := cache);
  }

  /** lib/preload.js:74-86: one library override, compiled before its `try`/`catch`. */
  method MockLibrary(cache: map<string, Value>, name: string, override: string, rt: Runtime) returns (r: Result<Applied, string>)
    ensures r == LibraryMock(cache, name, override, rt)
  {
    var compiled := rt.compile(override);
    if compiled.Some? {
      return Failure(compiled.value);
    }
    var ld := rt.load(name);
    if ld.LoadFailed? {
      return Failure(ld.message);
    }
    if ld.Loaded? {
      var v := rt.run(override, CachedExports(cache, ld.path, ld.exports));
      if v.Success? {
        return Success(Applied(ld.path, v.value, true));
      }
      if v.error.code != RequireEsmCode {
        return Failure(v.error.message);
      }
    }
    var ns := rt.dynamicImport(name);
    if ns.Failure? {
      return Failure(ns.error);
    }
    var v := rt.run(override, ns.value);
    if v.Failure? {
      return Failure(v.error.message);
    }
    return Success(Applied(ld.path, v.value, false));
  }

  /** lib/preload.js:73-87. */
  method ApplyLibraries(t: Tables, l: seq<(string, string)>, rt: Runtime) returns (r: Result<Tables, string>)
    ensures r == LibraryStage(t, l, rt)
  {
    var mocks, cache := t.mocks, t.cache;
    for i := 0 to |l|
      invariant LibraryStage(t, l[..i], rt) == Success(Tables(mocks, t.global, t.builtins, cache))
    {
      var name, override := l[i].0, l[i].1;
      assert l[..i + 1][..i] == l[..i];
      var a := MockLibrary(cache, name, override, rt);
      if a.Failure? {
        LibraryFailureExtends(t, l, i + 1, rt, a.error);
        return Failure(a.error);
      }
      mocks := mocks.(library := mocks.library[a.value.path := a.value.mock]);
      if a.value.cached {
        cache := cache[a.value.path := a.value.mock];
      }
    }
    assert l[..|l|] == l;
    return Success(Tables(mocks, t.global, t.builtins, cache));
  }
}
