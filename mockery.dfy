/**
 * lib/mockery.js: sorts a flat `name -> override function` table into the four override
 * tables `g` (globals), `b` (builtin modules), `l` (library modules) and `s` (identifiers
 * scoped to a CommonJS module), first match winning, and renders the scoped overrides
 * as assignment statements.
 *
 * The host facts the classification consults are oracles: the own property names of the
 * global object, `createRequire(entry).resolve` (None where it throws) and whether
 * `new Script(text)` compiles.
 */
module Mockery {
  import opened Wrappers
  import opened Text

  /** One mock entry: the override's source text (`fn.toString()`) and its `global` property
      (`Some(true)`, `Some(false)`, or `None` for any other value). */
  datatype Override = Override(source: string, global: Option<bool>)

  datatype Host = Host(
    globals: set<string>,               // Object.getOwnPropertyNames(global)
    resolve: string -> Option<string>,  // createRequire(entry).resolve
    parses: string -> bool)             // new Script(text) does not throw

  /** Identifiers a CommonJS module sees as function parameters. */
  const CjsScoped: seq<string> := ["__dirname", "__filename", "exports", "module", "require"]

  /** Lower-case global names other than `process`: they may also name an installed package. */
  function PossibleConflict(globals: set<string>): set<string>
  {
    set n | n in globals && n != "process" && IsLowerCase(n)
  }

  datatype Failure =
    | SyntaxError(source: string)   // the override does not compile even after rewriting
    | NotResolvable(message: string)

  // ---------------------------------------------------------------- serializeFn

  /** The one rewrite tried on text that does not compile: method shorthand becomes a function. */
  function Rewritten(source: string): string
  {
    if Contains(source, "async") then ReplaceFirst(source, "async", "async function ")
    else "function " + source
  }

  /** serializeFn: the source text when it compiles, else its rewrite when that compiles, else an error. */
  function SerializeFn(source: string, parses: string -> bool): (r: Result<string, Failure>)
    ensures r.Success? ==> parses(r.value)
    ensures parses(source) ==> r == Success(source)
    ensures !parses(source) ==>
      r == (if parses(Rewritten(source)) then Success(Rewritten(source)) else Failure(SyntaxError(Rewritten(source))))
  {
    if parses(source) then Success(source)
    else
      var str := Rewritten(source);
      if parses(str) then Success(str) else Failure(SyntaxError(str))
  }

  /** The rewrite only inserts the `function` keyword: no character of the override is lost or changed. */
  lemma RewriteOnlyInserts(source: string)
    ensures exists k :: (0 <= k <= |source| &&
      (Rewritten(source) == source[..k] + " function " + source[k..] ||
       Rewritten(source) == "function " + source))
  {
    if Contains(source, "async") {
      var i := IndexOf(source, "async");
      var k := i + 5;
      assert "async function " == "async" + " function ";
      InsertAfter(source, i, k, "async", " function ");
      assert Rewritten(source) == source[..k] + " function " + source[k..];
    } else {
      assert source[0..] == source;
    }
  }

  /** Replacing `pat` at `i` by `pat + ins` inserts `ins` right after it. */
  lemma InsertAfter(s: string, i: int, k: int, pat: string, ins: string)
    requires OccursAt(s, pat, i) && k == i + |pat|
    ensures s[..i] + (pat + ins) + s[k..] == s[..k] + ins + s[k..]
  {
    assert s[..k] == s[..i] + s[i..k];
  }

  /** Serializing an already serialized override changes nothing. */
  lemma SerializeIdempotent(source: string, parses: string -> bool)
    requires SerializeFn(source, parses).Success?
    ensures SerializeFn(SerializeFn(source, parses).value, parses) == SerializeFn(source, parses)
  {
  }

  // ---------------------------------------------------------------- one name

  /** What is stored for an override: its text, or (lib/mockery.js:61) the serializeFn function itself. */
  datatype Stored = Text(text: string) | SerializerFn

  /** The table an override goes to, with the value stored there. */
  datatype Place = Scoped(text: string) | Global(text: string) | Builtin(stored: Stored) | Library(text: string)

  function NotResolvableMessage(name: string, entry: string): string
  {
    "Lazaretto: mock['" + name + "'] is not resolvable from " + entry
  }

  /** The body of the classification loop for one entry, as written. */
  function Decide(name: string, ov: Override, host: Host, esm: bool, entry: string): (r: Result<Place, Failure>)
    ensures r.Success? ==> SerializeFn(ov.source, host.parses).Success?
  {
    match SerializeFn(ov.source, host.parses)
    case Failure(e) => Failure(e)
    case Success(text) =>
      if !esm && name in CjsScoped then Success(Scoped(text))
      else if name in host.globals && ov.global == Some(true) then Success(Global(text))
      else if name in host.globals && name in PossibleConflict(host.globals) then
        (match host.resolve(name)
         case None => Success(Global(text))
         case Some(resolved) => Success(if resolved == name then Builtin(SerializerFn) else Library(text)))
      else
        (match host.resolve(name)
         case None => Failure(NotResolvable(NotResolvableMessage(name, entry)))
         case Some(resolved) => Success(if resolved == name then Builtin(Text(text)) else Library(text)))
  }

  /** A scoped identifier (only under CommonJS) goes to `s` whatever else holds of it. */
  lemma ScopedFirst(name: string, ov: Override, host: Host, esm: bool, entry: string)
    requires SerializeFn(ov.source, host.parses).Success?
    ensures (Decide(name, ov, host, esm, entry).Success? && Decide(name, ov, host, esm, entry).value.Scoped?)
      <==> !esm && name in CjsScoped
  {
  }

  /** `global: true` on a global name decides `g` without consulting resolution at all. */
  lemma GlobalFlagSkipsResolution(name: string, ov: Override, host: Host, other: string -> Option<string>, esm: bool, entry: string)
    requires !(!esm && name in CjsScoped) && name in host.globals && ov.global == Some(true)
    ensures Decide(name, ov, host, esm, entry) == Decide(name, ov, host.(resolve := other), esm, entry)
    ensures Decide(name, ov, host, esm, entry).Success? ==> Decide(name, ov, host, esm, entry).value.Global?
  {
  }

  /** A lower-case global that resolves goes to `b` when it resolves to itself, to `l` otherwise; one that does not resolve goes to `g`. */
  lemma ConflictResolution(name: string, ov: Override, host: Host, esm: bool, entry: string)
    requires SerializeFn(ov.source, host.parses).Success?
    requires !(!esm && name in CjsScoped) && name in PossibleConflict(host.globals) && ov.global != Some(true)
    ensures var r := Decide(name, ov, host, esm, entry);
      r.Success? &&
      (host.resolve(name) == Some(name) <==> r.value.Builtin?) &&
      (host.resolve(name).None? <==> r.value.Global?) &&
      (host.resolve(name).Some? && host.resolve(name).value != name <==> r.value.Library?)
  {
  }

  /** Any other name: `b` exactly when it resolves to itself, `l` when it resolves elsewhere, an error naming the mock and the entry otherwise. */
  lemma OtherNamesResolve(name: string, ov: Override, host: Host, esm: bool, entry: string)
    requires SerializeFn(ov.source, host.parses).Success?
    requires !(!esm && name in CjsScoped) && !(name in host.globals && ov.global == Some(true))
    requires name !in PossibleConflict(host.globals)
    ensures var r := Decide(name, ov, host, esm, entry);
      (host.resolve(name).None? <==> r == Failure(NotResolvable(NotResolvableMessage(name, entry)))) &&
      (host.resolve(name) == Some(name) <==> r == Success(Builtin(Text(SerializeFn(ov.source, host.parses).value)))) &&
      (host.resolve(name).Some? && host.resolve(name).value != name <==> r == Success(Library(SerializeFn(ov.source, host.parses).value)))
  {
  }

  /** The serializeFn marker is stored only for a lower-case global that resolves to itself. */
  lemma MarkerOnlyForBuiltinConflict(name: string, ov: Override, host: Host, esm: bool, entry: string)
    ensures Decide(name, ov, host, esm, entry) == Success(Builtin(SerializerFn)) <==>
      SerializeFn(ov.source, host.parses).Success? && !(!esm && name in CjsScoped) && ov.global != Some(true) &&
      name in PossibleConflict(host.globals) && host.resolve(name) == Some(name)
  {
  }

  /** The classification with line 61 storing the serialized text, as every other branch does. */
  function DecideIntended(name: string, ov: Override, host: Host, esm: bool, entry: string): (r: Result<Place, Failure>)
    ensures r.Success? ==> r.value != Builtin(SerializerFn)
    ensures Decide(name, ov, host, esm, entry).Failure? <==> r.Failure?
  {
    match Decide(name, ov, host, esm, entry)
    case Success(Builtin(SerializerFn)) => Success(Builtin(Text(SerializeFn(ov.source, host.parses).value)))
    case other => other
  }

  // ---------------------------------------------------------------- the whole table

  /** A per-entry classification. */
  type Decider = (string, Override) -> Result<Place, Failure>

  function AsWritten(host: Host, esm: bool, entry: string): Decider
  {
    (name, ov) => Decide(name, ov, host, esm, entry)
  }

  function Intended(host: Host, esm: bool, entry: string): Decider
  {
    (name, ov) => DecideIntended(name, ov, host, esm, entry)
  }

  /** The object mockery returns, less the `scopeMocks` closure (rendered by ScopeMocks from `s`). */
  datatype Mocking = Mocking(
    entry: string,
    g: seq<(string, string)>,
    b: seq<(string, Stored)>,
    l: seq<(string, string)>,
    s: seq<(string, string)>)

  /** The assignment `t[name] = value` of one loop iteration, appended in insertion order. */
  function Put(m: Mocking, name: string, p: Place): Mocking
  {
    match p
    case Scoped(t) => m.(s := m.s + [(name, t)])
    case Global(t) => m.(g := m.g + [(name, t)])
    case Builtin(st) => m.(b := m.b + [(name, st)])
    case Library(t) => m.(l := m.l + [(name, t)])
  }

  /** The classification loop over `Object.entries(mock)`: the first failing entry's error, or the four tables. */
  function Classify(entries: seq<(string, Override)>, decide: Decider, entry: string): Result<Mocking, Failure>
    decreases |entries|
  {
    if |entries| == 0 then Success(Mocking(entry, [], [], [], []))
    else
      var last := entries[|entries| - 1];
      match Classify(entries[..|entries| - 1], decide, entry)
      case Failure(e) => Failure(e)
      case Success(m) =>
        match decide(last.0, last.1)
        case Failure(e) => Failure(e)
        case Success(p) => Success(Put(m, last.0, p))
  }

  /** mockery(mock, {esm, entry}): null for a falsy `mock`, else the classification. */
  function Classified(mock: Option<seq<(string, Override)>>, host: Host, esm: bool, entry: string): Result<Option<Mocking>, Failure>
  {
    match mock
    case None => Success(None)
    case Some(entries) =>
      match Classify(entries, AsWritten(host, esm, entry), entry)
      case Success(m) => Success(Some(m))
      case Failure(e) => Failure(e)
  }

  datatype Category = ScopeTable | GlobalTable | BuiltinTable | LibraryTable

  function CategoryOf(p: Place): Category
  {
    match p
    case Scoped(_) => ScopeTable
    case Global(_) => GlobalTable
    case Builtin(_) => BuiltinTable
    case Library(_) => LibraryTable
  }

  /** The names of a table, in insertion order. */
  function Names<V>(t: seq<(string, V)>): (r: seq<string>)
    ensures |r| == |t| && forall i :: 0 <= i < |t| ==> r[i] == t[i].0
  {
    seq(|t|, i requires 0 <= i < |t| => t[i].0)
  }

  function Table(m: Mocking, c: Category): seq<string>
  {
    match c
    case ScopeTable => Names(m.s)
    case GlobalTable => Names(m.g)
    case BuiltinTable => Names(m.b)
    case LibraryTable => Names(m.l)
  }

  /** The names the decider files under `c`, in input order. */
  function Filed(entries: seq<(string, Override)>, decide: Decider, c: Category): seq<string>
    decreases |entries|
  {
    if |entries| == 0 then []
    else
      var last := entries[|entries| - 1];
      var r := decide(last.0, last.1);
      Filed(entries[..|entries| - 1], decide, c) + (if r.Success? && CategoryOf(r.value) == c then [last.0] else [])
  }

  /** Every entry of a successful classification was decided, and each table lists, in input order, exactly the names filed under it. */
  lemma {:induction false} ClassifyFiles(entries: seq<(string, Override)>, decide: Decider, entry: string, m: Mocking)
    requires Classify(entries, decide, entry) == Success(m)
    ensures m.entry == entry
    ensures forall i :: 0 <= i < |entries| ==> decide(entries[i].0, entries[i].1).Success?
    ensures forall c :: Table(m, c) == Filed(entries, decide, c)
  {
    if |entries| > 0 {
      var n := |entries|;
      var last := entries[n - 1];
      var m0 :| Classify(entries[..n - 1], decide, entry) == Success(m0);
      ClassifyFiles(entries[..n - 1], decide, entry, m0);
      var p := decide(last.0, last.1).value;
      assert m == Put(m0, last.0, p);
      forall c
        ensures Table(m, c) == Filed(entries, decide, c)
      {
        match p
        case Scoped(_) => assert Names(m.s) == Names(m0.s) + [last.0];
        case Global(_) => assert Names(m.g) == Names(m0.g) + [last.0];
        case Builtin(_) => assert Names(m.b) == Names(m0.b) + [last.0];
        case Library(_) => assert Names(m.l) == Names(m0.l) + [last.0];
      }
      forall i | 0 <= i < n
        ensures decide(entries[i].0, entries[i].1).Success?
      {
        if i < n - 1 {
          assert entries[..n - 1][i] == entries[i];
        }
      }
    }
  }

  /** A name is filed under `c` exactly when some entry with that name was decided into `c`. */
  lemma {:induction false} FiledMembers(entries: seq<(string, Override)>, decide: Decider, c: Category, n: string)
    ensures n in Filed(entries, decide, c) <==>
      exists i :: 0 <= i < |entries| && entries[i].0 == n &&
        decide(entries[i].0, entries[i].1).Success? && CategoryOf(decide(entries[i].0, entries[i].1).value) == c
  {
    if |entries| > 0 {
      var k := |entries| - 1;
      var prefix := entries[..k];
      FiledMembers(prefix, decide, c, n);
      assert forall i :: 0 <= i < k ==> prefix[i] == entries[i];
    }
  }

  /** Object keys are distinct. */
  predicate DistinctNames(entries: seq<(string, Override)>)
  {
    forall i, j :: 0 <= i < j < |entries| ==> entries[i].0 != entries[j].0
  }

  /**
   * Every input name lands in exactly one table, the one its own decision names, and no
   * table holds a name that was not in the input.
   */
  lemma ExactlyOneTable(entries: seq<(string, Override)>, decide: Decider, entry: string, m: Mocking)
    requires DistinctNames(entries)
    requires Classify(entries, decide, entry) == Success(m)
    ensures forall i :: 0 <= i < |entries| ==> decide(entries[i].0, entries[i].1).Success?
    ensures forall i, c :: 0 <= i < |entries| ==>
      (entries[i].0 in Table(m, c) <==>
        decide(entries[i].0, entries[i].1).Success? && c == CategoryOf(decide(entries[i].0, entries[i].1).value))
    ensures forall c, n :: n in Table(m, c) ==> exists i :: 0 <= i < |entries| && entries[i].0 == n
  {
    ClassifyFiles(entries, decide, entry, m);
    forall i, c | 0 <= i < |entries|
      ensures entries[i].0 in Table(m, c) <==>
        decide(entries[i].0, entries[i].1).Success? && c == CategoryOf(decide(entries[i].0, entries[i].1).value)
    {
      FiledMembers(entries, decide, c, entries[i].0);
    }
    forall c, n | n in Table(m, c)
      ensures exists i :: 0 <= i < |entries| && entries[i].0 == n
    {
      FiledMembers(entries, decide, c, n);
    }
  }

  /** Once a prefix fails, the whole classification fails with the same error. */
  lemma {:induction false} FailureExtends(entries: seq<(string, Override)>, k: nat, decide: Decider, entry: string, e: Failure)
    requires k <= |entries|
    requires Classify(entries[..k], decide, entry) == Failure(e)
    ensures Classify(entries, decide, entry) == Failure(e)
    decreases |entries| - k
  {
    if k < |entries| {
      assert entries[..k + 1][..k] == entries[..k];
      FailureExtends(entries, k + 1, decide, entry, e);
    } else {
      assert entries[..k] == entries;
    }
  }

  /** The classification throws exactly when some entry throws, and then with the first such entry's error. */
  lemma {:induction false} ClassifyFailsAtFirst(entries: seq<(string, Override)>, decide: Decider, entry: string)
    ensures Classify(entries, decide, entry).Failure? <==>
      exists i :: 0 <= i < |entries| && decide(entries[i].0, entries[i].1).Failure?
    ensures Classify(entries, decide, entry).Failure? ==>
      exists i :: 0 <= i < |entries| && decide(entries[i].0, entries[i].1) == Failure(Classify(entries, decide, entry).error) &&
        forall j :: 0 <= j < i ==> decide(entries[j].0, entries[j].1).Success?
  {
    if |entries| > 0 {
      var k := |entries| - 1;
      var prefix := entries[..k];
      ClassifyFailsAtFirst(prefix, decide, entry);
      assert forall i :: 0 <= i < k ==> prefix[i] == entries[i];
      if Classify(prefix, decide, entry).Success? {
        ClassifyFiles(prefix, decide, entry, Classify(prefix, decide, entry).value);
      }
    }
  }

  /** A decider that never files under `c` leaves that table empty. */
  lemma {:induction false} FiledNothing(entries: seq<(string, Override)>, decide: Decider, c: Category)
    requires forall i :: 0 <= i < |entries| ==>
      decide(entries[i].0, entries[i].1).Success? ==> CategoryOf(decide(entries[i].0, entries[i].1).value) != c
    ensures Filed(entries, decide, c) == []
  {
    if |entries| > 0 {
      var k := |entries| - 1;
      assert forall i :: 0 <= i < k ==> entries[..k][i] == entries[i];
      FiledNothing(entries[..k], decide, c);
    }
  }

  /** Under ESM nothing is scoped. */
  lemma EsmScopesNothing(entries: seq<(string, Override)>, host: Host, entry: string, m: Mocking)
    requires Classify(entries, AsWritten(host, true, entry), entry) == Success(m)
    ensures m.s == []
  {
    var decide := AsWritten(host, true, entry);
    ClassifyFiles(entries, decide, entry, m);
    FiledNothing(entries, decide, ScopeTable);
    assert Names(m.s) == [];
  }

  /** Only the five CommonJS identifiers are scoped, and only when not ESM. */
  lemma ScopedAreCjsIdentifiers(entries: seq<(string, Override)>, host: Host, esm: bool, entry: string, m: Mocking)
    requires Classify(entries, AsWritten(host, esm, entry), entry) == Success(m)
    ensures m.s != [] ==> !esm
    ensures forall i :: 0 <= i < |m.s| ==> m.s[i].0 in CjsScoped
  {
    forall i | 0 <= i < |m.s|
      ensures m.s[i].0 in CjsScoped
    {
      ScopedEntry(entries, host, esm, entry, m, i);
    }
    if m.s != [] {
      ScopedEntry(entries, host, esm, entry, m, 0);
    }
  }

  lemma ScopedEntry(entries: seq<(string, Override)>, host: Host, esm: bool, entry: string, m: Mocking, i: nat)
    requires Classify(entries, AsWritten(host, esm, entry), entry) == Success(m)
    requires i < |m.s|
    ensures !esm && m.s[i].0 in CjsScoped
  {
    var decide := AsWritten(host, esm, entry);
    ClassifyFiles(entries, decide, entry, m);
    var n := m.s[i].0;
    assert n in Table(m, ScopeTable);
    FiledMembers(entries, decide, ScopeTable, n);
    var j :| 0 <= j < |entries| && entries[j].0 == n &&
      decide(entries[j].0, entries[j].1).Success? && CategoryOf(decide(entries[j].0, entries[j].1).value) == ScopeTable;
    assert decide(entries[j].0, entries[j].1) == Decide(n, entries[j].1, host, esm, entry);
    ScopedFirst(n, entries[j].1, host, esm, entry);
  }

  /** A decider that never produces the marker keeps every builtin entry as text. */
  lemma {:induction false} StoresOnlyText(entries: seq<(string, Override)>, decide: Decider, entry: string, m: Mocking)
    requires forall n, o :: decide(n, o).Success? ==> decide(n, o).value != Builtin(SerializerFn)
    requires Classify(entries, decide, entry) == Success(m)
    ensures forall i :: 0 <= i < |m.b| ==> m.b[i].1.Text?
  {
    if |entries| > 0 {
      var k := |entries| - 1;
      var m0 :| Classify(entries[..k], decide, entry) == Success(m0);
      StoresOnlyText(entries[..k], decide, entry, m0);
    }
  }

  /** With line 61 corrected, the builtin table holds only override text. */
  lemma IntendedStoresText(entries: seq<(string, Override)>, host: Host, esm: bool, entry: string, m: Mocking)
    requires Classify(entries, Intended(host, esm, entry), entry) == Success(m)
    ensures forall i :: 0 <= i < |m.b| ==> m.b[i].1.Text?
  {
    StoresOnlyText(entries, Intended(host, esm, entry), entry, m);
  }

  /** The classification loop of `mockery`, as the source runs it. */
  method Mockery(mock: Option<seq<(string, Override)>>, esm: bool, entry: string, host: Host)
    returns (r: Result<Option<Mocking>, Failure>)
    ensures r == Classified(mock, host, esm, entry)
  {
    if mock.None? {
      return Success(None);
    }
    var entries := mock.value;
    ghost var decide := AsWritten(host, esm, entry);
    var g: seq<(string, string)> := [];
    var b: seq<(string, Stored)> := [];
    var l: seq<(string, string)> := [];
    var s: seq<(string, string)> := [];
    var i := 0;
    while i < |entries|
      invariant 0 <= i <= |entries|
      invariant Classify(entries[..i], decide, entry) == Success(Mocking(entry, g, b, l, s))
    {
      var name, override := entries[i].0, entries[i].1;
      ghost var m := Mocking(entry, g, b, l, s);
      var d := DecideEntry(name, override, host, esm, entry);
      assert decide(name, override) == d;
      if d.Failure? {
        ClassifyStopsAt(entries, i, decide, entry, m, d.error);
        FailureExtends(entries, i + 1, decide, entry, d.error);
        return Failure(d.error);
      }
      ClassifyStep(entries, i, decide, entry, m, d.value);
      match d.value {
        case Scoped(t) => s := s + [(name, t)];
        case Global(t) => g := g + [(name, t)];
        case Builtin(st) => b := b + [(name, st)];
        case Library(t) => l := l + [(name, t)];
      }
      i := i + 1;
    }
    assert entries[..|entries|] == entries;
    return Success(Some(Mocking(entry, g, b, l, s)));
  }

  /** The body of the loop for one entry, with its early exits: where the entry goes, or why the call throws. */
  method DecideEntry(name: string, override: Override, host: Host, esm: bool, entry: string)
    returns (r: Result<Place, Failure>)
    ensures r == Decide(name, override, host, esm, entry)
  {
    var serializedFn := SerializeFn(override.source, host.parses);
    if serializedFn.Failure? {
      return Failure(serializedFn.error);
    }
    var text := serializedFn.value;
    if !esm && name in CjsScoped {
      return Success(Scoped(text));
    }
    if name in host.globals {
      if override.global == Some(true) {
        return Success(Global(text));
      }
      if name in PossibleConflict(host.globals) {
        var resolved := host.resolve(name);
        if resolved.None? {
          return Success(Global(text));
        }
        return Success(if resolved.value == name then Builtin(SerializerFn) else Library(text));
      }
    }
    var resolved := host.resolve(name);
    if resolved.None? {
      return Failure(NotResolvable(NotResolvableMessage(name, entry)));
    }
    return Success(if resolved.value == name then Builtin(Text(text)) else Library(text));
  }

  /** One more entry decided into place `p` extends the tables by that one assignment. */
  lemma ClassifyStep(entries: seq<(string, Override)>, i: nat, decide: Decider, entry: string, m: Mocking, p: Place)
    requires i < |entries| && Classify(entries[..i], decide, entry) == Success(m)
    requires decide(entries[i].0, entries[i].1) == Success(p)
    ensures Classify(entries[..i + 1], decide, entry) == Success(Put(m, entries[i].0, p))
  {
    assert entries[..i + 1][..i] == entries[..i];
  }

  /** One more entry that fails makes the loop fail with its error. */
  lemma ClassifyStopsAt(entries: seq<(string, Override)>, i: nat, decide: Decider, entry: string, m: Mocking, e: Failure)
    requires i < |entries| && Classify(entries[..i], decide, entry) == Success(m)
    requires decide(entries[i].0, entries[i].1) == Failure(e)
    ensures Classify(entries[..i + 1], decide, entry) == Failure(e)
  {
    assert entries[..i + 1][..i] == entries[..i];
  }

  // ---------------------------------------------------------------- scopeMocks

  /** The second argument every scoped override receives (written in short pieces the verifier reads character by character). */
  const ScopeCallTail: string := ", {context: global[" + "Symbol.for('kLazaretto" + "Context')], require})"

  /** One scoped override: the identifier is re-bound to the override applied to its original value. */
  function ScopeStatement(name: string, text: string): string
  {
    name + " = (" + text + ")(" + name + ScopeCallTail
  }

  function ScopeStatements(s: seq<(string, string)>): (r: seq<string>)
    ensures |r| == |s| && forall i :: 0 <= i < |s| ==> r[i] == ScopeStatement(s[i].0, s[i].1)
  {
    seq(|s|, i requires 0 <= i < |s| => ScopeStatement(s[i].0, s[i].1))
  }

  /** scopeMocks(): one statement per scoped entry, in insertion order, joined by `;`; empty exactly when nothing is scoped. */
  method ScopeMocks(s: seq<(string, string)>) returns (code: string)
    ensures code == Join(ScopeStatements(s), ";")
    ensures code == "" <==> s == []
  {
    var lines: seq<string> := [];
    for i := 0 to |s|
      invariant lines == ScopeStatements(s[..i])
    {
      lines := lines + [ScopeStatement(s[i].0, s[i].1)];
    }
    assert s[..|s|] == s;
    code := Join(lines, ";");
    if |s| > 0 {
      assert |lines[0]| > 0;
      if |s| > 1 {
        assert code == lines[0] + ";" + Join(lines[1..], ";");
      }
    }
  }


  lemma ScopeStatementWithout(name: string, text: string)
    requires ';' !in name && ';' !in text
    ensures ';' !in ScopeStatement(name, text)
  {
    assert ';' !in ScopeCallTail;
  }

  /** When no scoped name or override text contains `;`, splitting the rendered code on `;` gives back one statement per entry. */
  lemma ScopeMocksSplit(s: seq<(string, string)>)
    requires |s| >= 1
    requires forall i :: 0 <= i < |s| ==> ';' !in s[i].0 && ';' !in s[i].1
    ensures Split(Join(ScopeStatements(s), ";"), ';') == ScopeStatements(s)
  {
    var st := ScopeStatements(s);
    forall i | 0 <= i < |st|
      ensures ';' !in st[i]
    {
      ScopeStatementWithout(s[i].0, s[i].1);
    }
    SplitJoin(st, ';');
  }
}
