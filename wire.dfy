/**
 * The hand-over of the override tables from the host to the worker: index.js:83 stores
 * `JSON.stringify(mocking)` in `LAZARETTO_OVERRIDES`, the worker receives a copy of the
 * host's environment, and lib/preload.js:4 parses it back. JSON keeps strings and drops
 * properties whose value is a function, so the `scopeMocks` closure and any `b` entry
 * holding the serializeFn marker do not reach the worker. Nothing ever deletes the
 * variable, so it outlives the sandbox that set it.
 */
module Wire {
  import opened Wrappers
  import opened Mockery

  /** What lib/preload.js:4 reads: the entry and the three override tables, as source text. */
  datatype Overrides = Overrides(
    entry: string,
    g: seq<(string, string)>,
    b: seq<(string, string)>,
    l: seq<(string, string)>)

  /** JSON.stringify of the `b` table: string values stay, function values vanish. */
  function Texts(b: seq<(string, Stored)>): (r: seq<(string, string)>)
    ensures |r| <= |b|
  {
    if |b| == 0 then []
    else (if b[0].1.Text? then [(b[0].0, b[0].1.text)] else []) + Texts(b[1..])
  }

  /** What `JSON.parse(JSON.stringify(mocking))` gives back. */
  function Encoded(k: Mocking): Overrides
  {
    Overrides(k.entry, k.g, Texts(k.b), k.l)
  }

  /**
   * The variable as the worker sees it, given its value `previous` in the host's environment
   * when the sandbox is created: set only when mockery returned tables, and kept otherwise.
   */
  function Transfer(previous: Option<Overrides>, m: Option<Mocking>): Option<Overrides>
  {
    match m
    case None => previous
    case Some(k) => Some(Encoded(k))
  }

  /** Corrected: the variable holds the current call's tables, and is unset when it has none. */
  function TransferIntended(m: Option<Mocking>): (r: Option<Overrides>)
    ensures r.Some? <==> m.Some?
    ensures forall previous :: m.Some? ==> r == Transfer(previous, m)
  {
    match m
    case None => None
    case Some(k) => Some(Encoded(k))
  }

  /** An entry crosses over exactly when it holds text, and keeps that text. */
  lemma {:induction false} TextsKeep(b: seq<(string, Stored)>, name: string, t: string)
    ensures (name, t) in Texts(b) <==> (name, Text(t)) in b
  {
    if |b| > 0 {
      TextsKeep(b[1..], name, t);
      assert b == [b[0]] + b[1..];
    }
  }

  /** No entry of `b` holds the marker: the table crosses over unchanged, in order. */
  lemma {:induction false} TextsAllText(b: seq<(string, Stored)>)
    requires forall i :: 0 <= i < |b| ==> b[i].1.Text?
    ensures Names(Texts(b)) == Names(b)
    ensures |Texts(b)| == |b| && forall i :: 0 <= i < |b| ==> Texts(b)[i] == (b[i].0, b[i].1.text)
  {
    if |b| > 0 {
      TextsAllText(b[1..]);
    }
  }

  /**
   * As written: a mock for a lower-case global that resolves to itself (such as `console`)
   * is filed under `b` holding the marker, and the worker never receives it.
   */
  lemma BuiltinConflictLost(name: string, ov: Override, host: Host, esm: bool, entry: string)
    requires host.parses(ov.source)
    requires !(!esm && name in CjsScoped) && ov.global != Some(true)
    requires name in PossibleConflict(host.globals) && host.resolve(name) == Some(name)
    ensures Classify([(name, ov)], AsWritten(host, esm, entry), entry) == Success(Mocking(entry, [], [(name, SerializerFn)], [], []))
    ensures TransferIntended(Some(Mocking(entry, [], [(name, SerializerFn)], [], []))) == Some(Overrides(entry, [], [], []))
  {
    var decide := AsWritten(host, esm, entry);
    var entries := [(name, ov)];
    assert entries[..0] == [];
    assert SerializeFn(ov.source, host.parses) == Success(ov.source);
    assert decide(name, ov) == Success(Builtin(SerializerFn));
    assert Classify(entries[..0], decide, entry) == Success(Mocking(entry, [], [], [], []));
    assert entries[|entries| - 1] == (name, ov);
    var b: seq<(string, Stored)> := [];
    assert b + [(name, SerializerFn)] == [(name, SerializerFn)];
    assert Classify(entries, decide, entry) == Success(Put(Mocking(entry, [], b, [], []), name, Builtin(SerializerFn)));
  }

  /** The hypotheses above are met by `console` on a host where `console` resolves to the builtin module. */
  lemma ConsoleIsPossibleConflict()
    ensures "console" in PossibleConflict({"console", "Buffer", "process"})
    ensures "Buffer" !in PossibleConflict({"console", "Buffer", "process"})
    ensures "process" !in PossibleConflict({"console", "Buffer", "process"})
  {
    assert Text.IsLowerCase("console");
    assert Text.LowerChar("Buffer"[0]) != "Buffer"[0];
  }

  /** Corrected: with the text stored, every builtin override reaches the worker, in order. */
  lemma IntendedTransfersBuiltins(entries: seq<(string, Override)>, host: Host, esm: bool, entry: string, m: Mocking)
    requires Classify(entries, Intended(host, esm, entry), entry) == Success(m)
    ensures TransferIntended(Some(m)).value.b == Texts(m.b)
    ensures Names(TransferIntended(Some(m)).value.b) == Names(m.b)
  {
    IntendedStoresText(entries, host, esm, entry, m);
    TextsAllText(m.b);
  }
}
