/**
 * index.js, building the instrumented entry: the scope object literal (lines 11-18), the
 * shims put before the entry (23-25), the message-handling block flattened onto one line
 * (26-69) and the concatenation of all of them in front of the entry's own text (72).
 */
module Instrument {
  import opened Wrappers
  import opened Text
  import Mockery

  // ---------------------------------------------------------------- scope

  /** An element of `scope`: a string, an object (rendered from its `0` and `1` entries), or anything else. */
  datatype ScopeRef = Name(name: string) | Pair(key: string, value: string) | Other

  /** The `scope` option: an array, or a single value that is wrapped into one. */
  datatype Scope = Refs(refs: seq<ScopeRef>) | Single(ref: ScopeRef)

  function AsArray(scope: Scope): seq<ScopeRef>
  {
    match scope
    case Refs(refs) => refs
    case Single(ref) => [ref]
  }

  /** What one reduce step appends. */
  function Fragment(ref: ScopeRef): string
  {
    match ref
    case Name(n) => n + ","
    case Pair(k, v) => k + ":" + v
    case Other => ""
  }

  /** The reduce over the refs, from the left. */
  function Fragments(refs: seq<ScopeRef>): string
    decreases |refs|
  {
    if |refs| == 0 then "" else Fragments(refs[..|refs| - 1]) + Fragment(refs[|refs| - 1])
  }

  /** The object literal spread into the sandbox's evaluation context. */
  function Scoping(scope: Scope): string
  {
    "{" + Fragments(AsArray(scope)) + "}"
  }

  /** A `scope` that is not an array is treated as the array of that one ref. */
  lemma SingleScope(ref: ScopeRef)
    ensures Scoping(Single(ref)) == Scoping(Refs([ref]))
    ensures Scoping(Single(ref)) == "{" + Fragment(ref) + "}"
  {
    assert [ref][..0] == [];
    assert Fragments([ref]) == Fragments([]) + Fragment(ref);
  }

  /** What the literal is meant to list for each ref: `name` (shorthand) or `key:value`. */
  function Entry(ref: ScopeRef): string
    requires !ref.Other?
  {
    match ref
    case Name(n) => n
    case Pair(k, v) => k + ":" + v
  }

  function Entries(refs: seq<ScopeRef>): seq<string>
  {
    if |refs| == 0 then []
    else (if refs[0].Other? then [] else [Entry(refs[0])]) + Entries(refs[1..])
  }

  predicate NoComma(ref: ScopeRef)
  {
    match ref
    case Name(n) => ',' !in n
    case Pair(k, v) => ',' !in k && ',' !in v
    case Other => true
  }

  /** Corrected: every entry, pairs included, is followed by a `,`. */
  function Listed(refs: seq<ScopeRef>): string
  {
    if |refs| == 0 then ""
    else (if refs[0].Other? then "" else Entry(refs[0]) + ",") + Listed(refs[1..])
  }

  function ScopingIntended(scope: Scope): string
  {
    "{" + Listed(AsArray(scope)) + "}"
  }

  /** The corrected literal lists exactly one comma-separated entry per string or pair ref. */
  lemma {:induction false} ListedSplit(refs: seq<ScopeRef>)
    requires forall i :: 0 <= i < |refs| ==> NoComma(refs[i])
    ensures Split(Listed(refs), ',') == Entries(refs) + [""]
  {
    if |refs| > 0 {
      ListedSplit(refs[1..]);
      if !refs[0].Other? {
        var e := Entry(refs[0]);
        assert NoComma(refs[0]);
        assert ',' !in e;
        assert Listed(refs) == e + [','] + Listed(refs[1..]);
        assert Entries(refs) == [e] + Entries(refs[1..]);
        SplitAfterPiece(e, Listed(refs[1..]), ',');
      } else {
        assert Listed(refs) == Listed(refs[1..]);
        assert Entries(refs) == Entries(refs[1..]);
      }
    }
  }

  /** Without pairs the literal is already the corrected one. */
  lemma {:induction false} AgreeWithoutPairs(refs: seq<ScopeRef>)
    requires forall i :: 0 <= i < |refs| ==> !refs[i].Pair?
    ensures Fragments(refs) == Listed(refs)
  {
    if |refs| > 0 {
      var n := |refs| - 1;
      AgreeWithoutPairs(refs[..n]);
      ListedSnoc(refs[..n], refs[n]);
      assert refs[..n] + [refs[n]] == refs;
    }
  }

  lemma {:induction false} ListedSnoc(refs: seq<ScopeRef>, r: ScopeRef)
    requires !r.Pair?
    ensures Listed(refs + [r]) == Listed(refs) + Fragment(r)
  {
    var t := refs + [r];
    if |refs| == 0 {
      assert t == [r] && [r][1..] == [];
      assert Listed(t) == (if r.Other? then "" else Entry(r) + ",") + Listed([]);
    } else {
      var head := if refs[0].Other? then "" else Entry(refs[0]) + ",";
      assert t[0] == refs[0] && t[1..] == refs[1..] + [r];
      ListedSnoc(refs[1..], r);
      assert Listed(t) == head + Listed(refs[1..] + [r]);
      assert Listed(refs) == head + Listed(refs[1..]);
    }
  }

  /** As written: two pairs run together into one entry, `{a:xb:y}`. */
  lemma PairsRunTogether(a: string, x: string, b: string, y: string)
    requires ',' !in a && ',' !in x && ',' !in b && ',' !in y
    ensures Scoping(Refs([Pair(a, x), Pair(b, y)])) == "{" + ((a + ":" + x) + (b + ":" + y)) + "}"
    ensures Split(Fragments([Pair(a, x), Pair(b, y)]), ',') == [(a + ":" + x) + (b + ":" + y)]
    ensures Entries([Pair(a, x), Pair(b, y)]) == [a + ":" + x, b + ":" + y]
  {
    var joined := (a + ":" + x) + (b + ":" + y);
    FragmentsOfTwo(Pair(a, x), Pair(b, y));
    assert ',' !in joined;
    SplitWithout(joined, ',');
    EntriesOfTwo(Pair(a, x), Pair(b, y));
  }

  lemma EntriesOfTwo(p: ScopeRef, q: ScopeRef)
    requires !p.Other? && !q.Other?
    ensures Entries([p, q]) == [Entry(p), Entry(q)]
  {
    assert [p, q][1..] == [q] && [q][1..] == [];
    assert Entries([q]) == [Entry(q)] + Entries([]);
    assert Entries([p, q]) == [Entry(p)] + Entries([q]);
  }

  lemma FragmentsOfTwo(p: ScopeRef, q: ScopeRef)
    ensures Fragments([p, q]) == Fragment(p) + Fragment(q)
  {
    var refs := [p, q];
    assert refs[..1] == [p];
    assert [p][..0] == [];
    assert Fragments([p]) == Fragments([]) + Fragment(p);
    assert Fragments(refs) == Fragments([p]) + Fragment(q);
  }

  // ---------------------------------------------------------------- shims

  const EsmShimHead := "import.meta.url = '"
  const EsmShimTail := "';global[Symbol.for(" + "'kLazarettoImportMeta')]" + " = import.meta;"
  const CjsShimHead := "module.id = '.'; " + "module.parent = null; " + "require.main = module;"

  /** The statements put before the entry: `import.meta` under ESM, the CommonJS main-module fields and scoped mocks otherwise. */
  function Shims(esm: bool, entryUrl: string, mocking: Option<Mockery.Mocking>): string
  {
    if esm then EsmShimHead + entryUrl + EsmShimTail
    else CjsShimHead + (if mocking.Some? then Join(Mockery.ScopeStatements(mocking.value.s), ";") else "") + ";"
  }

  /** Under ESM the shims are one line when the entry URL is. */
  lemma EsmShimsOneLine(entryUrl: string, mocking: Option<Mockery.Mocking>)
    requires '\n' !in entryUrl
    ensures '\n' !in Shims(true, entryUrl, mocking)
  {
    assert '\n' !in EsmShimHead && '\n' !in EsmShimTail;
  }

  /** Under CommonJS the shims are one line when no scoped override's text spans lines. */
  lemma CjsShimsOneLine(entryUrl: string, mocking: Option<Mockery.Mocking>)
    requires mocking.Some? ==> forall i :: 0 <= i < |mocking.value.s| ==>
      '\n' !in mocking.value.s[i].0 && '\n' !in mocking.value.s[i].1
    ensures '\n' !in Shims(false, entryUrl, mocking)
  {
    CjsShimHeadOneLine();
    if mocking.Some? {
      var st := Mockery.ScopeStatements(mocking.value.s);
      ScopeCallTailOneLine();
      forall i | 0 <= i < |st|
        ensures '\n' !in st[i]
      {
      }
      JoinWithout(st, ";", '\n');
    }
  }

  /** Conversely, a scoped override whose text spans lines puts a line break in the CommonJS shims. */
  lemma CjsShimsBreak(entryUrl: string, mocking: Mockery.Mocking, i: nat)
    requires i < |mocking.s| && '\n' in mocking.s[i].1
    ensures '\n' in Shims(false, entryUrl, Some(mocking))
  {
    var st := Mockery.ScopeStatements(mocking.s);
    var name, text := mocking.s[i].0, mocking.s[i].1;
    assert st[i] == name + " = (" + text + ")(" + name + Mockery.ScopeCallTail;
    assert '\n' in st[i];
    JoinKeeps(st, ";", i, '\n');
    assert Shims(false, entryUrl, Some(mocking)) == CjsShimHead + Join(st, ";") + ";";
  }

  lemma {:induction false} JoinKeeps(parts: seq<string>, sep: string, i: nat, c: char)
    requires i < |parts| && c in parts[i]
    ensures c in Join(parts, sep)
  {
    if |parts| > 1 && i > 0 {
      JoinKeeps(parts[1..], sep, i - 1, c);
    }
  }

  lemma CjsShimHeadOneLine()
    ensures '\n' !in CjsShimHead
  {
    assert '\n' !in "module.id = '.'; " && '\n' !in "module.parent = null; " && '\n' !in "require.main = module;";
  }

  lemma ScopeCallTailOneLine()
    ensures '\n' !in Mockery.ScopeCallTail
  {
  }

  lemma {:induction false} JoinWithout(parts: seq<string>, sep: string, c: char)
    requires c !in sep && forall i :: 0 <= i < |parts| ==> c !in parts[i]
    ensures c !in Join(parts, sep)
  {
    if |parts| > 1 {
      JoinWithout(parts[1..], sep, c);
    }
  }

  // ---------------------------------------------------------------- comms and the code

  /** Each line of the template trimmed and ended with `;`. */
  function TrimmedLines(lines: seq<string>): (r: seq<string>)
    ensures |r| == |lines|
  {
    seq(|lines|, i requires 0 <= i < |lines| => Trim(lines[i]) + ";")
  }

  /** The message-handling block, flattened: `split('\n').map((s) => s.trim() + ';').join('')`. */
  function FlattenComms(template: string): string
  {
    Join(TrimmedLines(Split(template, '\n')), "")
  }

  /** The flattened block is a single line, whatever the template. */
  lemma FlattenedOneLine(template: string)
    ensures '\n' !in FlattenComms(template)
  {
    var lines := Split(template, '\n');
    var t := TrimmedLines(lines);
    forall i | 0 <= i < |t|
      ensures '\n' !in t[i]
    {
      TrimWithout(lines[i], '\n');
    }
    JoinWithout(t, "", '\n');
  }

  /** The flattened block has one statement-ending `;` per template line, after that line's text. */
  lemma FlattenedStatements(template: string)
    ensures |TrimmedLines(Split(template, '\n'))| == Count(template, '\n') + 1
    ensures forall i :: 0 <= i < Count(template, '\n') + 1 ==>
      TrimmedLines(Split(template, '\n'))[i] == Trim(Split(template, '\n')[i]) + ";"
  {
    SplitCount(template, '\n');
  }

  /** The instrumented source. */
  function Code(prefix: string, shims: string, comms: string, contents: string): string
  {
    prefix + shims + comms + contents
  }

  /**
   * When the prefix and the shims are one line, the instrumented source has the entry's
   * lines from the second on unchanged and at the same line numbers; only the first line
   * carries the injected code in front of it.
   */
  lemma LinesPreserved(prefix: string, shims: string, template: string, contents: string)
    requires '\n' !in prefix && '\n' !in shims
    ensures var lc := Split(Code(prefix, shims, FlattenComms(template), contents), '\n');
      var ls := Split(contents, '\n');
      |lc| == |ls| && lc[0] == prefix + shims + FlattenComms(template) + ls[0] && lc[1..] == ls[1..]
  {
    var comms := FlattenComms(template);
    FlattenedOneLine(template);
    var head := prefix + shims + comms;
    assert '\n' !in head;
    assert Code(prefix, shims, comms, contents) == head + contents;
    SplitGlued(head, contents, '\n');
  }

  /**
   * Every line break in the shims (under CommonJS, one per line break in the text of a
   * scoped override) moves the entry's lines from the second on down by one: entry line
   * `i` is line `i + k` of the instrumented source, for `k` such breaks.
   */
  lemma ShimsShiftLines(prefix: string, shims: string, template: string, contents: string)
    requires '\n' !in prefix
    ensures var lc := Split(Code(prefix, shims, FlattenComms(template), contents), '\n');
      var ls := Split(contents, '\n');
      var k := Count(shims, '\n');
      |lc| == |ls| + k && lc[k + 1..] == ls[1..]
  {
    var comms := FlattenComms(template);
    FlattenedOneLine(template);
    var head := prefix + shims + comms;
    assert Code(prefix, shims, comms, contents) == head + contents;
    SplitConcat(head, contents, '\n');
    SplitCount(head, '\n');
    CountConcat(prefix + shims, comms, '\n');
    CountConcat(prefix, shims, '\n');
    CountWithout(prefix, '\n');
    CountWithout(comms, '\n');
  }
}
