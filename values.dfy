/**
 * The JavaScript values the preload tables and the loader handle: what an override
 * evaluates to, what `require` returns, and the get-trap proxies of lib/preload.js.
 */
module Values {
  import opened Wrappers
  import Text

  datatype Value =
    | Undefined                                     // `undefined` or `null`
    | Prim(text: string)                            // a number or boolean, as rendered
    | Str(chars: string)                            // a string
    | Obj(props: seq<(string, Value)>)              // an object or function: its own properties, in order
    | Wrapper(target: Value, key: string, replacement: Value)
      // `new Proxy(target, { get (o, k) { if (k === key) return replacement; return o[k] } })`

  /** The first own property named `k`, if any. */
  function Lookup(props: seq<(string, Value)>, k: string): Option<Value>
  {
    if |props| == 0 then None
    else if props[0].0 == k then Some(props[0].1)
    else Lookup(props[1..], k)
  }

  /** The index a property name denotes on a string of length `n`: a canonical decimal below `n`. */
  function IndexName(k: string, n: nat): (r: Option<nat>)
    ensures r.Some? ==> r.value < n && k == Text.NatToString(r.value)
  {
    if Text.AllDigits(k) && k == Text.NatToString(Text.DigitsValue(k)) && Text.DigitsValue(k) < n
    then Some(Text.DigitsValue(k)) else None
  }

  /** The own property names of a string: its indices, then `length`. */
  function StringNames(s: string): seq<string>
  {
    seq(|s|, i requires 0 <= i < |s| => Text.NatToString(i)) + ["length"]
  }

  /** Property read `v[k]` (prototype chains are not modelled: a missing property is `undefined`). */
  function Get(v: Value, k: string): Value
  {
    match v
    case Undefined => Undefined
    case Prim(_) => Undefined
    case Str(s) =>
      if k == "length" then Prim(Text.NatToString(|s|))
      else (match IndexName(k, |s|) case Some(i) => Str([s[i]]) case None => Undefined)
    case Obj(props) => (match Lookup(props, k) case Some(x) => x case None => Undefined)
    case Wrapper(target, key, replacement) => if k == key then replacement else Get(target, k)
  }

  /** The `in` operator: a TypeError on anything that is not an object; a proxy without a `has` trap asks its target. */
  function Has(v: Value, k: string): Result<bool, string>
  {
    match v
    case Undefined => Failure("TypeError")
    case Prim(_) => Failure("TypeError")
    case Str(_) => Failure("TypeError")
    case Obj(props) => Success(Lookup(props, k).Some?)
    case Wrapper(target, _, _) => Has(target, k)
  }

  /** `Object.getOwnPropertyNames(v)`: a TypeError on `undefined`/`null`; a proxy without an `ownKeys` trap asks its target. */
  function OwnNames(v: Value): Result<seq<string>, string>
  {
    match v
    case Undefined => Failure("TypeError")
    case Prim(_) => Success([])
    case Str(s) => Success(StringNames(s))
    case Obj(props) => Success(seq(|props|, i requires 0 <= i < |props| => props[i].0))
    case Wrapper(target, _, _) => OwnNames(target)
  }

  /**
   * A string's own names are exactly its indices and `length`: each index reads back its
   * one-character string, `length` reads back the length, and `default` is not among them.
   */
  lemma StringProperties(s: string)
    ensures OwnNames(Str(s)) == Success(StringNames(s))
    ensures "length" in StringNames(s) && "default" !in StringNames(s)
    ensures forall i :: 0 <= i < |s| ==> Get(Str(s), StringNames(s)[i]) == Str([s[i]])
    ensures Get(Str(s), "length") == Prim(Text.NatToString(|s|))
  {
    var names := StringNames(s);
    assert names[|s|] == "length";
    forall i | 0 <= i < |s|
      ensures Get(Str(s), names[i]) == Str([s[i]])
    {
      Text.DigitsValueOfNatToString(i);
      assert names[i] != "length" by {
        assert Text.AllDigits(names[i]);
        assert "length"[0] == 'l';
      }
    }
    forall j | 0 <= j < |names|
      ensures names[j] != "default"
    {
      assert names[j][0] != 'd';
    }
  }
}
