/**
 * `getValByKey`: reading a field of the project, as a JSON value, by a key or by a
 * path of keys, stopping as soon as a falsy value is reached.
 */
module JsonPath {
  import opened Wrappers
  import opened JsValues

  /** A JSON value as the deep copy of the project holds it. */
  datatype Value =
    | Undefined
    | Null
    | Bool(b: bool)
    | Num(n: Number)
    | Str(s: string)
    | Arr(elems: seq<Value>)
    | Obj(fields: map<string, Value>)

  /** JavaScript truthiness: undefined, null, false, 0, NaN and "" are falsy. */
  predicate IsTruthy(v: Value) {
    match v
    case Undefined => false
    case Null => false
    case Bool(b) => b
    case Num(n) => n.Int? && n.value != 0
    case Str(s) => s != ""
    case Arr(_) => true
    case Obj(_) => true
  }

  /** A property name that is an array index: decimal digits, without a leading zero unless it is "0". */
  function ArrayIndex(k: string): (r: Option<nat>)
    ensures r.Some? ==> k != [] && forall i :: 0 <= i < |k| ==> '0' <= k[i] <= '9'
  {
    if k != [] && (forall i :: 0 <= i < |k| ==> '0' <= k[i] <= '9') && (|k| == 1 || k[0] != '0') then
      Some(DigitsValue(k, 10))
    else None
  }

  lemma {:induction false} DecimalStringLeadingDigit(n: nat)
    requires n >= 1
    ensures DecimalString(n)[0] != '0'
  {
    if n >= 10 {
      DecimalStringLeadingDigit(n / 10);
    }
  }

  /** The decimal spelling of a number is the index it names. */
  lemma ArrayIndexOfDecimal(n: nat)
    ensures ArrayIndex(DecimalString(n)) == Some(n)
  {
    DecimalStringValue(n);
    if n >= 1 {
      DecimalStringLeadingDigit(n);
    }
  }

  /**
   * `v[k]`: an object's own field, an array element or a string's character by
   * index, an array's or a string's `length`; anything else is undefined. Reading
   * a property of undefined or null throws, so callers never do.
   */
  function Get(v: Value, k: string): (r: Value)
    requires !v.Undefined? && !v.Null?
    ensures v.Obj? ==> (r.Undefined? <==> k !in v.fields || v.fields[k].Undefined?)
    ensures (v.Bool? || v.Num?) ==> r.Undefined?
  {
    match v
    case Obj(m) => if k in m then m[k] else Undefined
    case Arr(a) =>
      if k == "length" then Num(Int(|a|))
      else if ArrayIndex(k).Some? && ArrayIndex(k).value < |a| then a[ArrayIndex(k).value]
      else Undefined
    case Str(s) =>
      if k == "length" then Num(Int(|s|))
      else if ArrayIndex(k).Some? && ArrayIndex(k).value < |s| then Str([s[ArrayIndex(k).value]])
      else Undefined
    case _ => Undefined
  }

  /** The walk down the remaining keys: stop at a falsy value, otherwise step into its field. */
  function Walk(v: Value, keys: seq<string>): Value
    decreases |keys|
  {
    if keys == [] || !IsTruthy(v) then v
    else Walk(Get(v, keys[0]), keys[1..])
  }

  /** A bare key, or a path `[key, subkey, subsubkey, ...]`. */
  datatype Key = Name(name: string) | Path(keys: seq<string>)

  /** A top-level field of the project; undefined when absent. */
  function Field(source: map<string, Value>, k: string): Value
  {
    if k in source then source[k] else Undefined
  }

  /** What `getValByKey` returns; an empty path looks up the field named "undefined". */
  function ValByKey(source: map<string, Value>, key: Key): Value
  {
    match key
    case Name(k) => Field(source, k)
    case Path(ks) =>
      if ks == [] then Field(source, "undefined")
      else Walk(Field(source, ks[0]), ks[1..])
  }

  /** `getValByKey`: the loop over the keys after the first, leaving it at the first falsy value. */
  method GetValByKey(source: map<string, Value>, key: Key) returns (r: Value)
    ensures r == ValByKey(source, key)
  {
    if key.Path? {
      var ks := key.keys;
      var rest: seq<string> := if ks == [] then [] else ks[1..];
      r := Field(source, if ks == [] then "undefined" else ks[0]);
      var i := 0;
      while i < |rest|
        invariant 0 <= i <= |rest|
        invariant Walk(r, rest[i..]) == ValByKey(source, key)
      {
        if !IsTruthy(r) {
          break;
        }
        assert rest[i..][1..] == rest[i + 1..];
        r := Get(r, rest[i]);
        i := i + 1;
      }
    } else {
      r := Field(source, key.name);
    }
  }

  /** Walking a path in two pieces is walking the whole path. */
  lemma {:induction false} WalkConcat(v: Value, a: seq<string>, b: seq<string>)
    ensures Walk(v, a + b) == Walk(Walk(v, a), b)
    decreases |a|
  {
    if a == [] {
      assert a + b == b;
    } else if IsTruthy(v) {
      assert (a + b)[1..] == a[1..] + b;
      WalkConcat(Get(v, a[0]), a[1..], b);
    }
  }

  /** A path of one key reads exactly what the bare key reads. */
  lemma SingleKeyPath(source: map<string, Value>, k: string)
    ensures ValByKey(source, Path([k])) == ValByKey(source, Name(k))
  {
    assert [k][1..] == [];
  }

  /** Extending a path by one key steps into the value the shorter path reached, if that is truthy. */
  lemma PathExtension(source: map<string, Value>, ks: seq<string>, k: string)
    requires ks != []
    ensures var v := ValByKey(source, Path(ks));
      ValByKey(source, Path(ks + [k])) == if IsTruthy(v) then Get(v, k) else v
  {
    assert (ks + [k])[0] == ks[0];
    assert (ks + [k])[1..] == ks[1..] + [k];
    WalkConcat(Field(source, ks[0]), ks[1..], [k]);
    assert [k][1..] == [];
  }

  /** `["topology", "areas", "0", "address"]` reads the first area's address; a missing key yields undefined. */
  lemma ReadFirstAreaAddress(address: string)
    ensures var area := Obj(map["address" := Str(address)]);
      var source := map["topology" := Obj(map["areas" := Arr([area])])];
      && ValByKey(source, Path(["topology", "areas", "0", "address"])) == Str(address)
      && ValByKey(source, Path(["topology", "lines", "0"])) == Undefined
  {
    var area := Obj(map["address" := Str(address)]);
    var source := map["topology" := Obj(map["areas" := Arr([area])])];
    ArrayIndexOfDecimal(0);
    assert DecimalString(0) == "0";
    assert Walk(Str(address), []) == Str(address);
    assert Walk(area, ["address"]) == Walk(Str(address), []);
    assert Walk(Arr([area]), ["0", "address"]) == Walk(area, ["address"]);
    assert Walk(Undefined, ["0"]) == Undefined;
  }
}
