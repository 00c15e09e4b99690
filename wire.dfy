/**
 * The untyped value tree that both text decoders (JSON and YAML) hand to the
 * typed model, and the serde rules by which the field shapes of the OpenAPI
 * records are read out of it and written back into it.
 */
module Wire {
  import opened Wrappers

  /** A number as a text decoder reports it: an integer literal keeps its
    * value, any other number (fraction or exponent) stays an opaque token. */
  datatype Number = Integer(value: int) | Decimal(token: string)

  /** The shape of `serde_json::Value`: the generic tree of a decoded document. */
  datatype Value =
    | Null
    | Bool(b: bool)
    | Num(n: Number)
    | Str(s: string)
    | Arr(elems: seq<Value>)
    | Obj(fields: map<string, Value>)

  /** Why a value did not fit the shape a record field asks for. */
  datatype ShapeError = InvalidType(expected: string) | InvalidValue(expected: string)

  type Decoded<T> = Result<T, ShapeError>

  /** Rust's `u32`. */
  newtype U32 = x: int | 0 <= x < 0x1_0000_0000

  /** The value under `key`; serde reads a missing key of an `Option` field
    * exactly as an explicit null. */
  function Field(fields: map<string, Value>, key: string): Value
  {
    if key in fields then fields[key] else Null
  }

  /** Writing a null under a key reads exactly like removing the key. */
  lemma NullIsMissing(fields: map<string, Value>, key: string)
    ensures forall k :: Field(fields[key := Null], k) == Field(fields - {key}, k)
  {
  }

  // ---------------------------------------------------------------------
  // Scalars: each encoder promises that its decoder reads the value back.
  // ---------------------------------------------------------------------

  function DecodeString(v: Value): Decoded<string>
  {
    if v.Str? then Ok(v.s) else Err(InvalidType("a string"))
  }

  function EncodeString(s: string): (v: Value)
    ensures DecodeString(v) == Ok(s) && !v.Null?
  {
    Str(s)
  }

  function DecodeBool(v: Value): Decoded<bool>
  {
    if v.Bool? then Ok(v.b) else Err(InvalidType("a boolean"))
  }

  function EncodeBool(b: bool): (v: Value)
    ensures DecodeBool(v) == Ok(b) && !v.Null?
  {
    Bool(b)
  }

  /** A `u32` field takes an integer literal in range; a fraction is the
    * wrong type, an integer out of range the wrong value. */
  function DecodeU32(v: Value): (r: Decoded<U32>)
    ensures r.Ok? <==> v.Num? && v.n.Integer? && 0 <= v.n.value < 0x1_0000_0000
    ensures r.Ok? ==> r.value as int == v.n.value
  {
    if v.Num? && v.n.Integer? then
      if 0 <= v.n.value < 0x1_0000_0000 then Ok(v.n.value as U32) else Err(InvalidValue("a u32"))
    else
      Err(InvalidType("a u32"))
  }

  function EncodeU32(x: U32): (v: Value)
    ensures DecodeU32(v) == Ok(x) && !v.Null?
  {
    Num(Integer(x as int))
  }

  /** An `f64` field takes any number; its value is kept as the opaque token. */
  function DecodeF64(v: Value): Decoded<Number>
  {
    if v.Num? then Ok(v.n) else Err(InvalidType("an f64"))
  }

  function EncodeF64(x: Number): (v: Value)
    ensures DecodeF64(v) == Ok(x) && !v.Null?
  {
    Num(x)
  }

  /** A `serde_json::Value` field takes whatever the document holds. */
  function DecodeAny(v: Value): Decoded<Value>
  {
    Ok(v)
  }

  function EncodeAny(x: Value): (v: Value)
    ensures DecodeAny(v) == Ok(x)
  {
    x
  }

  // ---------------------------------------------------------------------
  // Key order
  // ---------------------------------------------------------------------

  /** Lexicographic order on keys, by code point. */
  predicate KeyLe(a: string, b: string)
  {
    |a| == 0 || (|b| > 0 && (a[0] < b[0] || (a[0] == b[0] && KeyLe(a[1..], b[1..]))))
  }

  lemma {:induction false} KeyLeTotal(a: string, b: string)
    ensures KeyLe(a, b) || KeyLe(b, a)
  {
    if |a| > 0 && |b| > 0 && a[0] == b[0] {
      KeyLeTotal(a[1..], b[1..]);
    }
  }

  lemma {:induction false} KeyLeAntisymmetric(a: string, b: string)
    requires KeyLe(a, b) && KeyLe(b, a)
    ensures a == b
  {
    if |a| > 0 {
      KeyLeAntisymmetric(a[1..], b[1..]);
      assert a == [a[0]] + a[1..] && b == [b[0]] + b[1..];
    }
  }

  lemma {:induction false} KeyLeTransitive(a: string, b: string, c: string)
    requires KeyLe(a, b) && KeyLe(b, c)
    ensures KeyLe(a, c)
  {
    if |a| > 0 && a[0] == b[0] && b[0] == c[0] {
      KeyLeTransitive(a[1..], b[1..], c[1..]);
    }
  }

  /** Every finite, non-empty set of keys has a least element. */
  lemma {:induction false} LeastKeyExists(s: set<string>)
    requires s != {}
    ensures exists k | k in s :: forall j | j in s :: KeyLe(k, j)
    decreases |s|
  {
    var x :| x in s;
    if s - {x} == {} {
      assert s == {x};
      KeyLeTotal(x, x);
    } else {
      LeastKeyExists(s - {x});
      var y :| y in s - {x} && forall j | j in s - {x} :: KeyLe(y, j);
      KeyLeTotal(x, y);
      if KeyLe(x, y) {
        forall j | j in s ensures KeyLe(x, j) {
          if j != x { KeyLeTransitive(x, y, j); } else { KeyLeTotal(x, x); }
        }
      } else {
        assert KeyLe(y, x);
      }
    }
  }

  /** The least key of a non-empty set. */
  function LeastKey(s: set<string>): (k: string)
    requires s != {}
    ensures k in s && forall j | j in s :: KeyLe(k, j)
  {
    LeastKeyExists(s);
    assert forall a, b | a in s && b in s && KeyLe(a, b) && KeyLe(b, a) :: a == b by {
      forall a, b | a in s && b in s && KeyLe(a, b) && KeyLe(b, a) ensures a == b {
        KeyLeAntisymmetric(a, b);
      }
    }
    var k :| k in s && forall j | j in s :: KeyLe(k, j);
    k
  }

  // ---------------------------------------------------------------------
  // Option<T>, Vec<T> and HashMap<String, T>
  // ---------------------------------------------------------------------

  /** `Option<T>`: null (or a missing key, see Field) is None, anything
    * else must decode as a T. */
  function DecodeOpt<T>(v: Value, dec: Value -> Decoded<T>): Decoded<Option<T>>
  {
    if v.Null? then Ok(None) else var x :- dec(v); Ok(Some(x))
  }

  /** An optional field is absent exactly when its key is missing or null;
    * any other value either decodes to Some or fails. */
  lemma AbsentIffMissingOrNull<T>(fields: map<string, Value>, key: string, dec: Value -> Decoded<T>)
    ensures DecodeOpt(Field(fields, key), dec) == Ok(None) <==> key !in fields || fields[key] == Null
    ensures DecodeOpt(Field(fields, key), dec).Ok? && key in fields && fields[key] != Null ==>
      DecodeOpt(Field(fields, key), dec) == Ok(Some(dec(fields[key]).value))
  {
  }

  /** `Option<T>` without `skip_serializing_if`: None is written as null. */
  function EncodeOpt<T>(o: Option<T>, enc: T -> Value): Value
  {
    match o
    case None => Null
    case Some(x) => enc(x)
  }

  /** `Vec<T>`: an array whose elements all decode, in order. */
  function DecodeList<T>(v: Value, dec: Value -> Decoded<T>): Decoded<seq<T>>
  {
    if v.Arr? then DecodeElems(v.elems, dec) else Err(InvalidType("a sequence"))
  }

  /** Elements are decoded front to back and the first failure is reported. */
  function DecodeElems<T>(s: seq<Value>, dec: Value -> Decoded<T>): (r: Decoded<seq<T>>)
    ensures r.Ok? <==> forall i | 0 <= i < |s| :: dec(s[i]).Ok?
    ensures r.Ok? ==> |r.value| == |s| && forall i | 0 <= i < |s| :: dec(s[i]) == Ok(r.value[i])
  {
    if s == [] then Ok([])
    else
      var x :- dec(s[0]);
      var rest :- DecodeElems(s[1..], dec);
      assert forall i | 1 <= i < |s| :: s[i] == s[1..][i - 1];
      Ok([x] + rest)
  }

  function EncodeList<T>(s: seq<T>, enc: T -> Value): Value
  {
    Arr(seq(|s|, i requires 0 <= i < |s| => enc(s[i])))
  }

  /** `HashMap<String, T>`: an object whose entries all decode; the keys are kept. */
  function DecodeMap<T>(v: Value, dec: Value -> Decoded<T>): Decoded<map<string, T>>
  {
    if v.Obj? then DecodeEntries(v.fields, dec) else Err(InvalidType("a map"))
  }

  /** A failing entry fails the map with its own error. serde meets the
    * entries in document order, which a `map` does not keep; of several
    * failing entries, the one with the least key is reported. */
  function DecodeEntries<T>(m: map<string, Value>, dec: Value -> Decoded<T>): (r: Decoded<map<string, T>>)
    ensures r.Ok? <==> forall k | k in m :: dec(m[k]).Ok?
    ensures r.Ok? ==> r.value.Keys == m.Keys && forall k | k in m :: dec(m[k]) == Ok(r.value[k])
    ensures r.Err? ==> exists k | k in m :: dec(m[k]) == Err(r.error)
  {
    if forall k | k in m :: dec(m[k]).Ok? then
      Ok(map k | k in m :: dec(m[k]).value)
    else
      var bad := set k | k in m && dec(m[k]).Err?;
      assert bad != {} by {
        var w :| w in m && !dec(m[w]).Ok?;
        assert w in bad;
      }
      var k := LeastKey(bad);
      Err(dec(m[k]).error)
  }

  function EncodeMap<T>(m: map<string, T>, enc: T -> Value): Value
  {
    Obj(map k | k in m :: enc(m[k]))
  }

  /** `Option<Vec<T>>`. */
  function DecodeOptList<T>(v: Value, dec: Value -> Decoded<T>): Decoded<Option<seq<T>>>
  {
    if v.Null? then Ok(None) else var s :- DecodeList(v, dec); Ok(Some(s))
  }

  function EncodeOptList<T>(o: Option<seq<T>>, enc: T -> Value): Value
  {
    match o
    case None => Null
    case Some(s) => EncodeList(s, enc)
  }

  /** `Option<HashMap<String, T>>`. */
  function DecodeOptMap<T>(v: Value, dec: Value -> Decoded<T>): Decoded<Option<map<string, T>>>
  {
    if v.Null? then Ok(None) else var m :- DecodeMap(v, dec); Ok(Some(m))
  }

  function EncodeOptMap<T>(o: Option<map<string, T>>, enc: T -> Value): Value
  {
    match o
    case None => Null
    case Some(m) => EncodeMap(m, enc)
  }

  // ---------------------------------------------------------------------
  // Structs
  // ---------------------------------------------------------------------

  /** The object a derived `Serialize` writes for a struct: each wire name in
    * turn with its encoded field. A name written twice would keep its last
    * value, as an insertion into a map does. */
  function ObjectOf(names: seq<string>, values: seq<Value>): (m: map<string, Value>)
    requires |names| == |values|
    decreases |names|
  {
    if |names| == 0 then map[]
    else
      var n := |names| - 1;
      ObjectOf(names[..n], values[..n])[names[n] := values[n]]
  }

  /** The object has exactly the names written. */
  lemma {:induction false} ObjectOfKeys(names: seq<string>, values: seq<Value>)
    requires |names| == |values|
    ensures ObjectOf(names, values).Keys == set k | k in names
    decreases |names|
  {
    if |names| > 0 {
      var n := |names| - 1;
      ObjectOfKeys(names[..n], values[..n]);
      assert names == names[..n] + [names[n]];
    }
  }

  /** A name that no later write repeats holds the value written with it. */
  lemma {:induction false} ObjectOfLookup(names: seq<string>, values: seq<Value>, i: nat)
    requires |names| == |values| && i < |names|
    requires forall j | i < j < |names| :: names[j] != names[i]
    ensures Field(ObjectOf(names, values), names[i]) == values[i]
    decreases |names|
  {
    var n := |names| - 1;
    if i < n {
      ObjectOfLookup(names[..n], values[..n], i);
    }
  }

  // ---------------------------------------------------------------------
  // Round trips of the combinators
  // ---------------------------------------------------------------------

  lemma OptRoundTrip<T>(o: Option<T>, enc: T -> Value, dec: Value -> Decoded<T>)
    requires o.Some? ==> dec(enc(o.value)) == Ok(o.value) && !enc(o.value).Null?
    ensures DecodeOpt(EncodeOpt(o, enc), dec) == Ok(o)
  {
  }

  lemma ListRoundTrip<T>(s: seq<T>, enc: T -> Value, dec: Value -> Decoded<T>)
    requires forall i | 0 <= i < |s| :: dec(enc(s[i])) == Ok(s[i])
    ensures DecodeList(EncodeList(s, enc), dec) == Ok(s)
  {
    var r := DecodeList(EncodeList(s, enc), dec);
    assert r.Ok? && r.value == s;
  }

  lemma MapRoundTrip<T>(m: map<string, T>, enc: T -> Value, dec: Value -> Decoded<T>)
    requires forall k | k in m :: dec(enc(m[k])) == Ok(m[k])
    ensures DecodeMap(EncodeMap(m, enc), dec) == Ok(m)
  {
    var r := DecodeMap(EncodeMap(m, enc), dec);
    assert r.Ok? && r.value == m;
  }

  lemma OptListRoundTrip<T>(o: Option<seq<T>>, enc: T -> Value, dec: Value -> Decoded<T>)
    requires o.Some? ==> forall i | 0 <= i < |o.value| :: dec(enc(o.value[i])) == Ok(o.value[i])
    ensures DecodeOptList(EncodeOptList(o, enc), dec) == Ok(o)
  {
    if o.Some? {
      ListRoundTrip(o.value, enc, dec);
    }
  }

  lemma OptMapRoundTrip<T>(o: Option<map<string, T>>, enc: T -> Value, dec: Value -> Decoded<T>)
    requires o.Some? ==> forall k | k in o.value :: dec(enc(o.value[k])) == Ok(o.value[k])
    ensures DecodeOptMap(EncodeOptMap(o, enc), dec) == Ok(o)
  {
    if o.Some? {
      MapRoundTrip(o.value, enc, dec);
    }
  }

  /** The one value an `Option<serde_json::Value>` field cannot carry through
    * a round trip: Some(null) is written as null and read back as None. */
  lemma NullPayloadReadsAsAbsent()
    ensures EncodeOpt(Some(Null), EncodeAny) == EncodeOpt(None, EncodeAny)
    ensures DecodeOpt(EncodeOpt(Some(Null), EncodeAny), DecodeAny) == Ok(None)
  {
  }
}
