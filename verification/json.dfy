/**
 * The dynamic JSON value of Sources/Converse/ContentBlocks/JSON.swift.
 *
 * The byte-level codec (JSONDecoder / JSONEncoder) is abstracted to a JSON
 * text tree `Raw`: what a single-value decoding container can see. A number
 * literal is its exact value; Swift's encoder writes a Double whose value is
 * integral without a fractional part, which the `real` value captures.
 */
module JsonValue {
  import opened Base

  /** A JSON text, as parsed by the byte-level decoder. */
  datatype Raw =
    | RawNull
    | RawNumber(n: real)
    | RawString(s: string)
    | RawBool(b: bool)
    | RawArray(items: seq<Raw>)
    | RawObject(fields: map<string, Raw>)

  /** The value a `JSON` holds: `nil`, `Int`, `Double`, `String`, `Bool`, `[JSON]` or `[String: JSON]`. */
  datatype Json =
    | JNull
    | JInt(i: int)
    | JDouble(d: real)
    | JString(s: string)
    | JBool(b: bool)
    | JArray(items: seq<Json>)
    | JObject(fields: map<string, Json>)

  /** Swift's `Int` is 64 bits wide. */
  const IntMin: int := -0x8000_0000_0000_0000
  const IntMax: int := 0x7FFF_FFFF_FFFF_FFFF

  /** The largest finite `Double`. */
  const DoubleMax: real := 179769313486231570814527423731704356798070567525844996598917476803157260780028538760589558632766878171540458953514382464234321326889464182768467546703537516986049910576551282076245490090389328944075868508455133942304583236903222948165808559332123348274797826204144723168738177180919299881250404026184124858368.0

  predicate IsInt64(n: real) {
    n.Floor as real == n && IntMin <= n.Floor <= IntMax
  }

  predicate InDoubleRange(n: real) {
    -DoubleMax <= n <= DoubleMax
  }

  // The typed attempts of `init(from decoder:)`, in the order it makes them.

  function TryInt(r: Raw): Option<int> {
    if r.RawNumber? && IsInt64(r.n) then Some(r.n.Floor) else None
  }

  function TryDouble(r: Raw): Option<real> {
    if r.RawNumber? && InDoubleRange(r.n) then Some(r.n) else None
  }

  function TryString(r: Raw): Option<string> {
    if r.RawString? then Some(r.s) else None
  }

  function TryBool(r: Raw): Option<bool> {
    if r.RawBool? then Some(r.b) else None
  }

  /**
   * `init(from decoder:)`: null, Int, Double, String, Bool, array, object, the
   * first that decodes wins; an array or object decodes only when all of its
   * elements do; anything else fails.
   */
  function Decode(r: Raw): (j: Result<Json>)
    ensures j.Failure? ==> j.error == DecodingError("Unsupported type")
    ensures (r.RawNull? || r.RawString? || r.RawBool?) ==> j.Success?
    ensures r.RawNumber? ==> (j.Success? <==> InDoubleRange(r.n))
    ensures j.Success? ==> (j.value.JNull? <==> r.RawNull?)
    ensures j.Success? && r.RawArray? ==> j.value.JArray? && |j.value.items| == |r.items|
    ensures j.Success? && r.RawObject? ==> j.value.JObject? && j.value.fields.Keys == r.fields.Keys
  {
    if r.RawNull? then Success(JNull)
    else if TryInt(r).Some? then Success(JInt(TryInt(r).value))
    else if TryDouble(r).Some? then Success(JDouble(TryDouble(r).value))
    else if TryString(r).Some? then Success(JString(TryString(r).value))
    else if TryBool(r).Some? then Success(JBool(TryBool(r).value))
    else if r.RawArray? && forall i | 0 <= i < |r.items| :: Decode(r.items[i]).Success? then
      Success(JArray(seq(|r.items|, i requires 0 <= i < |r.items| => Decode(r.items[i]).value)))
    else if r.RawObject? && forall k | k in r.fields :: Decode(r.fields[k]).Success? then
      Success(JObject(map k | k in r.fields :: Decode(r.fields[k]).value))
    else Failure(DecodingError("Unsupported type"))
  }

  /**
   * `encode(to:)`: the branch of the stored variant, recursing through arrays
   * and objects; a `nil` value, at any depth, matches no branch and throws.
   */
  function Encode(j: Json): (r: Result<Raw>)
    ensures r.Failure? ==> r.error == EncodingError("Unsupported type")
    ensures j.JNull? ==> r.Failure?
    ensures r.Success? && j.JArray? ==> r.value.RawArray? && |r.value.items| == |j.items|
    ensures r.Success? && j.JObject? ==> r.value.RawObject? && r.value.fields.Keys == j.fields.Keys
    ensures r.Success? && j.JString? ==> r.value == RawString(j.s)
  {
    match j
    case JNull => Failure(EncodingError("Unsupported type"))
    case JInt(i) => Success(RawNumber(i as real))
    case JDouble(d) => Success(RawNumber(d))
    case JString(s) => Success(RawString(s))
    case JBool(b) => Success(RawBool(b))
    case JArray(items) =>
      if forall i | 0 <= i < |items| :: Encode(items[i]).Success? then
        Success(RawArray(seq(|items|, i requires 0 <= i < |items| => Encode(items[i]).value)))
      else Failure(EncodingError("Unsupported type"))
    case JObject(fields) =>
      if forall k | k in fields :: Encode(fields[k]).Success? then
        Success(RawObject(map k | k in fields :: Encode(fields[k]).value))
      else Failure(EncodingError("Unsupported type"))
  }

  /** `init(from data:)`: a text the parser rejects, or a tree `Decode` rejects, is a `decodingError`. */
  function FromData(parse: string -> Option<Raw>, data: string): (r: Result<Json>)
    ensures r.Failure? ==> r.error.DecodingError?
    ensures parse(data).None? ==> r.Failure?
    ensures parse(data).Some? ==> (r.Success? <==> Decode(parse(data).value).Success?)
    ensures r.Success? ==> parse(data).Some? && r == Decode(parse(data).value)
  {
    match parse(data)
    case None => Failure(DecodingError("Failed to decode JSON"))
    case Some(raw) =>
      match Decode(raw)
      case Success(j) => Success(j)
      case Failure(_) => Failure(DecodingError("Failed to decode JSON"))
  }

  /** `init(from string:)`: the empty string is read as `"{}"`. */
  function FromString(parse: string -> Option<Raw>, s: string): (r: Result<Json>)
    ensures s != "" ==> r == FromData(parse, s)
    ensures s == "" && parse("{}") == Some(RawObject(map[])) ==> r == Success(JObject(map[]))
  {
    FromData(parse, if s == "" then "{}" else s)
  }

  // ---------------------------------------------------------------------
  // Accessors

  /** The Swift types a caller may ask for with `as? T`. */
  datatype Kind = IntKind | DoubleKind | StringKind | BoolKind | ArrayKind | ObjectKind

  predicate HasKind(j: Json, kind: Kind) {
    match kind
    case IntKind => j.JInt?
    case DoubleKind => j.JDouble?
    case StringKind => j.JString?
    case BoolKind => j.JBool?
    case ArrayKind => j.JArray?
    case ObjectKind => j.JObject?
  }

  /** `subscript(key:) -> JSON?`. */
  function Subscript(j: Json, key: string): (r: Option<Json>)
    ensures r.Some? <==> j.JObject? && key in j.fields
    ensures r.Some? ==> r.value == j.fields[key]
  {
    if j.JObject? && key in j.fields then Some(j.fields[key]) else None
  }

  /** `getValue<T>()`: the stored value when it has the requested type. */
  function GetValue(j: Json, kind: Kind): (r: Option<Json>)
    ensures r.Some? <==> HasKind(j, kind)
    ensures r.Some? ==> r.value == j
  {
    if HasKind(j, kind) then Some(j) else None
  }

  /** `getValue<T>(key)` and the generic `subscript<T>(key:) -> T?`, which agree. */
  function GetValueForKey(j: Json, key: string, kind: Kind): (r: Option<Json>)
    ensures r.Some? <==> j.JObject? && key in j.fields && HasKind(j.fields[key], kind)
    ensures r.Some? ==> r.value == j.fields[key]
    ensures !j.JObject? ==> r.None?
  {
    match Subscript(j, key)
    case None => None
    case Some(v) => GetValue(v, kind)
  }

  // ---------------------------------------------------------------------
  // Properties

  /** No `nil` anywhere inside. */
  predicate NullFree(j: Json) {
    match j
    case JNull => false
    case JArray(items) => forall i | 0 <= i < |items| :: NullFree(items[i])
    case JObject(fields) => forall k | k in fields :: NullFree(fields[k])
    case _ => true
  }

  /**
   * The values `Decode` can produce without a `nil`: Ints fit in 64 bits and
   * every Double is one that `Decode` would not have read as an Int.
   */
  predicate Canonical(j: Json) {
    match j
    case JNull => false
    case JInt(i) => IntMin <= i <= IntMax
    case JDouble(d) => InDoubleRange(d) && !IsInt64(d)
    case JArray(items) => forall i | 0 <= i < |items| :: Canonical(items[i])
    case JObject(fields) => forall k | k in fields :: Canonical(fields[k])
    case _ => true
  }

  /** An integer literal that fits in 64 bits always becomes an Int, never a Double. */
  lemma IntegerLiteralDecodesAsInt(k: int)
    requires IntMin <= k <= IntMax
    ensures Decode(RawNumber(k as real)) == Success(JInt(k))
  {
  }

  /** Arrays keep length and order; objects keep the key set, each key bound to its decoded value. */
  lemma DecodeKeepsShape(r: Raw)
    requires Decode(r).Success?
    ensures r.RawArray? ==>
      && Decode(r).value.JArray?
      && |Decode(r).value.items| == |r.items|
      && forall i :: 0 <= i < |r.items| ==> Decode(r.items[i]) == Success(Decode(r).value.items[i])
    ensures r.RawObject? ==>
      && Decode(r).value.JObject?
      && Decode(r).value.fields.Keys == r.fields.Keys
      && forall k :: k in r.fields ==> Decode(r.fields[k]) == Success(Decode(r).value.fields[k])
  {
  }

  /** A nested element that fails makes its whole document fail. */
  lemma NestedFailureFails(items: seq<Raw>, i: nat)
    requires i < |items| && Decode(items[i]).Failure?
    ensures Decode(RawArray(items)) == Failure(DecodingError("Unsupported type"))
  {
  }

  /** Encoding succeeds exactly on the values without `nil`. */
  lemma {:induction false} EncodeSucceedsIffNullFree(j: Json)
    ensures Encode(j).Success? <==> NullFree(j)
  {
    match j
    case JArray(items) =>
      forall i | 0 <= i < |items| ensures Encode(items[i]).Success? <==> NullFree(items[i]) {
        EncodeSucceedsIffNullFree(items[i]);
      }
    case JObject(fields) =>
      forall k | k in fields ensures Encode(fields[k]).Success? <==> NullFree(fields[k]) {
        EncodeSucceedsIffNullFree(fields[k]);
      }
    case _ =>
  }

  /** Every value `Decode` produces is canonical, except that it may hold `nil`. */
  lemma {:induction false} DecodedIsCanonicalOrHasNull(r: Raw)
    requires Decode(r).Success?
    ensures NullFree(Decode(r).value) ==> Canonical(Decode(r).value)
  {
    var j := Decode(r).value;
    if r.RawArray? && j.JArray? {
      forall i | 0 <= i < |j.items| && NullFree(j.items[i]) ensures Canonical(j.items[i]) {
        DecodedIsCanonicalOrHasNull(r.items[i]);
      }
    } else if r.RawObject? && j.JObject? {
      forall k | k in j.fields && NullFree(j.fields[k]) ensures Canonical(j.fields[k]) {
        DecodedIsCanonicalOrHasNull(r.fields[k]);
      }
    }
  }

  /** Encoding then decoding a canonical value gives it back, variant for variant. */
  lemma {:induction false} RoundTrip(j: Json)
    requires Canonical(j)
    ensures Encode(j).Success? && Decode(Encode(j).value) == Success(j)
  {
    match j
    case JInt(i) =>
      assert (i as real).Floor == i;
    case JDouble(d) =>
    case JString(s) =>
    case JBool(b) =>
    case JArray(items) =>
      forall i | 0 <= i < |items|
        ensures Encode(items[i]).Success? && Decode(Encode(items[i]).value) == Success(items[i])
      {
        RoundTrip(items[i]);
      }
      var raw := Encode(j).value;
      assert raw.RawArray? && |raw.items| == |items|;
      assert forall i | 0 <= i < |raw.items| :: raw.items[i] == Encode(items[i]).value;
      assert Decode(raw).value.items == items;
    case JObject(fields) =>
      forall k | k in fields
        ensures Encode(fields[k]).Success? && Decode(Encode(fields[k]).value) == Success(fields[k])
      {
        RoundTrip(fields[k]);
      }
      var raw := Encode(j).value;
      assert raw.RawObject? && raw.fields.Keys == fields.Keys;
      assert forall k | k in raw.fields :: raw.fields[k] == Encode(fields[k]).value;
      assert Decode(raw).value.fields == fields;
  }

  /** Any document without `nil` survives decode, encode, decode unchanged. */
  lemma DecodeEncodeDecode(r: Raw)
    requires Decode(r).Success? && NullFree(Decode(r).value)
    ensures Encode(Decode(r).value).Success?
    ensures Decode(Encode(Decode(r).value).value) == Decode(r)
  {
    DecodedIsCanonicalOrHasNull(r);
    RoundTrip(Decode(r).value);
  }

  /** A document holding `null` decodes, but its value cannot be encoded again. */
  lemma NullDoesNotRoundTrip()
    ensures Decode(RawArray([RawNull])) == Success(JArray([JNull]))
    ensures Encode(JArray([JNull])).Failure?
  {
    var items := [RawNull];
    assert Decode(items[0]) == Success(JNull);
    assert Decode(RawArray(items)).value.items == [JNull];
    var values := [JNull];
    assert Encode(values[0]).Failure?;
  }

  /** A Double with an integral value comes back as an Int. */
  lemma IntegralDoubleComesBackAsInt()
    ensures Encode(JDouble(2.0)) == Success(RawNumber(2.0))
    ensures Decode(RawNumber(2.0)) == Success(JInt(2))
  {
  }
}
