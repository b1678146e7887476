/** The fragment of Python's value semantics the handler relies on: the values
    `json.loads` produces, subscripting them, comparing them with an integer and
    formatting them into an f-string. */
module Python {
  import opened Wrappers

  /** A value as returned by `json.loads` (JSON floats are not modelled). */
  datatype Json =
    | Null
    | Bool(b: bool)
    | Int(i: int)
    | Str(s: string)
    | List(items: seq<Json>)
    | Dict(fields: map<string, Json>)

  /** The exceptions that can escape into the handler's `try`, other than
      `BadSignatureError`, which only the signature verifier raises. */
  datatype Exception =
    | KeyError
    | IndexError
    | TypeError
    | ValueError          // bytes.fromhex on a malformed hex string
    | JsonDecodeError     // json.loads, or Response.json() on a non-JSON body
    | ParameterError      // the parameter store has no such name or cannot be reached
    | RequestError        // requests.post raised
    | VerifierError       // the verifier raised something other than BadSignatureError

  /** A subscript `v[k]` with a string key or an integer index. */
  datatype Key = Field(name: string) | Position(index: int)

  /** `v[k]`: a dict looked up by key, a list or string indexed (negative
      indices count from the end); anything else cannot be subscripted. */
  function Subscript(v: Json, k: Key): Result<Json, Exception>
  {
    match v
    case Dict(fields) =>
      // json.loads only makes string keys, so an integer is never among them
      if k.Field? && k.name in fields then Ok(fields[k.name]) else Err(KeyError)
    case List(items) =>
      if k.Field? then Err(TypeError)
      else if -|items| <= k.index < |items| then
        Ok(items[if k.index < 0 then k.index + |items| else k.index])
      else Err(IndexError)
    case Str(s) =>
      if k.Field? then Err(TypeError)
      else if -|s| <= k.index < |s| then
        Ok(Str([s[if k.index < 0 then k.index + |s| else k.index]]))
      else Err(IndexError)
    case _ => Err(TypeError)
  }

  /** Only dicts, lists and strings can be subscripted; a dict only by a key it
      holds, a list or a string only by an index within its length. */
  lemma SubscriptSucceeds(v: Json, k: Key)
    ensures Subscript(v, k).Ok? ==> v.Dict? || v.List? || v.Str?
    ensures v.Dict? ==> (Subscript(v, k).Ok? <==> k.Field? && k.name in v.fields)
    ensures v.Dict? && Subscript(v, k).Ok? ==> Subscript(v, k).value == v.fields[k.name]
    ensures v.List? ==> (Subscript(v, k).Ok? <==> k.Position? && -|v.items| <= k.index < |v.items|)
    ensures v.List? && Subscript(v, k).Ok? ==> Subscript(v, k).value in v.items
    ensures v.Str? ==> (Subscript(v, k).Ok? <==> k.Position? && -|v.s| <= k.index < |v.s|)
    ensures v.Str? && Subscript(v, k).Ok? ==> Subscript(v, k).value.Str? && |Subscript(v, k).value.s| == 1
  {
  }

  /** The chained subscript `v[k0][k1]...`, failing at the first key that fails. */
  function Path(v: Json, keys: seq<Key>): Result<Json, Exception>
    decreases |keys|
  {
    if keys == [] then Ok(v)
    else
      var w :- Subscript(v, keys[0]);
      Path(w, keys[1..])
  }

  /** Python's `v == n` for an integer literal `n`: `True == 1` and `False == 0`. */
  predicate EqualsInt(v: Json, n: int) {
    (v.Int? && v.i == n) || (v.Bool? && (if v.b then 1 else 0) == n)
  }

  /** The decimal digits of `n`, most significant first. */
  function Digits(n: nat): (r: string)
    ensures |r| >= 1
    ensures forall i :: 0 <= i < |r| ==> '0' <= r[i] <= '9'
  {
    if n < 10 then [('0' as int + n) as char]
    else Digits(n / 10) + [('0' as int + n % 10) as char]
  }

  /** The number a string of decimal digits denotes, most significant first. */
  function DigitsValue(s: string): int {
    if s == [] then 0 else 10 * DigitsValue(s[..|s| - 1]) + (s[|s| - 1] as int - '0' as int)
  }

  lemma {:induction false} DigitsValueOfDigits(n: nat)
    ensures DigitsValue(Digits(n)) == n
  {
    if n >= 10 {
      var s := Digits(n);
      assert s[..|s| - 1] == Digits(n / 10);
      DigitsValueOfDigits(n / 10);
    }
  }

  /** `int(s)` on an optional minus sign followed by decimal digits. */
  function ParseInt(s: string): int {
    if |s| > 0 && s[0] == '-' then -DigitsValue(s[1..]) else DigitsValue(s)
  }

  /** `str(i)`: the sign when negative, then the digits of the magnitude. */
  function Decimal(i: int): string {
    if i < 0 then "-" + Digits(-i) else Digits(i)
  }

  /** `int(str(i)) == i`: an integer's rendering starts with a minus sign exactly
      when it is negative, and reads back as the same integer. */
  lemma DecimalRoundTrip(i: int)
    ensures |Decimal(i)| >= 1 && (Decimal(i)[0] == '-' <==> i < 0)
    ensures ParseInt(Decimal(i)) == i
  {
    if i < 0 {
      DigitsValueOfDigits(-i);
      assert Decimal(i)[1..] == Digits(-i);
    } else {
      DigitsValueOfDigits(i);
    }
  }

  /** `f'{v}'`, that is `str(v)`. Python renders a list or a dict with `repr` of
      its elements; that rendering is the parameter `containerStr`. */
  function Format(v: Json, containerStr: Json -> string): string {
    match v
    case Null => "None"
    case Bool(b) => if b then "True" else "False"
    case Int(i) => Decimal(i)
    case Str(s) => s
    case _ => containerStr(v)
  }

  /** A string is inserted as it is, an integer as a decimal that reads back as
      the same integer, `None` and the booleans by their Python names; only a
      list or a dict goes through `containerStr`. */
  lemma FormatRendering(v: Json, containerStr: Json -> string)
    ensures v.Str? ==> Format(v, containerStr) == v.s
    ensures v.Int? ==> ParseInt(Format(v, containerStr)) == v.i
    ensures v.Null? ==> Format(v, containerStr) == "None"
    ensures v.Bool? ==> Format(v, containerStr) == (if v.b then "True" else "False")
    ensures v.List? || v.Dict? ==> Format(v, containerStr) == containerStr(v)
  {
    if v.Int? {
      DecimalRoundTrip(v.i);
    }
  }
}
