/** JSON values as the gateway holds them after decoding, and the handful of
    Python operations on them that the gateway's code relies on: dict lookup
    with a default, truthiness, hashability, `+`, `str.strip`,
    `str.startswith`, `dict.update` and `str(int)`. */
module PyJson {

  datatype Option<+T> = None | Some(value: T)

  /** An exception the surrounding code does not catch. `HttpException`
      stands for FastAPI's HTTPException with its status code. */
  datatype Fault = TypeError | AttributeError | KeyError | ValueError | HttpException(status: nat)

  datatype Result<+T> = Ok(value: T) | Err(fault: Fault)

  /** A decoded JSON document. Numbers are reals, so that integer token
      counts and fractional sampling parameters share one constructor.
      Objects are maps: the key order of a Python dict is not kept. */
  datatype Json =
    | Null
    | Bool(b: bool)
    | Num(n: real)
    | Str(s: string)
    | Arr(items: seq<Json>)
    | Obj(fields: map<string, Json>)

  /** Python truthiness of a decoded value. */
  predicate Truthy(j: Json)
  {
    match j
    case Null => false
    case Bool(b) => b
    case Num(n) => n != 0.0
    case Str(s) => s != ""
    case Arr(a) => a != []
    case Obj(m) => m != map[]
  }

  /** Values a Python dict accepts as a key: lists and dicts are not. */
  predicate Hashable(j: Json)
  {
    !j.Arr? && !j.Obj?
  }

  /** `d.get(key, default)`: a present key wins even when its value is null. */
  function Get(d: map<string, Json>, key: string, default: Json): (r: Json)
    ensures key in d ==> r == d[key]
    ensures key !in d ==> r == default
  {
    if key in d then d[key] else default
  }

  /** `if extras: d.update(extras)`: the extras override key by key when
      there are any; `None` and `{}` leave `d` as it is. */
  function UpdateIfAny(d: map<string, Json>, extras: Option<map<string, Json>>): (r: map<string, Json>)
    ensures extras.Some? ==> r.Keys == d.Keys + extras.value.Keys
    ensures extras.Some? ==> forall k :: k in extras.value ==> r[k] == extras.value[k]
    ensures forall k :: k in d && (extras.None? || k !in extras.value) ==> k in r && r[k] == d[k]
    ensures extras.None? ==> r == d
  {
    match extras
    case None => d
    case Some(m) => if m == map[] then d else d + m
  }

  /** Python's `a + b` on decoded values: numbers add (a bool counts as
      0 or 1), strings and lists concatenate, anything else raises. */
  function Add(a: Json, b: Json): (r: Result<Json>)
    ensures a.Num? && b.Num? ==> r == Ok(Num(a.n + b.n))
    ensures a.Str? && b.Str? ==> r == Ok(Str(a.s + b.s))
    ensures a.Arr? && b.Arr? ==> r == Ok(Arr(a.items + b.items))
    ensures a.Bool? && b.Num? ==> r == Ok(Num((if a.b then 1.0 else 0.0) + b.n))
    ensures a.Num? && b.Bool? ==> r == Ok(Num(a.n + if b.b then 1.0 else 0.0))
    ensures r.Err? <==> !(IsNumeric(a) && IsNumeric(b)) && !(a.Str? && b.Str?) && !(a.Arr? && b.Arr?)
    ensures r.Err? ==> r == Err(TypeError)
  {
    if IsNumeric(a) && IsNumeric(b) then Ok(Num(NumericValue(a) + NumericValue(b)))
    else if a.Str? && b.Str? then Ok(Str(a.s + b.s))
    else if a.Arr? && b.Arr? then Ok(Arr(a.items + b.items))
    else Err(TypeError)
  }

  predicate IsNumeric(j: Json)
  {
    j.Num? || j.Bool?
  }

  function NumericValue(j: Json): real
    requires IsNumeric(j)
  {
    match j
    case Num(n) => n
    case Bool(b) => if b then 1.0 else 0.0
  }

  /** The characters `str.strip()` removes: Python's whitespace. */
  predicate IsSpace(c: char)
  {
    || ('\t' <= c <= '\r')
    || ('\U{1C}' <= c <= ' ')
    || c == '\U{85}' || c == '\U{A0}' || c == '\U{1680}'
    || ('\U{2000}' <= c <= '\U{200A}')
    || c == '\U{2028}' || c == '\U{2029}' || c == '\U{202F}' || c == '\U{205F}' || c == '\U{3000}'
  }

  function StripLeft(s: string): (r: string)
    ensures |r| <= |s| && r == s[|s| - |r|..]
    ensures r == [] || !IsSpace(r[0])
    ensures forall i :: 0 <= i < |s| - |r| ==> IsSpace(s[i])
  {
    if s == [] || !IsSpace(s[0]) then s else StripLeft(s[1..])
  }

  function StripRight(s: string): (r: string)
    ensures |r| <= |s| && r == s[..|r|]
    ensures r == [] || !IsSpace(r[|r| - 1])
    ensures forall i :: |r| <= i < |s| ==> IsSpace(s[i])
  {
    if s == [] || !IsSpace(s[|s| - 1]) then s else StripRight(s[..|s| - 1])
  }

  /** `s.strip()`: what is left of `s` once the whitespace at both ends is
      gone; empty exactly when `s` is all whitespace. */
  function Strip(s: string): (r: string)
    ensures |r| <= |s|
    ensures r == [] || (!IsSpace(r[0]) && !IsSpace(r[|r| - 1]))
    ensures r == [] <==> forall i :: 0 <= i < |s| ==> IsSpace(s[i])
  {
    var l := StripLeft(s);
    if l == [] then
      l
    else
      var r := StripRight(l);
      assert r[0] == l[0];
      assert s[|s| - |l|] == l[0];
      r
  }

  /** A string with no whitespace at either end is its own `strip()`. */
  lemma StripOfTrimmed(s: string)
    requires s == [] || (!IsSpace(s[0]) && !IsSpace(s[|s| - 1]))
    ensures Strip(s) == s
  {
  }

  predicate StartsWith(s: string, prefix: string)
  {
    |prefix| <= |s| && s[..|prefix|] == prefix
  }

  /** `str(n)` for a non-negative integer. */
  function Decimal(n: nat): (r: string)
    ensures r != []
    ensures forall i :: 0 <= i < |r| ==> '0' <= r[i] <= '9'
    ensures n < 10 <==> |r| == 1
  {
    if n < 10 then [Digit(n)] else Decimal(n / 10) + [Digit(n % 10)]
  }

  function Digit(d: nat): (c: char)
    requires d < 10
    ensures '0' <= c <= '9'
  {
    ['0', '1', '2', '3', '4', '5', '6', '7', '8', '9'][d]
  }

  /** A Python dict held by reference: the gateway's handlers change the
      request payload and the decoded response chunks in place. */
  class JsonObject {
    var entries: map<string, Json>

    constructor (initial: map<string, Json>)
      ensures entries == initial
    {
      entries := initial;
    }

    /** `d[key] = value` */
    method Set(key: string, value: Json)
      modifies this
      ensures entries == old(entries)[key := value]
    {
      entries := entries[key := value];
    }

    /** `d.update(other)` */
    method Update(other: map<string, Json>)
      modifies this
      ensures entries == old(entries) + other
    {
      entries := entries + other;
    }
  }
}
