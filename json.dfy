/**
 * The scalar JSON values that travel in frames and request bodies, with the
 * Python rules the handlers apply to them: truthiness (`if not x`), `str(x)`
 * (used by f-strings), `dict.get` with a default, and the integer coercion
 * Django applies to a primary-key lookup such as `objects.get(id=x)`.
 */
module Json {
  import opened Common
  import opened Text

  datatype Json = JNull | JBool(b: bool) | JInt(i: int) | JStr(s: string)

  /** A decoded JSON object: field name to value. */
  type Object = map<string, Json>

  /** What `json.loads` yields for one text frame or request body. */
  datatype Inbound =
    | Unparsable           // `json.loads` raised
    | NotAnObject          // valid JSON, but not an object, so `.get` raises
    | Obj(fields: Object)

  /** Python truthiness of a decoded JSON scalar. */
  predicate Truthy(v: Json) {
    match v
    case JNull => false
    case JBool(b) => b
    case JInt(i) => i != 0
    case JStr(s) => s != []
  }

  /** Python's `str(v)` on the decoded value. */
  function PyStr(v: Json): string {
    match v
    case JNull => "None"
    case JBool(b) => if b then "True" else "False"
    case JInt(i) => IntToString(i)
    case JStr(s) => s
  }

  /** `data.get(key)`: the value, or `None` when the key is absent. */
  function Get(data: Object, key: string): Option<Json> {
    if key in data then Some(data[key]) else None
  }

  /** `data.get(key, default)`. */
  function GetOr(data: Object, key: string, default: Json): Json {
    if key in data then data[key] else default
  }

  /** Truthiness of an optional field, where an absent field is `None`, hence falsy. */
  predicate PresentAndTruthy(v: Option<Json>) {
    v.Some? && Truthy(v.value)
  }

  predicate IsDigit(c: char) { '0' <= c <= '9' }

  /** The value of a non-empty string of ASCII digits. */
  function DecimalValue(s: string): (n: nat)
    requires forall i :: 0 <= i < |s| ==> IsDigit(s[i])
  {
    if s == [] then 0
    else
      assert IsDigit(s[|s| - 1]);
      10 * DecimalValue(s[..|s| - 1]) + (s[|s| - 1] as int - '0' as int)
  }

  /** The outcome of coercing a lookup value to an integer primary key. */
  datatype Key =
    | Key(k: int)
    | NullKey      // `id=None` becomes `IS NULL`, which matches no row
    | InvalidKey   // `int(v)` raises `ValueError`

  /**
   * The key Django looks up for `objects.get(id=v)`: `int(v)`.  A string of
   * ASCII digits is accepted; any other string makes the lookup raise.
   */
  function AsKey(v: Json): (r: Key)
    ensures v.JInt? ==> r == Key(v.i)
    ensures v.JBool? ==> r == Key(if v.b then 1 else 0)
    ensures v.JNull? ==> r == NullKey
    ensures v.JStr? && v.s != [] && (forall i :: 0 <= i < |v.s| ==> IsDigit(v.s[i])) ==> r == Key(DecimalValue(v.s))
    ensures v.JStr? && (v.s == [] || exists i :: 0 <= i < |v.s| && !IsDigit(v.s[i])) ==> r == InvalidKey
  {
    match v
    case JInt(i) => Key(i)
    case JBool(b) => Key(if b then 1 else 0)
    case JStr(s) =>
      if s != [] && forall i :: 0 <= i < |s| ==> IsDigit(s[i]) then Key(DecimalValue(s)) else InvalidKey
    case JNull => NullKey
  }

  /** A key printed in decimal is read back as the same key: `int(str(n)) == n`. */
  lemma {:induction false} PrintedKeyReadsBack(n: nat)
    ensures AsKey(JStr(NatToString(n))) == Key(n)
  {
    DecimalOfPrinted(n);
  }

  lemma {:induction false} DecimalOfPrinted(n: nat)
    ensures forall i :: 0 <= i < |NatToString(n)| ==> IsDigit(NatToString(n)[i])
    ensures DecimalValue(NatToString(n)) == n
  {
    var s := NatToString(n);
    NatToStringDigits(n);
    DigitValue(n % 10);
    if n >= 10 {
      DecimalOfPrinted(n / 10);
      assert s[..|s| - 1] == NatToString(n / 10);
    } else {
      assert s[..|s| - 1] == [];
    }
  }
}
