/**
 * Decoded JSON values, as the bot receives them from `response.json()`,
 * together with the small pieces of Python semantics the bot relies on:
 * truthiness, `dict.get`, `type(v).__name__` and `str(v)`.
 */
module JsonValues {
  import opened Wrappers

  datatype Json =
    | JNull
    | JBool(b: bool)
    | JInt(i: int)
    | JStr(s: string)
    | JList(items: seq<Json>)
    | JObj(fields: map<string, Json>)

  /** Python's `not v`: the falsy values are exactly None, False, 0, "", [] and {}. */
  predicate Falsy(v: Json): (r: bool)
    ensures r <==> v in {JNull, JBool(false), JInt(0), JStr(""), JList([]), JObj(map[])}
  {
    match v
    case JNull => true
    case JBool(b) => !b
    case JInt(i) => i == 0
    case JStr(s) => |s| == 0
    case JList(items) => |items| == 0
    case JObj(fields) => |fields| == 0
  }

  /**
   * `d.get(key)` followed by an `is None` test: a missing key and a key
   * bound to JSON null both read as None.
   */
  function Get(fields: map<string, Json>, key: string): (r: Option<Json>)
    ensures r.None? <==> key !in fields || fields[key] == JNull
    ensures r.Some? ==> key in fields && r.value == fields[key] && r.value != JNull
  {
    if key in fields && fields[key] != JNull then Some(fields[key]) else None
  }

  /** Python's `type(v).__name__` for a decoded JSON value (numbers are integers here). */
  function TypeName(v: Json): string {
    match v
    case JNull => "NoneType"
    case JBool(_) => "bool"
    case JInt(_) => "int"
    case JStr(_) => "str"
    case JList(_) => "list"
    case JObj(_) => "dict"
  }

  /** A JSON value that can be a `dict` key in Python; lists and dicts cannot. */
  predicate Hashable(v: Json) {
    !v.JList? && !v.JObj?
  }

  function DigitChar(d: nat): (c: char)
    requires d < 10
    ensures '0' <= c <= '9'
  {
    "0123456789"[d]
  }

  function DigitValue(c: char): (d: nat)
    requires '0' <= c <= '9'
    ensures d < 10 && DigitChar(d) == c
  {
    (c as int - '0' as int) as nat
  }

  predicate IsDigits(s: string) {
    forall k :: 0 <= k < |s| ==> '0' <= s[k] <= '9'
  }

  /** Decimal digits of a natural number, most significant first, no leading zeros. */
  function NatToDecimal(n: nat): (r: string)
    ensures |r| > 0 && IsDigits(r)
    ensures n >= 10 ==> r[0] != '0'
    decreases n
  {
    if n < 10 then [DigitChar(n)] else NatToDecimal(n / 10) + [DigitChar(n % 10)]
  }

  /** The value of a string of decimal digits. */
  function DecimalValue(s: string): nat
    requires IsDigits(s)
  {
    if |s| == 0 then 0 else 10 * DecimalValue(s[..|s| - 1]) + DigitValue(s[|s| - 1])
  }

  /** Reading back the digits of `n` gives `n`: distinct integers render distinctly. */
  lemma {:induction false} DecimalRoundTrip(n: nat)
    ensures DecimalValue(NatToDecimal(n)) == n
    decreases n
  {
    var r := NatToDecimal(n);
    if n >= 10 {
      DecimalRoundTrip(n / 10);
      assert r[..|r| - 1] == NatToDecimal(n / 10);
      assert DigitValue(r[|r| - 1]) == n % 10;
    } else {
      assert DigitValue(r[0]) == n;
    }
  }

  /** Python's `str(i)` for an integer. */
  function IntToDecimal(i: int): (r: string)
    ensures |r| > 0
    ensures i >= 0 <==> r[0] != '-'
  {
    if i < 0 then "-" + NatToDecimal(-i) else NatToDecimal(i)
  }

  /** Distinct naturals render as distinct digit strings. */
  lemma NatToDecimalInjective(a: nat, b: nat)
    requires NatToDecimal(a) == NatToDecimal(b)
    ensures a == b
  {
    DecimalRoundTrip(a);
    DecimalRoundTrip(b);
  }

  /** Distinct integers, of either sign, render as distinct strings. */
  lemma IntToDecimalInjective(i: int, j: int)
    requires IntToDecimal(i) == IntToDecimal(j)
    ensures i == j
  {
    var r := IntToDecimal(i);
    if i < 0 {
      assert j < 0;
      assert NatToDecimal(-i) == r[1..] == NatToDecimal(-j);
      NatToDecimalInjective(-i, -j);
    } else {
      assert j >= 0;
      NatToDecimalInjective(i, j);
    }
  }

  /**
   * Python's `str(v)` as used in an f-string. Scalars and the empty
   * containers render exactly; a non-empty list or dict renders as a fixed
   * placeholder instead of Python's nested `repr` of its elements.
   */
  function PyStr(v: Json): (r: string)
    ensures v.JStr? ==> r == v.s
    ensures v.JInt? ==> r == IntToDecimal(v.i)
  {
    match v
    case JNull => "None"
    case JBool(b) => if b then "True" else "False"
    case JInt(i) => IntToDecimal(i)
    case JStr(s) => s
    case JList(items) => if |items| == 0 then "[]" else "[...]"
    case JObj(fields) => if |fields| == 0 then "{}" else "{...}"
  }

  /**
   * `str(KeyError(msg))`: Python shows a KeyError's message as its repr,
   * in single quotes (none of the bot's messages contains one).
   */
  function KeyErrorText(msg: string): (r: string)
    ensures |r| == |msg| + 2 && r[0] == '\'' && r[|r| - 1] == '\''
    ensures r[1..|r| - 1] == msg
  {
    "'" + msg + "'"
  }

  /** The six falsy values render as six different texts. */
  lemma FalsyRenderingsDistinct(a: Json, b: Json)
    requires Falsy(a) && Falsy(b)
    requires PyStr(a) == PyStr(b)
    ensures a == b
  {
  }
}
