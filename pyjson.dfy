/**
  The values the integration passes around: JSON as Python's `json` module decodes it,
  together with the few pieces of Python's dynamic semantics the integration relies on
  (`bool(x)`, `str(x)`, `x == n`, `d.get(k, default)` and `k in x`).
*/
module PyJson {

  /** A decoded JSON value. A float is carried as the text Python's `repr` gives for it
      (for example "1.5", "0.0", "41800.0"); its numeric value is never needed here. */
  datatype Json =
    | JNull
    | JBool(b: bool)
    | JInt(i: int)
    | JFloat(repr: string)
    | JStr(s: string)
    | JList(items: seq<Json>)
    | JObj(fields: map<string, Json>)

  /** The outcome of evaluating a Python expression that may raise
      (AttributeError for `.get` on a non-dict, TypeError for `in` on a non-container). */
  datatype PyResult<+T> = Returns(value: T) | Raises

  /** The empty dict `{}`. */
  const EmptyObj: Json := JObj(map[])

  // ---------------------------------------------------------------------------
  // Decimal text of integers (`str(n)`, `f"{n}"`)
  // ---------------------------------------------------------------------------

  predicate IsDigit(c: char) { '0' <= c <= '9' }

  predicate AllDigits(s: string) { forall k :: 0 <= k < |s| ==> IsDigit(s[k]) }

  function Digit(d: nat): (c: char)
    requires d < 10
    ensures IsDigit(c) && c as int - '0' as int == d
  {
    ('0' as int + d) as char
  }

  /** Python's `str(n)` for a non-negative integer: its shortest decimal digits. */
  function NatToString(n: nat): (s: string)
    ensures |s| >= 1 && AllDigits(s)
    ensures s[0] == '0' ==> n == 0
    ensures n < 10 <==> |s| == 1
  {
    if n < 10 then [Digit(n)] else NatToString(n / 10) + [Digit(n % 10)]
  }

  /** The number a string of decimal digits denotes (the inverse of NatToString). */
  function ParseDigits(s: string): nat
    requires AllDigits(s)
  {
    if s == [] then 0 else ParseDigits(s[..|s| - 1]) * 10 + (s[|s| - 1] as int - '0' as int)
  }

  /** Reading back the decimal text of n gives n. */
  lemma {:induction false} ParseNatToString(n: nat)
    ensures ParseDigits(NatToString(n)) == n
  {
    if n >= 10 {
      var s := NatToString(n);
      assert s[..|s| - 1] == NatToString(n / 10);
      ParseNatToString(n / 10);
    }
  }

  /** Distinct numbers have distinct decimal texts. */
  lemma NatToStringInjective(i: nat, j: nat)
    requires NatToString(i) == NatToString(j)
    ensures i == j
  {
    ParseNatToString(i);
    ParseNatToString(j);
  }

  /** Python's `str(i)` for any integer. */
  function IntToString(i: int): string {
    if i < 0 then "-" + NatToString(-i) else NatToString(i)
  }

  // ---------------------------------------------------------------------------
  // Python semantics on decoded values
  // ---------------------------------------------------------------------------

  /** `bool(v)`: None, False, zero, and empty strings, lists and dicts are falsy. */
  predicate Truthy(v: Json) {
    match v
    case JNull => false
    case JBool(b) => b
    case JInt(i) => i != 0
    case JFloat(r) => r != "0.0" && r != "-0.0"
    case JStr(s) => s != ""
    case JList(xs) => xs != []
    case JObj(m) => m != map[]
  }

  /** `v == n` for a whole number n below 10^16 (the range in which Python writes a whole
      float as its digits followed by ".0"). `True == 1` and `False == 0` hold in Python. */
  predicate EqualsNat(v: Json, n: nat)
    requires n < 10_000_000_000_000_000
  {
    match v
    case JInt(i) => i == n
    case JBool(b) => (if b then 1 else 0) == n
    case JFloat(r) => r == NatToString(n) + ".0" || (n == 0 && r == "-0.0")
    case _ => false
  }

  /** `str(v)`. Lists and dicts are shown by a placeholder rather than Python's full repr. */
  function PyStr(v: Json): string {
    match v
    case JNull => "None"
    case JBool(b) => if b then "True" else "False"
    case JInt(i) => IntToString(i)
    case JFloat(r) => r
    case JStr(s) => s
    case JList(_) => "[...]"
    case JObj(_) => "{...}"
  }

  /** `v.get(key, default)`: only a dict has `.get`; anything else raises AttributeError. */
  function GetOr(v: Json, key: string, default: Json): (r: PyResult<Json>)
    ensures r.Raises? <==> !v.JObj?
  {
    match v
    case JObj(m) => Returns(if key in m then m[key] else default)
    case _ => Raises
  }

  /** `v.get(key)`, whose default is None. */
  function Get(v: Json, key: string): PyResult<Json> {
    GetOr(v, key, JNull)
  }

  /** `needle` occurs as a contiguous piece of `hay` (Python's `needle in hay` on strings). */
  predicate IsSubstring(needle: string, hay: string)
    decreases |hay|
  {
    needle <= hay || (hay != [] && IsSubstring(needle, hay[1..]))
  }

  /** The values `in` accepts on its right: dicts, lists and strings. */
  predicate IsContainer(v: Json) {
    v.JObj? || v.JList? || v.JStr?
  }

  /** `key in v` for a string key: key membership for a dict, element membership for a
      list, substring test for a string; any other value raises TypeError. */
  function Contains(key: string, v: Json): (r: PyResult<bool>)
    ensures r.Raises? <==> !IsContainer(v)
  {
    match v
    case JObj(m) => Returns(key in m)
    case JList(xs) => Returns(JStr(key) in xs)
    case JStr(s) => Returns(IsSubstring(key, s))
    case _ => Raises
  }

  /** A value Python can use as a dict key (lists and dicts are unhashable). */
  predicate Hashable(v: Json) {
    !v.JList? && !v.JObj?
  }
}
