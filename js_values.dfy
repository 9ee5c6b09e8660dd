/**
 * The JavaScript values the converter reads and produces, and the few
 * JavaScript built-ins its behaviour depends on: truthiness, `parseInt(s, 10)`,
 * the string conversion `Array.prototype.join` applies to its elements, and
 * property lookup on an object.
 *
 * A JavaScript object is an ordered sequence of (key, value) pairs, in the
 * order `Object.keys` enumerates it; its keys are distinct.
 */
module JsValues {
  import opened Wrappers

  /** A JSON-like JavaScript value. Numbers are integers in this model. */
  datatype JsValue =
    | Undefined
    | Null
    | Bool(b: bool)
    | Num(n: int)
    | Str(s: string)
    | Arr(elems: seq<JsValue>)
    | Obj(fields: seq<(string, JsValue)>)

  /** JavaScript truthiness (ToBoolean). */
  predicate Truthy(v: JsValue) {
    match v
    case Undefined => false
    case Null => false
    case Bool(b) => b
    case Num(n) => n != 0
    case Str(s) => s != ""
    case Arr(_) => true
    case Obj(_) => true
  }

  /** `a || b` on an optional string, falling back when it is absent or empty. */
  function OrElse(a: Option<string>, b: string): (r: string)
    ensures r == b || (a.Some? && r == a.value && a.value != "")
    ensures a.Some? && a.value != "" ==> r == a.value
  {
    if a.Some? && a.value != "" then a.value else b
  }

  /** The keys of an object, in enumeration order. */
  function Keys<V>(kvs: seq<(string, V)>): (r: seq<string>)
    ensures |r| == |kvs|
    ensures forall i :: 0 <= i < |kvs| ==> r[i] == kvs[i].0
  {
    if kvs == [] then [] else [kvs[0].0] + Keys(kvs[1..])
  }

  /** Property lookup `obj[key]`: the value stored under `key`, if any. */
  function Lookup<V>(kvs: seq<(string, V)>, key: string): (r: Option<V>)
    ensures r.Some? <==> key in Keys(kvs)
    ensures r.Some? ==> (key, r.value) in kvs
  {
    if kvs == [] then None
    else if kvs[0].0 == key then Some(kvs[0].1)
    else Lookup(kvs[1..], key)
  }

  /** `parts.join(sep)`. */
  function Join(parts: seq<string>, sep: string): string {
    if |parts| == 0 then ""
    else if |parts| == 1 then parts[0]
    else parts[0] + sep + Join(parts[1..], sep)
  }

  // ---------------------------------------------------------------------
  // Decimal digits

  predicate IsDigit(c: char) {
    '0' <= c <= '9'
  }

  predicate AllDigits(s: string) {
    forall i :: 0 <= i < |s| ==> IsDigit(s[i])
  }

  function DigitValue(c: char): nat
    requires IsDigit(c)
  {
    (c as int) - ('0' as int)
  }

  function DigitChar(d: nat): (c: char)
    requires d < 10
    ensures IsDigit(c) && DigitValue(c) == d
  {
    (('0' as int) + d) as char
  }

  /** The value of a string of decimal digits, most significant first. */
  function DecimalValue(s: string): nat
    requires AllDigits(s)
  {
    if s == [] then 0 else 10 * DecimalValue(s[..|s| - 1]) + DigitValue(s[|s| - 1])
  }

  /** The decimal text of a natural number (`String(n)`). */
  function NatToDecimal(n: nat): (r: string)
    ensures |r| > 0 && AllDigits(r)
  {
    if n < 10 then [DigitChar(n)] else NatToDecimal(n / 10) + [DigitChar(n % 10)]
  }

  /** The decimal text of an integer (`String(n)`). */
  function IntToDecimal(n: int): (r: string)
    ensures |r| > 0 && (r[0] == '-' || IsDigit(r[0]))
  {
    if n < 0 then "-" + NatToDecimal(-n) else NatToDecimal(n)
  }

  lemma {:induction false} DecimalRoundTrip(n: nat)
    ensures DecimalValue(NatToDecimal(n)) == n
  {
    if n >= 10 {
      var prefix := NatToDecimal(n / 10);
      var s := prefix + [DigitChar(n % 10)];
      assert s[..|s| - 1] == prefix;
      DecimalRoundTrip(n / 10);
    }
  }

  // ---------------------------------------------------------------------
  // parseInt(s, 10)

  /** StrWhiteSpaceChar of ECMA-262: the characters parseInt skips first. */
  predicate IsJsWhiteSpace(c: char) {
    var k := c as int;
    k == 0x09 || k == 0x0A || k == 0x0B || k == 0x0C || k == 0x0D || k == 0x20
    || k == 0xA0 || k == 0x1680 || (0x2000 <= k <= 0x200A) || k == 0x2028 || k == 0x2029
    || k == 0x202F || k == 0x205F || k == 0x3000 || k == 0xFEFF
  }

  function TrimStart(s: string): (r: string)
    ensures |r| <= |s| && r == s[|s| - |r|..]
    ensures r == [] || !IsJsWhiteSpace(r[0])
  {
    if s != [] && IsJsWhiteSpace(s[0]) then TrimStart(s[1..]) else s
  }

  /** The longest prefix of decimal digits. */
  function DigitPrefix(s: string): (r: string)
    ensures AllDigits(r) && |r| <= |s| && r == s[..|r|]
    ensures |r| < |s| ==> !IsDigit(s[|r|])
  {
    if s != [] && IsDigit(s[0]) then [s[0]] + DigitPrefix(s[1..]) else []
  }

  /**
   * `parseInt(s, 10)`: leading white space skipped, an optional sign, then the
   * longest run of decimal digits; `None` stands for NaN (no digit at all).
   */
  function ParseInt(s: string): Option<int> {
    var t := TrimStart(s);
    var negative := t != [] && t[0] == '-';
    var unsigned := if t != [] && (t[0] == '-' || t[0] == '+') then t[1..] else t;
    var digits := DigitPrefix(unsigned);
    if digits == [] then None
    else
      var magnitude: int := DecimalValue(digits);
      Some(if negative then -magnitude else magnitude)
  }

  lemma {:induction false} DigitPrefixOfDigits(d: string, rest: string)
    requires AllDigits(d)
    requires rest == [] || !IsDigit(rest[0])
    ensures DigitPrefix(d + rest) == d
  {
    if d != [] {
      assert (d + rest)[1..] == d[1..] + rest;
      DigitPrefixOfDigits(d[1..], rest);
    }
  }

  /** parseInt reads the digits in front of any non-digit suffix: `parseInt("404abc") == 404`. */
  lemma ParseIntDigitsThenText(d: string, rest: string)
    requires d != [] && AllDigits(d)
    requires rest == [] || !IsDigit(rest[0])
    ensures ParseInt(d + rest) == Some(DecimalValue(d))
  {
    DigitPrefixOfDigits(d, rest);
  }

  /** parseInt inverts the decimal text of every integer. */
  lemma ParseIntRoundTrip(n: int)
    ensures ParseInt(IntToDecimal(n)) == Some(n)
  {
    var s := IntToDecimal(n);
    assert TrimStart(s) == s;
    var m: nat := if n < 0 then -n else n;
    var d := NatToDecimal(m);
    DigitPrefixOfDigits(d, []);
    assert d + [] == d;
    DecimalRoundTrip(m);
    if n < 0 {
      assert s[1..] == d;
    } else {
      assert s == d;
    }
  }

  // ---------------------------------------------------------------------
  // String conversion of Array.prototype.join

  /** The text `join` uses for an element: `undefined` and `null` become the empty string. */
  function JoinText(v: JsValue): string
    decreases v
  {
    match v
    case Undefined => ""
    case Null => ""
    case Bool(b) => if b then "true" else "false"
    case Num(n) => IntToDecimal(n)
    case Str(s) => s
    case Arr(es) => Join(seq(|es|, i requires 0 <= i < |es| => JoinText(es[i])), ",")
    case Obj(_) => "[object Object]"
  }
}
