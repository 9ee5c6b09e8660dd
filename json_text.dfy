/**
 * `JSON.stringify(value, null, 2)`, the serialization the converter applies to
 * a synthesized body (section 25.5.2 of ECMA-262): two spaces of indentation
 * per level, `undefined` array elements written as `null`, `undefined`
 * properties omitted, and a top-level `undefined` giving no text at all.
 *
 * The parameter `bare` selects a reference rendering in which the strings it
 * lists are written without quotes; with the three numeric and boolean
 * placeholder tokens it is the text the converter means to produce.
 */
module JsonText {
  import opened Wrappers
  import opened JsValues

  const HexDigits: string := "0123456789abcdef"

  /** The escaped form of one character inside a JSON string literal. */
  function EscapeChar(c: char): (r: string)
    ensures c != '"' && c != '\\' && c as int >= 0x20 ==> r == [c]
    ensures c != '"' ==> '"' !in r
    ensures r == [c] || (|r| >= 2 && r[0] == '\\')
  {
    if c == '"' then "\\\""
    else if c == '\\' then "\\\\"
    else if c as int == 0x08 then "\\b"
    else if c == '\t' then "\\t"
    else if c == '\n' then "\\n"
    else if c as int == 0x0C then "\\f"
    else if c == '\r' then "\\r"
    else if c as int < 0x20 then "\\u00" + [HexDigits[c as int / 16], HexDigits[c as int % 16]]
    else [c]
  }

  /** The escaped contents of a JSON string literal. */
  function Escape(s: string): (r: string)
    ensures '"' !in s ==> '"' !in r
  {
    if s == [] then [] else EscapeChar(s[0]) + Escape(s[1..])
  }

  /** A JSON string literal: `JSON.stringify` of a string. */
  function Quote(s: string): string {
    "\"" + Escape(s) + "\""
  }

  function Indent(depth: nat): (r: string)
    ensures |r| == 2 * depth && forall i :: 0 <= i < |r| ==> r[i] == ' '
  {
    seq(2 * depth, _ => ' ')
  }

  /** The properties `JSON.stringify` writes: those whose value is not `undefined`. */
  function Defined(fields: seq<(string, JsValue)>): (r: seq<(string, JsValue)>)
    ensures forall p :: p in r ==> p in fields && p.1 != Undefined
    ensures forall p :: p in fields && p.1 != Undefined ==> p in r
  {
    if fields == [] then []
    else if fields[0].1 == Undefined then Defined(fields[1..])
    else [fields[0]] + Defined(fields[1..])
  }

  /**
   * `Defined` keeps the written properties in their order: it distributes
   * over concatenation, so a property written before another in the object
   * is written before it in the text.
   */
  lemma {:induction false} DefinedKeepsOrder(a: seq<(string, JsValue)>, b: seq<(string, JsValue)>)
    ensures Defined(a + b) == Defined(a) + Defined(b)
    decreases |a|
  {
    if a == [] {
      assert a + b == b;
    } else {
      assert (a + b)[0] == a[0];
      assert (a + b)[1..] == a[1..] + b;
      DefinedKeepsOrder(a[1..], b);
    }
  }

  /** A non-empty array or object: one line per member, the closing bracket indented to `depth`. */
  function Block(open: char, lines: seq<string>, depth: nat, close: char): string {
    [open, '\n'] + Join(lines, ",\n") + ("\n" + Indent(depth) + [close])
  }

  /**
   * The text of a value nested `depth` levels deep. `undefined` is written as
   * `null`, which is what `JSON.stringify` does for an array element; object
   * properties holding `undefined` are left out by `Defined`.
   */
  function Ser(v: JsValue, depth: nat, bare: seq<string>): string
    decreases v, 1
  {
    match v
    case Undefined => "null"
    case Null => "null"
    case Bool(b) => if b then "true" else "false"
    case Num(n) => IntToDecimal(n)
    case Str(s) => if s in bare then s else Quote(s)
    case Arr(es) =>
      if |es| == 0 then "[]"
      else Block('[', Lines(v, depth, bare), depth, ']')
    case Obj(fs) =>
      if |Defined(fs)| == 0 then "{}"
      else Block('{', Lines(v, depth, bare), depth, '}')
  }

  /** The indented lines of an array's elements or an object's written properties. */
  function Lines(v: JsValue, depth: nat, bare: seq<string>): (r: seq<string>)
    requires v.Arr? || v.Obj?
    ensures v.Arr? ==> |r| == |v.elems|
    ensures v.Arr? ==> forall i :: 0 <= i < |r| ==> r[i] == Indent(depth + 1) + Ser(v.elems[i], depth + 1, bare)
    ensures v.Obj? ==> |r| == |Defined(v.fields)|
    ensures v.Obj? ==> forall i :: 0 <= i < |r| ==>
              r[i] == Indent(depth + 1) + Quote(Defined(v.fields)[i].0) + ": "
                      + Ser(Defined(v.fields)[i].1, depth + 1, bare)
    decreases v, 0
  {
    if v.Arr? then
      seq(|v.elems|, i requires 0 <= i < |v.elems| => Indent(depth + 1) + Ser(v.elems[i], depth + 1, bare))
    else
      var ds := Defined(v.fields);
      seq(|ds|, i requires 0 <= i < |ds| =>
        assert ds[i] in v.fields;
        Indent(depth + 1) + Quote(ds[i].0) + ": " + Ser(ds[i].1, depth + 1, bare))
  }

  /** `JSON.stringify(v, null, 2)`; `None` when the result is `undefined`. */
  function Stringify(v: JsValue): (r: Option<string>)
    ensures r.None? <==> v == Undefined
  {
    if v == Undefined then None else Some(Ser(v, 0, []))
  }
}
