/**
 * The post-pass `convertJSONSchemaPrimitives` (src/openapi-converter.ts:435-440):
 * a global regular-expression replacement that turns every
 * `"{{faker 'random.number'}}"`, `"{{faker 'random.boolean'}}"` and
 * `"{{faker 'random.float'}}"` (quotes included) into the bare token.
 *
 * A global replacement scans left to right: at each position it either
 * matches, emits the replacement and resumes after the match, or copies one
 * character and moves on. The scan is defined here for any list of tokens
 * tried in order, and the pass is that scan over the three tokens above.
 */
module Unquote {
  import opened Wrappers
  import opened JsValues
  import opened Placeholders
  import opened JsonText

  /** A token between double quotes: what the regular expression matches. */
  function Quoted(t: string): (r: string)
    ensures |r| == |t| + 2 && r[0] == '"' && r[|r| - 1] == '"'
    ensures forall i :: 0 <= i < |t| ==> r[i + 1] == t[i]
  {
    "\"" + t + "\""
  }

  predicate StartsWith(s: string, p: string) {
    |p| <= |s| && s[..|p|] == p
  }

  /** Characters that separate the pieces of `JSON.stringify` output. */
  predicate IsBreaker(c: char) {
    c == ',' || c == ':' || c == '\n'
  }

  /**
   * A token made of characters that JSON writes unescaped and that are not
   * separators: every placeholder token is one.
   */
  predicate PlainToken(t: string) {
    forall i :: 0 <= i < |t| ==> t[i] != '"' && t[i] != '\\' && t[i] as int >= 0x20 && !IsBreaker(t[i])
  }

  predicate PlainTokens(toks: seq<string>) {
    forall t | t in toks :: PlainToken(t)
  }

  /** The first token, in the pattern's order, whose quoted form begins `s`. */
  function MatchAt(toks: seq<string>, s: string): (r: Option<string>)
    ensures r.Some? ==> r.value in toks && StartsWith(s, Quoted(r.value))
    ensures r.Some? ==> s != [] && s[0] == '"'
    ensures r.None? ==> forall t | t in toks :: !StartsWith(s, Quoted(t))
  {
    if toks == [] then None
    else if StartsWith(s, Quoted(toks[0])) then
      assert s[..|Quoted(toks[0])|][0] == s[0];
      Some(toks[0])
    else MatchAt(toks[1..], s)
  }

  /** The global replacement of every quoted token in `toks` by the token itself. */
  function ReplaceQuoted(toks: seq<string>, s: string): string
    decreases |s|
  {
    if s == [] then []
    else
      match MatchAt(toks, s)
      case Some(t) => t + ReplaceQuoted(toks, s[|t| + 2..])
      case None => [s[0]] + ReplaceQuoted(toks, s[1..])
  }

  /** `convertJSONSchemaPrimitives(s)`. */
  function ConvertJsonSchemaPrimitives(s: string): string {
    ReplaceQuoted(UnquotedTokens, s)
  }

  /** The pattern occurs somewhere in `s`. */
  predicate HasOccurrence(toks: seq<string>, s: string) {
    exists i :: 0 <= i < |s| && MatchAt(toks, s[i..]).Some?
  }

  lemma NumberTokenPlain()
    ensures PlainToken(NumberToken)
  {
  }

  lemma BooleanTokenPlain()
    ensures PlainToken(BooleanToken)
  {
  }

  lemma FloatTokenPlain()
    ensures PlainToken(FloatToken)
  {
  }

  lemma UnquotedTokensPlain()
    ensures PlainTokens(UnquotedTokens)
  {
    NumberTokenPlain();
    BooleanTokenPlain();
    FloatTokenPlain();
  }

  // ---------------------------------------------------------------------
  // Concatenation

  /** Text without a double quote cannot begin a match, so the scan copies it. */
  lemma {:induction false} QuoteFreePrefix(toks: seq<string>, x: string, y: string)
    requires '"' !in x
    ensures ReplaceQuoted(toks, x + y) == x + ReplaceQuoted(toks, y)
    decreases |x|
  {
    if x != [] {
      var s := x + y;
      assert s[0] == x[0] && s[0] in x;
      assert s[1..] == x[1..] + y;
      QuoteFreePrefix(toks, x[1..], y);
      calc {
        ReplaceQuoted(toks, s);
        [x[0]] + ReplaceQuoted(toks, x[1..] + y);
        [x[0]] + (x[1..] + ReplaceQuoted(toks, y));
        { assert [x[0]] + x[1..] == x; }
        x + ReplaceQuoted(toks, y);
      }
    } else {
      assert x + y == y;
    }
  }

  lemma StartsWithBeforeBreaker(x: string, y: string, t: string)
    requires PlainToken(t)
    requires y != [] && IsBreaker(y[0])
    ensures StartsWith(x + y, Quoted(t)) <==> StartsWith(x, Quoted(t))
  {
    var p := Quoted(t);
    if |p| <= |x| {
      assert (x + y)[..|p|] == x[..|p|];
    } else if |p| <= |x + y| {
      var w := (x + y)[..|p|];
      assert w[|x|] == y[0];
      assert !IsBreaker(p[|x|]) by {
        if 0 < |x| < |p| - 1 {
          assert p[|x|] == t[|x| - 1];
        }
      }
      assert w != p;
    }
  }

  lemma {:induction false} MatchAtBeforeBreaker(toks: seq<string>, x: string, y: string)
    requires PlainTokens(toks)
    requires y != [] && IsBreaker(y[0])
    ensures MatchAt(toks, x + y) == MatchAt(toks, x)
    decreases |toks|
  {
    if toks != [] {
      StartsWithBeforeBreaker(x, y, toks[0]);
      MatchAtBeforeBreaker(toks[1..], x, y);
    }
  }

  /** No match straddles a separator: the scan of `x + y` splits at the boundary. */
  lemma {:induction false} SplitAtBreaker(toks: seq<string>, x: string, y: string)
    requires PlainTokens(toks)
    requires y != [] && IsBreaker(y[0])
    ensures ReplaceQuoted(toks, x + y) == ReplaceQuoted(toks, x) + ReplaceQuoted(toks, y)
    decreases |x|
  {
    if x != [] {
      var s := x + y;
      MatchAtBeforeBreaker(toks, x, y);
      match MatchAt(toks, x)
      case Some(t) =>
        var k := |t| + 2;
        assert s[k..] == x[k..] + y;
        SplitAtBreaker(toks, x[k..], y);
        calc {
          ReplaceQuoted(toks, s);
          t + ReplaceQuoted(toks, x[k..] + y);
          t + (ReplaceQuoted(toks, x[k..]) + ReplaceQuoted(toks, y));
          (t + ReplaceQuoted(toks, x[k..])) + ReplaceQuoted(toks, y);
          ReplaceQuoted(toks, x) + ReplaceQuoted(toks, y);
        }
      case None =>
        assert s[1..] == x[1..] + y;
        SplitAtBreaker(toks, x[1..], y);
        calc {
          ReplaceQuoted(toks, s);
          [x[0]] + ReplaceQuoted(toks, x[1..] + y);
          [x[0]] + (ReplaceQuoted(toks, x[1..]) + ReplaceQuoted(toks, y));
          ([x[0]] + ReplaceQuoted(toks, x[1..])) + ReplaceQuoted(toks, y);
          ReplaceQuoted(toks, x) + ReplaceQuoted(toks, y);
        }
    } else {
      assert x + y == y;
    }
  }

  /** The scan distributes over a `",\n"`-separated join of parts. */
  lemma {:induction false} ReplaceOverJoin(toks: seq<string>, parts: seq<string>, raws: seq<string>)
    requires PlainTokens(toks)
    requires |parts| == |raws|
    requires forall i :: 0 <= i < |parts| ==> ReplaceQuoted(toks, parts[i]) == raws[i]
    ensures ReplaceQuoted(toks, Join(parts, ",\n")) == Join(raws, ",\n")
  {
    if |parts| > 1 {
      var rest := Join(parts[1..], ",\n");
      assert Join(parts, ",\n") == parts[0] + (",\n" + rest);
      SplitAtBreaker(toks, parts[0], ",\n" + rest);
      QuoteFreePrefix(toks, ",\n", rest);
      ReplaceOverJoin(toks, parts[1..], raws[1..]);
    }
  }

  /** A non-empty JSON array or object: the scan works line by line inside its brackets. */
  lemma ReplaceBlock(toks: seq<string>, open: char, parts: seq<string>, raws: seq<string>, depth: nat, close: char)
    requires PlainTokens(toks)
    requires open != '"' && close != '"'
    requires |parts| == |raws|
    requires forall i :: 0 <= i < |parts| ==> ReplaceQuoted(toks, parts[i]) == raws[i]
    ensures ReplaceQuoted(toks, Block(open, parts, depth, close)) == Block(open, raws, depth, close)
  {
    var closing := "\n" + Indent(depth) + [close];
    SplitFramed(toks, [open, '\n'], Join(parts, ",\n"), closing);
    ReplaceOverJoin(toks, parts, raws);
  }

  /** A block `open + body + close` whose delimiters hold no quote and whose close starts a new line. */
  lemma SplitFramed(toks: seq<string>, open: string, body: string, close: string)
    requires PlainTokens(toks)
    requires '"' !in open && '"' !in close
    requires close != [] && close[0] == '\n'
    ensures ReplaceQuoted(toks, open + body + close) == open + ReplaceQuoted(toks, body) + close
  {
    assert open + body + close == open + (body + close);
    QuoteFreePrefix(toks, open, body + close);
    SplitAtBreaker(toks, body, close);
    QuoteFreePrefix(toks, close, []);
    assert close + [] == close;
  }

  // ---------------------------------------------------------------------
  // String literals

  lemma {:induction false} EscapeWithoutBackslash(s: string)
    requires '\\' !in Escape(s)
    ensures Escape(s) == s
  {
    if s != [] {
      var e := EscapeChar(s[0]);
      assert Escape(s) == e + Escape(s[1..]);
      EscapeWithoutBackslash(s[1..]);
    }
  }

  lemma {:induction false} EscapeOfPlainToken(s: string)
    requires PlainToken(s)
    ensures Escape(s) == s
    decreases |s|
  {
    if s != [] {
      EscapeOfPlainToken(s[1..]);
    }
  }

  /** Inside a JSON string literal of quote-free text, no character is a double quote. */
  lemma QuoteInterior(s: string)
    requires '"' !in s
    ensures forall k :: 0 < k < |Quote(s)| - 1 ==> Quote(s)[k] != '"'
  {
    var e := Escape(s);
    forall k | 0 < k < |Quote(s)| - 1
      ensures Quote(s)[k] != '"'
    {
      assert Quote(s)[k] == e[k - 1];
    }
  }

  /** A quoted token that begins a quote-free string literal is the whole literal. */
  lemma QuotedMatchIsWhole(s: string, t: string)
    requires '"' !in s && PlainToken(t)
    requires StartsWith(Quote(s), Quoted(t))
    ensures t == s
  {
    var e := Escape(s);
    var q := Quote(s);
    var p := Quoted(t);
    QuoteInterior(s);
    assert q[..|p|][|p| - 1] == '"';
    assert |p| == |q|;
    assert q == p;
    assert e == q[1..|q| - 1];
    assert t == p[1..|p| - 1];
    EscapeWithoutBackslash(s);
  }

  lemma MatchAtQuoteLiteral(toks: seq<string>, s: string)
    requires PlainTokens(toks) && '"' !in s
    ensures MatchAt(toks, Quote(s)).Some? ==> MatchAt(toks, Quote(s)).value == s
  {
    if MatchAt(toks, Quote(s)).Some? {
      QuotedMatchIsWhole(s, MatchAt(toks, Quote(s)).value);
    }
  }

  /**
   * A JSON string literal without inner double quotes loses its quotes exactly
   * when its text is one of the tokens.
   */
  lemma ReplaceStringLiteral(toks: seq<string>, s: string)
    requires PlainTokens(toks) && '"' !in s
    ensures ReplaceQuoted(toks, Quote(s)) == if s in toks then s else Quote(s)
  {
    var e := Escape(s);
    var q := Quote(s);
    MatchAtQuoteLiteral(toks, s);
    if s in toks {
      EscapeOfPlainToken(s);
      assert q == Quoted(s);
      assert StartsWith(q, Quoted(s));
      assert q[|s| + 2..] == [];
    } else {
      assert q[1..] == e + "\"";
      QuoteFreePrefix(toks, e, "\"");
      assert MatchAt(toks, "\"") == None;
      assert ReplaceQuoted(toks, "\"") == "\"" + ReplaceQuoted(toks, []);
    }
  }

  /** The pass strips the quotes of the number token. */
  lemma NumberTokenUnquoted()
    ensures ConvertJsonSchemaPrimitives(Quote(NumberToken)) == NumberToken
  {
    UnquotedTokensPlain();
    ReplaceStringLiteral(UnquotedTokens, NumberToken);
  }

  /** The pass strips the quotes of the boolean token. */
  lemma BooleanTokenUnquoted()
    ensures ConvertJsonSchemaPrimitives(Quote(BooleanToken)) == BooleanToken
  {
    UnquotedTokensPlain();
    ReplaceStringLiteral(UnquotedTokens, BooleanToken);
  }

  /** The pass strips the quotes of the float token. */
  lemma FloatTokenUnquoted()
    ensures ConvertJsonSchemaPrimitives(Quote(FloatToken)) == FloatToken
  {
    UnquotedTokensPlain();
    ReplaceStringLiteral(UnquotedTokens, FloatToken);
  }

  /** The pass keeps the quotes of the e-mail token. */
  lemma EmailTokenQuoted()
    ensures ConvertJsonSchemaPrimitives(Quote(EmailToken)) == Quote(EmailToken)
  {
    UnquotedTokensPlain();
    ReplaceStringLiteral(UnquotedTokens, EmailToken);
  }

  /** The pass keeps the quotes of the uuid token. */
  lemma UuidTokenQuoted()
    ensures ConvertJsonSchemaPrimitives(Quote(UuidToken)) == Quote(UuidToken)
  {
    UnquotedTokensPlain();
    ReplaceStringLiteral(UnquotedTokens, UuidToken);
  }

  /** The pass keeps the quotes of the date token. */
  lemma DateTokenQuoted()
    ensures ConvertJsonSchemaPrimitives(Quote(DateToken)) == Quote(DateToken)
  {
    UnquotedTokensPlain();
    ReplaceStringLiteral(UnquotedTokens, DateToken);
  }

  /** The pass keeps the quotes of the recent-date token. */
  lemma RecentDateTokenQuoted()
    ensures ConvertJsonSchemaPrimitives(Quote(RecentDateToken)) == Quote(RecentDateToken)
  {
    UnquotedTokensPlain();
    ReplaceStringLiteral(UnquotedTokens, RecentDateToken);
  }

  // ---------------------------------------------------------------------
  // Identity on other text

  /** Every match removes two characters, so the pass never lengthens and a match shortens. */
  lemma {:induction false} ReplaceLength(toks: seq<string>, s: string)
    ensures |ReplaceQuoted(toks, s)| <= |s|
    ensures HasOccurrence(toks, s) ==> |ReplaceQuoted(toks, s)| < |s|
    decreases |s|
  {
    if s != [] {
      match MatchAt(toks, s)
      case Some(t) =>
        ReplaceLength(toks, s[|t| + 2..]);
      case None =>
        ReplaceLength(toks, s[1..]);
        if HasOccurrence(toks, s) {
          var i :| 0 <= i < |s| && MatchAt(toks, s[i..]).Some?;
          assert s[0..] == s;
          assert s[1..][i - 1..] == s[i..];
        }
    }
  }

  lemma {:induction false} ReplaceWithoutOccurrence(toks: seq<string>, s: string)
    requires !HasOccurrence(toks, s)
    ensures ReplaceQuoted(toks, s) == s
    decreases |s|
  {
    if s != [] {
      assert s[0..] == s;
      forall i | 0 <= i < |s[1..]|
        ensures MatchAt(toks, s[1..][i..]).None?
      {
        assert s[1..][i..] == s[i + 1..];
      }
      ReplaceWithoutOccurrence(toks, s[1..]);
    }
  }

  /** The pass leaves a text unchanged exactly when no quoted numeric or boolean token occurs in it. */
  lemma ConvertIdentityIff(s: string)
    ensures ConvertJsonSchemaPrimitives(s) == s <==> !HasOccurrence(UnquotedTokens, s)
  {
    ReplaceLength(UnquotedTokens, s);
    if !HasOccurrence(UnquotedTokens, s) {
      ReplaceWithoutOccurrence(UnquotedTokens, s);
    }
  }

  // ---------------------------------------------------------------------
  // Serialized values

  /**
   * Values the scan handles as intended: no string or key contains a double
   * quote, and no key is one of the tokens.
   */
  predicate QuoteSafe(toks: seq<string>, v: JsValue)
    decreases v
  {
    match v
    case Str(s) => '"' !in s
    case Arr(es) => forall e | e in es :: QuoteSafe(toks, e)
    case Obj(fs) => forall p | p in fs :: '"' !in p.0 && p.0 !in toks && QuoteSafe(toks, p.1)
    case _ => true
  }

  /**
   * On a quote-safe value, the scan applied to `JSON.stringify` output yields
   * exactly the rendering in which the tokens are written bare and everything
   * else is unchanged.
   */
  lemma {:induction false} ReplaceSerialized(toks: seq<string>, v: JsValue, depth: nat)
    requires PlainTokens(toks) && QuoteSafe(toks, v)
    ensures ReplaceQuoted(toks, Ser(v, depth, [])) == Ser(v, depth, toks)
    decreases v, 1
  {
    match v
    case Undefined =>
      QuoteFreePrefix(toks, "null", []);
    case Null =>
      QuoteFreePrefix(toks, "null", []);
    case Bool(b) =>
      var t := if b then "true" else "false";
      assert t + [] == t;
      QuoteFreePrefix(toks, t, []);
    case Num(n) =>
      var t := IntToDecimal(n);
      assert '"' !in t by {
        if n < 0 {
          assert t == "-" + NatToDecimal(-n);
        }
      }
      assert t + [] == t;
      QuoteFreePrefix(toks, t, []);
    case Str(s) =>
      ReplaceStringLiteral(toks, s);
    case Arr(es) =>
      ReplaceSerializedArray(toks, v, depth);
    case Obj(fs) =>
      ReplaceSerializedObject(toks, v, depth);
  }

  lemma {:induction false} ReplaceSerializedArray(toks: seq<string>, v: JsValue, depth: nat)
    requires PlainTokens(toks) && v.Arr? && QuoteSafe(toks, v)
    ensures ReplaceQuoted(toks, Ser(v, depth, [])) == Ser(v, depth, toks)
    decreases v, 0
  {
    var es := v.elems;
    if |es| > 0 {
      var ind := Indent(depth + 1);
      var parts := Lines(v, depth, []);
      var raws := Lines(v, depth, toks);
      forall i | 0 <= i < |es|
        ensures ReplaceQuoted(toks, parts[i]) == raws[i]
      {
        assert es[i] in es;
        ReplaceSerialized(toks, es[i], depth + 1);
        QuoteFreePrefix(toks, ind, Ser(es[i], depth + 1, []));
      }
      ReplaceBlock(toks, '[', parts, raws, depth, ']');
    } else {
      QuoteFreePrefix(toks, "[]", []);
    }
  }

  lemma {:induction false} ReplaceSerializedObject(toks: seq<string>, v: JsValue, depth: nat)
    requires PlainTokens(toks) && v.Obj? && QuoteSafe(toks, v)
    ensures ReplaceQuoted(toks, Ser(v, depth, [])) == Ser(v, depth, toks)
    decreases v, 0
  {
    var ds := Defined(v.fields);
    if |ds| > 0 {
      var parts := Lines(v, depth, []);
      var raws := Lines(v, depth, toks);
      forall i | 0 <= i < |ds|
        ensures ReplaceQuoted(toks, parts[i]) == raws[i]
      {
        assert ds[i] in v.fields;
        ReplaceField(toks, ds[i].0, ds[i].1, depth);
      }
      ReplaceBlock(toks, '{', parts, raws, depth, '}');
    } else {
      QuoteFreePrefix(toks, "{}", []);
    }
  }

  lemma {:induction false} ReplaceField(toks: seq<string>, key: string, val: JsValue, depth: nat)
    requires PlainTokens(toks) && '"' !in key && key !in toks && QuoteSafe(toks, val)
    ensures ReplaceQuoted(toks, Indent(depth + 1) + Quote(key) + ": " + Ser(val, depth + 1, []))
         == Indent(depth + 1) + Quote(key) + ": " + Ser(val, depth + 1, toks)
    decreases val, 2
  {
    ReplaceSerialized(toks, val, depth + 1);
    ReplaceKeyValue(toks, Indent(depth + 1), key, Ser(val, depth + 1, []), Ser(val, depth + 1, toks));
  }

  /** An indented `"key": value` line: the key keeps its quotes, the value is scanned on its own. */
  lemma ReplaceKeyValue(toks: seq<string>, ind: string, key: string, inner: string, bare: string)
    requires PlainTokens(toks) && '"' !in ind && '"' !in key && key !in toks
    requires ReplaceQuoted(toks, inner) == bare
    ensures ReplaceQuoted(toks, ind + Quote(key) + ": " + inner) == ind + Quote(key) + ": " + bare
  {
    var key' := Quote(key);
    calc {
      ReplaceQuoted(toks, ind + key' + ": " + inner);
      { assert ind + key' + ": " + inner == ind + (key' + (": " + inner)); }
      ReplaceQuoted(toks, ind + (key' + (": " + inner)));
      { QuoteFreePrefix(toks, ind, key' + (": " + inner)); }
      ind + ReplaceQuoted(toks, key' + (": " + inner));
      { SplitAtBreaker(toks, key', ": " + inner); }
      ind + (ReplaceQuoted(toks, key') + ReplaceQuoted(toks, ": " + inner));
      { ReplaceStringLiteral(toks, key); QuoteFreePrefix(toks, ": ", inner); }
      ind + (key' + (": " + bare));
      { assert ind + key' + ": " + bare == ind + (key' + (": " + bare)); }
      ind + key' + ": " + bare;
    }
  }

  /**
   * `convertJSONSchemaPrimitives(JSON.stringify(v, null, 2))` on a quote-safe
   * value: the number, boolean and float tokens lose their quotes, nothing else changes.
   */
  lemma ConvertSerialized(v: JsValue)
    requires v != Undefined && QuoteSafe(UnquotedTokens, v)
    ensures Stringify(v).Some?
    ensures ConvertJsonSchemaPrimitives(Stringify(v).value) == Ser(v, 0, UnquotedTokens)
  {
    UnquotedTokensPlain();
    ReplaceSerialized(UnquotedTokens, v, 0);
  }
}
