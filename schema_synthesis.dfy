/**
 * `generateSchema` (src/openapi-converter.ts:340-427): the example value
 * synthesized from a schema. `Synthesize` is its specification, written as a
 * recursive function; `GenerateSchema` is the procedure as the source runs it,
 * with the loop over the composition keywords and the loop of the object
 * factory, proved equal to `Synthesize`.
 */
module SchemaSynthesis {
  import opened Wrappers
  import opened JsValues
  import opened Placeholders
  import opened OpenApiDocument

  /** What a factory of the factory table builds. */
  datatype Factory = Constant(token: string) | ArrayFactory | ObjectFactory

  /** The factory table: the factory stored under a `type` or `type_format` key. */
  function FactoryNamed(key: string): Option<Factory> {
    if key == "integer" then Some(Constant(NumberToken))
    else if key == "number" then Some(Constant(NumberToken))
    else if key == "number_float" then Some(Constant(FloatToken))
    else if key == "number_double" then Some(Constant(FloatToken))
    else if key == "string" then Some(Constant(""))
    else if key == "string_date" then Some(Constant(DateToken))
    else if key == "string_date-time" then Some(Constant(RecentDateToken))
    else if key == "string_email" then Some(Constant(EmailToken))
    else if key == "string_uuid" then Some(Constant(UuidToken))
    else if key == "boolean" then Some(Constant(BooleanToken))
    else if key == "array" then Some(ArrayFactory)
    else if key == "object" then Some(ObjectFactory)
    else None
  }

  // ---------------------------------------------------------------------
  // Pieces of the dispatch

  /** `${type}`: the text a type takes as a property key. */
  function TypeKey(t: TypeDecl): string {
    match t
    case NoType => "undefined"
    case TypeName(n) => n
    case TypeList(ns) => Join(ns, ",")
  }

  /** `!type`: no type at all, or the empty name. */
  predicate Falsy(t: TypeDecl) {
    t == NoType || t == TypeName("")
  }

  /** The schema's own type, a non-empty list collapsed to its first name. */
  function Unwrap(t: TypeDecl): (r: TypeDecl)
    ensures t.TypeList? && |t.names| >= 1 ==> r == TypeName(t.names[0])
    ensures !(t.TypeList? && |t.names| >= 1) ==> r == t
  {
    if t.TypeList? && |t.names| >= 1 then TypeName(t.names[0]) else t
  }

  /** The raw `type` of a schema, as a composition member hands it over. */
  function RawType(s: Schema): TypeDecl {
    if s.SchemaObject? then s.typ else NoType
  }

  /** `${schema.format}`. */
  function FormatKey(s: Schema): string {
    if s.SchemaObject? && s.format.Some? then s.format.value else "undefined"
  }

  predicate HasProperties(s: Schema) {
    s.SchemaObject? && s.properties.Declared?
  }

  /** The factory for `type_format`, else for `type` alone. */
  function FactoryFor(t: TypeDecl, format: string): (r: Option<Factory>)
    ensures FactoryNamed(TypeKey(t) + "_" + format).None? ==> r == FactoryNamed(TypeKey(t))
    ensures r.None? <==> FactoryNamed(TypeKey(t) + "_" + format).None? && FactoryNamed(TypeKey(t)).None?
  {
    var byFormat := FactoryNamed(TypeKey(t) + "_" + format);
    if byFormat.Some? then byFormat else FactoryNamed(TypeKey(t))
  }

  /** The list of the last of `allOf`, `oneOf`, `anyOf` that is non-empty, or `[]`. */
  function LastNonEmpty(lists: seq<seq<Schema>>): (r: seq<Schema>)
    ensures r == [] || r in lists
  {
    if lists == [] then []
    else if |lists[|lists| - 1]| > 0 then lists[|lists| - 1]
    else LastNonEmpty(lists[..|lists| - 1])
  }

  function CompositionKeywords(s: Schema): seq<seq<Schema>>
    requires s.SchemaObject?
  {
    [s.allOf, s.oneOf, s.anyOf]
  }

  function Composition(s: Schema): seq<Schema>
    requires s.SchemaObject?
  {
    LastNonEmpty(CompositionKeywords(s))
  }

  /** The schema the factory builds from: the chosen composition member, else the schema itself. */
  function Target(s: Schema): (r: Schema)
    requires s.SchemaObject?
    ensures r == s || r in s.allOf || r in s.oneOf || r in s.anyOf
  {
    var members := Composition(s);
    if members == [] then s else members[0]
  }

  /** The type the dispatch starts from. */
  function ResolvedType(s: Schema): TypeDecl
    requires s.SchemaObject?
  {
    var members := Composition(s);
    if members == [] then Unwrap(s.typ) else RawType(members[0])
  }

  /** The `enum` token: the values joined as `Array.prototype.join` writes them. */
  function EnumToken(values: seq<JsValue>): string {
    "{{oneOf (array '" + Join(EnumTexts(values), "' '") + "')}}"
  }

  function EnumTexts(values: seq<JsValue>): (r: seq<string>)
    ensures |r| == |values| && forall i :: 0 <= i < |r| ==> r[i] == JoinText(values[i])
  {
    seq(|values|, i requires 0 <= i < |values| => JoinText(values[i]))
  }

  /** `obj[key] = value`: a key already present keeps its place, a new one goes last. */
  function SetField(fields: seq<(string, JsValue)>, key: string, value: JsValue): seq<(string, JsValue)> {
    if fields == [] then [(key, value)]
    else if fields[0].0 == key then [(key, value)] + fields[1..]
    else [fields[0]] + SetField(fields[1..], key, value)
  }

  /** Assigning a new key appends it. */
  lemma {:induction false} SetFieldFresh(fields: seq<(string, JsValue)>, key: string, value: JsValue)
    requires key !in Keys(fields)
    ensures SetField(fields, key, value) == fields + [(key, value)]
  {
    if fields != [] {
      assert Keys(fields) == [fields[0].0] + Keys(fields[1..]);
      SetFieldFresh(fields[1..], key, value);
      assert [fields[0]] + (fields[1..] + [(key, value)]) == fields + [(key, value)];
    }
  }

  /** Assigning a present key keeps the number of properties. */
  lemma {:induction false} SetFieldPresent(fields: seq<(string, JsValue)>, key: string, value: JsValue)
    requires key in Keys(fields)
    ensures |SetField(fields, key, value)| == |fields|
  {
    if fields[0].0 != key {
      assert Keys(fields) == [fields[0].0] + Keys(fields[1..]);
      SetFieldPresent(fields[1..], key, value);
    }
  }

  /** After the assignment the key holds the value. */
  lemma {:induction false} SetFieldLookup(fields: seq<(string, JsValue)>, key: string, value: JsValue)
    ensures Lookup(SetField(fields, key, value), key) == Some(value)
  {
    if fields != [] && fields[0].0 != key {
      var rest := SetField(fields[1..], key, value);
      SetFieldLookup(fields[1..], key, value);
      assert ([fields[0]] + rest)[1..] == rest;
    }
  }

  /** The object a run of assignments builds, starting from `{}`. */
  function FromEntries(entries: seq<(string, JsValue)>): seq<(string, JsValue)> {
    if entries == [] then []
    else SetField(FromEntries(entries[..|entries| - 1]), entries[|entries| - 1].0, entries[|entries| - 1].1)
  }

  // ---------------------------------------------------------------------
  // The specification

  /** `generateSchema(s)`. */
  function Synthesize(s: Schema): JsValue
    decreases s, 2
  {
    if s.NotObject? then Undefined
    else if s.enumValues.Some? then Str(EnumToken(s.enumValues.value))
    else if Truthy(s.example) then s.example
    else if Truthy(s.defaultValue) then s.defaultValue
    else Dispatch(ResolvedType(s), Target(s))
  }

  /**
   * The factory call for type `t` on `target`. A target that is not an object
   * has no type and no properties, so no factory applies to it.
   */
  function Dispatch(t: TypeDecl, target: Schema): JsValue
    decreases target, 1
  {
    if target.NotObject? then Str("")
    else
      var typ := if Falsy(t) && HasProperties(target) then TypeName("object") else t;
      match FactoryFor(typ, FormatKey(target))
      case None => Str("")
      case Some(Constant(token)) => Str(token)
      case Some(ArrayFactory) =>
        var item := Synthesize(target.items);
        if target.collectionFormat == Some("csv") then item else Arr([item])
      case Some(ObjectFactory) => Obj(FromEntries(PropertyValues(target)))
  }

  /** Each declared property with the value synthesized for it. */
  function PropertyValues(target: Schema): (r: seq<(string, JsValue)>)
    requires target.SchemaObject?
    ensures target.properties.NoProperties? ==> r == []
    ensures target.properties.Declared? ==> |r| == |target.properties.entries|
    decreases target, 0
  {
    if target.properties.NoProperties? then []
    else
      var ps := target.properties.entries;
      seq(|ps|, i requires 0 <= i < |ps| =>
        assert ps[i] in ps;
        (ps[i].0, Synthesize(ps[i].1)))
  }

  lemma PropertyValueAt(target: Schema, i: int)
    requires target.SchemaObject? && target.properties.Declared?
    requires 0 <= i < |target.properties.entries|
    ensures PropertyValues(target)[i]
         == (target.properties.entries[i].0, Synthesize(target.properties.entries[i].1))
  {
  }

  /** The factories read only `format`, `properties`, `items` and `collectionFormat` of their target. */
  lemma DispatchReadsShape(t: TypeDecl, a: Schema, b: Schema)
    requires a.SchemaObject? && b.SchemaObject?
    requires a.format == b.format && a.properties == b.properties
    requires a.items == b.items && a.collectionFormat == b.collectionFormat
    ensures Dispatch(t, a) == Dispatch(t, b)
  {
    if a.properties.Declared? {
      forall i | 0 <= i < |a.properties.entries|
        ensures PropertyValues(a)[i] == PropertyValues(b)[i]
      {
        PropertyValueAt(a, i);
        PropertyValueAt(b, i);
      }
    }
    assert PropertyValues(a) == PropertyValues(b);
  }

  // ---------------------------------------------------------------------
  // The procedure

  /** `generateSchema(s)` as the source runs it. */
  method GenerateSchema(s: Schema) returns (v: JsValue)
    ensures v == Synthesize(s)
    decreases s, 2
  {
    if s.NotObject? {
      return Undefined;
    }
    var typ := Unwrap(s.typ);
    if s.enumValues.Some? {
      return Str(EnumToken(s.enumValues.value));
    }
    if Truthy(s.example) {
      return s.example;
    }
    if Truthy(s.defaultValue) {
      return s.defaultValue;
    }
    var target := s;
    var keywords := CompositionKeywords(s);
    var i := 0;
    while i < |keywords|
      invariant 0 <= i <= |keywords|
      invariant LastNonEmpty(keywords[..i]) == [] ==> typ == Unwrap(s.typ) && target == s
      invariant LastNonEmpty(keywords[..i]) != [] ==>
                  typ == RawType(LastNonEmpty(keywords[..i])[0]) && target == LastNonEmpty(keywords[..i])[0]
    {
      assert keywords[..i + 1][..i] == keywords[..i];
      if |keywords[i]| > 0 {
        typ := RawType(keywords[i][0]);
        target := keywords[i][0];
      }
      i := i + 1;
    }
    assert keywords[..i] == keywords;
    assert target == Target(s) && typ == ResolvedType(s);
    if target.NotObject? {
      return Str("");
    }
    if Falsy(typ) && HasProperties(target) {
      typ := TypeName("object");
    }
    var factory := FactoryFor(typ, FormatKey(target));
    match factory {
      case None =>
        v := Str("");
      case Some(Constant(token)) =>
        v := Str(token);
      case Some(ArrayFactory) =>
        var item := GenerateSchema(target.items);
        v := if target.collectionFormat == Some("csv") then item else Arr([item]);
      case Some(ObjectFactory) =>
        var fields := BuildObject(target);
        v := Obj(fields);
    }
  }

  /** The object factory: every declared property assigned its synthesized value, in order. */
  method BuildObject(target: Schema) returns (fields: seq<(string, JsValue)>)
    requires target.SchemaObject?
    ensures fields == FromEntries(PropertyValues(target))
    decreases target, 1
  {
    fields := [];
    if target.properties.Declared? {
      var ps := target.properties.entries;
      var i := 0;
      while i < |ps|
        invariant 0 <= i <= |ps|
        invariant fields == FromEntries(PropertyValues(target)[..i])
      {
        assert ps[i] in ps;
        var value := GenerateSchema(ps[i].1);
        PropertyValueAt(target, i);
        assert PropertyValues(target)[..i + 1][..i] == PropertyValues(target)[..i];
        fields := SetField(fields, ps[i].0, value);
        i := i + 1;
      }
      assert PropertyValues(target)[..i] == PropertyValues(target);
    }
  }

  // ---------------------------------------------------------------------
  // Factory lookup

  /** No key of the table extends `object`, `array` or `integer` with a format. */
  lemma ObjectFormatAbsent(format: string)
    ensures FactoryNamed("object" + "_" + format) == None
  {
    var k := "object" + "_" + format;
    assert k[0] == 'o' && |k| >= 7;
  }

  /** `object` finds the object factory, whatever the format. */
  lemma ObjectTypeFactory(format: string)
    ensures FactoryFor(TypeName("object"), format) == Some(ObjectFactory)
  {
    ObjectFormatAbsent(format);
  }

  lemma ObjectDispatch(target: Schema)
    requires target.SchemaObject?
    ensures Dispatch(TypeName("object"), target) == Obj(FromEntries(PropertyValues(target)))
  {
    ObjectTypeFactory(FormatKey(target));
  }

  lemma ArrayFormatAbsent(format: string)
    ensures FactoryNamed("array" + "_" + format) == None
  {
    var k := "array" + "_" + format;
    assert k[0] == 'a' && |k| >= 6;
  }

  lemma IntegerFormatAbsent(format: string)
    ensures FactoryNamed("integer" + "_" + format) == None
  {
    var k := "integer" + "_" + format;
    assert k[0] == 'i' && |k| >= 8;
  }

  // ---------------------------------------------------------------------
  // Properties of the synthesis

  /** A schema none of whose shortcuts applies: no `enum`, a falsy `example` and a falsy `default`. */
  predicate Dispatched(s: Schema) {
    s.SchemaObject? && s.enumValues.None? && !Truthy(s.example) && !Truthy(s.defaultValue)
  }

  /** `{}`: an object schema with no keyword at all. */
  const EmptySchema: Schema := SchemaObject(NoType, None, None, Undefined, Undefined, [], [], [], NoProperties, NotObject, None)

  /** `{...schema, example: value}`: spreading a value that is not an object copies nothing. */
  function WithExample(schema: Schema, value: JsValue): (r: Schema)
    ensures r.SchemaObject? && r.example == value
    ensures schema.SchemaObject? ==> r == schema.(example := value)
    ensures schema.NotObject? ==> r == EmptySchema.(example := value)
  {
    if schema.NotObject? then EmptySchema.(example := value) else schema.(example := value)
  }

  /** Precedence: `enum` first, then a truthy `example`, then a truthy `default`. */
  lemma Precedence(s: Schema)
    requires s.SchemaObject?
    ensures s.enumValues.Some? ==> Synthesize(s) == Str(EnumToken(s.enumValues.value))
    ensures s.enumValues.None? && Truthy(s.example) ==> Synthesize(s) == s.example
    ensures s.enumValues.None? && !Truthy(s.example) && Truthy(s.defaultValue) ==> Synthesize(s) == s.defaultValue
    ensures Dispatched(s) ==> Synthesize(s) == Dispatch(ResolvedType(s), Target(s))
  {
  }

  /** A truthy example is returned verbatim, unless the schema it is spread into has an `enum`. */
  lemma ExampleWins(schema: Schema, value: JsValue)
    requires schema.NotObject? || schema.enumValues.None?
    requires Truthy(value)
    ensures Synthesize(WithExample(schema, value)) == value
  {
  }

  /** An `enum` on the schema beats any example value spread into it. */
  lemma EnumBeatsExample(schema: Schema, value: JsValue)
    requires schema.SchemaObject? && schema.enumValues.Some?
    ensures Synthesize(WithExample(schema, value)) == Str(EnumToken(schema.enumValues.value))
  {
  }

  /** A falsy example (`0`, `''`, `false`, `null`) is as good as none. */
  lemma FalsyExampleIgnored(schema: Schema, value: JsValue)
    requires !Truthy(value)
    ensures Synthesize(WithExample(schema, value)) == Synthesize(WithExample(schema, Undefined))
  {
    var a, b := WithExample(schema, value), WithExample(schema, Undefined);
    assert CompositionKeywords(a) == CompositionKeywords(b);
    if Composition(a) == [] {
      DispatchReadsShape(ResolvedType(a), a, b);
    }
  }

  /** An empty `enum` still yields a token. */
  lemma EmptyEnumToken()
    ensures EnumToken([]) == "{{oneOf (array '')}}"
  {
    assert EnumTexts([]) == [];
    assert Join([], "' '") == "";
    assert "{{oneOf (array '" + "" == "{{oneOf (array '";
  }

  /** The `enum` values are listed in declaration order, each quoted. */
  lemma EnumTokenPair(a: string, b: string)
    ensures EnumToken([Str(a), Str(b)]) == "{{oneOf (array '" + a + "' '" + b + "')}}"
  {
    var texts := EnumTexts([Str(a), Str(b)]);
    assert texts == [a, b];
    assert texts[1..] == [b];
    assert Join(texts, "' '") == a + "' '" + b;
    var open, close := "{{oneOf (array '", "')}}";
    assert open + (a + "' '" + b) + close == open + a + "' '" + b + close;
  }

  /** For any list of string values, the token lists exactly those strings, in order, each quoted. */
  lemma EnumOfStrings(names: seq<string>)
    ensures EnumToken(seq(|names|, i requires 0 <= i < |names| => Str(names[i])))
         == "{{oneOf (array '" + Join(names, "' '") + "')}}"
  {
    var values := seq(|names|, i requires 0 <= i < |names| => Str(names[i]));
    assert EnumTexts(values) == names;
  }

  /**
   * A reference left unresolved by the dereferencer is an object with no
   * keyword the synthesis reads: it synthesizes to `''`.
   */
  lemma UnresolvedReferenceEmpty()
    ensures Synthesize(EmptySchema) == Str("")
  {
    assert FactoryNamed("undefined" + "_" + "undefined").None?;
    assert FactoryNamed("undefined").None?;
    UnknownTypeEmpty(NoType, EmptySchema);
  }

  /**
   * The keyword loop visits `allOf`, `oneOf`, `anyOf` in turn and keeps the
   * last non-empty list: `anyOf` beats `oneOf` beats `allOf`.
   */
  lemma CompositionChoice(s: Schema)
    requires s.SchemaObject?
    ensures Composition(s)
         == if s.anyOf != [] then s.anyOf else if s.oneOf != [] then s.oneOf else s.allOf
  {
    var ks := CompositionKeywords(s);
    assert ks[..|ks| - 1] == [s.allOf, s.oneOf];
    assert [s.allOf, s.oneOf][..1] == [s.allOf];
    assert [s.allOf][..0] == [];
    assert LastNonEmpty([s.allOf]) == s.allOf;
    assert LastNonEmpty([s.allOf, s.oneOf]) == if s.oneOf != [] then s.oneOf else s.allOf;
  }

  /**
   * With a composition, the first member of the chosen list is built with its
   * raw `type`: its own `enum`, `example` and `default` are never consulted.
   */
  lemma MemberShortcutsIgnored(s: Schema, e: Option<seq<JsValue>>, x: JsValue, d: JsValue)
    requires Dispatched(s) && Composition(s) != []
    requires Composition(s)[0].SchemaObject?
    ensures var m := Composition(s)[0];
            Synthesize(s) == Dispatch(m.typ, m)
            && Dispatch(m.typ, m) == Dispatch(m.typ, m.(enumValues := e, example := x, defaultValue := d))
  {
    var m := Composition(s)[0];
    DispatchReadsShape(m.typ, m, m.(enumValues := e, example := x, defaultValue := d));
  }

  /** Without composition, a list of types counts as its first type. */
  lemma TypeListCollapses(s: Schema)
    requires Dispatched(s) && Composition(s) == []
    requires s.typ.TypeList? && |s.typ.names| >= 1
    ensures Synthesize(s) == Synthesize(s.(typ := TypeName(s.typ.names[0])))
  {
    var s' := s.(typ := TypeName(s.typ.names[0]));
    assert CompositionKeywords(s') == CompositionKeywords(s);
    DispatchReadsShape(TypeName(s.typ.names[0]), s, s');
  }

  /** A schema without a type but with `properties` is built as an object. */
  lemma PropertiesMeanObject(s: Schema)
    requires Dispatched(s) && Composition(s) == []
    requires Falsy(Unwrap(s.typ)) && s.properties.Declared?
    ensures Synthesize(s) == Synthesize(s.(typ := TypeName("object")))
  {
    var s' := s.(typ := TypeName("object"));
    assert CompositionKeywords(s') == CompositionKeywords(s);
    DispatchReadsShape(TypeName("object"), s, s');
  }

  predicate DistinctKeys<V>(kvs: seq<(string, V)>) {
    forall i, j :: 0 <= i < j < |kvs| ==> kvs[i].0 != kvs[j].0
  }

  /** With distinct keys, the last key does not occur before it. */
  lemma LastKeyFresh(entries: seq<(string, JsValue)>)
    requires DistinctKeys(entries) && entries != []
    ensures entries[|entries| - 1].0 !in Keys(entries[..|entries| - 1])
  {
  }

  /** Assigning distinct keys one after the other builds exactly those entries, in order. */
  lemma {:induction false} FromEntriesDistinct(entries: seq<(string, JsValue)>)
    requires DistinctKeys(entries)
    ensures FromEntries(entries) == entries
  {
    if entries != [] {
      var init, last := entries[..|entries| - 1], entries[|entries| - 1];
      assert DistinctKeys(init);
      FromEntriesDistinct(init);
      LastKeyFresh(entries);
      SetFieldFresh(init, last.0, last.1);
      assert init + [last] == entries;
    }
  }

  /**
   * The object factory emits exactly the declared properties, in declaration
   * order, each holding the value synthesized from its own schema.
   */
  lemma ObjectFactoryFields(target: Schema)
    requires target.SchemaObject? && target.properties.Declared?
    requires DistinctKeys(target.properties.entries)
    ensures Dispatch(TypeName("object"), target).Obj?
    ensures var fields := Dispatch(TypeName("object"), target).fields;
            var ps := target.properties.entries;
            |fields| == |ps|
            && forall i :: 0 <= i < |ps| ==> fields[i] == (ps[i].0, Synthesize(ps[i].1))
  {
    ObjectDispatch(target);
    var ps := target.properties.entries;
    var pv := PropertyValues(target);
    forall i | 0 <= i < |ps|
      ensures pv[i] == (ps[i].0, Synthesize(ps[i].1))
    {
      PropertyValueAt(target, i);
    }
    FromEntriesDistinct(pv);
  }

  /** An object without `properties` is built as `{}`. */
  lemma ObjectWithoutProperties(target: Schema)
    requires target.SchemaObject? && target.properties.NoProperties?
    ensures Dispatch(TypeName("object"), target) == Obj([])
  {
    ObjectDispatch(target);
  }

  /** The array factory wraps the synthesized `items` in a one-element list, unless `collectionFormat` is `csv`. */
  lemma ArrayFactoryWraps(target: Schema)
    requires target.SchemaObject?
    ensures Dispatch(TypeName("array"), target)
         == if target.collectionFormat == Some("csv") then Synthesize(target.items) else Arr([Synthesize(target.items)])
  {
    ArrayFormatAbsent(FormatKey(target));
  }

  /** An integer is the random-number token, whatever its format. */
  lemma IntegerFactory(target: Schema)
    requires target.SchemaObject?
    ensures Dispatch(TypeName("integer"), target) == Str(NumberToken)
  {
    IntegerFormatAbsent(FormatKey(target));
  }

  /** A string with the `email` format is the e-mail token. */
  lemma EmailFormat(target: Schema)
    requires target.SchemaObject? && target.format == Some("email")
    ensures Dispatch(TypeName("string"), target) == Str(EmailToken)
  {
    assert "string" + "_" + "email" == "string_email";
  }

  /** A string whose format has no factory of its own falls back to the plain string factory: `''`. */
  lemma UnknownStringFormat(target: Schema)
    requires target.SchemaObject?
    requires FactoryNamed("string" + "_" + FormatKey(target)).None?
    ensures Dispatch(TypeName("string"), target) == Str("")
  {
  }

  /** A type with no factory, under either key, gives `''`. */
  lemma UnknownTypeEmpty(t: TypeDecl, target: Schema)
    requires target.SchemaObject? && !(Falsy(t) && HasProperties(target))
    requires FactoryNamed(TypeKey(t) + "_" + FormatKey(target)).None? && FactoryNamed(TypeKey(t)).None?
    ensures Dispatch(t, target) == Str("")
  {
  }

  /**
   * `generateSchema` gives `undefined` only for a value that is not an object,
   * or through a `csv` array whose `items` give `undefined`.
   */
  lemma UndefinedOnlyFromCsv(s: Schema)
    requires Synthesize(s) == Undefined
    ensures s.NotObject? || (Dispatched(s) && Target(s).SchemaObject?
                             && Target(s).collectionFormat == Some("csv")
                             && Synthesize(Target(s).items) == Undefined)
  {
  }
}
