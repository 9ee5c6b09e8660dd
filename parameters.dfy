/**
 * `parametersReplace` (src/openapi-converter.ts:311-325): a global replacement
 * of every `{name}` placeholder, `name` a non-empty run of word characters,
 * scanned left to right. Path parameters become `:name`; server variables
 * become the variable's `default`, and a placeholder without a variable throws.
 */
module Parameters {
  import opened Wrappers
  import opened JsValues
  import opened OpenApiDocument

  /** `\w`: a letter, a digit or `_`. */
  predicate IsWordChar(c: char) {
    'a' <= c <= 'z' || 'A' <= c <= 'Z' || '0' <= c <= '9' || c == '_'
  }

  predicate AllWord(s: string) {
    forall i :: 0 <= i < |s| ==> IsWordChar(s[i])
  }

  /** The longest prefix of word characters. */
  function WordPrefix(s: string): (r: string)
    ensures AllWord(r) && |r| <= |s| && r == s[..|r|]
    ensures |r| < |s| ==> !IsWordChar(s[|r|])
  {
    if s != [] && IsWordChar(s[0]) then [s[0]] + WordPrefix(s[1..]) else []
  }

  /** The name of the placeholder `{name}` that begins `s`, if one does. */
  function TokenAt(s: string): (r: Option<string>)
    ensures r.Some? ==> r.value != [] && AllWord(r.value) && |r.value| + 2 <= |s|
                        && s[..|r.value| + 2] == "{" + r.value + "}"
  {
    if s == [] || s[0] != '{' then
      None
    else
      var w := WordPrefix(s[1..]);
      if w != [] && |w| + 1 < |s| && s[|w| + 1] == '}' then
        assert s[..|w| + 2] == "{" + w + "}";
        Some(w)
      else
        None
  }

  /** When no placeholder is found at the front of `s`, none begins there. */
  lemma TokenAtComplete(s: string)
    ensures TokenAt(s).None? ==>
              forall n :: n != [] && AllWord(n) && |n| + 2 <= |s| ==> s[..|n| + 2] != "{" + n + "}"
  {
    forall n | TokenAt(s).None? && n != [] && AllWord(n) && |n| + 2 <= |s|
      ensures s[..|n| + 2] != "{" + n + "}"
    {
      if s[..|n| + 2] == "{" + n + "}" {
        var t := s[1..];
        assert forall i :: 0 <= i < |n| ==> t[i] == n[i] by {
          forall i | 0 <= i < |n| ensures t[i] == n[i] {
            assert s[..|n| + 2][i + 1] == n[i];
          }
        }
        assert t[|n|] == '}' by {
          assert s[..|n| + 2][|n| + 1] == '}';
        }
        WordPrefixOfWordThenOther(t, |n|);
      }
    }
  }

  lemma WordPrefixOfWordThenOther(t: string, k: nat)
    requires k < |t| && AllWord(t[..k]) && !IsWordChar(t[k])
    ensures WordPrefix(t) == t[..k]
    decreases k
  {
    if k > 0 {
      assert t[1..][..k - 1] == t[1..k];
      WordPrefixOfWordThenOther(t[1..], k - 1);
    }
  }

  datatype Mode = PathParameters | ServerVariables(variables: Option<seq<(string, ServerVariable)>>)

  /** The text a placeholder is replaced with. */
  function Replacement(name: string, mode: Mode): (r: Result<string, ConvertError>)
    ensures mode.PathParameters? ==> r == Success(":" + name)
    ensures mode.ServerVariables? ==>
              (r.Failure? <==> mode.variables.None? || name !in Keys(mode.variables.value))
    ensures r.Failure? ==> r.error == MissingServerVariable(name)
    ensures mode.ServerVariables? && r.Success? ==>
              mode.variables.Some? && name in Keys(mode.variables.value)
              && r.value == Lookup(mode.variables.value, name).value.defaultValue.GetOr("undefined")
  {
    match mode
    case PathParameters => Success(":" + name)
    case ServerVariables(vars) =>
      if vars.None? then Failure(MissingServerVariable(name))
      else
        match Lookup(vars.value, name)
        case None => Failure(MissingServerVariable(name))
        case Some(v) => Success(v.defaultValue.GetOr("undefined"))
  }

  /** `parametersReplace(s, mode)`; the first placeholder whose replacement throws decides the failure. */
  function ParametersReplace(s: string, mode: Mode): Result<string, ConvertError>
    decreases |s|
  {
    if s == [] then Success([])
    else
      match TokenAt(s)
      case Some(n) =>
        (match Replacement(n, mode)
         case Failure(e) => Failure(e)
         case Success(r) => Prepend(r, ParametersReplace(s[|n| + 2..], mode)))
      case None => Prepend([s[0]], ParametersReplace(s[1..], mode))
  }

  /** The names of the placeholders the scan meets, in order. */
  function TokenNames(s: string): seq<string>
    decreases |s|
  {
    if s == [] then []
    else
      match TokenAt(s)
      case Some(n) => [n] + TokenNames(s[|n| + 2..])
      case None => TokenNames(s[1..])
  }

  /** Path-parameter replacement never throws; every placeholder loses its braces and gains a colon. */
  lemma {:induction false} PathReplaceShape(s: string)
    ensures ParametersReplace(s, PathParameters).Success?
    ensures |ParametersReplace(s, PathParameters).value| == |s| - |TokenNames(s)|
    decreases |s|
  {
    if s != [] {
      match TokenAt(s)
      case Some(n) => PathReplaceShape(s[|n| + 2..]);
      case None => PathReplaceShape(s[1..]);
    }
  }

  /** `parametersReplace(path, 'PATH_PARAMETERS')`. */
  function PathReplace(s: string): string {
    PathReplaceShape(s);
    ParametersReplace(s, PathParameters).value
  }

  /** A path is left unchanged exactly when it holds no placeholder. */
  lemma {:induction false} PathReplaceIdentityIff(s: string)
    ensures PathReplace(s) == s <==> TokenNames(s) == []
    decreases |s|
  {
    PathReplaceShape(s);
    if TokenNames(s) == [] {
      NoTokensUnchanged(s, PathParameters);
    }
  }

  /** Text with no placeholder comes back unchanged, whatever the mode. */
  lemma {:induction false} NoTokensUnchanged(s: string, mode: Mode)
    requires TokenNames(s) == []
    ensures ParametersReplace(s, mode) == Success(s)
    decreases |s|
  {
    if s != [] {
      assert TokenAt(s).None?;
      NoTokensUnchanged(s[1..], mode);
      assert [s[0]] + s[1..] == s;
    }
  }

  /** Server-variable replacement throws exactly when some placeholder names no declared variable. */
  lemma {:induction false} ServerReplaceFailureIff(s: string, vars: Option<seq<(string, ServerVariable)>>)
    ensures ParametersReplace(s, ServerVariables(vars)).Failure?
        <==> exists n :: n in TokenNames(s) && (vars.None? || n !in Keys(vars.value))
    decreases |s|
  {
    if s != [] {
      match TokenAt(s)
      case Some(n) =>
        var rest := s[|n| + 2..];
        ServerReplaceFailureIff(rest, vars);
        assert TokenNames(s) == [n] + TokenNames(rest);
        assert forall m :: m in TokenNames(s) <==> m == n || m in TokenNames(rest);
        match Replacement(n, ServerVariables(vars)) {
          case Failure(e) =>
            assert n in TokenNames(s);
          case Success(r) =>
            assert ParametersReplace(s, ServerVariables(vars))
                == Prepend(r, ParametersReplace(rest, ServerVariables(vars)));
        }
      case None =>
        var mode, t := ServerVariables(vars), s[1..];
        ServerReplaceFailureIff(t, vars);
        assert TokenNames(s) == TokenNames(t);
        assert ParametersReplace(s, mode) == Prepend([s[0]], ParametersReplace(t, mode));
        if ParametersReplace(t, mode).Failure? {
          var m :| m in TokenNames(t) && (vars.None? || m !in Keys(vars.value));
          assert m in TokenNames(s);
        } else {
          forall m | m in TokenNames(s) ensures !(vars.None? || m !in Keys(vars.value)) {
            assert m in TokenNames(t);
          }
        }
    }
  }

  /** A server-variable failure names the offending placeholder. */
  lemma {:induction false} ServerReplaceFailureNames(s: string, vars: Option<seq<(string, ServerVariable)>>)
    requires ParametersReplace(s, ServerVariables(vars)).Failure?
    ensures var e := ParametersReplace(s, ServerVariables(vars)).error;
            e.MissingServerVariable? && e.name in TokenNames(s)
            && (vars.None? || e.name !in Keys(vars.value))
    decreases |s|
  {
    match TokenAt(s)
    case Some(n) =>
      if Replacement(n, ServerVariables(vars)).Success? {
        ServerReplaceFailureNames(s[|n| + 2..], vars);
      }
    case None =>
      ServerReplaceFailureNames(s[1..], vars);
  }

  // ---------------------------------------------------------------------
  // A worked path

  /** No placeholder of `x + y` begins inside `x` (one may still begin where `y` does). */
  predicate NoPlaceholderIn(x: string, y: string) {
    forall i :: 0 <= i < |x| ==> TokenAt((x + y)[i..]).None?
  }

  /** Text without an opening brace starts no placeholder, whatever follows it. */
  lemma BraceFreeNoPlaceholder(x: string, y: string)
    requires '{' !in x
    ensures NoPlaceholderIn(x, y)
  {
    forall i | 0 <= i < |x| ensures TokenAt((x + y)[i..]).None? {
      assert (x + y)[i..][0] == x[i] && x[i] in x;
    }
  }

  /** Text in which no placeholder begins is copied, even when it holds braces. */
  lemma {:induction false} PlaceholderFreePrefix(x: string, y: string, mode: Mode)
    requires NoPlaceholderIn(x, y)
    ensures ParametersReplace(x + y, mode) == Prepend(x, ParametersReplace(y, mode))
    decreases |x|
  {
    if x == [] {
      assert x + y == y;
      match ParametersReplace(y, mode)
      case Failure(e) =>
      case Success(r) => assert [] + r == r;
    } else {
      assert (x + y)[0] == x[0];
      assert (x + y)[1..] == x[1..] + y;
      forall i | 0 <= i < |x[1..]| ensures TokenAt((x[1..] + y)[i..]).None? {
        assert (x[1..] + y)[i..] == (x + y)[i + 1..];
      }
      PlaceholderFreePrefix(x[1..], y, mode);
      assert (x + y)[0..] == x + y;
      assert TokenAt(x + y).None?;
      assert ParametersReplace(x + y, mode) == Prepend([x[0]], ParametersReplace(x[1..] + y, mode));
      match ParametersReplace(y, mode)
      case Failure(e) =>
      case Success(r) =>
        calc {
          [x[0]] + (x[1..] + r);
          ([x[0]] + x[1..]) + r;
          { assert [x[0]] + x[1..] == x; }
          x + r;
        }
    }
  }

  /** A placeholder at the front is replaced and the scan resumes after it. */
  lemma PlaceholderFront(n: string, y: string, mode: Mode)
    requires n != [] && AllWord(n)
    ensures var r := Replacement(n, mode);
            ParametersReplace("{" + n + "}" + y, mode)
            == if r.Failure? then Failure(r.error) else Prepend(r.value, ParametersReplace(y, mode))
  {
    var s := "{" + n + "}" + y;
    assert s[1..] == n + ("}" + y);
    assert s[1..][..|n|] == n;
    WordPrefixOfWordThenOther(s[1..], |n|);
    assert TokenAt(s) == Some(n);
    assert s[|n| + 2..] == y;
  }

  /** `RemoveLeadingSlash`, assumed to drop a single leading `/`. */
  function RemoveLeadingSlash(s: string): (r: string)
    ensures |s| > 0 && s[0] == '/' ==> s == "/" + r
    ensures !(|s| > 0 && s[0] == '/') ==> r == s
  {
    if |s| > 0 && s[0] == '/' then s[1..] else s
  }

  /** The route endpoint of a path: placeholders rewritten, leading slash removed. */
  function Endpoint(path: string): string {
    RemoveLeadingSlash(PathReplace(path))
  }

  /**
   * A segment in which no placeholder begins, then a placeholder: the segment
   * is copied, stray braces included, and the placeholder becomes `:name`.
   */
  lemma SegmentThenPlaceholder(x: string, n: string, y: string)
    requires NoPlaceholderIn(x, "{" + n + "}" + y) && n != [] && AllWord(n)
    ensures ParametersReplace(x + ("{" + n + "}" + y), PathParameters)
         == Prepend(x + (":" + n), ParametersReplace(y, PathParameters))
  {
    PlaceholderFreePrefix(x, "{" + n + "}" + y, PathParameters);
    PlaceholderFront(n, y, PathParameters);
    PathReplaceShape(y);
    var r := ParametersReplace(y, PathParameters).value;
    assert x + (":" + n + r) == x + (":" + n) + r;
  }

  /**
   * A segment in which no placeholder begins, then a declared server variable:
   * the segment is copied and the placeholder becomes the variable's default,
   * the text `undefined` when it declares none.
   */
  lemma SegmentThenVariable(x: string, n: string, y: string, vars: seq<(string, ServerVariable)>)
    requires NoPlaceholderIn(x, "{" + n + "}" + y) && n != [] && AllWord(n) && n in Keys(vars)
    ensures ParametersReplace(x + ("{" + n + "}" + y), ServerVariables(Some(vars)))
         == Prepend(x + Lookup(vars, n).value.defaultValue.GetOr("undefined"),
                    ParametersReplace(y, ServerVariables(Some(vars))))
  {
    var mode := ServerVariables(Some(vars));
    PlaceholderFreePrefix(x, "{" + n + "}" + y, mode);
    PlaceholderFront(n, y, mode);
    var d := Replacement(n, mode).value;
    match ParametersReplace(y, mode)
    case Failure(e) =>
    case Success(r) => assert x + (d + r) == x + d + r;
  }

  /**
   * A server-variable failure names the first placeholder, in scan order,
   * that has no declared variable: every placeholder before it is declared.
   */
  lemma {:induction false} ServerReplaceFirstMissing(s: string, vars: Option<seq<(string, ServerVariable)>>)
    requires ParametersReplace(s, ServerVariables(vars)).Failure?
    ensures var e := ParametersReplace(s, ServerVariables(vars)).error;
            var names := TokenNames(s);
            exists j :: 0 <= j < |names| && e == MissingServerVariable(names[j])
                        && (vars.None? || names[j] !in Keys(vars.value))
                        && forall i :: 0 <= i < j ==> vars.Some? && names[i] in Keys(vars.value)
    decreases |s|
  {
    var mode := ServerVariables(vars);
    match TokenAt(s)
    case Some(n) =>
      assert TokenNames(s) == [n] + TokenNames(s[|n| + 2..]);
      if Replacement(n, mode).Success? {
        ServerReplaceFirstMissing(s[|n| + 2..], vars);
        var names, tail := TokenNames(s), TokenNames(s[|n| + 2..]);
        var e := ParametersReplace(s, mode).error;
        assert ParametersReplace(s, mode) == Prepend(Replacement(n, mode).value, ParametersReplace(s[|n| + 2..], mode));
        var j :| 0 <= j < |tail| && e == MissingServerVariable(tail[j])
                 && (vars.None? || tail[j] !in Keys(vars.value))
                 && forall i :: 0 <= i < j ==> vars.Some? && tail[i] in Keys(vars.value);
        assert names[j + 1] == tail[j];
        forall i | 0 <= i < j + 1
          ensures vars.Some? && names[i] in Keys(vars.value)
        {
          if i > 0 {
            assert names[i] == tail[i - 1];
          }
        }
      } else {
        assert TokenNames(s)[0] == n;
      }
    case None =>
      assert TokenNames(s) == TokenNames(s[1..]);
      assert ParametersReplace(s, mode) == Prepend([s[0]], ParametersReplace(s[1..], mode));
      ServerReplaceFirstMissing(s[1..], vars);
  }

  /** `/users/{id}/posts/{postId}` is rewritten to `/users/:id/posts/:postId`. */
  lemma PathReplaceExample()
    ensures ParametersReplace("/users/{id}/posts/{postId}", PathParameters) == Success("/users/:id/posts/:postId")
  {
    var tail := "/posts/" + ("{" + "postId" + "}" + "");
    assert AllWord("id") && AllWord("postId");
    BraceFreeNoPlaceholder("/posts/", "{" + "postId" + "}" + "");
    BraceFreeNoPlaceholder("/users/", "{" + "id" + "}" + tail);
    SegmentThenPlaceholder("/posts/", "postId", "");
    SegmentThenPlaceholder("/users/", "id", tail);
    ExampleTexts();
  }

  /** A brace that starts no placeholder is kept: `/{a-b}/{id}` becomes `/{a-b}/:id`. */
  lemma StrayBraceExample()
    ensures ParametersReplace("/{a-b}/{id}", PathParameters) == Success("/{a-b}/:id")
  {
    var x, rest := "/{a-b}/", "{" + "id" + "}" + "";
    StrayBraceStartsNothing(x, rest);
    assert AllWord("id");
    SegmentThenPlaceholder(x, "id", "");
    assert x + ("{" + "id" + "}" + "") == "/{a-b}/{id}";
    assert x + (":" + "id") + "" == "/{a-b}/:id";
  }

  /** In `/{a-b}/` the brace is followed by `a-`, so no placeholder begins anywhere in it. */
  lemma StrayBraceStartsNothing(x: string, rest: string)
    requires x == "/{a-b}/"
    ensures NoPlaceholderIn(x, rest)
  {
    forall i | 0 <= i < |x| ensures TokenAt((x + rest)[i..]).None? {
      var t := (x + rest)[i..];
      assert t[0] == x[i];
      if i == 1 {
        var u := t[1..];
        assert u[0] == 'a' && u[1] == '-';
        assert u[..1] == "a" && AllWord("a");
        WordPrefixOfWordThenOther(u, 1);
      }
    }
  }

  lemma ExampleTexts()
    ensures "/users/" + ("{" + "id" + "}" + ("/posts/" + ("{" + "postId" + "}" + ""))) == "/users/{id}/posts/{postId}"
    ensures "/users/" + (":" + "id") + ("/posts/" + (":" + "postId") + "") == "/users/:id/posts/:postId"
  {
  }

  /** The route endpoint of `/users/{id}/posts/{postId}` is `users/:id/posts/:postId`. */
  lemma EndpointExample()
    ensures Endpoint("/users/{id}/posts/{postId}") == "users/:id/posts/:postId"
  {
    PathReplaceExample();
  }
}
