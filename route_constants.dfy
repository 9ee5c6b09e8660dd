/**
 * The route constants (src/constants/routes.ts): the HTTP methods a route may
 * use, and the status-code registry derived from a table of status codes and
 * their reason phrases. The table itself (Node's `http.STATUS_CODES`) is
 * handed in.
 */
module RouteConstants {
  import opened Wrappers
  import opened JsValues

  /** The supported methods, in their declared order. */
  const Methods: seq<string> := ["get", "post", "put", "patch", "delete", "head", "options"]

  /** `methods.includes(m)`: membership by exact string equality. */
  predicate IsSupportedMethod(m: string) {
    m in Methods
  }

  /** One registry entry. */
  datatype StatusCode = StatusCode(code: int, text: string)

  /** A status table: keys are decimal code strings, values are reason phrases. */
  predicate WellFormedTable(table: seq<(string, string)>) {
    forall i :: 0 <= i < |table| ==> table[i].0 != [] && AllDigits(table[i].0)
  }

  /** `statusCodes`: one entry per table key, in key order, carrying `Number(key)` and the phrase. */
  function StatusCodes(table: seq<(string, string)>): (r: seq<StatusCode>)
    requires WellFormedTable(table)
    ensures |r| == |table|
    ensures forall i :: 0 <= i < |r| ==> ParseInt(table[i].0) == Some(r[i].code) && r[i].text == table[i].1
  {
    KeysParse(table);
    seq(|table|, i requires 0 <= i < |table| => StatusCode(DecimalValue(table[i].0), table[i].1))
  }

  /** `parseInt` and `Number` agree on a table key. */
  lemma KeysParse(table: seq<(string, string)>)
    requires WellFormedTable(table)
    ensures forall i :: 0 <= i < |table| ==> ParseInt(table[i].0) == Some(DecimalValue(table[i].0))
  {
    forall i | 0 <= i < |table|
      ensures ParseInt(table[i].0) == Some(DecimalValue(table[i].0))
    {
      ParseIntDigitsThenText(table[i].0, []);
      assert table[i].0 + [] == table[i].0;
    }
  }

  /**
   * The status filter of route extraction: `parseInt(key, 10)` is the code
   * of some registry entry. NaN equals no code.
   */
  predicate IsRegisteredStatus(registry: seq<StatusCode>, key: string) {
    var n := ParseInt(key);
    n.Some? && exists i :: 0 <= i < |registry| && registry[i].code == n.value
  }

  /** Every key of the table passes the status filter. */
  lemma TableKeysRegistered(table: seq<(string, string)>, i: int)
    requires WellFormedTable(table) && 0 <= i < |table|
    ensures IsRegisteredStatus(StatusCodes(table), table[i].0)
  {
    var r := StatusCodes(table);
    assert r[i].code == ParseInt(table[i].0).value;
  }

  /**
   * A key passes the filter exactly when its parsed value is the value of some
   * table key: range keys like `4XX` pass when their leading digits do.
   */
  lemma RegisteredStatusIff(table: seq<(string, string)>, key: string)
    requires WellFormedTable(table)
    ensures IsRegisteredStatus(StatusCodes(table), key)
        <==> ParseInt(key).Some? && exists i :: 0 <= i < |table| && ParseInt(table[i].0) == ParseInt(key)
  {
    var r := StatusCodes(table);
    if IsRegisteredStatus(r, key) {
      var i :| 0 <= i < |r| && r[i].code == ParseInt(key).value;
      assert ParseInt(table[i].0) == ParseInt(key);
    }
    if ParseInt(key).Some? && exists i :: 0 <= i < |table| && ParseInt(table[i].0) == ParseInt(key) {
      var i :| 0 <= i < |table| && ParseInt(table[i].0) == ParseInt(key);
      assert r[i].code == ParseInt(key).value;
    }
  }

  /** `default` is never a status; `4XX` reads as 4. */
  lemma NonNumericStatusKeys()
    ensures ParseInt("default") == None
    ensures ParseInt("4XX") == Some(4)
  {
    assert TrimStart("default") == "default";
    assert DigitPrefix("default") == [];
    ParseIntDigitsThenText("4", "XX");
    assert "4" + "XX" == "4XX";
    assert DecimalValue("4") == 4 by {
      assert "4"[..0] == [];
    }
  }

  /** The method list: seven lower-case names without repetition; the upper-case `GET` is not one. */
  lemma MethodsShape()
    ensures |Methods| == 7
    ensures forall i, j :: 0 <= i < j < |Methods| ==> Methods[i] != Methods[j]
    ensures forall i :: 0 <= i < |Methods| ==> forall c :: c in Methods[i] ==> 'a' <= c <= 'z'
    ensures !IsSupportedMethod("GET") && !IsSupportedMethod("x-foo") && !IsSupportedMethod("parameters")
  {
  }
}
