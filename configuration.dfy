/**
 * The client configuration (`OdataConfiguration`): the reserved query-string
 * names, the base URL, the collection and entity URIs, and the three decoders
 * of a response (a number, a plain list, a page with count and next link).
 */
module OdataConfiguration {
  import opened Strings
  import opened Results
  import opened OdataUtils

  /** The names of the query-string parameters and of the page-size preference (`KeyConfigs`). */
  datatype KeyConfigs = KeyConfigs(
    filter: string,
    top: string,
    skip: string,
    orderBy: string,
    select: string,
    search: string,
    expand: string,
    apply: string,
    count: string,
    maxPerPage: string)

  /** The OData version 4 names a fresh configuration uses. */
  const DefaultKeys := KeyConfigs(
    "$filter", "$top", "$skip", "$orderby", "$select", "$search", "$expand", "$apply", "$count",
    "odata.maxpagesize")

  const DefaultBaseUrl := "http://localhost/odata"

  /** Request headers, in the order they were set. */
  type Headers = seq<(string, string)>

  /** `sanitizeTypeName`: the type name without its trailing and then its leading slashes. */
  function SanitizeTypeName(typeName: string): (r: string)
    ensures r == [] || (r[0] != '/' && r[|r| - 1] != '/')
  {
    StripLeading(StripTrailing(typeName, '/'), '/')
  }

  /** What is left of a type name is a slice of it, ending where the trailing slashes begin. */
  lemma {:induction false} SanitizeMiddle(typeName: string)
    ensures var r := SanitizeTypeName(typeName); var i := |StripTrailing(typeName, '/')| - |r|;
      0 <= i && i + |r| <= |typeName| && r == typeName[i..i + |r|]
  {
    SuffixOfPrefix(typeName, StripTrailing(typeName, '/'), SanitizeTypeName(typeName));
  }

  /** Only slashes are cut off on either side of what is left of a type name. */
  lemma {:induction false} SanitizeCutsSlashes(typeName: string)
    ensures var r := SanitizeTypeName(typeName); var i := |StripTrailing(typeName, '/')| - |r|;
      0 <= i && i + |r| <= |typeName|
      && AllChar(typeName[..i], '/') && AllChar(typeName[i + |r|..], '/')
  {
    var a := StripTrailing(typeName, '/');
    var r := StripLeading(a, '/');
    StripTrailingCuts(typeName, '/');
    StripLeadingCuts(a, '/');
    PrefixSlices(typeName, |a| - |r|, |a|);
  }

  /** A type name that does not start or end with a slash is left as it is. */
  lemma {:induction false} SanitizeClean(m: string)
    requires m == [] || (m[0] != '/' && m[|m| - 1] != '/')
    ensures SanitizeTypeName(m) == m
  {
  }

  /** Runs of slashes around a clean type name are all removed. */
  lemma {:induction false} SanitizeSlashes(m: string, lead: nat, trail: nat)
    requires m == [] || (m[0] != '/' && m[|m| - 1] != '/')
    ensures SanitizeTypeName(seq(lead, _ => '/') + m + seq(trail, _ => '/')) == m
  {
    var l := seq(lead, _ => '/');
    StripTrailingAppended(l + m, '/', trail);
    if m != [] {
      assert StripTrailing(l + m, '/') == l + m;
      StripLeadingPrepended(m, lead);
    } else {
      assert l + m == l;
      StripTrailingAllSlashes(lead);
    }
  }

  lemma {:induction false} StripTrailingAllSlashes(n: nat)
    ensures StripTrailing(seq(n, _ => '/'), '/') == []
  {
    if n > 0 {
      assert seq(n, _ => '/')[..n - 1] == seq(n - 1, _ => '/');
      StripTrailingAllSlashes(n - 1);
    }
  }

  lemma {:induction false} StripLeadingPrepended(m: string, n: nat)
    requires m != [] && m[0] != '/'
    ensures StripLeading(seq(n, _ => '/') + m, '/') == m
  {
    if n > 0 {
      assert (seq(n, _ => '/') + m)[1..] == seq(n - 1, _ => '/') + m;
      StripLeadingPrepended(m, n - 1);
    } else {
      assert seq(n, _ => '/') + m == m;
    }
  }

  /** A response: its status and its decoded body. */
  datatype Response<B> = Response(status: int, body: B)

  /**
   * The standard OData JSON envelope: `value`, `@odata.count` (any JSON value
   * the server sends, `Undefined` when absent) and `@odata.nextLink`.
   */
  datatype Envelope = Envelope(value: seq<Value>, count: Value, nextLink: Option<string>)

  /** `OdataPagedResponseModel`: one page of entities with the total count and the link to the next page. */
  datatype PagedResult = PagedResult(data: seq<Value>, count: int, nextLink: string)

  /** The guard every decoder runs first. */
  function CheckStatus(status: int): (r: Result<()>)
    ensures r.Ok? <==> SuccessStatus(status)
    ensures r.Err? ==> r.error == BadStatus(status)
  {
    if status < 200 || status >= 300 then Err(BadStatus(status)) else Ok(())
  }

  /** `extractQueryResultDataAsNumber`: the body of a successful count request, as it is. */
  function ExtractQueryResultDataAsNumber(res: Response<Option<int>>): (r: Result<Option<int>>)
    ensures r.Ok? <==> SuccessStatus(res.status)
    ensures r.Err? ==> r.error == BadStatus(res.status)
    ensures r.Ok? ==> r.value == res.body
  {
    var _ :- CheckStatus(res.status);
    Ok(res.body)
  }

  /**
   * `extractQueryResultData`: the `value` array of a successful response, or
   * the null body itself (`res.body && res.body.value`).
   */
  function ExtractQueryResultData(res: Response<Option<Envelope>>): (r: Result<Option<seq<Value>>>)
    ensures r.Ok? <==> SuccessStatus(res.status)
    ensures r.Err? ==> r.error == BadStatus(res.status)
    ensures r.Ok? ==> (r.value.Some? <==> res.body.Some?)
    ensures r.Ok? && res.body.Some? ==> r.value.value == res.body.value.value
  {
    var _ :- CheckStatus(res.status);
    match res.body
    case None => Ok(None)
    case Some(envelope) => Ok(Some(envelope.value))
  }

  /** The count a page reports: `@odata.count` when it parses as an integer, the page's length otherwise. */
  function PageCount(envelope: Envelope): int
  {
    match TryParseInt(envelope.count)
    case Some(n) => n
    case None => |envelope.value|
  }

  /** The link a page reports: `@odata.nextLink` when it is a non-empty string, `''` otherwise. */
  function PageNextLink(envelope: Envelope): string
  {
    if envelope.nextLink.Some? && envelope.nextLink.value != "" then envelope.nextLink.value else ""
  }

  /**
   * `extractQueryResultDataWithCount`: checks the status, then fills the
   * page from the body field by field. A null body throws when its `value`
   * is read; a count that does not parse falls back to the page length.
   */
  method ExtractQueryResultDataWithCount(response: Response<Option<Envelope>>) returns (r: Result<PagedResult>)
    ensures !SuccessStatus(response.status) ==> r == Err(BadStatus(response.status))
    ensures SuccessStatus(response.status) && response.body.None? ==> r == Err(NullBody)
    ensures SuccessStatus(response.status) && response.body.Some? ==>
      r == Ok(PagedResult(response.body.value.value, PageCount(response.body.value), PageNextLink(response.body.value)))
  {
    var pagedResult := PagedResult([], 0, "");
    if response.status < 200 || response.status >= 300 {
      return Err(BadStatus(response.status));
    }
    if response.body.None? {
      return Err(NullBody);
    }
    var body := response.body.value;
    var entities := body.value;
    pagedResult := pagedResult.(data := entities);
    var parseResult := TryParseInt(body.count);
    if parseResult.Some? {
      pagedResult := pagedResult.(count := parseResult.value);
    } else {
      pagedResult := pagedResult.(count := |entities|);
    }
    if body.nextLink.Some? && body.nextLink.value != "" {
      pagedResult := pagedResult.(nextLink := body.nextLink.value);
    }
    return Ok(pagedResult);
  }

  /**
   * The count of a page: a number or a string of digits is taken as it is;
   * anything that does not parse (null, `"abc"`, a missing count) gives the
   * number of entities on the page, and never an error.
   */
  lemma {:induction false} PageCountCases(envelope: Envelope, n: int)
    ensures envelope.count == Num(n) ==> PageCount(envelope) == n
    ensures envelope.count == Str(IntToString(n)) ==> PageCount(envelope) == n
    ensures envelope.count.Null? || envelope.count.Undefined? ==> PageCount(envelope) == |envelope.value|
    ensures envelope.count == Str("abc") ==> PageCount(envelope) == |envelope.value|
  {
    TryParseIntRoundTrip(n);
    if envelope.count == Str("abc") {
      TryParseIntRejects("abc", 0);
    }
  }

  /** Every decoder rejects a status outside [200, 300) with that status, whatever the body. */
  lemma {:induction false} DecodersRejectBadStatus(status: int, count: Option<int>, body: Option<Envelope>)
    requires !SuccessStatus(status)
    ensures ExtractQueryResultDataAsNumber(Response(status, count)) == Err(BadStatus(status))
    ensures ExtractQueryResultData(Response(status, body)) == Err(BadStatus(status))
    ensures Message(BadStatus(status)) == "Bad response status: " + IntToString(status)
  {
  }

  /** A successful decode hands the payload over untouched. */
  lemma {:induction false} DecodersPassPayload(status: int, count: Option<int>, envelope: Envelope)
    requires SuccessStatus(status)
    ensures ExtractQueryResultDataAsNumber(Response(status, count)) == Ok(count)
    ensures ExtractQueryResultData(Response(status, Some(envelope))) == Ok(Some(envelope.value))
    ensures ExtractQueryResultData(Response(status, None)) == Ok(None)
  {
  }

  /**
   * The shared configuration object: the base URL, the key names and the
   * headers of the default and the post request options. The custom request
   * options and the error hook are not part of this model.
   */
  class Configuration {
    var baseUrl: string
    var keys: KeyConfigs
    var defaultHeaders: Headers
    /** The headers of the post request options, used by post, patch and put. */
    var postHeaders: Headers

    /** A base URL as the setter leaves it: no trailing slash. */
    ghost predicate Valid()
      reads this
    {
      baseUrl == [] || baseUrl[|baseUrl| - 1] != '/'
    }

    constructor ()
      ensures Valid()
      ensures baseUrl == DefaultBaseUrl && keys == DefaultKeys && defaultHeaders == []
      ensures postHeaders == [("Content-Type", "application/json; charset=utf-8")]
    {
      baseUrl := DefaultBaseUrl;
      keys := DefaultKeys;
      defaultHeaders := [];
      postHeaders := [("Content-Type", "application/json; charset=utf-8")];
    }

    /** The `baseUrl` setter: the URL without its trailing slashes. */
    method SetBaseUrl(url: string)
      modifies this`baseUrl
      ensures Valid()
      ensures baseUrl <= url && AllChar(url[|baseUrl|..], '/')
    {
      baseUrl := StripTrailing(url, '/');
      StripTrailingCuts(url, '/');
    }

    /** `getEntitiesUri(typeName)`: the collection URI, or the base URL for an empty type name. */
    function EntitiesUri(typeName: string): (u: string)
      reads this
      ensures |baseUrl| <= |u| && u[..|baseUrl|] == baseUrl
      ensures typeName == "" ==> u == baseUrl
      ensures typeName != "" ==> |baseUrl| < |u| && u[|baseUrl|] == '/' && u[|baseUrl| + 1..] == SanitizeTypeName(typeName)
    {
      if typeName != "" then baseUrl + "/" + SanitizeTypeName(typeName) else baseUrl
    }

    /** `getEntityUri(key, typeName)`: the collection URI followed by the quoted key in parentheses. */
    function EntityUri(key: Value, typeName: string): (r: Result<string>)
      reads this
      ensures r.Err? <==> QuoteValue(key).Err?
      ensures r.Ok? ==> var prefix := EntitiesUri(typeName) + "(";
        && |prefix| < |r.value| && r.value[..|prefix|] == prefix && r.value[|r.value| - 1] == ')'
    {
      var quoted :- QuoteValue(key);
      Ok(EntitiesUri(typeName) + "(" + quoted + ")")
    }
  }

  /**
   * A type name with slashes around it addresses the same collection as the
   * bare name; an empty one addresses the base URL itself.
   */
  lemma {:induction false} EntitiesUriShape(c: Configuration, m: string, lead: nat, trail: nat)
    requires m != [] && m[0] != '/' && m[|m| - 1] != '/'
    ensures c.EntitiesUri(seq(lead, _ => '/') + m + seq(trail, _ => '/')) == c.baseUrl + "/" + m
    ensures c.EntitiesUri(m) == c.baseUrl + "/" + m
    ensures c.EntitiesUri("") == c.baseUrl
  {
    SanitizeSlashes(m, lead, trail);
    SanitizeClean(m);
  }

  /**
   * With a base URL as the setter leaves it, the base URL and the type name
   * meet at a single `/`: the base URL does not end with a slash and the
   * sanitized name does not start with one.
   */
  lemma {:induction false} EntitiesUriSingleSlash(c: Configuration, typeName: string)
    requires c.Valid() && typeName != ""
    ensures var u := c.EntitiesUri(typeName); var k := |c.baseUrl|;
      && k < |u| && u[..k] == c.baseUrl && u[k] == '/'
      && (k == 0 || u[k - 1] != '/')
      && (k + 1 == |u| || u[k + 1] != '/')
  {
    var r := SanitizeTypeName(typeName);
    var u := c.EntitiesUri(typeName);
    assert u == c.baseUrl + "/" + r;
    assert u[..|c.baseUrl|] == c.baseUrl;
  }

  /**
   * The entity URI is the collection URI with the key in parentheses: a GUID
   * key bare, any other string key as a quoted literal; a key holding null or
   * undefined throws.
   */
  lemma {:induction false} EntityUriShape(c: Configuration, key: Value, typeName: string)
    ensures c.EntityUri(key, typeName).Err? <==> HoldsNullish(key)
    ensures key.Str? && IsGuid(key.s) ==> c.EntityUri(key, typeName) == Ok(c.EntitiesUri(typeName) + "(" + key.s + ")")
    ensures key.Str? && !IsGuid(key.s) ==>
      c.EntityUri(key, typeName) == Ok(c.EntitiesUri(typeName) + "('" + DoubleQuotes(key.s) + "')")
  {
    QuoteValueFailsIffNullish(key);
    if key.Str? && !IsGuid(key.s) {
      QuotedInParens(c.EntitiesUri(typeName), DoubleQuotes(key.s));
    }
  }

  lemma {:induction false} QuotedInParens(u: string, d: string)
    ensures u + "(" + ("'" + d + "'") + ")" == u + "('" + d + "')"
  {
    assert "(" + ("'" + d + "'") + ")" == "('" + d + "')";
  }
}
