/**
 * The collection query builder (`OdataQuery`): the fluent setters and their
 * guards, the assembly of the query parameters in their fixed order, the
 * custom query option check, the URL text, the page-size preference header
 * and the requests `exec` and `nextPage` send.
 */
module OdataQuery {
  import opened Strings
  import opened Results
  import opened OrderedMaps
  import opened OdataUtils
  import opened OdataConfiguration
  import opened OdataOperation

  /** `OdataReturnType`: the entity list (no argument), the count, or one page with count and next link. */
  datatype ReturnType = Entities | Count | Paged

  /** The part of a query's state that its parameters are compiled from. */
  datatype Intent = Intent(
    expand: seq<string>,
    select: seq<string>,
    filter: string,
    search: string,
    top: int,
    skip: int,
    orderBy: seq<string>,
    apply: seq<string>,
    customOptions: seq<(string, string)>)

  /** One of the six system query options after `$select`: its key, whether it is set and its text. */
  datatype Facet = Facet(key: string, isSet: bool, text: string)

  /** The six options in the order `getQueryParams` appends them, each with the guard it is appended under. */
  function Facets(i: Intent, keys: KeyConfigs): seq<Facet>
  {
    [ Facet(keys.filter, i.filter != "", i.filter),
      Facet(keys.search, i.search != "", i.search),
      Facet(keys.top, i.top > 0, IntToString(i.top)),
      Facet(keys.skip, i.skip > 0, IntToString(i.skip)),
      Facet(keys.orderBy, |i.orderBy| > 0, ToCommaString(List(i.orderBy))),
      Facet(keys.apply, |i.apply| > 0, ToCommaString(List(i.apply))) ]
  }

  /** The parameters of the facets that are set, in order. */
  function Present(facets: seq<Facet>): seq<(string, string)>
  {
    PresentFrom(facets, 0)
  }

  /** The parameters of the facets from the `k`-th on that are set, in order. */
  function PresentFrom(facets: seq<Facet>, k: nat): seq<(string, string)>
    decreases |facets| - k
  {
    if k >= |facets| then []
    else Emitted(facets[k]) + PresentFrom(facets, k + 1)
  }

  /** `params` after the guarded appends of the facets from the `k`-th on. */
  function AppendFacets(params: seq<(string, string)>, facets: seq<Facet>, k: nat): seq<(string, string)>
    decreases |facets| - k
  {
    if k >= |facets| then params
    else AppendFacets(params + Emitted(facets[k]), facets, k + 1)
  }

  /** The parameter of one facet, when it is set. */
  function Emitted(f: Facet): seq<(string, string)>
  {
    if f.isSet then [(f.key, f.text)] else []
  }

  /** A custom option key that OData reserves: one starting with `$` or `@`. */
  predicate Reserved(key: string)
  {
    StartsWith(key, "$") || StartsWith(key, "@")
  }

  /** `checkReservedCustomQueryOptionKey`: a missing key and a reserved key throw; any other key is returned. */
  function CheckReservedCustomQueryOptionKey(key: Option<string>): (r: Result<string>)
    ensures key.None? ==> r == Err(NullCustomOptionKey)
    ensures r.Ok? ==> key == Some(r.value) && (r.value == "" || (r.value[0] != '$' && r.value[0] != '@'))
    ensures key.Some? && r.Err? ==> r.error == ReservedCustomOptionKey && key.value != "" && key.value[0] in "$@"
  {
    if key.None? then Err(NullCustomOptionKey)
    else if StartsWith(key.value, "$") || StartsWith(key.value, "@") then Err(ReservedCustomOptionKey)
    else Ok(key.value)
  }

  /** The custom options in entry order, each key checked; the first bad key throws. */
  function CustomParams(options: seq<(string, string)>): Result<seq<(string, string)>>
  {
    if options == [] then Ok([])
    else
      var init :- CustomParams(options[..|options| - 1]);
      var last := options[|options| - 1];
      var key :- CheckReservedCustomQueryOptionKey(Some(last.0));
      Ok(init + [(key, last.1)])
  }

  /**
   * What `getQueryParams(odata4)` returns: `$expand`/`$select`, the facets
   * that are set, the custom options, and `$count=true` when `odata4`.
   */
  function QueryParams(i: Intent, keys: KeyConfigs, odata4: bool): (r: Result<seq<(string, string)>>)
    ensures r.Ok? <==> CustomParams(i.customOptions).Ok?
    ensures r.Err? ==> r.error == CustomParams(i.customOptions).error
    ensures r.Ok? && odata4 ==> |r.value| > 0 && r.value[|r.value| - 1] == ("$count", "true")
  {
    var custom :- CustomParams(i.customOptions);
    Ok(AppendFacets(ExpandSelectParams(i.expand, i.select, keys), Facets(i, keys), 0) + custom
       + (if odata4 then [("$count", "true")] else []))
  }

  /**
   * The loop over the custom options in `getQueryParams`: appends each entry,
   * its key checked, and throws at the first reserved key.
   */
  method AppendCustomOptions(params: seq<(string, string)>, options: seq<(string, string)>)
    returns (r: Result<seq<(string, string)>>)
    ensures CustomParams(options).Err? ==> r == Err(CustomParams(options).error)
    ensures CustomParams(options).Ok? ==> r == Ok(params + CustomParams(options).value)
  {
    var acc := params;
    assert CustomParams(options[..0]) == Ok([]);
    assert acc == params + [];
    for i := 0 to |options|
      invariant CustomParams(options[..i]).Ok?
      invariant acc == params + CustomParams(options[..i]).value
    {
      ghost var prefix := options[..i + 1];
      assert prefix[..|prefix| - 1] == options[..i] && prefix[|prefix| - 1] == options[i];
      ghost var before := CustomParams(options[..i]).value;
      var checked := CheckReservedCustomQueryOptionKey(Some(options[i].0));
      if checked.Err? {
        assert CustomParams(prefix) == Err(checked.error);
        CustomParamsFailure(options, i + 1);
        return Err(checked.error);
      }
      assert CustomParams(prefix) == Ok(before + [(checked.value, options[i].1)]);
      ConcatAssoc(params, before, [(checked.value, options[i].1)]);
      acc := acc + [(checked.value, options[i].1)];
    }
    assert options[..|options|] == options;
    return Ok(acc);
  }

  /** What a request is sent with: the URL, the query parameters and the headers. */
  datatype Request = Request(url: string, params: seq<(string, string)>, headers: Headers)

  /** A query on the collection `typeName`. */
  class Query {
    const typeName: string
    const config: Configuration
    const entitiesUri: string
    var expand: seq<string>
    var select: seq<string>
    var filter: string
    var top: int
    var skip: int
    var search: string
    var orderBy: seq<string>
    var apply: seq<string>
    var maxPerPage: int
    var customOptions: seq<(string, string)>

    /** The collection URI is fixed here, from the base URL the configuration has at this moment. */
    constructor (typeName: string, config: Configuration)
      ensures this.typeName == typeName && this.config == config
      ensures entitiesUri == config.EntitiesUri(typeName)
      ensures Snapshot() == Intent([], [], "", "", 0, 0, [], [], []) && maxPerPage == 0
    {
      this.typeName := typeName;
      this.config := config;
      entitiesUri := config.EntitiesUri(typeName);
      expand := [];
      select := [];
      filter := "";
      top := 0;
      skip := 0;
      search := "";
      orderBy := [];
      apply := [];
      maxPerPage := 0;
      customOptions := [];
    }

    function Snapshot(): Intent
      reads this
    {
      Intent(expand, select, filter, search, top, skip, orderBy, apply, customOptions)
    }

    method Expand(input: TextInput)
      modifies this`expand
      ensures expand == Assigned(old(expand), input)
    {
      if TruthyInput(input) {
        expand := ToStringArray(input);
      }
    }

    method Select(input: TextInput)
      modifies this`select
      ensures select == Assigned(old(select), input)
    {
      if TruthyInput(input) {
        select := ToStringArray(input);
      }
    }

    /** `filter(f)`: an empty filter is ignored. */
    method Filter(f: string)
      modifies this`filter
      ensures filter == if f != "" then f else old(filter)
    {
      if f != "" {
        filter := f;
      }
    }

    /** `search(s)`: an empty search is ignored. */
    method Search(s: string)
      modifies this`search
      ensures search == if s != "" then s else old(search)
    {
      if s != "" {
        search := s;
      }
    }

    /** `top(n)`: zero and negative counts are ignored. */
    method Top(n: int)
      modifies this`top
      ensures top == if n > 0 then n else old(top)
    {
      if n > 0 {
        top := n;
      }
    }

    /** `skip(n)`: zero and negative counts are ignored. */
    method Skip(n: int)
      modifies this`skip
      ensures skip == if n > 0 then n else old(skip)
    {
      if n > 0 {
        skip := n;
      }
    }

    method OrderBy(input: TextInput)
      modifies this`orderBy
      ensures orderBy == Assigned(old(orderBy), input)
    {
      if TruthyInput(input) {
        orderBy := ToStringArray(input);
      }
    }

    /** `maxPerPage(n)`: zero and negative sizes are ignored. */
    method MaxPerPage(n: int)
      modifies this`maxPerPage
      ensures maxPerPage == if n > 0 then n else old(maxPerPage)
    {
      if n > 0 {
        maxPerPage := n;
      }
    }

    method Apply(input: TextInput)
      modifies this`apply
      ensures apply == Assigned(old(apply), input)
    {
      if TruthyInput(input) {
        apply := ToStringArray(input);
      }
    }

    /** `customQueryOptions(options)`: null or undefined is ignored; a record replaces the previous one. */
    method CustomQueryOptions(options: Option<seq<(string, string)>>)
      modifies this`customOptions
      ensures customOptions == if options.Some? then options.value else old(customOptions)
    {
      if options.Some? {
        customOptions := options.value;
      }
    }

    /**
     * The six guarded appends of `getQueryParams`: each option that is set
     * adds its parameter under its configured key, in the fixed order.
     */
    method AppendSetOptions(params: seq<(string, string)>) returns (r: seq<(string, string)>)
      ensures r == AppendFacets(params, Facets(Snapshot(), config.keys), 0)
    {
      var keys := config.keys;
      r := params;
      if filter != "" {
        r := r + [(keys.filter, filter)];
      }
      assert r == params + Emitted(Facet(keys.filter, filter != "", filter));
      ghost var r1 := r;
      if search != "" {
        r := r + [(keys.search, search)];
      }
      assert r == r1 + Emitted(Facet(keys.search, search != "", search));
      ghost var r2 := r;
      if top > 0 {
        r := r + [(keys.top, IntToString(top))];
      }
      assert r == r2 + Emitted(Facet(keys.top, top > 0, IntToString(top)));
      ghost var r3 := r;
      if skip > 0 {
        r := r + [(keys.skip, IntToString(skip))];
      }
      assert r == r3 + Emitted(Facet(keys.skip, skip > 0, IntToString(skip)));
      ghost var r4 := r;
      if |orderBy| > 0 {
        r := r + [(keys.orderBy, ToCommaString(List(orderBy)))];
      }
      assert r == r4 + Emitted(Facet(keys.orderBy, |orderBy| > 0, ToCommaString(List(orderBy))));
      ghost var r5 := r;
      if |apply| > 0 {
        r := r + [(keys.apply, ToCommaString(List(apply)))];
      }
      assert r == r5 + Emitted(Facet(keys.apply, |apply| > 0, ToCommaString(List(apply))));
      AppendIntentFacets(Snapshot(), keys, params);
    }

    /**
     * `getQueryParams(odata4)`: expand and select, the options that are set,
     * then the custom options (throwing at the first reserved key) and, for
     * OData 4, `$count=true`.
     */
    method GetQueryParams(odata4: bool) returns (r: Result<seq<(string, string)>>)
      ensures r == QueryParams(Snapshot(), config.keys, odata4)
    {
      var params := CompileExpandSelect(expand, select, config.keys);
      params := AppendSetOptions(params);
      QueryParamsParts(Snapshot(), config.keys, odata4);
      var appended := AppendCustomOptions(params, customOptions);
      if appended.Err? {
        return Err(appended.error);
      }
      params := appended.value;
      if odata4 {
        params := params + [("$count", "true")];
      } else {
        assert params + [] == params;
      }
      return Ok(params);
    }

    /** `getUrl(returnType)`: the collection URI (with `/$count` for a count) and the query string. */
    function GetUrl(returnType: ReturnType): (r: Result<string>)
      reads this, config
      ensures r.Ok? <==> QueryParams(Snapshot(), config.keys, returnType == Paged).Ok?
      ensures r.Ok? ==> |entitiesUri| <= |r.value| && r.value[..|entitiesUri|] == entitiesUri
      ensures r.Ok? && returnType == Count ==> var u := entitiesUri + "/" + config.keys.count;
        |u| <= |r.value| && r.value[..|u|] == u
    {
      var url := if returnType == Count then entitiesUri + "/" + config.keys.count else entitiesUri;
      var params :- QueryParams(Snapshot(), config.keys, returnType == Paged);
      Ok(GenerateUrl(url, params))
    }

    /** The headers of `getQueryRequestOptions`: the default headers, with `Prefer` set when a page size is. */
    function RequestHeaders(): (h: Headers)
      reads this, config
      ensures maxPerPage <= 0 ==> h == config.defaultHeaders
      ensures maxPerPage > 0 ==> Lookup(h, "Prefer") == Some(config.keys.maxPerPage + "=" + IntToString(maxPerPage))
    {
      if maxPerPage > 0 then
        var prefer := config.keys.maxPerPage + "=" + IntToString(maxPerPage);
        LookupPut(config.defaultHeaders, "Prefer", prefer, "Prefer");
        Put(config.defaultHeaders, "Prefer", prefer)
      else config.defaultHeaders
    }

    /** The request `exec(returnType)` sends. */
    function Exec(returnType: ReturnType): (r: Result<Request>)
      reads this, config
      ensures r.Ok? <==> GetUrl(returnType).Ok?
      ensures r.Ok? ==> GenerateUrl(r.value.url, r.value.params) == GetUrl(returnType).value
      ensures r.Ok? ==> r.value.headers == RequestHeaders()
      ensures r.Ok? && returnType == Paged ==> |r.value.params| > 0 && r.value.params[|r.value.params| - 1] == ("$count", "true")
    {
      var q := QueryParams(Snapshot(), config.keys, returnType == Paged);
      if q.Err? then Err(q.error)
      else
        var url := if returnType == Count then entitiesUri + "/" + config.keys.count else entitiesUri;
        assert GetUrl(returnType) == Ok(GenerateUrl(url, q.value));
        Ok(Request(url, q.value, RequestHeaders()))
    }

    /** The request `nextPage(page)` sends: to the page's next link, with the query's parameters but no `$count`. */
    function NextPage(page: PagedResult): (r: Result<Request>)
      reads this, config
      ensures r.Ok? <==> Exec(Entities).Ok?
      ensures r.Ok? ==> r.value == Request(page.nextLink, Exec(Entities).value.params, RequestHeaders())
    {
      var params :- QueryParams(Snapshot(), config.keys, false);
      Ok(Request(page.nextLink, params, RequestHeaders()))
    }
  }

  lemma {:induction false} ConcatAssoc<T>(a: seq<T>, b: seq<T>, c: seq<T>)
    ensures a + b + c == a + (b + c)
  {
  }

  lemma {:induction false} AppendSix(params: seq<(string, string)>, facets: seq<Facet>)
    requires |facets| == 6
    ensures AppendFacets(params, facets, 0) == params + Emitted(facets[0]) + Emitted(facets[1]) + Emitted(facets[2])
      + Emitted(facets[3]) + Emitted(facets[4]) + Emitted(facets[5])
  {
    var p1 := params + Emitted(facets[0]);
    var p2 := p1 + Emitted(facets[1]);
    var p3 := p2 + Emitted(facets[2]);
    var p4 := p3 + Emitted(facets[3]);
    var p5 := p4 + Emitted(facets[4]);
    var p6 := p5 + Emitted(facets[5]);
    assert AppendFacets(p6, facets, 6) == p6;
    assert AppendFacets(p5, facets, 5) == AppendFacets(p6, facets, 6);
    assert AppendFacets(p4, facets, 4) == AppendFacets(p5, facets, 5);
    assert AppendFacets(p3, facets, 3) == AppendFacets(p4, facets, 4);
    assert AppendFacets(p2, facets, 2) == AppendFacets(p3, facets, 3);
    assert AppendFacets(p1, facets, 1) == AppendFacets(p2, facets, 2);
  }

  /** The six guarded appends of `getQueryParams`, one facet of the intent at a time. */
  lemma {:induction false} AppendIntentFacets(i: Intent, keys: KeyConfigs, params: seq<(string, string)>)
    ensures AppendFacets(params, Facets(i, keys), 0) == params
      + Emitted(Facet(keys.filter, i.filter != "", i.filter))
      + Emitted(Facet(keys.search, i.search != "", i.search))
      + Emitted(Facet(keys.top, i.top > 0, IntToString(i.top)))
      + Emitted(Facet(keys.skip, i.skip > 0, IntToString(i.skip)))
      + Emitted(Facet(keys.orderBy, |i.orderBy| > 0, ToCommaString(List(i.orderBy))))
      + Emitted(Facet(keys.apply, |i.apply| > 0, ToCommaString(List(i.apply))))
  {
    AppendSix(params, Facets(i, keys));
  }

  /** The guarded appends add exactly the parameters of the facets that are set. */
  lemma {:induction false} AppendFacetsSplit(params: seq<(string, string)>, facets: seq<Facet>, k: nat)
    ensures AppendFacets(params, facets, k) == params + PresentFrom(facets, k)
    decreases |facets| - k
  {
    if k < |facets| {
      var e := Emitted(facets[k]);
      AppendFacetsSplit(params + e, facets, k + 1);
      assert (params + e) + PresentFrom(facets, k + 1) == params + (e + PresentFrom(facets, k + 1));
    } else {
      assert params + [] == params;
    }
  }

  /** Once a prefix of the custom options fails, the whole list fails with the same error. */
  lemma {:induction false} CustomParamsFailure(options: seq<(string, string)>, n: nat)
    requires n <= |options| && CustomParams(options[..n]).Err?
    ensures CustomParams(options) == Err(CustomParams(options[..n]).error)
  {
    if n < |options| {
      var init := options[..|options| - 1];
      assert init[..n] == options[..n];
      CustomParamsFailure(init, n);
    } else {
      assert options[..n] == options;
    }
  }

  // ---------------------------------------------------------------------------
  // Custom query options
  // ---------------------------------------------------------------------------

  /**
   * A missing key throws the null-key message, a key starting with `$` or
   * `@` the reserved-key message, and any other key passes unchanged.
   */
  lemma {:induction false} CheckReservedCases(key: Option<string>)
    ensures CheckReservedCustomQueryOptionKey(key).Ok? <==> key.Some? && !Reserved(key.value)
    ensures CheckReservedCustomQueryOptionKey(key).Ok? ==> CheckReservedCustomQueryOptionKey(key).value == key.value
    ensures key.None? ==> Message(CheckReservedCustomQueryOptionKey(key).error) == "Custom query options MUST NOT be null or undefined."
    ensures key.Some? && Reserved(key.value) ==>
      Message(CheckReservedCustomQueryOptionKey(key).error) == "Custom query options MUST NOT begin with a $ or @ character."
  {
  }

  /**
   * The custom options compile exactly when no key is reserved, and then to
   * the options themselves, `key=value` verbatim in entry order; otherwise
   * they throw the reserved-key error.
   */
  lemma {:induction false} CustomParamsMeaning(options: seq<(string, string)>)
    ensures CustomParams(options).Ok? <==> forall j :: 0 <= j < |options| ==> !Reserved(options[j].0)
    ensures CustomParams(options).Ok? ==> CustomParams(options).value == options
    ensures CustomParams(options).Err? ==> CustomParams(options).error == ReservedCustomOptionKey
  {
    if options != [] {
      var init := options[..|options| - 1];
      CustomParamsMeaning(init);
      assert options == init + [options[|options| - 1]];
    }
  }

  /** `QueryParams` unfolded into its three parts. */
  lemma {:induction false} QueryParamsParts(i: Intent, keys: KeyConfigs, odata4: bool)
    ensures CustomParams(i.customOptions).Err? ==>
      QueryParams(i, keys, odata4) == Err(CustomParams(i.customOptions).error)
    ensures CustomParams(i.customOptions).Ok? ==>
      QueryParams(i, keys, odata4) == Ok(AppendFacets(ExpandSelectParams(i.expand, i.select, keys), Facets(i, keys), 0)
        + CustomParams(i.customOptions).value + (if odata4 then [("$count", "true")] else []))
  {
  }

  /** The query compiles exactly when no custom option key is reserved. */
  lemma {:induction false} QueryParamsFailure(i: Intent, keys: KeyConfigs, odata4: bool)
    ensures QueryParams(i, keys, odata4).Err? <==> exists j :: 0 <= j < |i.customOptions| && Reserved(i.customOptions[j].0)
    ensures QueryParams(i, keys, odata4).Err? ==> QueryParams(i, keys, odata4).error == ReservedCustomOptionKey
  {
    CustomParamsMeaning(i.customOptions);
  }

  /**
   * The parameters end with the custom options, verbatim and in entry order,
   * followed by `$count=true` for a paged query; a paged query differs from
   * the others by that one parameter.
   */
  lemma {:induction false} QueryParamsTail(i: Intent, keys: KeyConfigs)
    requires QueryParams(i, keys, false).Ok?
    ensures QueryParams(i, keys, true) == Ok(QueryParams(i, keys, false).value + [("$count", "true")])
    ensures var ps := QueryParams(i, keys, false).value;
      var n := |i.customOptions|;
      n <= |ps| && ps[|ps| - n..] == i.customOptions
  {
    CustomParamsMeaning(i.customOptions);
    var base := AppendFacets(ExpandSelectParams(i.expand, i.select, keys), Facets(i, keys), 0) + i.customOptions;
    assert QueryParams(i, keys, false).value == base + [] == base;
  }

  // ---------------------------------------------------------------------------
  // Order and presence of the parameters under the default keys
  // ---------------------------------------------------------------------------

  /** The place of a parameter in the fixed order; custom options come between `$apply` and `$count`. */
  function Rank(key: string): nat
  {
    if key == "$expand" then 1
    else if key == "$select" then 2
    else if key == "$filter" then 3
    else if key == "$search" then 4
    else if key == "$top" then 5
    else if key == "$skip" then 6
    else if key == "$orderby" then 7
    else if key == "$apply" then 8
    else if key == "$count" then 10
    else 9
  }

  predicate InRankOrder(ps: seq<(string, string)>)
  {
    forall a, b :: 0 <= a < b < |ps| ==> Rank(ps[a].0) <= Rank(ps[b].0)
  }

  predicate RanksWithin(ps: seq<(string, string)>, lo: nat, hi: nat)
  {
    forall a :: 0 <= a < |ps| ==> lo <= Rank(ps[a].0) <= hi
  }

  lemma {:induction false} OrderedConcat(x: seq<(string, string)>, y: seq<(string, string)>, lo: nat, mid: nat, hi: nat)
    requires lo <= mid <= hi
    requires InRankOrder(x) && InRankOrder(y) && RanksWithin(x, lo, mid) && RanksWithin(y, mid, hi)
    ensures InRankOrder(x + y) && RanksWithin(x + y, lo, hi)
  {
    forall a | 0 <= a < |x + y| ensures lo <= Rank((x + y)[a].0) <= hi {
      if a >= |x| {
        assert (x + y)[a] == y[a - |x|];
      }
    }
    forall a, b | 0 <= a < b < |x + y| ensures Rank((x + y)[a].0) <= Rank((x + y)[b].0) {
      if b < |x| {
      } else if a >= |x| {
        assert (x + y)[a] == y[a - |x|] && (x + y)[b] == y[b - |x|];
      } else {
        assert (x + y)[b] == y[b - |x|];
      }
    }
  }

  /** The facets that are set keep the order of the facets, whose keys rank strictly increasing. */
  lemma {:induction false} PresentOrdered(facets: seq<Facet>, k: nat, lo: nat, hi: nat)
    requires forall a, b :: 0 <= a < b < |facets| ==> Rank(facets[a].key) < Rank(facets[b].key)
    requires forall a :: k <= a < |facets| ==> lo <= Rank(facets[a].key) <= hi
    ensures InRankOrder(PresentFrom(facets, k)) && RanksWithin(PresentFrom(facets, k), lo, hi)
    decreases |facets| - k
  {
    if k < |facets| {
      var head := Emitted(facets[k]);
      if k + 1 < |facets| {
        var mid := Rank(facets[k + 1].key);
        PresentOrdered(facets, k + 1, mid, hi);
        assert Rank(facets[k].key) < mid;
        OrderedConcat(head, PresentFrom(facets, k + 1), lo, mid, hi);
      } else {
        assert PresentFrom(facets, k + 1) == [];
        assert PresentFrom(facets, k) == head;
      }
    }
  }

  /** Under distinct keys, a facet's key reads the facet's text exactly when the facet is set. */
  lemma {:induction false} PresentLookup(facets: seq<Facet>, k: nat, j: nat)
    requires k <= j < |facets|
    requires forall a, b :: 0 <= a < b < |facets| ==> facets[a].key != facets[b].key
    ensures Lookup(PresentFrom(facets, k), facets[j].key) == if facets[j].isSet then Some(facets[j].text) else None
    decreases j - k
  {
    var head := Emitted(facets[k]);
    LookupConcat(head, PresentFrom(facets, k + 1), facets[j].key);
    if k < j {
      PresentLookup(facets, k + 1, j);
    } else {
      PresentKeys(facets, k + 1, facets[k].key);
      LookupPresent(PresentFrom(facets, k + 1), facets[k].key);
    }
  }

  /** A key no facet from the `k`-th on has is not among the keys of those that are set. */
  lemma {:induction false} PresentKeys(facets: seq<Facet>, k: nat, key: string)
    requires forall a :: k <= a < |facets| ==> facets[a].key != key
    ensures key !in Keys(PresentFrom(facets, k))
    decreases |facets| - k
  {
    if k < |facets| {
      KeysConcat(Emitted(facets[k]), PresentFrom(facets, k + 1));
      PresentKeys(facets, k + 1, key);
    }
  }

  /** Under the default keys `$expand` and `$select` come first, in that order. */
  lemma {:induction false} ExpandSelectOrdered(i: Intent)
    ensures var es := ExpandSelectParams(i.expand, i.select, DefaultKeys);
      InRankOrder(es) && RanksWithin(es, 1, 2)
      && forall a :: 0 <= a < |es| ==> es[a].0 == "$expand" || es[a].0 == "$select"
  {
  }

  /** A custom option key that is not reserved ranks between `$apply` and `$count`. */
  lemma {:induction false} CustomRank(key: string)
    requires !Reserved(key)
    ensures Rank(key) == 9
  {
    assert !StartsWith(key, "$");
  }

  lemma {:induction false} DefaultFacets(i: Intent)
    ensures var f := Facets(i, DefaultKeys);
      && (forall a, b :: 0 <= a < b < |f| ==> Rank(f[a].key) < Rank(f[b].key))
      && (forall a :: 0 <= a < |f| ==> 3 <= Rank(f[a].key) <= 8)
  {
  }

  /**
   * Under the default keys the parameters come in the fixed order: expand,
   * select, filter, search, top, skip, orderby, apply, the custom options,
   * then `$count`.
   */
  lemma {:induction false} QueryParamsOrder(i: Intent, odata4: bool)
    requires QueryParams(i, DefaultKeys, odata4).Ok?
    ensures InRankOrder(QueryParams(i, DefaultKeys, odata4).value)
  {
    var es := ExpandSelectParams(i.expand, i.select, DefaultKeys);
    var fs := Present(Facets(i, DefaultKeys));
    var cs := i.customOptions;
    var count := if odata4 then [("$count", "true")] else [];
    ExpandSelectOrdered(i);
    DefaultFacets(i);
    PresentOrdered(Facets(i, DefaultKeys), 0, 3, 8);
    CustomParamsMeaning(cs);
    AppendFacetsSplit(es, Facets(i, DefaultKeys), 0);
    assert QueryParams(i, DefaultKeys, odata4).value == es + fs + cs + count;
    assert InRankOrder(cs) && RanksWithin(cs, 9, 9) by {
      forall a | 0 <= a < |cs| ensures Rank(cs[a].0) == 9 {
        CustomRank(cs[a].0);
      }
    }
    OrderedConcat(es, fs, 1, 3, 8);
    OrderedConcat(es + fs, cs, 1, 9, 9);
    OrderedConcat(es + fs + cs, count, 1, 10, 10);
  }

  /** The keys of the parameters that precede the custom options are all reserved ones. */
  lemma {:induction false} SystemKeys(i: Intent, k: string)
    requires !Reserved(k) || k == "$count"
    ensures k !in Keys(ExpandSelectParams(i.expand, i.select, DefaultKeys))
    ensures k !in Keys(Present(Facets(i, DefaultKeys)))
  {
    PresentKeys(Facets(i, DefaultKeys), 0, k);
  }

  /** No custom option carries a reserved key. */
  lemma {:induction false} CustomKeysFree(cs: seq<(string, string)>, k: string)
    requires CustomParams(cs).Ok? && Reserved(k)
    ensures k !in Keys(cs)
  {
    CustomParamsMeaning(cs);
    forall a | 0 <= a < |cs| ensures cs[a].0 != k {
      assert !Reserved(cs[a].0);
    }
  }

  /**
   * A lookup in the parameters of a successful query, split into its four
   * parts: expand/select, facets, custom options and the count flag.
   */
  lemma {:induction false} LookupParts(i: Intent, odata4: bool, k: string)
    requires QueryParams(i, DefaultKeys, odata4).Ok?
    ensures var es := ExpandSelectParams(i.expand, i.select, DefaultKeys);
      var fs := Present(Facets(i, DefaultKeys));
      var cs := i.customOptions;
      var count := if odata4 then [("$count", "true")] else [];
      Lookup(QueryParams(i, DefaultKeys, odata4).value, k) ==
        if k in Keys(es) then Lookup(es, k)
        else if k in Keys(fs) then Lookup(fs, k)
        else if k in Keys(cs) then Lookup(cs, k)
        else Lookup(count, k)
  {
    var es := ExpandSelectParams(i.expand, i.select, DefaultKeys);
    var fs := Present(Facets(i, DefaultKeys));
    var cs := i.customOptions;
    var count := if odata4 then [("$count", "true")] else [];
    CustomParamsMeaning(cs);
    AppendFacetsSplit(es, Facets(i, DefaultKeys), 0);
    assert QueryParams(i, DefaultKeys, odata4).value == es + fs + cs + count;
    LookupConcat(es + fs + cs, count, k);
    LookupConcat(es + fs, cs, k);
    LookupConcat(es, fs, k);
    KeysConcat(es + fs, cs);
    KeysConcat(es, fs);
  }

  /** Each facet key under the default keys is reserved and is none of `$expand`, `$select`, `$count`. */
  lemma {:induction false} FacetKeys(i: Intent, j: nat)
    requires j < 6
    ensures var k := Facets(i, DefaultKeys)[j].key;
      Reserved(k) && k != "$expand" && k != "$select" && k != "$count"
  {
    var names := ["$filter", "$search", "$top", "$skip", "$orderby", "$apply"];
    assert Facets(i, DefaultKeys)[j].key == names[j];
    assert "$" <= names[j];
  }

  /** Only `$expand` and `$select` come out of the expand/select compilation. */
  lemma {:induction false} ExpandSelectKeys(i: Intent, k: string)
    requires k != "$expand" && k != "$select"
    ensures k !in Keys(ExpandSelectParams(i.expand, i.select, DefaultKeys))
  {
    ExpandSelectOrdered(i);
  }

  /** Under the default keys a set facet is present with its text and an unset one is absent. */
  lemma {:induction false} FacetPresence(i: Intent, odata4: bool, j: nat)
    requires QueryParams(i, DefaultKeys, odata4).Ok? && j < 6
    ensures var f := Facets(i, DefaultKeys)[j];
      Lookup(QueryParams(i, DefaultKeys, odata4).value, f.key) == if f.isSet then Some(f.text) else None
  {
    var f := Facets(i, DefaultKeys);
    var fs := Present(f);
    var k := f[j].key;
    FacetKeys(i, j);
    LookupParts(i, odata4, k);
    ExpandSelectKeys(i, k);
    DefaultFacets(i);
    PresentLookup(f, 0, j);
    LookupPresent(fs, k);
    CustomKeysFree(i.customOptions, k);
  }

  /** Under the default keys `$count` is present, as `true`, exactly for a paged query. */
  lemma {:induction false} CountPresence(i: Intent, odata4: bool)
    requires QueryParams(i, DefaultKeys, odata4).Ok?
    ensures Lookup(QueryParams(i, DefaultKeys, odata4).value, "$count") == if odata4 then Some("true") else None
  {
    LookupParts(i, odata4, "$count");
    SystemKeys(i, "$count");
    assert Reserved("$count");
    CustomKeysFree(i.customOptions, "$count");
  }

  /**
   * Under the default keys each system option is present exactly when it is
   * set, with its text: the filter and search when non-empty, top and skip
   * when positive, orderby and apply comma-joined when non-empty, and
   * `$count=true` exactly for a paged query.
   */
  lemma {:induction false} QueryParamsPresence(i: Intent, odata4: bool)
    requires QueryParams(i, DefaultKeys, odata4).Ok?
    ensures var ps := QueryParams(i, DefaultKeys, odata4).value;
      && Lookup(ps, "$filter") == (if i.filter != "" then Some(i.filter) else None)
      && Lookup(ps, "$search") == (if i.search != "" then Some(i.search) else None)
      && Lookup(ps, "$top") == (if i.top > 0 then Some(IntToString(i.top)) else None)
      && Lookup(ps, "$skip") == (if i.skip > 0 then Some(IntToString(i.skip)) else None)
      && Lookup(ps, "$orderby") == (if i.orderBy != [] then Some(Join(i.orderBy, ",")) else None)
      && Lookup(ps, "$apply") == (if i.apply != [] then Some(Join(i.apply, ",")) else None)
      && Lookup(ps, "$count") == (if odata4 then Some("true") else None)
  {
    FacetPresence(i, odata4, 0);
    FacetPresence(i, odata4, 1);
    FacetPresence(i, odata4, 2);
    FacetPresence(i, odata4, 3);
    FacetPresence(i, odata4, 4);
    FacetPresence(i, odata4, 5);
    CountPresence(i, odata4);
  }

  // ---------------------------------------------------------------------------
  // URLs and requests
  // ---------------------------------------------------------------------------

  /**
   * A fresh query's URL is the bare collection URI, `/$count` after it for a
   * count, and `?$count=true` after it for a page.
   */
  lemma {:induction false} FreshQueryUrls(q: Query)
    requires q.Snapshot() == Intent([], [], "", "", 0, 0, [], [], [])
    requires q.config.keys == DefaultKeys
    ensures q.GetUrl(Entities) == Ok(q.entitiesUri)
    ensures q.GetUrl(Count) == Ok(q.entitiesUri + "/$count")
    ensures q.GetUrl(Paged) == Ok(q.entitiesUri + "?$count=true")
  {
    var i := q.Snapshot();
    assert ExpandSelectParams([], [], DefaultKeys) == [];
    assert AppendFacets([], Facets(i, DefaultKeys), 0) == [] by {
      AppendSix([], Facets(i, DefaultKeys));
    }
    assert CustomParams([]) == Ok([]);
    assert QueryParams(i, DefaultKeys, false) == Ok([]) by {
      var none: seq<(string, string)> := [];
      assert none + none + none + none == none;
    }
    assert QueryParams(i, DefaultKeys, true) == Ok([("$count", "true")]) by {
      var none: seq<(string, string)> := [];
      assert none + none + none + [("$count", "true")] == [("$count", "true")];
    }
    QueryStringCons(("$count", "true"), []);
    assert q.entitiesUri + "/" + "$count" == q.entitiesUri + "/$count";
    assert q.entitiesUri + "?" + ("$count" + "=" + "true") == q.entitiesUri + "?$count=true";
  }

  /** The URL text is the URL of the request `exec` sends, with its parameters as the query string. */
  lemma {:induction false} GetUrlMatchesExec(q: Query, returnType: ReturnType)
    ensures q.GetUrl(returnType).Ok? <==> q.Exec(returnType).Ok?
    ensures q.Exec(returnType).Ok? ==>
      q.GetUrl(returnType).value == GenerateUrl(q.Exec(returnType).value.url, q.Exec(returnType).value.params)
    ensures q.Exec(returnType).Ok? ==> q.Exec(returnType).value.headers == q.RequestHeaders()
  {
  }

  /**
   * A count goes to `<collection>/<count key>` without a `$count` parameter;
   * a page goes to the collection with it; the entity list without it.
   */
  lemma {:induction false} ExecTargets(q: Query)
    requires QueryParams(q.Snapshot(), q.config.keys, false).Ok?
    ensures var ps := QueryParams(q.Snapshot(), q.config.keys, false).value;
      && q.Exec(Count) == Ok(Request(q.entitiesUri + "/" + q.config.keys.count, ps, q.RequestHeaders()))
      && q.Exec(Paged) == Ok(Request(q.entitiesUri, ps + [("$count", "true")], q.RequestHeaders()))
      && q.Exec(Entities) == Ok(Request(q.entitiesUri, ps, q.RequestHeaders()))
  {
    QueryParamsTail(q.Snapshot(), q.config.keys);
  }

  /**
   * The next page is fetched from the next link as it is, with the query's
   * parameters and headers but without `$count=true` (under the default keys,
   * no `$count` parameter at all).
   */
  lemma {:induction false} NextPageTarget(q: Query, page: PagedResult)
    ensures q.NextPage(page).Ok? <==> QueryParams(q.Snapshot(), q.config.keys, false).Ok?
    ensures q.NextPage(page).Ok? ==>
      q.NextPage(page).value == Request(page.nextLink, QueryParams(q.Snapshot(), q.config.keys, false).value, q.RequestHeaders())
    ensures q.NextPage(page).Ok? && q.config.keys == DefaultKeys ==> Lookup(q.NextPage(page).value.params, "$count") == None
  {
    if q.NextPage(page).Ok? && q.config.keys == DefaultKeys {
      QueryParamsPresence(q.Snapshot(), false);
    }
  }

  /**
   * A positive page size sets `Prefer: <maxPerPage key>=N` and leaves every
   * other header as the defaults have it; otherwise the headers are the
   * defaults. The parameters never depend on the page size.
   */
  lemma {:induction false} RequestHeadersPrefer(q: Query, name: string)
    ensures q.maxPerPage > 0 ==>
      Lookup(q.RequestHeaders(), "Prefer") == Some(q.config.keys.maxPerPage + "=" + IntToString(q.maxPerPage))
    ensures name != "Prefer" ==> Lookup(q.RequestHeaders(), name) == Lookup(q.config.defaultHeaders, name)
    ensures q.maxPerPage <= 0 ==> q.RequestHeaders() == q.config.defaultHeaders
  {
    if q.maxPerPage > 0 {
      var v := q.config.keys.maxPerPage + "=" + IntToString(q.maxPerPage);
      LookupPut(q.config.defaultHeaders, "Prefer", v, "Prefer");
      LookupPut(q.config.defaultHeaders, "Prefer", v, name);
    }
  }
}
