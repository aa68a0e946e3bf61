/**
 * The entry point of the client (`OdataService`): one service per entity
 * collection. It hands out the typed operations and queries, and addresses
 * bound actions, functions and properties under the collection or one of its
 * entities.
 */
module OdataService {
  import opened Strings
  import opened Results
  import opened OdataUtils
  import opened OdataConfiguration
  import opened OdataOperation
  import opened OdataQuery

  /**
   * The last segment of a bound function call: with truthy parameters the
   * name followed by the converted parameters in parentheses (and the
   * conversion's error when it throws); without them the name, with `()`
   * appended unless it already ends with `)` or `()`.
   */
  function FunctionSegment(functionName: string, parameters: Value): (r: Result<string>)
    ensures r.Err? ==> Truthy(parameters) && r.error == NullToObject
    ensures r.Ok? ==> |functionName| <= |r.value| && r.value[..|functionName|] == functionName
    ensures r.Ok? ==> r.value != "" && r.value[|r.value| - 1] == ')'
  {
    if Truthy(parameters) then
      var params :- ObjectToString(parameters);
      Ok(functionName + "(" + params + ")")
    else if !EndsWith(functionName, ")") && !EndsWith(functionName, "()") then
      Ok(functionName + "()")
    else
      ParenSuffixes(functionName);
      assert functionName[|functionName| - 1] == functionName[|functionName| - 1..][0];
      Ok(functionName)
  }

  /** With parameters the segment is `name(params)`, failing exactly when the conversion fails. */
  lemma {:induction false} FunctionSegmentWithParameters(functionName: string, parameters: Value)
    requires Truthy(parameters)
    ensures FunctionSegment(functionName, parameters).Ok? <==> ObjectToString(parameters).Ok?
    ensures ObjectToString(parameters).Ok? ==>
      FunctionSegment(functionName, parameters) == Ok(functionName + "(" + ObjectToString(parameters).value + ")")
    ensures ObjectToString(parameters).Err? ==>
      FunctionSegment(functionName, parameters) == Err(ObjectToString(parameters).error)
  {
  }

  /** A name ending in `()` ends in `)`, and so does any name with `()` appended. */
  lemma {:induction false} ParenSuffixes(functionName: string)
    ensures EndsWith(functionName, "()") ==> EndsWith(functionName, ")")
    ensures EndsWith(functionName + "()", ")")
  {
    if EndsWith(functionName, "()") {
      assert functionName[|functionName| - 1] == "()"[1];
    }
    var r := functionName + "()";
    assert r[|r| - 1..] == [r[|r| - 1]];
  }

  /**
   * Without parameters the segment never fails and always ends with `)`: a
   * name that already does is kept, any other gets `()` appended.
   */
  lemma {:induction false} FunctionSegmentWithoutParameters(functionName: string, parameters: Value)
    requires !Truthy(parameters)
    ensures FunctionSegment(functionName, parameters).Ok?
    ensures EndsWith(FunctionSegment(functionName, parameters).value, ")")
    ensures EndsWith(functionName, ")") ==> FunctionSegment(functionName, parameters) == Ok(functionName)
    ensures !EndsWith(functionName, ")") ==> FunctionSegment(functionName, parameters) == Ok(functionName + "()")
  {
    ParenSuffixes(functionName);
  }

  /** Without parameters, shaping a segment a second time changes nothing. */
  lemma {:induction false} FunctionSegmentIdempotent(functionName: string, parameters: Value)
    requires !Truthy(parameters)
    ensures FunctionSegment(FunctionSegment(functionName, parameters).value, parameters)
            == FunctionSegment(functionName, parameters)
  {
    FunctionSegmentWithoutParameters(functionName, parameters);
    FunctionSegmentWithoutParameters(FunctionSegment(functionName, parameters).value, parameters);
  }

  /** The service of the collection `typeName`. */
  class Service {
    const typeName: string
    const config: Configuration
    /** The collection URI, computed once from the configuration at construction. */
    const entitiesUri: string

    constructor (typeName: string, config: Configuration)
      ensures this.typeName == typeName && this.config == config
      ensures entitiesUri == config.EntitiesUri(typeName)
    {
      this.typeName := typeName;
      this.config := config;
      entitiesUri := config.EntitiesUri(typeName);
    }

    /** `Get(key)`: a fresh get operation on the entity `key`. */
    method Get(key: string) returns (op: Operation)
      ensures fresh(op)
      ensures op.typeName == typeName && op.config == config && op.kind == GetOp(key)
      ensures op.expand == [] && op.select == []
    {
      op := new Operation(typeName, config, GetOp(key));
    }

    /** `Post(entity)`: a fresh post operation sending `entity` to the collection. */
    method Post(entity: Value) returns (op: Operation)
      ensures fresh(op)
      ensures op.typeName == typeName && op.config == config && op.kind == PostOp(entity)
      ensures op.expand == [] && op.select == []
    {
      op := new Operation(typeName, config, PostOp(entity));
    }

    /** `Patch(entity, key)`: a fresh patch operation sending `entity` to the entity `key`. */
    method Patch(entity: Value, key: string) returns (op: Operation)
      ensures fresh(op)
      ensures op.typeName == typeName && op.config == config && op.kind == PatchOp(key, entity)
      ensures op.expand == [] && op.select == []
    {
      op := new Operation(typeName, config, PatchOp(key, entity));
    }

    /** `Put(entity, key)`: a fresh put operation sending `entity` to the entity `key`. */
    method Put(entity: Value, key: string) returns (op: Operation)
      ensures fresh(op)
      ensures op.typeName == typeName && op.config == config && op.kind == PutOp(key, entity)
      ensures op.expand == [] && op.select == []
    {
      op := new Operation(typeName, config, PutOp(key, entity));
    }

    /** `Delete(key)`: a fresh delete operation on the entity `key`. */
    method Delete(key: string) returns (op: Operation)
      ensures fresh(op)
      ensures op.typeName == typeName && op.config == config && op.kind == DeleteOp(key)
      ensures op.expand == [] && op.select == []
    {
      op := new Operation(typeName, config, DeleteOp(key));
    }

    /** `Query()`: a fresh query on the collection, with nothing set. */
    method Query() returns (q: OdataQuery.Query)
      ensures fresh(q)
      ensures q.typeName == typeName && q.config == config
      ensures q.entitiesUri == config.EntitiesUri(typeName)
      ensures q.Snapshot() == Intent([], [], "", "", 0, 0, [], [], []) && q.maxPerPage == 0
    {
      q := new OdataQuery.Query(typeName, config);
    }

    /** `getEntityUri(key)`: the entity URI the configuration gives, read at the time of the call. */
    function EntityUri(key: string): (u: string)
      reads this, config
      ensures var prefix := config.EntitiesUri(typeName) + "(";
        |prefix| < |u| && u[..|prefix|] == prefix && u[|u| - 1] == ')'
    {
      config.EntitiesUri(typeName) + "(" + QuoteString(key) + ")"
    }

    /** The URL `CustomAction(key, actionName, postdata)` posts to. */
    function CustomActionUrl(key: string, actionName: string): (u: string)
      reads this, config
      ensures var prefix := EntityUri(key) + "/";
        |prefix| <= |u| && u[..|prefix|] == prefix && u[|prefix|..] == actionName
    {
      EntityUri(key) + "/" + actionName
    }

    /** The URL `CustomCollectionAction(actionName, postdata)` posts to. */
    function CustomCollectionActionUrl(actionName: string): (u: string)
      reads this
      ensures var prefix := entitiesUri + "/";
        |prefix| <= |u| && u[..|prefix|] == prefix && u[|prefix|..] == actionName
    {
      entitiesUri + "/" + actionName
    }

    /** The URL `CustomFunction(key, functionName, parameters)` gets. */
    function CustomFunctionUrl(key: string, functionName: string, parameters: Value): (r: Result<string>)
      reads this, config
      ensures r.Ok? <==> FunctionSegment(functionName, parameters).Ok?
      ensures r.Ok? ==> var prefix := EntityUri(key) + "/";
        |prefix| < |r.value| && r.value[..|prefix|] == prefix && r.value[|r.value| - 1] == ')'
    {
      var segment :- FunctionSegment(functionName, parameters);
      Ok(EntityUri(key) + "/" + segment)
    }

    /** The URL `CustomCollectionFunction(functionName, parameters)` gets. */
    function CustomCollectionFunctionUrl(functionName: string, parameters: Value): (r: Result<string>)
      reads this
      ensures r.Ok? <==> FunctionSegment(functionName, parameters).Ok?
      ensures r.Ok? ==> var prefix := entitiesUri + "/";
        |prefix| < |r.value| && r.value[..|prefix|] == prefix && r.value[|r.value| - 1] == ')'
    {
      var segment :- FunctionSegment(functionName, parameters);
      Ok(entitiesUri + "/" + segment)
    }

    /** The URL `ItemProperty(key, propertyName)` gets. */
    function ItemPropertyUrl(key: string, propertyName: string): (u: string)
      reads this, config
      ensures u == CustomActionUrl(key, propertyName)
    {
      EntityUri(key) + "/" + propertyName
    }
  }

  /**
   * The service's entity URI is the configuration's `getEntityUri` for the
   * key as a string, which never throws: a GUID key goes bare, any other key
   * as a quoted literal.
   */
  lemma {:induction false} EntityUriDelegates(s: Service, key: string)
    ensures s.config.EntityUri(Str(key), s.typeName) == Ok(s.EntityUri(key))
    ensures IsGuid(key) ==> s.EntityUri(key) == s.config.EntitiesUri(s.typeName) + "(" + key + ")"
    ensures !IsGuid(key) ==>
      s.EntityUri(key) == s.config.EntitiesUri(s.typeName) + "('" + DoubleQuotes(key) + "')"
  {
    EntityUriShape(s.config, Str(key), s.typeName);
  }

  /**
   * While the configuration's base URL is the one the service was built
   * with, every bound URL hangs under the stored collection URI: an entity's
   * action, function or property after `(<quoted key>)/`, a collection's
   * action or function directly after `/`.
   */
  lemma {:induction false} BoundUrls(s: Service, key: string, name: string, parameters: Value)
    requires s.entitiesUri == s.config.EntitiesUri(s.typeName)
    ensures s.CustomActionUrl(key, name) == s.entitiesUri + "(" + QuoteString(key) + ")" + "/" + name
    ensures s.ItemPropertyUrl(key, name) == s.entitiesUri + "(" + QuoteString(key) + ")" + "/" + name
    ensures s.CustomCollectionActionUrl(name) == s.entitiesUri + "/" + name
    ensures FunctionSegment(name, parameters).Ok? ==>
      s.CustomFunctionUrl(key, name, parameters)
        == Ok(s.entitiesUri + "(" + QuoteString(key) + ")" + "/" + FunctionSegment(name, parameters).value)
    ensures FunctionSegment(name, parameters).Ok? ==>
      s.CustomCollectionFunctionUrl(name, parameters)
        == Ok(s.entitiesUri + "/" + FunctionSegment(name, parameters).value)
    ensures FunctionSegment(name, parameters).Err? ==>
      s.CustomFunctionUrl(key, name, parameters).Err? && s.CustomCollectionFunctionUrl(name, parameters).Err?
  {
  }

  /**
   * A function called without parameters on the entity `key`, under the URI
   * stored at construction: `CustomFunction(key, 'Rate')` gets
   * `<collection>(<key>)/Rate()`, and `Rate()` is left as it is.
   */
  lemma {:induction false} CustomFunctionWithoutParameters(s: Service, key: string, name: string)
    requires s.entitiesUri == s.config.EntitiesUri(s.typeName)
    requires !EndsWith(name, ")")
    ensures s.CustomFunctionUrl(key, name, Undefined)
            == Ok(s.entitiesUri + "(" + QuoteString(key) + ")" + "/" + (name + "()"))
    ensures s.CustomFunctionUrl(key, name + "()", Null)
            == Ok(s.entitiesUri + "(" + QuoteString(key) + ")" + "/" + (name + "()"))
    ensures s.CustomCollectionFunctionUrl(name, Undefined) == Ok(s.entitiesUri + "/" + (name + "()"))
  {
    FunctionSegmentWithoutParameters(name, Undefined);
    FunctionSegmentWithoutParameters(name + "()", Null);
    ParenSuffixes(name);
  }

  /**
   * A function called with parameters: the converted parameters go in
   * parentheses after the name, `CustomFunction(key, 'F', {a: 1})` getting
   * `<entity>/F(a=1)`.
   */
  lemma {:induction false} CustomFunctionWithParameters(s: Service, key: string, name: string, prop: string, n: int)
    ensures s.CustomFunctionUrl(key, name, Obj([(prop, Num(n))]))
            == Ok(s.EntityUri(key) + "/" + (name + "(" + (prop + "=" + IntToString(n)) + ")"))
  {
    ObjectToStringSingle(prop, Num(n));
  }
}
