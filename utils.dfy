/**
 * Value quoting (`OdataUtils`): rendering of JavaScript values as OData
 * literals, the `name=value` list of a function call's parameters, and the
 * lenient integer parse used for `@odata.count`.
 */
module OdataUtils {
  import opened Strings
  import opened Results

  /**
   * A JavaScript value as the client receives it: decoded JSON, or a value the
   * caller passes. Numbers are integers. An object's properties are listed in
   * the order the engine enumerates them, with distinct names.
   */
  datatype Value =
    | Undefined
    | Null
    | Bool(b: bool)
    | Num(n: int)
    | Str(s: string)
    | Arr(items: seq<Value>)
    | Obj(props: seq<(string, Value)>)

  /** JavaScript truthiness. */
  predicate Truthy(v: Value)
  {
    match v
    case Undefined => false
    case Null => false
    case Bool(b) => b
    case Num(n) => n != 0
    case Str(s) => s != ""
    case Arr(_) => true
    case Obj(_) => true
  }

  // ---------------------------------------------------------------------------
  // quoteValue
  // ---------------------------------------------------------------------------

  predicate IsHexDigit(ch: char)
  {
    ('0' <= ch <= '9') || ('a' <= ch <= 'f') || ('A' <= ch <= 'F')
  }

  /**
   * The 8-4-4-4-12 hexadecimal shape of a GUID, either case, anchored at both
   * ends (`/^[0-9a-f]{8}-…-[0-9a-f]{12}$/i`).
   */
  predicate IsGuid(s: string)
  {
    && |s| == 36
    && forall i :: 0 <= i < 36 ==> if i == 8 || i == 13 || i == 18 || i == 23 then s[i] == '-' else IsHexDigit(s[i])
  }

  /** The string branches of `quoteValue`: a GUID as it is, anything else as a quoted literal. */
  function QuoteString(s: string): string
  {
    if IsGuid(s) then s else "'" + DoubleQuotes(s) + "'"
  }

  /**
   * `quoteValue(value)`. Strings and scalars render directly; for anything
   * else it lists `Object.getOwnPropertyNames(value)`, each as
   * `name=quoteValue(value[name])`, joined by `", "`, and falls back to
   * `${value}` when there are none. An array's own property names are its
   * indices and then `length`. For null and undefined
   * `Object.getOwnPropertyNames` throws a TypeError.
   */
  function QuoteValue(v: Value): (r: Result<string>)
    ensures r.Err? ==> r.error == NullToObject
    ensures v.Undefined? || v.Null? ==> r.Err?
    ensures v.Str? || v.Bool? || v.Num? ==> r.Ok?
    ensures v == Obj([]) ==> r == Ok("[object Object]")
    decreases v, 1
  {
    match v
    case Str(s) => Ok(QuoteString(s))
    case Bool(b) => Ok(if b then "true" else "false")
    case Num(n) => Ok(IntToString(n))
    case Undefined => Err(NullToObject)
    case Null => Err(NullToObject)
    case Arr(items) =>
      var parts :- QuoteParts(v, 0);
      Ok(Join(parts + ["length=" + NatToString(|items|)], ", "))
    case Obj(props) =>
      if props == [] then Ok("[object Object]")
      else
        var parts :- QuoteParts(v, 0);
        Ok(Join(parts, ", "))
  }

  /** The number of indexed own properties of an array or object. */
  function PropertyCount(v: Value): nat
    requires v.Arr? || v.Obj?
  {
    if v.Arr? then |v.items| else |v.props|
  }

  /** The name of the `i`-th indexed own property. */
  function PropertyName(v: Value, i: nat): string
    requires (v.Arr? || v.Obj?) && i < PropertyCount(v)
  {
    if v.Arr? then NatToString(i) else v.props[i].0
  }

  /** The value of the `i`-th indexed own property. */
  function PropertyValue(v: Value, i: nat): (p: Value)
    requires (v.Arr? || v.Obj?) && i < PropertyCount(v)
    ensures p < v
  {
    if v.Arr? then v.items[i] else v.props[i].1
  }

  /** The rendered `name=value` part of the `i`-th indexed property. */
  function QuotePart(v: Value, i: nat): (r: Result<string>)
    requires (v.Arr? || v.Obj?) && i < PropertyCount(v)
    ensures r.Err? ==> r.error == NullToObject
    decreases v, 0, 0
  {
    var q :- QuoteValue(PropertyValue(v, i));
    Ok(PropertyName(v, i) + "=" + q)
  }

  /** The rendered `name=value` parts of the indexed properties from the `i`-th on. */
  function QuoteParts(v: Value, i: nat): (r: Result<seq<string>>)
    requires (v.Arr? || v.Obj?) && i <= PropertyCount(v)
    ensures r.Err? ==> r.error == NullToObject
    ensures r.Ok? ==> |r.value| == PropertyCount(v) - i
    decreases v, 0, PropertyCount(v) - i
  {
    if i == PropertyCount(v) then Ok([])
    else
      var part :- QuotePart(v, i);
      var rest :- QuoteParts(v, i + 1);
      Ok([part] + rest)
  }

  /** A value that holds null or undefined somewhere below its properties (strings have none). */
  ghost predicate HoldsNullish(v: Value)
    decreases v
  {
    match v
    case Undefined => true
    case Null => true
    case Arr(items) => exists i :: 0 <= i < |items| && HoldsNullish(items[i])
    case Obj(props) => exists i :: 0 <= i < |props| && HoldsNullish(props[i].1)
    case _ => false
  }

  /** `quoteValue` throws exactly when a null or undefined is reachable. */
  lemma {:induction false} QuoteValueFailsIffNullish(v: Value)
    ensures QuoteValue(v).Err? <==> HoldsNullish(v)
    ensures QuoteValue(v).Err? ==> QuoteValue(v).error == NullToObject
    decreases v, 1
  {
    match v
    case Arr(items) =>
      QuotePartsFailsIffNullish(v, 0);
      forall i | 0 <= i < |items| ensures HoldsNullish(items[i]) == HoldsNullish(PropertyValue(v, i)) { }
    case Obj(props) =>
      QuotePartsFailsIffNullish(v, 0);
      forall i | 0 <= i < |props| ensures HoldsNullish(props[i].1) == HoldsNullish(PropertyValue(v, i)) { }
    case _ =>
  }

  lemma {:induction false} QuotePartsFailsIffNullish(v: Value, i: nat)
    requires (v.Arr? || v.Obj?) && i <= PropertyCount(v)
    ensures QuoteParts(v, i).Err? <==> exists j :: i <= j < PropertyCount(v) && HoldsNullish(PropertyValue(v, j))
    ensures QuoteParts(v, i).Err? ==> QuoteParts(v, i).error == NullToObject
    decreases v, 0, PropertyCount(v) - i
  {
    if i < PropertyCount(v) {
      QuoteValueFailsIffNullish(PropertyValue(v, i));
      QuotePartsFailsIffNullish(v, i + 1);
    }
  }

  /**
   * When nothing fails, the parts are exactly `name=quoteValue(value)` for
   * each indexed property, in order.
   */
  lemma {:induction false} QuotePartsContents(v: Value, i: nat)
    requires (v.Arr? || v.Obj?) && i <= PropertyCount(v)
    requires QuoteParts(v, i).Ok?
    ensures |QuoteParts(v, i).value| == PropertyCount(v) - i
    ensures forall j :: i <= j < PropertyCount(v) ==>
              QuotePart(v, j).Ok? && QuoteParts(v, i).value[j - i] == QuotePart(v, j).value
  {
    QuotePartsLength(v, i);
    forall j | i <= j < PropertyCount(v)
      ensures QuotePart(v, j).Ok? && QuoteParts(v, i).value[j - i] == QuotePart(v, j).value
    {
      QuotePartAt(v, i, j);
    }
  }

  lemma {:induction false} QuotePartsLength(v: Value, i: nat)
    requires (v.Arr? || v.Obj?) && i <= PropertyCount(v)
    requires QuoteParts(v, i).Ok?
    ensures |QuoteParts(v, i).value| == PropertyCount(v) - i
    decreases PropertyCount(v) - i
  {
    if i < PropertyCount(v) {
      QuotePartsCons(v, i);
      QuotePartsLength(v, i + 1);
    }
  }

  /** The `j`-th property's part sits at position `j - i` of the parts from the `i`-th on. */
  lemma {:induction false} QuotePartAt(v: Value, i: nat, j: nat)
    requires (v.Arr? || v.Obj?) && i <= j < PropertyCount(v)
    requires QuoteParts(v, i).Ok?
    ensures QuotePart(v, j).Ok? && |QuoteParts(v, i).value| > j - i
    ensures QuoteParts(v, i).value[j - i] == QuotePart(v, j).value
    decreases j - i
  {
    QuotePartsCons(v, i);
    if i < j {
      QuotePartAt(v, i + 1, j);
    }
  }

  /** Parts that do not fail are the first property's part followed by the parts of the rest. */
  lemma {:induction false} QuotePartsCons(v: Value, i: nat)
    requires (v.Arr? || v.Obj?) && i < PropertyCount(v)
    requires QuoteParts(v, i).Ok?
    ensures QuotePart(v, i).Ok? && QuoteParts(v, i + 1).Ok?
    ensures QuoteParts(v, i).value == [QuotePart(v, i).value] + QuoteParts(v, i + 1).value
  {
  }

  /** A GUID-shaped string is passed through unquoted. */
  lemma {:induction false} QuoteGuid(s: string)
    requires IsGuid(s)
    ensures QuoteValue(Str(s)) == Ok(s)
  {
  }

  /**
   * Any other string becomes a quoted literal: single quotes around it, every
   * inner quote doubled, so the length grows by the number of quotes plus two,
   * and collapsing the doubled quotes between the wrappers gives the string back.
   */
  lemma {:induction false} QuoteStringLiteral(s: string)
    requires !IsGuid(s)
    ensures QuoteValue(Str(s)).Ok?
    ensures var r := QuoteValue(Str(s)).value;
      && |r| == |s| + Count(s, '\'') + 2
      && r[0] == '\'' && r[|r| - 1] == '\''
      && CollapseQuotes(r[1..|r| - 1]) == s
  {
    var r := QuoteValue(Str(s)).value;
    DoubleQuotesLength(s);
    assert r[1..|r| - 1] == DoubleQuotes(s);
    CollapseDoubleQuotes(s);
  }

  /** Booleans and integers render as their plain text. */
  lemma {:induction false} QuoteScalars(b: bool, n: int)
    ensures QuoteValue(Bool(b)) == Ok(if b then "true" else "false")
    ensures QuoteValue(Num(n)) == Ok(IntToString(n))
  {
  }

  /**
   * An object with properties renders as `name=quoteValue(value)` items joined
   * by `", "`, and fails when one of its values does; one without properties
   * renders as `[object Object]`.
   */
  lemma {:induction false} QuoteObject(props: seq<(string, Value)>)
    ensures props == [] ==> QuoteValue(Obj(props)) == Ok("[object Object]")
    ensures props != [] ==> (QuoteValue(Obj(props)).Ok? <==> AllQuote(props))
    ensures props != [] && AllQuote(props) ==> QuoteValue(Obj(props)) == Ok(Join(RenderProperties(props), ", "))
  {
    if props != [] {
      var v := Obj(props);
      assert forall j :: 0 <= j < |props| ==> PropertyValue(v, j) == props[j].1;
      QuotePartsFailsIffNullish(v, 0);
      forall j | 0 <= j < |props| ensures QuoteValue(props[j].1).Ok? <==> !HoldsNullish(props[j].1) {
        QuoteValueFailsIffNullish(props[j].1);
      }
      if QuoteParts(v, 0).Ok? {
        QuotePartsContents(v, 0);
        assert forall j :: 0 <= j < |props| ==> QuotePart(v, j) == Ok(props[j].0 + "=" + QuoteValue(props[j].1).value);
        assert QuoteParts(v, 0).value == RenderProperties(props);
      } else {
        var j :| 0 <= j < |props| && HoldsNullish(PropertyValue(v, j));
        assert !QuoteValue(props[j].1).Ok?;
      }
    }
  }

  // ---------------------------------------------------------------------------
  // convertObjectToString
  // ---------------------------------------------------------------------------

  /**
   * The own enumerable properties of a value, in `for...in` order: an object's
   * properties, an array's elements under their indices, a string's characters
   * under their indices; other values have none.
   */
  function EnumerableProperties(v: Value): (ps: seq<(string, Value)>)
    ensures v.Obj? ==> ps == v.props
    ensures !(v.Obj? || v.Arr? || v.Str?) ==> ps == []
  {
    match v
    case Obj(props) => props
    case Arr(items) => seq(|items|, i requires 0 <= i < |items| => (NatToString(i), items[i]))
    case Str(s) => seq(|s|, i requires 0 <= i < |s| => (NatToString(i), Str([s[i]])))
    case _ => []
  }

  /** The properties whose value is not `undefined`, in order. */
  function DefinedProperties(ps: seq<(string, Value)>): (r: seq<(string, Value)>)
    ensures forall k :: 0 <= k < |r| ==> r[k].1 != Undefined
    ensures |r| <= |ps|
  {
    if ps == [] then []
    else
      var init := DefinedProperties(ps[..|ps| - 1]);
      if ps[|ps| - 1].1 == Undefined then init else init + [ps[|ps| - 1]]
  }

  /** Every property value quotes without throwing. */
  predicate AllQuote(ps: seq<(string, Value)>)
  {
    forall k :: 0 <= k < |ps| ==> QuoteValue(ps[k].1).Ok?
  }

  /** Each property whose value quotes without throwing, as `name=quoted`. */
  function RenderProperties(ps: seq<(string, Value)>): seq<string>
    requires AllQuote(ps)
  {
    seq(|ps|, k requires 0 <= k < |ps| => ps[k].0 + "=" + QuoteValue(ps[k].1).value)
  }

  /**
   * What `convertObjectToString(obj)` returns: the defined enumerable
   * properties as `name=quoteValue(value)`, joined by `", "`; it throws when
   * quoting one of them throws.
   */
  function ObjectToString(obj: Value): Result<string>
  {
    var defined := DefinedProperties(EnumerableProperties(obj));
    if AllQuote(defined) then
      Ok(Join(RenderProperties(defined), ", "))
    else
      Err(NullToObject)
  }

  lemma {:induction false} DefinedPropertiesStep(ps: seq<(string, Value)>, i: nat)
    requires i < |ps|
    ensures DefinedProperties(ps[..i + 1]) ==
      if ps[i].1 == Undefined then DefinedProperties(ps[..i]) else DefinedProperties(ps[..i]) + [ps[i]]
  {
    assert ps[..i + 1][..i] == ps[..i];
  }

  /** `convertObjectToString`: the `for...in` loop that collects the `name=value` parts. */
  method ConvertObjectToString(obj: Value) returns (r: Result<string>)
    ensures r == ObjectToString(obj)
  {
    var props := EnumerableProperties(obj);
    var parts: seq<string> := [];
    ghost var defined: seq<(string, Value)> := [];
    for i := 0 to |props|
      invariant defined == DefinedProperties(props[..i])
      invariant AllQuote(defined)
      invariant parts == RenderProperties(defined)
    {
      DefinedPropertiesStep(props, i);
      if props[i].1 != Undefined {
        var q := QuoteValue(props[i].1);
        if q.Err? {
          ObjectToStringFailsAt(obj, i);
          return Err(q.error);
        }
        RenderPropertiesAppend(defined, props[i]);
        parts := parts + [props[i].0 + "=" + q.value];
        defined := defined + [props[i]];
      }
    }
    assert props[..|props|] == props;
    r := Ok(Join(parts, ", "));
  }

  /** A defined property whose value fails to quote makes the whole conversion fail with its error. */
  lemma {:induction false} ObjectToStringFailsAt(obj: Value, i: nat)
    requires i < |EnumerableProperties(obj)|
    requires EnumerableProperties(obj)[i].1 != Undefined && QuoteValue(EnumerableProperties(obj)[i].1).Err?
    ensures ObjectToString(obj) == Err(QuoteValue(EnumerableProperties(obj)[i].1).error)
  {
    var props := EnumerableProperties(obj);
    DefinedPropertiesStep(props, i);
    DefinedPropertiesPrefix(props, i + 1);
    DefinedPropertiesFail(DefinedProperties(props), |DefinedProperties(props[..i])|, props[i]);
    QuoteValueFailsIffNullish(props[i].1);
  }

  /** Rendering one more quotable property adds its part at the end. */
  lemma {:induction false} RenderPropertiesAppend(ps: seq<(string, Value)>, p: (string, Value))
    requires AllQuote(ps) && QuoteValue(p.1).Ok?
    ensures AllQuote(ps + [p])
    ensures RenderProperties(ps + [p]) == RenderProperties(ps) + [p.0 + "=" + QuoteValue(p.1).value]
  {
    var qs := ps + [p];
    assert forall k :: 0 <= k < |ps| ==> qs[k] == ps[k];
    assert qs[|ps|] == p;
  }

  /** An object with a single defined, quotable property renders as `name=value`. */
  lemma {:induction false} ObjectToStringSingle(name: string, v: Value)
    requires v != Undefined && QuoteValue(v).Ok?
    ensures ObjectToString(Obj([(name, v)])) == Ok(name + "=" + QuoteValue(v).value)
  {
    var ps := [(name, v)];
    assert ps[..0] == [];
    assert DefinedProperties(ps) == ps;
    RenderPropertiesAppend([], (name, v));
    assert [] + ps == ps;
  }

  lemma {:induction false} DefinedPropertiesFail(whole: seq<(string, Value)>, k: nat, p: (string, Value))
    requires k < |whole| && whole[k] == p && QuoteValue(p.1).Err?
    ensures !AllQuote(whole)
  {
  }

  /** Filtering a prefix gives a prefix of the filtered whole. */
  lemma {:induction false} DefinedPropertiesPrefix(ps: seq<(string, Value)>, n: nat)
    requires n <= |ps|
    ensures DefinedProperties(ps[..n]) <= DefinedProperties(ps)
    decreases |ps| - n
  {
    if n < |ps| {
      DefinedPropertiesPrefix(ps, n + 1);
      DefinedPropertiesStep(ps, n);
    } else {
      assert ps[..n] == ps;
    }
  }

  /** Properties whose value is `undefined` make no difference to the result. */
  lemma {:induction false} DefinedPropertiesOfDefined(ps: seq<(string, Value)>)
    requires forall k :: 0 <= k < |ps| ==> ps[k].1 != Undefined
    ensures DefinedProperties(ps) == ps
  {
    if ps != [] {
      DefinedPropertiesOfDefined(ps[..|ps| - 1]);
      assert ps[..|ps| - 1] + [ps[|ps| - 1]] == ps;
    }
  }

  /**
   * For an object with at least one property and no `undefined` values,
   * `convertObjectToString` and `quoteValue` agree; an object without
   * properties gives the empty string.
   */
  lemma {:induction false} ObjectToStringMatchesQuote(props: seq<(string, Value)>)
    ensures props == [] ==> ObjectToString(Obj(props)) == Ok("")
    ensures props != [] && (forall k :: 0 <= k < |props| ==> props[k].1 != Undefined) ==>
      ObjectToString(Obj(props)) == QuoteValue(Obj(props))
  {
    if props != [] && (forall k :: 0 <= k < |props| ==> props[k].1 != Undefined) {
      DefinedPropertiesOfDefined(props);
      QuoteObject(props);
      if QuoteValue(Obj(props)).Ok? {
        assert RenderProperties(props) ==
          seq(|props|, j requires 0 <= j < |props| && QuoteValue(props[j].1).Ok? =>
                props[j].0 + "=" + QuoteValue(props[j].1).value);
      } else {
        QuoteValueFailsIffNullish(Obj(props));
      }
    }
  }

  // ---------------------------------------------------------------------------
  // tryParseInt
  // ---------------------------------------------------------------------------

  /** An optional sign followed by at least one decimal digit. */
  predicate IsIntegerText(t: string)
  {
    if |t| > 0 && (t[0] == '-' || t[0] == '+') then |t| > 1 && AllDigits(t[1..])
    else |t| > 0 && AllDigits(t)
  }

  function IntegerTextValue(t: string): int
    requires IsIntegerText(t)
  {
    if t[0] == '-' then -(DigitsValue(t[1..]) as int)
    else if t[0] == '+' then DigitsValue(t[1..])
    else DigitsValue(t)
  }

  /**
   * `tryParseInt(input)`: `Some(n)` for the `{valid: true, value: n}` result,
   * `None` for `valid: false`. Null fails the first guard; undefined, objects
   * and non-numeric strings are NaN for `isNaN`; booleans pass `isNaN` but
   * `parseInt('true')` is NaN; a string with surrounding white space around an
   * optionally signed run of digits parses to that integer.
   */
  function TryParseInt(input: Value): (r: Option<int>)
    ensures input.Null? || input.Undefined? || input.Bool? || input.Obj? ==> r == None
    ensures input.Num? ==> r == Some(input.n)
  {
    match input
    case Num(n) => Some(n)
    case Str(s) =>
      var t := Trim(s);
      if IsIntegerText(t) then Some(IntegerTextValue(t)) else None
    case _ => None
  }

  /** The text `String(n)` writes is an integer text with value `n`. */
  lemma {:induction false} IntToStringIsIntegerText(n: int)
    ensures IsIntegerText(IntToString(n)) && IntegerTextValue(IntToString(n)) == n
  {
    var m: nat := if n < 0 then -n else n;
    var d := NatToString(m);
    NatToStringRoundTrip(m);
    if n < 0 {
      assert IntToString(n) == "-" + d;
      assert ("-" + d)[1..] == d;
    } else {
      assert IntToString(n) == d;
      assert d[0] != '-' && d[0] != '+';
    }
  }

  /** A count written by `String(n)` is read back by `tryParseInt`. */
  lemma {:induction false} TryParseIntRoundTrip(n: int)
    ensures TryParseInt(Str(IntToString(n))) == Some(n)
  {
    var s := IntToString(n);
    var d := NatToString(if n < 0 then -n else n);
    assert s[|s| - 1] == d[|d| - 1];
    assert !IsSpace(s[0]) && !IsSpace(s[|s| - 1]);
    assert TrimStart(s) == s;
    assert TrimEnd(s) == s;
    IntToStringIsIntegerText(n);
  }

  /** Every character of an integer text is a digit or a sign. */
  lemma {:induction false} IntegerTextChars(t: string, j: nat)
    requires IsIntegerText(t) && j < |t|
    ensures IsDigit(t[j]) || t[j] == '-' || t[j] == '+'
  {
    if j > 0 && (t[0] == '-' || t[0] == '+') {
      assert t[1..][j - 1] == t[j];
    }
  }

  /** A string that holds a character other than a sign, a digit or white space is not a count. */
  lemma {:induction false} TryParseIntRejects(s: string, i: nat)
    requires i < |s| && !IsDigit(s[i]) && !IsSpace(s[i]) && s[i] != '-' && s[i] != '+'
    ensures TryParseInt(Str(s)) == None
  {
    var k := |s| - |TrimStart(s)|;
    var t := Trim(s);
    TrimMiddle(s);
    TrimCutsSpace(s);
    if IsIntegerText(t) {
      assert t[i - k] == s[i];
      IntegerTextChars(t, i - k);
    }
  }

  /**
   * A string holding an optionally signed, non-empty run of decimal digits
   * between white space is the count those digits spell, leading zeros and a
   * `+` sign included (`'007'`, `'+5'`, `' 12 '`).
   */
  lemma {:induction false} TryParseIntText(a: string, g: string, d: string, b: string)
    requires AllSpace(a) && AllSpace(b) && (g == "" || g == "-" || g == "+")
    requires d != "" && AllDigits(d)
    ensures TryParseInt(Str(a + g + d + b)) == Some(if g == "-" then -(DigitsValue(d) as int) else DigitsValue(d))
  {
    SignedDigits(g, d);
    assert a + g + d + b == a + (g + d) + b;
    TrimAround(a, g + d, b);
  }

  /** An optional sign before a non-empty digit run is a trimmed integer text with the digits' value. */
  lemma {:induction false} SignedDigits(g: string, d: string)
    requires (g == "" || g == "-" || g == "+") && d != "" && AllDigits(d)
    ensures Trimmed(g + d) && IsIntegerText(g + d)
    ensures IntegerTextValue(g + d) == if g == "-" then -(DigitsValue(d) as int) else DigitsValue(d)
  {
    var t := g + d;
    assert IsDigit(d[0]) && IsDigit(d[|d| - 1]);
    assert t[|t| - 1] == d[|d| - 1];
    if g == "" {
      assert t == d;
    } else {
      assert t[0] == g[0] && t[1..] == d;
    }
  }

  /** White space alone, or a lone sign between white space, is no count (`''`, `'-'`, `'+'`). */
  lemma {:induction false} TryParseIntNoDigits(a: string, g: string, b: string)
    requires AllSpace(a) && AllSpace(b) && (g == "" || g == "-" || g == "+")
    ensures TryParseInt(Str(a + g + b)) == None
  {
    TrimAround(a, g, b);
  }

  /** A string whose trimmed text holds white space inside is no count (`'1 2'`). */
  lemma {:induction false} TryParseIntInnerSpace(s: string, j: nat)
    requires j < |Trim(s)| && IsSpace(Trim(s)[j])
    ensures TryParseInt(Str(s)) == None
  {
    if IsIntegerText(Trim(s)) {
      IntegerTextChars(Trim(s), j);
    }
  }
}
