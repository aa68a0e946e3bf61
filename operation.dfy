/**
 * What every OData operation shares (`OdataOperation`): the `Expand` and
 * `Select` lists, their compilation into the `$expand`/`$select` query
 * parameters, the helpers that turn a `string | string[]` argument into a
 * list and back, the URL of an operation and the generic body decoder.
 */
module OdataOperation {
  import opened Strings
  import opened Results
  import opened OrderedMaps
  import opened OdataUtils
  import opened OdataConfiguration

  // ---------------------------------------------------------------------------
  // `string | string[]` arguments
  // ---------------------------------------------------------------------------

  /**
   * An argument typed `string | string[]` as it can arrive at run time:
   * null or undefined, a string, an array of strings, or a value of another
   * type (with its truthiness).
   */
  datatype TextInput = Absent | Text(s: string) | List(items: seq<string>) | Other(truthy: bool)

  predicate TruthyInput(input: TextInput)
  {
    match input
    case Absent => false
    case Text(s) => s != ""
    case List(_) => true
    case Other(truthy) => truthy
  }

  /** `toStringArray`: a string's comma-separated pieces, trimmed; an array as it is; `[]` otherwise. */
  function ToStringArray(input: TextInput): (names: seq<string>)
    ensures !TruthyInput(input) || input.Other? ==> names == []
    ensures input.List? && TruthyInput(input) ==> names == input.items
    ensures input.Text? && input.s != "" ==>
      |names| == |Split(input.s, ',')| && forall i :: 0 <= i < |names| ==> Trimmed(names[i])
  {
    if !TruthyInput(input) then []
    else
      match input
      case Text(s) => TrimPieces(Split(s, ','))
      case List(items) => items
      case _ => []
  }

  /** Each piece with the white space at its ends cut off. */
  function TrimPieces(pieces: seq<string>): (r: seq<string>)
    ensures |r| == |pieces| && forall i :: 0 <= i < |r| ==> r[i] == Trim(pieces[i])
  {
    seq(|pieces|, i requires 0 <= i < |pieces| => Trim(pieces[i]))
  }

  /** `toCommaString`: a string as it is, an array joined with `,`, `''` otherwise. */
  function ToCommaString(input: TextInput): (r: string)
    ensures input.Text? ==> r == input.s
    ensures input.List? && input.items != [] && (forall i :: 0 <= i < |input.items| ==> ',' !in input.items[i]) ==>
      Split(r, ',') == input.items
    ensures input.Other? ==> r == ""
  {
    match input
    case Text(s) => s
    case List(items) =>
      if items != [] && forall i :: 0 <= i < |items| ==> ',' !in items[i] then
        SplitJoin(items, ',');
        Join(items, ",")
      else Join(items, ",")
    case _ => ""
  }

  /**
   * Falsy input and input of another type give no names and an array is
   * taken as it is. A string gives one name per comma-separated piece (one
   * more than it has commas): the piece with the white space at its ends cut
   * off, so no name holds a comma or white space at either end.
   */
  lemma {:induction false} ToStringArrayCases(input: TextInput)
    ensures !TruthyInput(input) || input.Other? ==> ToStringArray(input) == []
    ensures input.List? ==> ToStringArray(input) == input.items
    ensures input.Text? && input.s != "" ==>
      var names := ToStringArray(input);
      && |names| == Count(input.s, ',') + 1
      && |names| == |Split(input.s, ',')|
      && forall i :: 0 <= i < |names| ==> ',' !in names[i] && Trimmed(names[i])
    ensures input.Text? && input.s != "" ==>
      var names := ToStringArray(input);
      forall i :: 0 <= i < |names| ==>
        exists a, b :: Split(input.s, ',')[i] == a + names[i] + b && AllSpace(a) && AllSpace(b)
  {
    if input.Text? && input.s != "" {
      SplitCount(input.s, ',');
      var pieces := Split(input.s, ',');
      var names := ToStringArray(input);
      forall i | 0 <= i < |names|
        ensures ',' !in names[i] && Trimmed(names[i])
        ensures exists a, b :: pieces[i] == a + names[i] + b && AllSpace(a) && AllSpace(b)
      {
        TrimInside(pieces[i], ',');
        TrimSurrounded(pieces[i]);
      }
    }
  }

  lemma {:induction false} TrimInside(s: string, c: char)
    requires c !in s
    ensures c !in Trim(s)
  {
    TrimMiddle(s);
  }

  /** A list of clean names survives `toCommaString` followed by `toStringArray`. */
  lemma {:induction false} CommaListRoundTrip(names: seq<string>)
    requires names != [] && Join(names, ",") != ""
    requires forall i :: 0 <= i < |names| ==> ',' !in names[i] && Trimmed(names[i])
    ensures ToStringArray(Text(ToCommaString(List(names)))) == names
  {
    var text := Join(names, ",");
    assert Split(text, ',') == names by {
      SplitJoin(names, ',');
    }
    TrimEach(names);
  }

  /** A comma list whose pieces carry no white space at their ends survives `toStringArray` followed by `toCommaString`. */
  lemma {:induction false} CommaTextRoundTrip(s: string)
    requires s != ""
    requires forall i :: 0 <= i < |Split(s, ',')| ==> Trimmed(Split(s, ',')[i])
    ensures ToCommaString(List(ToStringArray(Text(s)))) == s
  {
    var pieces := Split(s, ',');
    var names := ToStringArray(Text(s));
    assert names == pieces by {
      TrimEach(pieces);
    }
    calc {
      ToCommaString(List(names));
      Join(pieces, ",");
      s;
    }
  }

  /** Trimming pieces that carry no white space at their ends changes none of them. */
  lemma {:induction false} TrimEach(pieces: seq<string>)
    requires forall i :: 0 <= i < |pieces| ==> Trimmed(pieces[i])
    ensures TrimPieces(pieces) == pieces
  {
    forall i | 0 <= i < |pieces| ensures Trim(pieces[i]) == pieces[i] {
      TrimClean(pieces[i]);
    }
  }

  /**
   * The guard of `Expand`, `Select`, `orderBy` and `apply`: truthy input
   * replaces the list with `toStringArray(input)`, anything else leaves it.
   */
  function Assigned(current: seq<string>, input: TextInput): seq<string>
  {
    if TruthyInput(input) then ToStringArray(input) else current
  }

  /** Falsy input is ignored and truthy input replaces, never appends: the last truthy call wins. */
  lemma {:induction false} AssignedLastWins(current: seq<string>, first: TextInput, second: TextInput)
    ensures !TruthyInput(second) ==> Assigned(Assigned(current, first), second) == Assigned(current, first)
    ensures TruthyInput(second) ==> Assigned(Assigned(current, first), second) == ToStringArray(second)
    ensures !TruthyInput(first) ==> Assigned(current, first) == current
  {
  }

  // ---------------------------------------------------------------------------
  // The `$expand`/`$select` table
  // ---------------------------------------------------------------------------

  /** The `Map` from navigation name to its nested selects, in insertion order. */
  type ExpandTable = Entries<seq<string>>

  /** `expandData.get(name)`, with a missing entry read as no nested selects. */
  function SubList(t: ExpandTable, name: string): seq<string>
  {
    match Lookup(t, name)
    case Some(props) => props
    case None => []
  }

  /** The table after `this._expand.forEach(name => expandData.set(name, []))` over `expand`. */
  function Seed(expand: seq<string>): ExpandTable
  {
    if expand == [] then []
    else Put(Seed(expand[..|expand| - 1]), expand[|expand| - 1], [])
  }

  /** Adds `prop` under `nav`, first creating an empty entry at the end when `nav` is new. */
  function AddSubSelect(t: ExpandTable, nav: string, prop: string): ExpandTable
  {
    var t1 := if nav in Keys(t) then t else Put(t, nav, []);
    Put(t1, nav, SubList(t1, nav) + [prop])
  }

  /** One select visited: a path `nav/prop/...` adds `prop` under `nav`; a plain name leaves the table. */
  function Include(t: ExpandTable, select: string): ExpandTable
  {
    var items := Split(select, '/');
    if |items| > 1 then AddSubSelect(t, items[0], items[1]) else t
  }

  /** The table once `expand` has seeded it and every entry of `select` has been visited in order. */
  function Merge(expand: seq<string>, select: seq<string>): ExpandTable
  {
    if select == [] then Seed(expand)
    else Include(Merge(expand, select[..|select| - 1]), select[|select| - 1])
  }

  /** The selects without a `/`, in order. */
  function NormalSelects(select: seq<string>): seq<string>
  {
    if select == [] then []
    else
      var last := select[|select| - 1];
      NormalSelects(select[..|select| - 1]) + (if |Split(last, '/')| > 1 then [] else [last])
  }

  /** One table entry in `$expand`: `nav(<select key>=p,q)` when it has nested selects, the bare name otherwise. */
  function RenderExpand(selectKey: string, entry: (string, seq<string>)): string
  {
    if entry.1 != [] then entry.0 + "(" + selectKey + "=" + Join(entry.1, ",") + ")" else entry.0
  }

  function RenderExpands(selectKey: string, t: ExpandTable): seq<string>
  {
    seq(|t|, i requires 0 <= i < |t| => RenderExpand(selectKey, t[i]))
  }

  lemma {:induction false} RenderExpandsStep(selectKey: string, t: ExpandTable, i: nat)
    requires i < |t|
    ensures RenderExpands(selectKey, t[..i + 1]) == RenderExpands(selectKey, t[..i]) + [RenderExpand(selectKey, t[i])]
  {
    var a := RenderExpands(selectKey, t[..i + 1]);
    var b := RenderExpands(selectKey, t[..i]) + [RenderExpand(selectKey, t[i])];
    assert |a| == |b|;
    forall j | 0 <= j < |a| ensures a[j] == b[j] {
      assert t[..i + 1][j] == t[j];
    }
  }

  /** The parameters `getParams` returns: `$expand` then `$select`, each only when its list is non-empty. */
  function ExpandSelectParams(expand: seq<string>, select: seq<string>, keys: KeyConfigs): seq<(string, string)>
  {
    var t := Merge(expand, select);
    var normal := NormalSelects(select);
    (if |t| > 0 then [(keys.expand, Join(RenderExpands(keys.select, t), ","))] else [])
    + (if |normal| > 0 then [(keys.select, Join(normal, ","))] else [])
  }

  /**
   * `getParams`: seeds the table with the expand names, walks the selects
   * (filling the table and the list of plain selects), renders the table and
   * appends the two parameters.
   */
  method CompileExpandSelect(expand: seq<string>, select: seq<string>, keys: KeyConfigs)
    returns (params: seq<(string, string)>)
    ensures params == ExpandSelectParams(expand, select, keys)
  {
    var expandData: ExpandTable := [];
    var normalSelects: seq<string> := [];
    for i := 0 to |expand|
      invariant expandData == Seed(expand[..i])
    {
      assert expand[..i + 1][..i] == expand[..i];
      expandData := Put(expandData, expand[i], []);
    }
    assert expand[..|expand|] == expand;
    for i := 0 to |select|
      invariant expandData == Merge(expand, select[..i])
      invariant normalSelects == NormalSelects(select[..i])
    {
      assert select[..i + 1][..i] == select[..i];
      var items := Split(select[i], '/');
      if |items| > 1 {
        var expandName := items[0];
        var propertyName := items[1];
        if expandName !in Keys(expandData) {
          expandData := Put(expandData, expandName, []);
        }
        expandData := Put(expandData, expandName, SubList(expandData, expandName) + [propertyName]);
      } else {
        normalSelects := normalSelects + [select[i]];
      }
    }
    assert select[..|select|] == select;
    params := [];
    var expands: seq<string> := [];
    for i := 0 to |expandData|
      invariant expands == RenderExpands(keys.select, expandData[..i])
    {
      RenderExpandsStep(keys.select, expandData, i);
      expands := expands + [RenderExpand(keys.select, expandData[i])];
    }
    assert expandData[..|expandData|] == expandData;
    if |expands| > 0 {
      params := params + [(keys.expand, Join(expands, ","))];
    }
    if |normalSelects| > 0 {
      params := params + [(keys.select, Join(normalSelects, ","))];
    }
  }

  // ---------------------------------------------------------------------------
  // An independent description of the table
  // ---------------------------------------------------------------------------

  /** The names in order of first occurrence. */
  function Dedup(names: seq<string>): seq<string>
  {
    if names == [] then []
    else
      var init := Dedup(names[..|names| - 1]);
      var last := names[|names| - 1];
      if last in init then init else init + [last]
  }

  /** The navigation name of every `nav/prop` select, in order. */
  function NavigationNames(select: seq<string>): seq<string>
  {
    if select == [] then []
    else
      var items := Split(select[|select| - 1], '/');
      NavigationNames(select[..|select| - 1]) + (if |items| > 1 then [items[0]] else [])
  }

  /** The property of every `nav/prop` select under the navigation name `nav`, in order. */
  function SubSelectsOf(select: seq<string>, nav: string): seq<string>
  {
    if select == [] then []
    else
      var items := Split(select[|select| - 1], '/');
      SubSelectsOf(select[..|select| - 1], nav) + (if |items| > 1 && items[0] == nav then [items[1]] else [])
  }

  /** The deduplicated names are distinct and are exactly the names. */
  lemma {:induction false} DedupDistinct(names: seq<string>)
    ensures Distinct(Dedup(names))
    ensures forall x :: x in Dedup(names) <==> x in names
  {
    if names != [] {
      var init := names[..|names| - 1];
      DedupDistinct(init);
      assert names == init + [names[|names| - 1]];
    }
  }

  /** Distinct names are their own deduplication. */
  lemma {:induction false} DedupOfDistinct(names: seq<string>)
    requires Distinct(names)
    ensures Dedup(names) == names
  {
    if names != [] {
      var init := names[..|names| - 1];
      DedupOfDistinct(init);
      DedupDistinct(init);
      assert names == init + [names[|names| - 1]];
    }
  }

  lemma {:induction false} LastOfAppended(a: seq<string>, b: seq<string>, x: string)
    ensures (a + (b + [x]))[..|a + (b + [x])| - 1] == a + b
    ensures (a + (b + [x]))[|a + (b + [x])| - 1] == x
  {
  }

  /** Seeding gives one empty entry per distinct expand name, in order of first occurrence. */
  lemma {:induction false} SeedCharacterised(expand: seq<string>)
    ensures Keys(Seed(expand)) == Dedup(expand)
    ensures forall k :: SubList(Seed(expand), k) == []
  {
    if expand != [] {
      var init := expand[..|expand| - 1];
      var x := expand[|expand| - 1];
      SeedCharacterised(init);
      PutKeys(Seed(init), x, []);
      assert Seed(expand) == Put(Seed(init), x, []);
      forall k ensures SubList(Seed(expand), k) == [] {
        assert SubList(Seed(init), k) == [];
        LookupPut(Seed(init), x, [], k);
      }
    }
  }

  /** A table entry for a name that is not a key holds no nested selects. */
  lemma {:induction false} SubListAbsent(t: ExpandTable, k: string)
    requires k !in Keys(t)
    ensures SubList(t, k) == []
  {
    LookupPresent(t, k);
  }

  /** One `nav/prop` select adds `nav` at the end when it is new and appends `prop` to `nav`'s list. */
  lemma {:induction false} AddSubSelectEffect(t: ExpandTable, nav: string, prop: string)
    ensures Keys(AddSubSelect(t, nav, prop)) == if nav in Keys(t) then Keys(t) else Keys(t) + [nav]
    ensures forall k :: SubList(AddSubSelect(t, nav, prop), k) == SubList(t, k) + (if k == nav then [prop] else [])
  {
    var t1 := if nav in Keys(t) then t else Put(t, nav, []);
    if nav !in Keys(t) {
      PutKeys(t, nav, []);
      SubListAbsent(t, nav);
      forall k ensures SubList(t1, k) == SubList(t, k) {
        LookupPut(t, nav, [], k);
      }
    }
    assert nav in Keys(t1);
    PutKeys(t1, nav, SubList(t1, nav) + [prop]);
    forall k ensures SubList(AddSubSelect(t, nav, prop), k) == SubList(t, k) + (if k == nav then [prop] else []) {
      LookupPut(t1, nav, SubList(t1, nav) + [prop], k);
    }
  }

  /**
   * The table holds, in order of first occurrence, the expand names and then
   * the navigation names of the selects; under each name it holds that name's
   * nested selects, in order.
   */
  lemma {:induction false} MergeCharacterised(expand: seq<string>, select: seq<string>)
    ensures Keys(Merge(expand, select)) == Dedup(expand + NavigationNames(select))
    ensures forall k :: SubList(Merge(expand, select), k) == SubSelectsOf(select, k)
  {
    if select == [] {
      SeedCharacterised(expand);
      assert expand + NavigationNames(select) == expand;
    } else {
      MergeCharacterised(expand, select[..|select| - 1]);
      if |Split(select[|select| - 1], '/')| > 1 {
        MergePathStep(expand, select, select[..|select| - 1]);
      } else {
        MergePlainStep(expand, select, select[..|select| - 1]);
      }
    }
  }

  /** A select with a `/` adds its navigation name (when new) and its nested select. */
  lemma {:induction false} MergePathStep(expand: seq<string>, select: seq<string>, init: seq<string>)
    requires select != [] && init == select[..|select| - 1] && |Split(select[|select| - 1], '/')| > 1
    requires Keys(Merge(expand, init)) == Dedup(expand + NavigationNames(init))
    requires forall k :: SubList(Merge(expand, init), k) == SubSelectsOf(init, k)
    ensures Keys(Merge(expand, select)) == Dedup(expand + NavigationNames(select))
    ensures forall k :: SubList(Merge(expand, select), k) == SubSelectsOf(select, k)
  {
    var items := Split(select[|select| - 1], '/');
    var t := Merge(expand, init);
    var nav := items[0];
    assert Merge(expand, select) == AddSubSelect(t, nav, items[1]);
    AddSubSelectEffect(t, nav, items[1]);
    PathSelectNames(select, init);
    DedupAppend(expand + NavigationNames(init), nav);
    LastOfAppended(expand, NavigationNames(init), nav);
  }

  /** A `nav/prop` select at the end adds `nav` to the navigation names and `prop` under `nav` only. */
  lemma {:induction false} PathSelectNames(select: seq<string>, init: seq<string>)
    requires select != [] && init == select[..|select| - 1] && |Split(select[|select| - 1], '/')| > 1
    ensures NavigationNames(select) == NavigationNames(init) + [Split(select[|select| - 1], '/')[0]]
    ensures forall k ::
      SubSelectsOf(select, k) == SubSelectsOf(init, k)
        + (if k == Split(select[|select| - 1], '/')[0] then [Split(select[|select| - 1], '/')[1]] else [])
  {
  }

  /** A name added at the end is kept when it is new and dropped otherwise. */
  lemma {:induction false} DedupAppend(names: seq<string>, x: string)
    ensures Dedup(names + [x]) == if x in Dedup(names) then Dedup(names) else Dedup(names) + [x]
  {
    assert (names + [x])[..|names + [x]| - 1] == names;
  }

  /** A select without a `/` leaves the table as it is. */
  lemma {:induction false} MergePlainStep(expand: seq<string>, select: seq<string>, init: seq<string>)
    requires select != [] && init == select[..|select| - 1] && |Split(select[|select| - 1], '/')| <= 1
    requires Keys(Merge(expand, init)) == Dedup(expand + NavigationNames(init))
    requires forall k :: SubList(Merge(expand, init), k) == SubSelectsOf(init, k)
    ensures Keys(Merge(expand, select)) == Dedup(expand + NavigationNames(select))
    ensures forall k :: SubList(Merge(expand, select), k) == SubSelectsOf(select, k)
  {
    var t := Merge(expand, init);
    assert Merge(expand, select) == t;
    assert NavigationNames(select) == NavigationNames(init);
    forall k ensures SubList(Merge(expand, select), k) == SubSelectsOf(select, k) {
      assert SubSelectsOf(select, k) == SubSelectsOf(init, k);
      assert SubList(t, k) == SubSelectsOf(init, k);
    }
  }

  /** The `i`-th table entry is the `i`-th name with its nested selects. */
  lemma {:induction false} MergeEntries(expand: seq<string>, select: seq<string>)
    ensures var t := Merge(expand, select);
      var names := Dedup(expand + NavigationNames(select));
      && |t| == |names|
      && forall i :: 0 <= i < |t| ==> t[i] == (names[i], SubSelectsOf(select, names[i]))
  {
    var t := Merge(expand, select);
    var names := Dedup(expand + NavigationNames(select));
    MergeCharacterised(expand, select);
    DedupDistinct(expand + NavigationNames(select));
    assert |Keys(t)| == |t|;
    forall i | 0 <= i < |t| ensures t[i] == (names[i], SubSelectsOf(select, names[i])) {
      assert t[i].0 == Keys(t)[i];
      LookupAt(t, i);
    }
  }

  /**
   * What `getParams` means: `$expand` lists every expand and navigation name
   * once, in order of first occurrence, each with its nested `$select` when it
   * has one; `$select` lists the plain selects; each parameter is left out
   * when its list is empty, and `$expand` comes first.
   */
  lemma {:induction false} ExpandSelectParamsMeaning(expand: seq<string>, select: seq<string>, keys: KeyConfigs)
    ensures var names := Dedup(expand + NavigationNames(select));
      var rendered := seq(|names|, i requires 0 <= i < |names| => RenderExpand(keys.select, (names[i], SubSelectsOf(select, names[i]))));
      var normal := NormalSelects(select);
      ExpandSelectParams(expand, select, keys) ==
        (if names != [] then [(keys.expand, Join(rendered, ","))] else [])
        + (if normal != [] then [(keys.select, Join(normal, ","))] else [])
  {
    var t := Merge(expand, select);
    var names := Dedup(expand + NavigationNames(select));
    var rendered := seq(|names|, i requires 0 <= i < |names| => RenderExpand(keys.select, (names[i], SubSelectsOf(select, names[i]))));
    MergeEntries(expand, select);
    assert RenderExpands(keys.select, t) == rendered;
  }

  /** Plain selects keep their relative order: the plain selects of a concatenation are those of each part. */
  lemma {:induction false} NormalSelectsConcat(a: seq<string>, b: seq<string>)
    ensures NormalSelects(a + b) == NormalSelects(a) + NormalSelects(b)
  {
    if b == [] {
      assert a + b == a;
    } else {
      var init := b[..|b| - 1];
      NormalSelectsConcat(a, init);
      assert (a + b)[..|a + b| - 1] == a + init;
    }
  }

  /** A single select is plain exactly when it has no `/`. */
  lemma {:induction false} NormalSelectsSingle(x: string)
    ensures NormalSelects([x]) == if '/' in x then [] else [x]
  {
    SplitManyIffSeparator(x, '/');
    assert [x][..0] == [];
  }

  /** Without `/` in any select there are no navigation names and every select is plain. */
  lemma {:induction false} PlainSelects(select: seq<string>)
    requires forall i :: 0 <= i < |select| ==> '/' !in select[i]
    ensures NavigationNames(select) == [] && NormalSelects(select) == select
    ensures forall k :: SubSelectsOf(select, k) == []
  {
    if select != [] {
      var init := select[..|select| - 1];
      PlainSelects(init);
      SplitNoSeparator(select[|select| - 1], '/');
    }
  }

  /**
   * With no `/` in any select, `$expand` lists the distinct expand names bare,
   * comma-joined, in the given order, and `$select` lists the selects.
   */
  lemma {:induction false} ExpandOnly(expand: seq<string>, select: seq<string>, keys: KeyConfigs)
    requires Distinct(expand)
    requires forall i :: 0 <= i < |select| ==> '/' !in select[i]
    ensures ExpandSelectParams(expand, select, keys) ==
      (if expand != [] then [(keys.expand, Join(expand, ","))] else [])
      + (if select != [] then [(keys.select, Join(select, ","))] else [])
  {
    PlainSelects(select);
    assert expand + NavigationNames(select) == expand;
    DedupOfDistinct(expand);
    var names := Dedup(expand + NavigationNames(select));
    assert names == expand;
    var rendered := seq(|names|, i requires 0 <= i < |names| => RenderExpand(keys.select, (names[i], SubSelectsOf(select, names[i]))));
    assert rendered == expand by {
      forall i | 0 <= i < |names| ensures rendered[i] == expand[i] {
        assert SubSelectsOf(select, names[i]) == [];
      }
    }
    ExpandSelectParamsMeaning(expand, select, keys);
  }

  /**
   * One expand name and the selects `[p1, p2, nav/prop]` with `nav` a new
   * name: `$expand=exp,nav(<select key>=prop)` then `$select=p1,p2`. With
   * `Expand('EXP')` and `Select(['s1', 's2', 'Boss/Select'])` this is
   * `$expand=EXP,Boss($select=Select)&$select=s1,s2`; a select `Boss/`
   * with nothing after the slash gives `Boss($select=)`.
   */
  lemma {:induction false} ExpandSelectExample(exp: string, p1: string, p2: string, nav: string, prop: string, keys: KeyConfigs)
    requires '/' !in p1 && '/' !in p2 && '/' !in nav && '/' !in prop
    requires exp != nav
    ensures ExpandSelectParams([exp], [p1, p2, nav + "/" + prop], keys)
      == [(keys.expand, exp + "," + (nav + "(" + keys.select + "=" + prop + ")")), (keys.select, p1 + "," + p2)]
  {
    ExpandSelectRendered(exp, p1, p2, nav, prop, keys);
    JoinPair(exp, RenderExpand(keys.select, (nav, [prop])), ",");
    JoinPair(p1, p2, ",");
  }

  /** The example before joining: the two expand entries and the two plain selects. */
  lemma {:induction false} ExpandSelectRendered(exp: string, p1: string, p2: string, nav: string, prop: string, keys: KeyConfigs)
    requires '/' !in p1 && '/' !in p2 && '/' !in nav && '/' !in prop
    requires exp != nav
    ensures RenderExpand(keys.select, (nav, [prop])) == nav + "(" + keys.select + "=" + prop + ")"
    ensures ExpandSelectParams([exp], [p1, p2, nav + "/" + prop], keys)
      == [(keys.expand, Join([exp, RenderExpand(keys.select, (nav, [prop]))], ",")), (keys.select, Join([p1, p2], ","))]
  {
    var select := [p1, p2, nav + "/" + prop];
    var names := Dedup([exp] + NavigationNames(select));
    var rendered := seq(|names|, i requires 0 <= i < |names| => RenderExpand(keys.select, (names[i], SubSelectsOf(select, names[i]))));
    TwoPlainOnePath(p1, p2, nav, prop);
    assert names == [exp, nav] by {
      assert [exp] + [nav] == [exp, nav];
      DedupOfDistinct([exp, nav]);
    }
    assert rendered == [exp, RenderExpand(keys.select, (nav, [prop]))] by {
      assert SubSelectsOf(select, exp) == [] && SubSelectsOf(select, nav) == [prop];
    }
    ExpandSelectParamsMeaning([exp], select, keys);
  }

  /** The concrete case: `$expand=EXP,Boss($select=Select)&$select=s1,s2`. */
  lemma {:induction false} ExpandSelectSample()
    ensures ExpandSelectParams(["EXP"], ["s1", "s2", "Boss/Select"], DefaultKeys)
      == [("$expand", "EXP,Boss($select=Select)"), ("$select", "s1,s2")]
  {
    assert "Boss" + "/" + "Select" == "Boss/Select";
    assert "Boss" + "(" + "$select" + "=" + "Select" + ")" == "Boss($select=Select)";
    assert "EXP" + "," + "Boss($select=Select)" == "EXP,Boss($select=Select)";
    assert "s1" + "," + "s2" == "s1,s2";
    ExpandSelectExample("EXP", "s1", "s2", "Boss", "Select", DefaultKeys);
  }

  /**
   * The rendering as the code writes it: an element of `Array.from(expandData)`
   * is a `[key, value]` pair, so `element.value` is undefined and calling
   * `.any()` on it throws a TypeError at the first entry.
   */
  function RenderExpandsAsWritten(t: ExpandTable): (r: Result<seq<string>>)
    ensures r.Ok? <==> t == []
  {
    if t == [] then Ok([]) else Err(UndefinedAny)
  }

  /** `getParams` as written: the rendering above, then the same two appends. */
  function ExpandSelectParamsAsWritten(expand: seq<string>, select: seq<string>, keys: KeyConfigs): Result<seq<(string, string)>>
  {
    var expands :- RenderExpandsAsWritten(Merge(expand, select));
    var normal := NormalSelects(select);
    Ok((if |expands| > 0 then [(keys.expand, Join(expands, ","))] else [])
      + (if |normal| > 0 then [(keys.select, Join(normal, ","))] else []))
  }

  /**
   * As written, `getParams` throws exactly when there is something to expand
   * (an expand name or a `nav/prop` select); when there is not, it agrees
   * with the intended compilation.
   */
  lemma {:induction false} ExpandSelectAsWrittenThrows(expand: seq<string>, select: seq<string>, keys: KeyConfigs)
    ensures ExpandSelectParamsAsWritten(expand, select, keys).Err? <==> expand + NavigationNames(select) != []
    ensures ExpandSelectParamsAsWritten(expand, select, keys).Err? ==>
      Message(ExpandSelectParamsAsWritten(expand, select, keys).error) == "Cannot read properties of undefined (reading 'any')"
    ensures ExpandSelectParamsAsWritten(expand, select, keys).Ok? ==>
      ExpandSelectParamsAsWritten(expand, select, keys).value == ExpandSelectParams(expand, select, keys)
  {
    var names := expand + NavigationNames(select);
    var t := Merge(expand, select);
    assert t == [] <==> names == [] by {
      MergeCharacterised(expand, select);
      DedupDistinct(names);
      assert |Keys(t)| == |t|;
      if names != [] {
        assert names[0] in Dedup(names);
      }
    }
    if t == [] {
      assert RenderExpands(keys.select, t) == [];
    }
  }

  /**
   * `Expand('EXP')` on its own: as written `getParams` throws, where the
   * intended parameters are `$expand=EXP`.
   */
  lemma {:induction false} ExpandAsWrittenSample()
    ensures ExpandSelectParamsAsWritten(["EXP"], [], DefaultKeys) == Err(UndefinedAny)
    ensures ExpandSelectParams(["EXP"], [], DefaultKeys) == [("$expand", "EXP")]
  {
    ExpandSelectAsWrittenThrows(["EXP"], [], DefaultKeys);
    ExpandOnly(["EXP"], [], DefaultKeys);
    assert Join(["EXP"], ",") == "EXP";
  }

  lemma {:induction false} TwoPlainOnePath(p1: string, p2: string, nav: string, prop: string)
    requires '/' !in p1 && '/' !in p2 && '/' !in nav && '/' !in prop
    ensures var select := [p1, p2, nav + "/" + prop];
      && NavigationNames(select) == [nav]
      && NormalSelects(select) == [p1, p2]
      && forall k :: SubSelectsOf(select, k) == if k == nav then [prop] else []
  {
    assert [p1] == [] + [p1];
    AppendPlainSelect([], p1);
    assert [p1, p2] == [p1] + [p2];
    AppendPlainSelect([p1], p2);
    assert [p1, p2, nav + "/" + prop] == [p1, p2] + [nav + "/" + prop];
    AppendPathSelect([p1, p2], nav, prop);
  }

  /** A further plain select goes to the end of the plain selects and leaves the table alone. */
  lemma {:induction false} AppendPlainSelect(select: seq<string>, x: string)
    requires '/' !in x
    ensures NavigationNames(select + [x]) == NavigationNames(select)
    ensures NormalSelects(select + [x]) == NormalSelects(select) + [x]
    ensures forall k :: SubSelectsOf(select + [x], k) == SubSelectsOf(select, k)
  {
    SplitNoSeparator(x, '/');
    assert (select + [x])[..|select|] == select;
  }

  /**
   * A further select `nav/prop` adds `nav` to the navigation names and
   * appends `prop` to the nested selects of `nav` only.
   */
  lemma {:induction false} AppendPathSelect(select: seq<string>, nav: string, prop: string)
    requires '/' !in nav && '/' !in prop
    ensures NavigationNames(select + [nav + "/" + prop]) == NavigationNames(select) + [nav]
    ensures NormalSelects(select + [nav + "/" + prop]) == NormalSelects(select)
    ensures forall k :: SubSelectsOf(select + [nav + "/" + prop], k) == SubSelectsOf(select, k) + (if k == nav then [prop] else [])
  {
    SplitPair(nav, prop, '/');
    assert nav + "/" + prop == nav + ['/'] + prop;
    assert (select + [nav + "/" + prop])[..|select|] == select;
  }

  // ---------------------------------------------------------------------------
  // The URL and the response of an operation
  // ---------------------------------------------------------------------------

  /** `${params}`: every `key=value` joined with `&` (the percent-encoding of `HttpParams` is not modelled). */
  function QueryString(params: seq<(string, string)>): string
  {
    Join(seq(|params|, i requires 0 <= i < |params| => params[i].0 + "=" + params[i].1), "&")
  }

  /** `GenerateUrl`: the URI, followed by `?` and the query string when there are parameters. */
  function GenerateUrl(uri: string, params: seq<(string, string)>): (url: string)
    ensures |uri| <= |url| && url[..|uri|] == uri
    ensures url == uri <==> params == []
    ensures params != [] ==> url[|uri|] == '?'
  {
    if |params| > 0 then uri + "?" + QueryString(params) else uri
  }

  /** The URL is the bare URI exactly when there are no parameters; otherwise the query follows a `?`. */
  lemma {:induction false} GenerateUrlShape(uri: string, params: seq<(string, string)>)
    ensures GenerateUrl(uri, params) == uri <==> params == []
    ensures params != [] ==> GenerateUrl(uri, params) == uri + "?" + QueryString(params)
  {
    if params != [] {
      assert |GenerateUrl(uri, params)| > |uri|;
    }
  }

  /** One parameter contributes exactly `key=value`, and further ones follow it after `&`. */
  lemma {:induction false} QueryStringCons(p: (string, string), rest: seq<(string, string)>)
    ensures QueryString([p]) == p.0 + "=" + p.1
    ensures rest != [] ==> QueryString([p] + rest) == p.0 + "=" + p.1 + "&" + QueryString(rest)
  {
    if rest != [] {
      var entries := seq(|[p] + rest|, i requires 0 <= i < |[p] + rest| => ([p] + rest)[i].0 + "=" + ([p] + rest)[i].1);
      var tail := seq(|rest|, i requires 0 <= i < |rest| => rest[i].0 + "=" + rest[i].1);
      assert entries == [p.0 + "=" + p.1] + tail;
      JoinCons(p.0 + "=" + p.1, tail, "&");
    }
  }

  /**
   * `extractData`: a status outside [200, 300) throws; otherwise the body,
   * or `{}` when the body is falsy.
   */
  function ExtractData(res: Response<Value>): (r: Result<Value>)
    ensures r.Ok? <==> SuccessStatus(res.status)
    ensures r.Err? ==> r.error == BadStatus(res.status)
    ensures r.Ok? ==> Truthy(r.value) && (Truthy(res.body) ==> r.value == res.body)
  {
    var _ :- CheckStatus(res.status);
    Ok(if Truthy(res.body) then res.body else Obj([]))
  }

  /** The decoder rejects a bad status, hands a truthy body over and replaces a falsy one by an empty object. */
  lemma {:induction false} ExtractDataCases(res: Response<Value>)
    ensures ExtractData(res).Err? <==> !SuccessStatus(res.status)
    ensures ExtractData(res).Err? ==> Message(ExtractData(res).error) == "Bad response status: " + IntToString(res.status)
    ensures SuccessStatus(res.status) && Truthy(res.body) ==> ExtractData(res) == Ok(res.body)
    ensures SuccessStatus(res.status) && !Truthy(res.body) ==> ExtractData(res) == Ok(Obj([]))
  {
  }

  // ---------------------------------------------------------------------------
  // Operations
  // ---------------------------------------------------------------------------

  /**
   * The concrete operation and what it addresses: get and delete one entity
   * by key (`OperationWithKey`), post an entity to the collection
   * (`OperationWithEntity`), patch and put an entity at a key
   * (`OperationWithKeyAndEntity`).
   */
  datatype Kind =
    | GetOp(key: string)
    | PostOp(entity: Value)
    | PatchOp(key: string, entity: Value)
    | PutOp(key: string, entity: Value)
    | DeleteOp(key: string)

  datatype HttpMethod = GET | POST | PATCH | PUT | DELETE

  /**
   * What an operation's `exec` hands to the HTTP client: the method, the URL,
   * the query parameters, the headers of the request options and the entity
   * sent as the body (`None` for `null`).
   */
  datatype OperationRequest = OperationRequest(
    httpMethod: HttpMethod, url: string, params: seq<(string, string)>, headers: Headers, body: Option<Value>)

  /** An operation on the collection `typeName`, with its `Expand`/`Select` state. */
  class Operation {
    const typeName: string
    const config: Configuration
    const kind: Kind
    var expand: seq<string>
    var select: seq<string>

    constructor (typeName: string, config: Configuration, kind: Kind)
      ensures this.typeName == typeName && this.config == config && this.kind == kind
      ensures expand == [] && select == []
    {
      this.typeName := typeName;
      this.config := config;
      this.kind := kind;
      expand := [];
      select := [];
    }

    /** `Expand(input)`. */
    method Expand(input: TextInput)
      modifies this`expand
      ensures expand == Assigned(old(expand), input)
    {
      if TruthyInput(input) {
        expand := ToStringArray(input);
      }
    }

    /** `Select(input)`. */
    method Select(input: TextInput)
      modifies this`select
      ensures select == Assigned(old(select), input)
    {
      if TruthyInput(input) {
        select := ToStringArray(input);
      }
    }

    /** `getParams()`. */
    method GetParams() returns (params: seq<(string, string)>)
      ensures params == ExpandSelectParams(expand, select, config.keys)
    {
      params := CompileExpandSelect(expand, select, config.keys);
    }

    /** The URI the operation targets: the collection URI for a post, the entity URI otherwise. */
    function Uri(): string
      reads this, config
    {
      if kind.PostOp? then config.EntitiesUri(typeName)
      else config.EntitiesUri(typeName) + "(" + QuoteString(kind.key) + ")"
    }

    /** `getUrl()`: the target URI with the compiled `$expand`/`$select`. */
    function GetUrl(): (url: string)
      reads this, config
      ensures |Uri()| <= |url| && url[..|Uri()|] == Uri()
      ensures url == Uri() <==> ExpandSelectParams(expand, select, config.keys) == []
      ensures ExpandSelectParams(expand, select, config.keys) != [] ==> |Uri()| < |url| && url[|Uri()|] == '?'
    {
      GenerateUrl(Uri(), ExpandSelectParams(expand, select, config.keys))
    }

    /**
     * The request `exec()` sends. A get goes with the default request options
     * and the compiled parameters; post, patch and put with the post request
     * options, the parameters and the entity when it is truthy; a delete with
     * the configuration's default request options as they are, so without
     * parameters.
     */
    function Exec(): (req: OperationRequest)
      reads this, config
      ensures req.url == Uri()
      ensures req.httpMethod == DELETE <==> kind.DeleteOp?
      ensures req.httpMethod != DELETE ==> req.params == ExpandSelectParams(expand, select, config.keys)
      ensures req.httpMethod == DELETE ==> req.params == []
      ensures req.body.Some? ==> Truthy(req.body.value) && !kind.GetOp? && !kind.DeleteOp?
      ensures req.headers == if kind.GetOp? || kind.DeleteOp? then config.defaultHeaders else config.postHeaders
    {
      var params := ExpandSelectParams(expand, select, config.keys);
      match kind
      case GetOp(_) => OperationRequest(GET, Uri(), params, config.defaultHeaders, None)
      case PostOp(entity) => OperationRequest(POST, Uri(), params, config.postHeaders, SentBody(entity))
      case PatchOp(_, entity) => OperationRequest(PATCH, Uri(), params, config.postHeaders, SentBody(entity))
      case PutOp(_, entity) => OperationRequest(PUT, Uri(), params, config.postHeaders, SentBody(entity))
      case DeleteOp(_) => OperationRequest(DELETE, Uri(), [], config.defaultHeaders, None)
    }
  }

  /** The body of a post, patch or put: the entity when it is truthy, `null` otherwise. */
  function SentBody(entity: Value): (b: Option<Value>)
    ensures b.Some? <==> Truthy(entity)
    ensures b.Some? ==> b.value == entity
  {
    if Truthy(entity) then Some(entity) else None
  }

  /** The URI of a keyed operation is what the configuration gives for its key, read at the time of the call. */
  lemma {:induction false} OperationUri(op: Operation)
    ensures op.kind.PostOp? ==> op.Uri() == op.config.EntitiesUri(op.typeName)
    ensures !op.kind.PostOp? ==> Ok(op.Uri()) == op.config.EntityUri(Str(op.kind.key), op.typeName)
  {
  }

  /**
   * Every request goes to the operation's URI. Except for a delete, its
   * parameters are those `getUrl()` shows, so the URL text is the request's
   * URL with its query string; a delete sends none of them, whatever was
   * expanded or selected. Only post, patch and put use the post headers and
   * may carry a body.
   */
  lemma {:induction false} ExecMatchesUrl(op: Operation)
    ensures op.Exec().url == op.Uri()
    ensures !op.kind.DeleteOp? ==> op.GetUrl() == GenerateUrl(op.Exec().url, op.Exec().params)
    ensures op.kind.DeleteOp? ==> op.Exec().params == [] && op.Exec().httpMethod == DELETE
    ensures op.Exec().body.Some? ==> op.kind.PostOp? || op.kind.PatchOp? || op.kind.PutOp?
    ensures op.Exec().headers == if op.kind.GetOp? || op.kind.DeleteOp? then op.config.defaultHeaders else op.config.postHeaders
  {
  }

  /** An entity is sent exactly when it is truthy, and then as it is. */
  lemma {:induction false} ExecBody(op: Operation)
    requires op.kind.PostOp? || op.kind.PatchOp? || op.kind.PutOp?
    ensures op.Exec().body.Some? <==> Truthy(op.kind.entity)
    ensures op.Exec().body.Some? ==> op.Exec().body.value == op.kind.entity
  {
  }

  /** An operation with nothing expanded or selected targets its URI bare. */
  lemma {:induction false} OperationUrlBare(op: Operation)
    requires op.expand == [] && op.select == []
    ensures op.GetUrl() == op.Uri()
  {
    assert Merge([], []) == [];
    assert NormalSelects([]) == [];
  }
}
