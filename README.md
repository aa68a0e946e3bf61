# primeng-odata core, modelled in Dafny

This project models the core of the primeng-odata client for OData services.
That core turns a query built with fluent setters (`Expand`, `Select`,
`filter`, `search`, `top`, `skip`, `orderBy`, `apply`, `maxPerPage`,
`customQueryOptions`) into an ordered list of query parameters and a URL.
It merges `nav/prop` selects into `$expand=nav($select=prop)`, checks custom
option keys, and addresses collections, entities, bound actions and bound
functions. It also decodes response envelopes: the status, the data, the
count with its fallback, and the next link.

The modules follow the source files:

| module | file | form |
|---|---|---|
| `Strings`, `Results`, `OrderedMaps` | (support) | the JavaScript string built-ins the code relies on, thrown errors as `Result`, insertion-ordered `Map`/`HttpHeaders` |
| `OdataUtils` | `odata-utils.ts` | `quoteValue` and `tryParseInt` as recursive functions; `convertObjectToString` as a method with its loop, proved against a function |
| `OdataConfiguration` | `odata-configuration.ts` | key names and URIs as functions; the decoders as functions and, for the one that fills a record step by step, a method; the configuration object as a class with a mutable base URL |
| `OdataOperation` | `odata-operation.ts` | `toStringArray`/`toCommaString`, the expand table and the URL as functions; `getParams` as a method with its loops, proved against `ExpandSelectParams`; an operation as a class whose `Expand`/`Select` replace its lists |
| `OdataQuery` | `odata-query.ts` | a query as a class whose setters update its fields; `getQueryParams` and its custom-option loop as methods proved against `QueryParams`; the URL, the headers and the requests as functions of the state |
| `OdataService` | `odata-service.ts` | the factory methods and the bound URLs of a service |

The inputs have these types:

- Values a caller passes are a `Value` datatype: entities, function
  parameters, the key given to the configuration's `EntityUri`, and the body
  that the generic `ExtractData` decodes. A `Value` is undefined, null, a
  boolean, an integer, a string, an array or an object, and an object keeps
  its properties in enumeration order.
- The keys that operations and the service address entities by are strings.
- The body of a collection response is an `Envelope`, or none for a null
  body. Its `value` is always an array, its `@odata.count` is any `Value`,
  and its `@odata.nextLink` is a string or absent.
- The body of a count response is an integer, or none for a null body. An exception the code throws is an `Err` carrying its
kind; the kind's `Message` is the text the code (or the engine, for a
TypeError) puts in it.

Behaviour of the code that is easy to misread:

- A select is a navigation path when `split('/')` gives more than one piece.
  Only the first two pieces are used, so `A/B/C` adds `B` under `A`, and a
  longer path is not treated as a plain select.
- The expand table is a `Map`. A name keeps its first position, and the
  selects nested under it keep their order. Repeated expand names collapse
  to one.
- `quoteValue` of null or undefined throws the TypeError of
  `Object.getOwnPropertyNames`. That includes a key or parameter that holds
  one anywhere below it.
- An object without own properties renders as `[object Object]` in
  `quoteValue`, and as `''` in `convertObjectToString`.
- `$count=true` is appended under the literal key `$count`. The count URL
  uses the configured `keys.count`.
- A query and a service fix their collection URI at construction, from the
  base URL the configuration has then. Their entity URIs (`getEntityUri`)
  read the base URL at the time of the call.
- `nextPage` sends the query's parameters without `$count=true`.
- A delete operation is sent with `config.defaultRequestOptions` as it is.
  So it carries none of the `$expand`/`$select` parameters that its
  `getUrl()` shows.
- `HttpHeaders.set('Prefer', …)` replaces an existing `Prefer` entry where
  it stands, or appends a new one at the end.
- The custom query options are a record, iterated in entry order. A key read
  from a record is never null, so the null-key error of
  `checkReservedCustomQueryOptionKey` is modelled on the check itself
  (`Option<string>`) and cannot arise from `getQueryParams`.
- In the custom function guard, `endsWith('()')` implies `endsWith(')')`, so
  only the first test decides.

## Model

| member | source | states |
|---|---|---|
| Strings.Split | projects/primeng-odata/src/lib/odata/odata-operation.ts:34 | `split('/')` and `split(',')`: at least one piece, no piece holds the separator, and joining the pieces with it gives the string back |
| Strings.SplitNoSeparator | projects/primeng-odata/src/lib/odata/odata-operation.ts:34 | a string without the separator splits into itself alone |
| Strings.SplitAtFirst | projects/primeng-odata/src/lib/odata/odata-operation.ts:34 | the first piece ends at the first separator and the rest splits on its own |
| Strings.SplitManyIffSeparator | projects/primeng-odata/src/lib/odata/odata-operation.ts:37 | `items.length > 1` holds exactly when the select contains a `/` |
| Strings.SplitCount | projects/primeng-odata/src/lib/odata/odata-operation.ts:135 | the number of pieces is one more than the number of separators |
| Strings.SplitPair | projects/primeng-odata/src/lib/odata/odata-operation.ts:37-39 | a `nav/prop` path without further slashes splits into `[nav, prop]` |
| Strings.SplitJoin | projects/primeng-odata/src/lib/odata/odata-operation.ts:135 | splitting the join of separator-free pieces gives the pieces back |
| Strings.JoinHasSeparator | projects/primeng-odata/src/lib/odata/odata-operation.ts:152 | joining two or more parts puts the separator into the text |
| Strings.TrimStart | projects/primeng-odata/src/lib/odata/odata-operation.ts:135 | what is left is a suffix of the input that does not start with white space |
| Strings.TrimEnd | projects/primeng-odata/src/lib/odata/odata-operation.ts:135 | what is left is a prefix of the input that does not end with white space |
| Strings.Trim | projects/primeng-odata/src/lib/odata/odata-operation.ts:135 | `trim()` leaves no white space at either end |
| Strings.TrimMiddle | projects/primeng-odata/src/lib/odata/odata-operation.ts:135 | `trim()` leaves a contiguous slice of its input |
| Strings.TrimCutsSpace | projects/primeng-odata/src/lib/odata/odata-operation.ts:135 | `trim()` removes only white space, on both sides |
| Strings.TrimClean | projects/primeng-odata/src/lib/odata/odata-operation.ts:135 | a string without white space at its ends is its own trim |
| Strings.TrimStartSpaces | projects/primeng-odata/src/lib/odata/odata-utils.ts:44-45 | leading white space before a text that starts with a non-space is exactly what is dropped at the front |
| Strings.TrimEndSpaces | projects/primeng-odata/src/lib/odata/odata-utils.ts:44-45 | trailing white space after a text that ends with a non-space is exactly what is dropped at the back |
| Strings.TrimAround | projects/primeng-odata/src/lib/odata/odata-utils.ts:44-45 | a text without white space at its ends, wrapped in white space, trims back to itself |
| Strings.StripTrailing | projects/primeng-odata/src/lib/odata/odata-configuration.ts:54 | `replace(/\/+$/, '')` leaves a prefix of the input that does not end with the character |
| Strings.StripTrailingCuts | projects/primeng-odata/src/lib/odata/odata-configuration.ts:54 | only the stripped character is removed |
| Strings.StripLeading | projects/primeng-odata/src/lib/odata/odata-configuration.ts:124 | `replace(/^\/+/, '')` leaves a suffix of the input that does not start with the character |
| Strings.StripLeadingCuts | projects/primeng-odata/src/lib/odata/odata-configuration.ts:124 | only the stripped character is removed |
| Strings.StripTrailingIdempotent | projects/primeng-odata/src/lib/odata/odata-configuration.ts:53-55 | stripping a second time removes nothing more |
| Strings.StripTrailingAppended | projects/primeng-odata/src/lib/odata/odata-configuration.ts:53-55 | a base URL with any number of extra trailing slashes is stored the same |
| Strings.DoubleQuotesLength | projects/primeng-odata/src/lib/odata/odata-utils.ts:25 | doubling quotes lengthens the text by the number of quotes |
| Strings.CollapseDoubleQuotes | projects/primeng-odata/src/lib/odata/odata-utils.ts:25 | collapsing doubled quotes undoes the doubling on every string |
| Strings.DoubleQuotesPaired | projects/primeng-odata/src/lib/odata/odata-utils.ts:25 | no single quote is left on its own in the escaped text |
| Strings.NatToString | projects/primeng-odata/src/lib/odata/odata-query.ts:233 | the decimal text of a natural number is non-empty, all digits, without a leading zero |
| Strings.IntToString | projects/primeng-odata/src/lib/odata/odata-query.ts:233 | the text of an integer starts with `-` exactly when it is negative |
| Strings.NatToStringRoundTrip | projects/primeng-odata/src/lib/odata/odata-query.ts:233 | reading the decimal text back gives the number |
| Strings.NatToStringInjective | projects/primeng-odata/src/lib/odata/odata-query.ts:233-237 | different counts write different texts |
| OrderedMaps.PutKeys | projects/primeng-odata/src/lib/odata/odata-query.ts:215 | `HttpHeaders.set` keeps the key order and adds a new key at the end |
| OrderedMaps.LookupPut | projects/primeng-odata/src/lib/odata/odata-query.ts:215 | after setting a key it reads the new value and every other key reads what it read before |
| OrderedMaps.LookupPresent | projects/primeng-odata/src/lib/odata/odata-operation.ts:41 | `expandData.has(k)` holds exactly when `get(k)` finds a value |
| OrderedMaps.LookupAt | projects/primeng-odata/src/lib/odata/odata-operation.ts:45 | with distinct keys each entry is what its key reads |
| OrderedMaps.LookupConcat | projects/primeng-odata/src/lib/odata/odata-query.ts:221-260 | a lookup in appended parameters finds the first part's entry when the key is there |
| OdataUtils.PropertyValue | projects/primeng-odata/src/lib/odata/odata-utils.ts:35-36 | a property value is structurally smaller than the value holding it, so the recursion of `quoteValue` ends |
| OdataUtils.QuoteValueFailsIffNullish | projects/primeng-odata/src/lib/odata/odata-utils.ts:17-41 | `quoteValue` throws exactly when a null or undefined is reachable below the value, and then with the engine's TypeError |
| OdataUtils.QuoteValue | projects/primeng-odata/src/lib/odata/odata-utils.ts:17-41 | strings, booleans and integers always render; null and undefined throw the TypeError of `Object.getOwnPropertyNames`, which is the only error it can raise at any depth; an empty object renders as `[object Object]` |
| OdataUtils.QuoteParts | projects/primeng-odata/src/lib/odata/odata-utils.ts:34-38 | the property loop yields one part per remaining property, or the same TypeError |
| OdataUtils.QuotePart | projects/primeng-odata/src/lib/odata/odata-utils.ts:35-36 | a property renders or fails only with the TypeError of a nested null or undefined |
| OdataUtils.QuotePartsFailsIffNullish | projects/primeng-odata/src/lib/odata/odata-utils.ts:34-38 | the property loop throws exactly when one of the remaining properties holds a null or undefined |
| OdataUtils.QuotePartsContents | projects/primeng-odata/src/lib/odata/odata-utils.ts:34-38 | when nothing throws, the loop yields one `name=quoteValue(value)` part per property, in order |
| OdataUtils.QuotePartAt | projects/primeng-odata/src/lib/odata/odata-utils.ts:34-38 | the part of the `j`-th property sits at its place in the list |
| OdataUtils.QuoteGuid | projects/primeng-odata/src/lib/odata/odata-utils.ts:19-21 | a GUID-shaped string, in either case, is returned as it is |
| OdataUtils.QuoteStringLiteral | projects/primeng-odata/src/lib/odata/odata-utils.ts:24-27 | any other string becomes `'…'` with every inner quote doubled; its length grows by the quote count plus two, and collapsing the inside gives the string back |
| OdataUtils.QuoteScalars | projects/primeng-odata/src/lib/odata/odata-utils.ts:30-32 | booleans render as `true`/`false` and integers as their decimal text |
| OdataUtils.QuoteObject | projects/primeng-odata/src/lib/odata/odata-utils.ts:34-40 | an object with properties renders as `name=value` items joined by `, ` and throws when one value does; an empty one renders as `[object Object]` |
| OdataUtils.EnumerableProperties | projects/primeng-odata/src/lib/odata/odata-utils.ts:7-8 | `for...in` visits an object's own properties in order and nothing for scalars and null |
| OdataUtils.DefinedProperties | projects/primeng-odata/src/lib/odata/odata-utils.ts:8 | the filtered properties are none of them undefined and are no more than the input |
| OdataUtils.ConvertObjectToString | projects/primeng-odata/src/lib/odata/odata-utils.ts:4-15 | the `for...in` loop returns the defined properties as `name=value` joined by `, `, and the error of the first one that throws |
| OdataUtils.ObjectToStringFailsAt | projects/primeng-odata/src/lib/odata/odata-utils.ts:8-9 | one defined property whose quoting throws makes the whole conversion throw that error |
| OdataUtils.RenderPropertiesAppend | projects/primeng-odata/src/lib/odata/odata-utils.ts:11 | each further property adds its part at the end |
| OdataUtils.ObjectToStringSingle | projects/primeng-odata/src/lib/odata/odata-utils.ts:4-15 | a single defined property renders as `name=value` |
| OdataUtils.DefinedPropertiesFail | projects/primeng-odata/src/lib/odata/odata-utils.ts:8-9 | a property whose value throws makes the whole property list unquotable |
| OdataUtils.DefinedPropertiesPrefix | projects/primeng-odata/src/lib/odata/odata-utils.ts:7-13 | the properties filtered so far are a prefix of all filtered properties |
| OdataUtils.DefinedPropertiesOfDefined | projects/primeng-odata/src/lib/odata/odata-utils.ts:8 | without undefined values the filter keeps every property |
| OdataUtils.ObjectToStringMatchesQuote | projects/primeng-odata/src/lib/odata/odata-utils.ts:4-41 | on an object with properties and no undefined value `convertObjectToString` and `quoteValue` agree; on an empty object they differ (`''` against `[object Object]`) |
| OdataUtils.TryParseInt | projects/primeng-odata/src/lib/odata/odata-utils.ts:43-56 | null, undefined, booleans and objects are no count, and an integer is its own count; the string cases are stated by `TryParseIntText`, `TryParseIntNoDigits`, `TryParseIntInnerSpace`, `TryParseIntRejects` and `TryParseIntRoundTrip` |
| OdataUtils.IntToStringIsIntegerText | projects/primeng-odata/src/lib/odata/odata-utils.ts:45 | the text of an integer is an optionally signed digit run with that value |
| OdataUtils.TryParseIntRoundTrip | projects/primeng-odata/src/lib/odata/odata-utils.ts:43-56 | a count written as decimal text is read back as that integer |
| OdataUtils.TryParseIntRejects | projects/primeng-odata/src/lib/odata/odata-utils.ts:44 | a string holding a character other than a sign, a digit or white space is no count |
| OdataUtils.TryParseIntText | projects/primeng-odata/src/lib/odata/odata-utils.ts:43-56 | a string with an optional sign and a non-empty digit run between white space is valid, with the value of those digits, negated after `-`; this includes leading zeros, `+` and surrounding white space (`'007'`, `'+5'`, `' 12 '`) |
| OdataUtils.SignedDigits | projects/primeng-odata/src/lib/odata/odata-utils.ts:45 | an optional sign before a digit run has no white space at its ends and reads as the signed value of the digits |
| OdataUtils.TryParseIntNoDigits | projects/primeng-odata/src/lib/odata/odata-utils.ts:43-56 | white space alone, or a lone `-` or `+` between white space, is no count (`''`, `'-'`, `'+'`) |
| OdataUtils.TryParseIntInnerSpace | projects/primeng-odata/src/lib/odata/odata-utils.ts:43-56 | a string whose trimmed text has white space inside is no count (`'1 2'`) |
| OdataConfiguration.SanitizeTypeName | projects/primeng-odata/src/lib/odata/odata-configuration.ts:123-125 | the sanitized name neither starts nor ends with `/` |
| OdataConfiguration.SanitizeMiddle | projects/primeng-odata/src/lib/odata/odata-configuration.ts:123-125 | the sanitized name is a contiguous slice of the type name |
| OdataConfiguration.SanitizeCutsSlashes | projects/primeng-odata/src/lib/odata/odata-configuration.ts:123-125 | only slashes are cut off on either side |
| OdataConfiguration.SanitizeClean | projects/primeng-odata/src/lib/odata/odata-configuration.ts:123-125 | a name without slashes at its ends is left as it is |
| OdataConfiguration.SanitizeSlashes | projects/primeng-odata/src/lib/odata/odata-configuration.ts:123-125 | any runs of slashes around a clean name are all removed |
| OdataConfiguration.CheckStatus | projects/primeng-odata/src/lib/odata/odata-configuration.ts:77-79 | the guard passes exactly for a status in [200, 300) and otherwise fails with that status |
| OdataConfiguration.ExtractQueryResultDataWithCount | projects/primeng-odata/src/lib/odata/odata-configuration.ts:92-121 | bad status throws; a null body throws; otherwise the page holds the entities, the parsed count or else the entity count, and the next link or `''` |
| OdataConfiguration.ExtractQueryResultDataAsNumber | projects/primeng-odata/src/lib/odata/odata-configuration.ts:76-82 | fails exactly on a status outside 200-299, with `Bad response status: <status>`; otherwise hands the body over untouched |
| OdataConfiguration.ExtractQueryResultData | projects/primeng-odata/src/lib/odata/odata-configuration.ts:84-90 | fails exactly on a bad status; otherwise a null body gives null and a body gives its `value` array |
| OdataConfiguration.PageCountCases | projects/primeng-odata/src/lib/odata/odata-configuration.ts:108-114 | a numeric count or a string of digits is taken; null, undefined or `abc` falls back to the page length |
| OdataConfiguration.DecodersRejectBadStatus | projects/primeng-odata/src/lib/odata/odata-configuration.ts:76-90 | both plain decoders reject a bad status with `Bad response status: <status>` |
| OdataConfiguration.DecodersPassPayload | projects/primeng-odata/src/lib/odata/odata-configuration.ts:81-89 | on success the count body and the `value` array (or a null body) are handed over as they are |
| OdataConfiguration.Configuration.constructor | projects/primeng-odata/src/lib/odata/odata-configuration.ts:21-42 | a fresh configuration has the default base URL, the OData 4 key names, no default headers and the JSON `Content-Type` post header |
| OdataConfiguration.Configuration.SetBaseUrl | projects/primeng-odata/src/lib/odata/odata-configuration.ts:53-55 | the stored URL is the given one without its trailing slashes, and nothing else changes |
| OdataConfiguration.EntitiesUriShape | projects/primeng-odata/src/lib/odata/odata-configuration.ts:61-66 | the collection URI is `<base>/<name>` whatever slashes surround the name, and the base URL for an empty name |
| OdataConfiguration.Configuration.EntitiesUri | projects/primeng-odata/src/lib/odata/odata-configuration.ts:61-66 | the collection URI starts with the base URL; with a type name a `/` and the type name without its surrounding slashes follow; without one it is the base URL |
| OdataConfiguration.EntitiesUriSingleSlash | projects/primeng-odata/src/lib/odata/odata-configuration.ts:53-66 | a base URL stored without trailing slash meets a sanitized type name in exactly one `/` |
| OdataConfiguration.EntityUriShape | projects/primeng-odata/src/lib/odata/odata-configuration.ts:68-70 | the entity URI is the collection URI with the key in parentheses, bare for a GUID and quoted otherwise, throwing exactly for a null-holding key |
| OdataConfiguration.Configuration.EntityUri | projects/primeng-odata/src/lib/odata/odata-configuration.ts:68-70 | throws exactly when quoting the key throws; otherwise the URI is the collection URI, `(`, and ends in `)` |
| OdataOperation.ToStringArrayCases | projects/primeng-odata/src/lib/odata/odata-operation.ts:129-144 | falsy input and input of another type give `[]`, an array is kept; a string gives exactly one name per comma-separated piece, which is that piece with white space cut off its two ends and nothing else, so it holds no comma and no white space at either end |
| OdataOperation.ToStringArray | projects/primeng-odata/src/lib/odata/odata-operation.ts:129-144 | falsy input and input of another type give no names, a truthy array is taken as it is, a string gives one trimmed name per comma-separated piece |
| OdataOperation.ToCommaString | projects/primeng-odata/src/lib/odata/odata-operation.ts:146-157 | a string is returned as it is, another type gives `''`, and an array of comma-free names joins into text that splits back into the same names |
| Strings.TrimSurrounded | projects/primeng-odata/src/lib/odata/odata-operation.ts:134 | `trim()` cuts only white space, and only at the ends: the input is white space, the result, white space |
| OdataOperation.CommaListRoundTrip | projects/primeng-odata/src/lib/odata/odata-operation.ts:135-152 | clean names survive `toCommaString` then `toStringArray` |
| OdataOperation.CommaTextRoundTrip | projects/primeng-odata/src/lib/odata/odata-operation.ts:135-152 | a comma list without white space around its pieces survives `toStringArray` then `toCommaString` |
| OdataOperation.AssignedLastWins | projects/primeng-odata/src/lib/odata/odata-operation.ts:13-25 | falsy input is ignored, and truthy input replaces the list instead of appending to it |
| OdataOperation.CompileExpandSelect | projects/primeng-odata/src/lib/odata/odata-operation.ts:27-73 | the table-filling loops of `getParams` produce the intended `$expand`/`$select` parameters |
| OdataOperation.DedupDistinct | projects/primeng-odata/src/lib/odata/odata-operation.ts:31 | the names of the expand table are distinct and are exactly the names inserted |
| OdataOperation.DedupOfDistinct | projects/primeng-odata/src/lib/odata/odata-operation.ts:31 | distinct names are kept as they are |
| OdataOperation.SeedCharacterised | projects/primeng-odata/src/lib/odata/odata-operation.ts:31 | seeding gives one empty entry per distinct expand name, in order of first occurrence |
| OdataOperation.SubListAbsent | projects/primeng-odata/src/lib/odata/odata-operation.ts:41-43 | a name not in the table holds no nested selects |
| OdataOperation.AddSubSelectEffect | projects/primeng-odata/src/lib/odata/odata-operation.ts:41-45 | a path select adds its navigation name at the end when new and appends its property to that name only |
| OdataOperation.MergeCharacterised | projects/primeng-odata/src/lib/odata/odata-operation.ts:31-51 | the table holds the expand names and then the navigation names, each once in order of first occurrence, each with its nested selects in order |
| OdataOperation.MergeEntries | projects/primeng-odata/src/lib/odata/odata-operation.ts:28-51 | the `i`-th table entry is the `i`-th distinct name with its nested selects |
| OdataOperation.ExpandSelectParamsMeaning | projects/primeng-odata/src/lib/odata/odata-operation.ts:27-73 | `$expand` lists each name once with its nested `$select`, `$select` lists the plain selects, each parameter only when non-empty, `$expand` first |
| OdataOperation.NormalSelectsConcat | projects/primeng-odata/src/lib/odata/odata-operation.ts:47-50 | plain selects keep their relative order |
| OdataOperation.NormalSelectsSingle | projects/primeng-odata/src/lib/odata/odata-operation.ts:37-50 | one select is plain exactly when it has no `/` |
| OdataOperation.PlainSelects | projects/primeng-odata/src/lib/odata/odata-operation.ts:33-51 | without any `/` there are no navigation names and every select is plain |
| OdataOperation.ExpandOnly | projects/primeng-odata/src/lib/odata/odata-operation.ts:56-70 | with distinct expand names and plain selects the parameters are the comma-joined names and selects |
| OdataOperation.ExpandSelectExample | projects/primeng-odata/src/lib/odata/odata-operation.ts:56-70 | one expand name and selects `p1, p2, nav/prop` give `$expand=exp,nav($select=prop)` then `$select=p1,p2` |
| OdataOperation.ExpandSelectSample | projects/primeng-odata/src/test/odata-query.spec.ts:94 | `Expand('EXP')` with `Select(['s1','s2','Boss/Select'])` gives `$expand=EXP,Boss($select=Select)` and `$select=s1,s2` |
| OdataOperation.AppendPlainSelect | projects/primeng-odata/src/lib/odata/odata-operation.ts:47-50 | a further plain select goes to the end of `$select` and leaves the table |
| OdataOperation.AppendPathSelect | projects/primeng-odata/src/lib/odata/odata-operation.ts:37-46 | a further `nav/prop` select adds `prop` under `nav` only |
| OdataOperation.RenderExpandsAsWritten | projects/primeng-odata/src/lib/odata/odata-operation.ts:56-62 | the rendering as written succeeds only on an empty table |
| OdataOperation.ExpandSelectAsWrittenThrows | projects/primeng-odata/src/lib/odata/odata-operation.ts:56-62 | as written `getParams` throws exactly when there is a name to expand, and otherwise agrees with the intended compilation |
| OdataOperation.ExpandAsWrittenSample | projects/primeng-odata/src/lib/odata/odata-operation.ts:56-62 | `Expand('EXP')` throws as written where `$expand=EXP` is intended |
| OdataOperation.GenerateUrlShape | projects/primeng-odata/src/lib/odata/odata-operation.ts:120-127 | the URL is the bare URI exactly when there are no parameters, otherwise URI, `?` and the query string |
| OdataOperation.GenerateUrl | projects/primeng-odata/src/lib/odata/odata-operation.ts:120-127 | the URL starts with the URI and is the URI exactly when there are no parameters; otherwise a `?` follows the URI |
| OdataOperation.QueryStringCons | projects/primeng-odata/src/lib/odata/odata-operation.ts:123 | each parameter is `key=value`, separated by `&` |
| OdataOperation.ExtractDataCases | projects/primeng-odata/src/lib/odata/odata-operation.ts:159-165 | a bad status throws `Bad response status: <status>`, a truthy body is returned, a falsy body becomes `{}`; the service's private `extractData` (`odata-service.ts`, lines 98-104) is the same code, so the same cases hold for the service's entity calls |
| OdataOperation.ExtractData | projects/primeng-odata/src/lib/odata/odata-operation.ts:159-165 | fails exactly on a status outside 200-299, with `Bad response status: <status>`; otherwise the result is always truthy and is the body itself when the body is truthy |
| OdataOperation.Operation.constructor | projects/primeng-odata/src/lib/odata/odata-operation.ts:7-11 | a fresh operation keeps its type name, configuration and kind and has nothing expanded or selected |
| OdataOperation.Operation.Expand | projects/primeng-odata/src/lib/odata/odata-operation.ts:13-18 | the expand list is replaced by the parsed input when the input is truthy |
| OdataOperation.Operation.Select | projects/primeng-odata/src/lib/odata/odata-operation.ts:20-25 | the select list is replaced by the parsed input when the input is truthy |
| OdataOperation.Operation.GetParams | projects/primeng-odata/src/lib/odata/odata-operation.ts:27-73 | returns the compiled `$expand`/`$select` parameters of the current lists |
| OdataOperation.SentBody | projects/primeng-odata/src/lib/odata/odata-operation.ts:224 | an entity is sent exactly when it is truthy, and then unchanged |
| OdataOperation.OperationUri | projects/primeng-odata/src/lib/odata/odata-operation.ts:176-198 | a post targets the collection URI; the others target the entity URI of their key as the configuration gives it now |
| OdataOperation.ExecMatchesUrl | projects/primeng-odata/src/lib/odata/odata-operation.ts:216-250 | each request goes to the URI; for all but delete its parameters are those of `getUrl()`; a delete sends none; only post, patch and put use the post headers or carry a body |
| OdataOperation.Operation.GetUrl | projects/primeng-odata/src/lib/odata/odata-operation.ts:180-182 | the URL starts with the operation's URI; it is that URI when nothing is expanded or selected, and otherwise a `?` follows the URI |
| OdataOperation.Operation.Exec | projects/primeng-odata/src/lib/odata/odata-operation.ts:216-250 | the request goes to the operation's URI; only a delete uses `DELETE` and it carries no parameters, every other kind carries the compiled expand/select; get and delete use the default headers, the rest the post headers; a body is sent only for post, patch and put, and only when truthy |
| OdataOperation.ExecBody | projects/primeng-odata/src/lib/odata/odata-operation.ts:222-244 | post, patch and put send the entity exactly when it is truthy |
| OdataOperation.OperationUrlBare | projects/primeng-odata/src/lib/odata/odata-operation.ts:120-127 | with nothing expanded or selected `getUrl()` is the bare URI |
| OdataQuery.AppendCustomOptions | projects/primeng-odata/src/lib/odata/odata-query.ts:248-252 | the loop appends the custom options verbatim, in entry order, or throws at the first bad key |
| OdataQuery.Query.constructor | projects/primeng-odata/src/lib/odata/odata-query.ts:11-25 | the collection URI is taken from the configuration now; every option starts unset |
| OdataQuery.Query.Expand | projects/primeng-odata/src/lib/odata/odata-operation.ts:13-18 | replaces the expand list when the input is truthy |
| OdataQuery.Query.Select | projects/primeng-odata/src/lib/odata/odata-operation.ts:20-25 | replaces the select list when the input is truthy |
| OdataQuery.Query.Filter | projects/primeng-odata/src/lib/odata/odata-query.ts:27-32 | a non-empty filter replaces the previous one; an empty one is ignored |
| OdataQuery.Query.Search | projects/primeng-odata/src/lib/odata/odata-query.ts:34-39 | a non-empty search replaces the previous one; an empty one is ignored |
| OdataQuery.Query.Top | projects/primeng-odata/src/lib/odata/odata-query.ts:41-46 | a positive count replaces the previous one; zero and negative are ignored |
| OdataQuery.Query.Skip | projects/primeng-odata/src/lib/odata/odata-query.ts:48-53 | a positive count replaces the previous one; zero and negative are ignored |
| OdataQuery.Query.OrderBy | projects/primeng-odata/src/lib/odata/odata-query.ts:55-60 | replaces the ordering when the input is truthy |
| OdataQuery.Query.MaxPerPage | projects/primeng-odata/src/lib/odata/odata-query.ts:62-67 | a positive page size replaces the previous one; zero and negative are ignored |
| OdataQuery.Query.Apply | projects/primeng-odata/src/lib/odata/odata-query.ts:69-74 | replaces the transformations when the input is truthy |
| OdataQuery.Query.CustomQueryOptions | projects/primeng-odata/src/lib/odata/odata-query.ts:76-81 | a record replaces the previous custom options; null or undefined is ignored |
| OdataQuery.Query.AppendSetOptions | projects/primeng-odata/src/lib/odata/odata-query.ts:224-246 | each of filter, search, top, skip, orderby and apply that is set is appended under its key, in that order |
| OdataQuery.Query.GetQueryParams | projects/primeng-odata/src/lib/odata/odata-query.ts:221-260 | returns the parameters the intent compiles to, or the error of the first bad custom key |
| OdataQuery.QueryParams | projects/primeng-odata/src/lib/odata/odata-query.ts:221-260 | compilation succeeds exactly when the custom options do and fails with their error; a paged compilation ends with `$count=true` |
| OdataQuery.AppendFacetsSplit | projects/primeng-odata/src/lib/odata/odata-query.ts:224-246 | the guarded appends add exactly the parameters of the options that are set |
| OdataQuery.CustomParamsFailure | projects/primeng-odata/src/lib/odata/odata-query.ts:249-251 | once a prefix of the custom options throws, the whole loop throws the same error |
| OdataQuery.CheckReservedCases | projects/primeng-odata/src/lib/odata/odata-query.ts:274-282 | a missing key throws the null-key message, a key starting with `$` or `@` the reserved-key message, any other key is returned unchanged |
| OdataQuery.CheckReservedCustomQueryOptionKey | projects/primeng-odata/src/lib/odata/odata-query.ts:274-282 | a missing key throws the null-key error; a returned key is the given one and does not start with `$` or `@`; any other failure is the reserved-key error for a key starting with one of them |
| OdataQuery.CustomParamsMeaning | projects/primeng-odata/src/lib/odata/odata-query.ts:248-252 | the custom options compile exactly when no key is reserved, and then to themselves in entry order |
| OdataQuery.QueryParamsParts | projects/primeng-odata/src/lib/odata/odata-query.ts:221-260 | the parameters are expand/select, the set options, the custom options and `$count=true` for OData 4, or the custom options' error |
| OdataQuery.QueryParamsFailure | projects/primeng-odata/src/lib/odata/odata-query.ts:274-282 | compilation throws exactly when some custom key is reserved, and then the reserved-key error |
| OdataQuery.QueryParamsTail | projects/primeng-odata/src/lib/odata/odata-query.ts:248-257 | a paged query's parameters are the plain ones followed by `$count=true`, and they end with the custom options |
| OdataQuery.PresentOrdered | projects/primeng-odata/src/lib/odata/odata-query.ts:224-246 | the options that are set keep the option order |
| OdataQuery.PresentLookup | projects/primeng-odata/src/lib/odata/odata-query.ts:224-246 | an option's key reads its text exactly when it is set |
| OdataQuery.ExpandSelectOrdered | projects/primeng-odata/src/lib/odata/odata-operation.ts:64-70 | `$expand` comes before `$select` |
| OdataQuery.CustomRank | projects/primeng-odata/src/lib/odata/odata-query.ts:248-252 | a non-reserved custom key ranks between `$apply` and `$count` |
| OdataQuery.QueryParamsOrder | projects/primeng-odata/src/lib/odata/odata-query.ts:221-260 | under the default keys the parameters come in the order expand, select, filter, search, top, skip, orderby, apply, custom, count |
| OdataQuery.SystemKeys | projects/primeng-odata/src/lib/odata/odata-query.ts:221-246 | no parameter before the custom options has a non-reserved key or `$count` |
| OdataQuery.CustomKeysFree | projects/primeng-odata/src/lib/odata/odata-query.ts:274-282 | no accepted custom option carries a reserved key |
| OdataQuery.LookupParts | projects/primeng-odata/src/lib/odata/odata-query.ts:221-260 | a lookup in the parameters finds expand/select first, then the options, the custom options and the count flag |
| OdataQuery.FacetPresence | projects/primeng-odata/src/lib/odata/odata-query.ts:224-246 | under the default keys each option that is set is present with its text, and one that is not set is absent |
| OdataQuery.CountPresence | projects/primeng-odata/src/lib/odata/odata-query.ts:254-257 | `$count` reads `true` exactly for a paged query |
| OdataQuery.QueryParamsPresence | projects/primeng-odata/src/lib/odata/odata-query.ts:224-257 | filter and search when non-empty, top and skip when positive, orderby and apply comma-joined when non-empty, `$count=true` exactly for a page |
| OdataQuery.FreshQueryUrls | projects/primeng-odata/src/lib/odata/odata-query.ts:83-95 | a fresh query's URL is the bare collection URI, with `/$count` for a count and `?$count=true` for a page |
| OdataQuery.Query.GetUrl | projects/primeng-odata/src/lib/odata/odata-query.ts:83-95 | the URL exists exactly when the parameters compile; it starts with the collection URI, and for a count with `<collection>/<count key>` |
| OdataQuery.GetUrlMatchesExec | projects/primeng-odata/src/lib/odata/odata-query.ts:83-120 | `getUrl` succeeds exactly when `exec` can send, and shows the URL and parameters `exec` sends with the request headers |
| OdataQuery.ExecTargets | projects/primeng-odata/src/lib/odata/odata-query.ts:100-120 | a count goes to `<collection>/<count key>` without `$count`, a page to the collection with `$count=true`, the list without it |
| OdataQuery.Query.Exec | projects/primeng-odata/src/lib/odata/odata-query.ts:100-120 | `exec` can send exactly when `getUrl` gives a URL, and its URL and parameters put together are that URL; it sends the query's request headers; a page request ends with `$count=true` |
| OdataQuery.NextPageTarget | projects/primeng-odata/src/lib/odata/odata-query.ts:126-137 | the next page is fetched from the next link with the query's parameters and headers and without `$count` |
| OdataQuery.Query.NextPage | projects/primeng-odata/src/lib/odata/odata-query.ts:126-137 | the next page can be fetched exactly when an entities request can be sent, and goes to the next link with that request's parameters and the query's headers |
| OdataQuery.RequestHeadersPrefer | projects/primeng-odata/src/lib/odata/odata-query.ts:200-219 | a positive page size sets `Prefer: odata.maxpagesize=N` and keeps every other header; otherwise the default headers are sent |
| OdataQuery.Query.RequestHeaders | projects/primeng-odata/src/lib/odata/odata-query.ts:200-219 | without a page size the headers are the configuration's defaults; with one, `Prefer` looks up as `<maxpagesize key>=N` |
| OdataService.FunctionSegmentWithParameters | projects/primeng-odata/src/lib/odata/odata-service.ts:52-54 | with truthy parameters the segment is `name(params)` and throws exactly when the conversion throws |
| OdataService.FunctionSegment | projects/primeng-odata/src/lib/odata/odata-service.ts:51-59 | the segment starts with the function name and always ends in `)`; it can fail only with the TypeError of converting truthy parameters |
| OdataService.ParenSuffixes | projects/primeng-odata/src/lib/odata/odata-service.ts:55 | a name ending in `()` ends in `)`, so the second check of the guard never decides |
| OdataService.FunctionSegmentWithoutParameters | projects/primeng-odata/src/lib/odata/odata-service.ts:55-57 | without parameters the segment never throws and ends with `)`: a name already ending so is kept, any other gets `()` |
| OdataService.FunctionSegmentIdempotent | projects/primeng-odata/src/lib/odata/odata-service.ts:55-57 | shaping a segment twice without parameters changes nothing |
| OdataService.Service.constructor | projects/primeng-odata/src/lib/odata/odata-service.ts:12-14 | the collection URI is fixed from the configuration at construction |
| OdataService.Service.Get | projects/primeng-odata/src/lib/odata/odata-service.ts:20-22 | a fresh get operation on the key, nothing expanded or selected |
| OdataService.Service.Post | projects/primeng-odata/src/lib/odata/odata-service.ts:24-26 | a fresh post operation for the entity |
| OdataService.Service.Patch | projects/primeng-odata/src/lib/odata/odata-service.ts:28-30 | a fresh patch operation for the key and the entity |
| OdataService.Service.Put | projects/primeng-odata/src/lib/odata/odata-service.ts:32-34 | a fresh put operation for the key and the entity |
| OdataService.Service.Delete | projects/primeng-odata/src/lib/odata/odata-service.ts:36-38 | a fresh delete operation on the key |
| OdataService.Service.Query | projects/primeng-odata/src/lib/odata/odata-service.ts:77-79 | a fresh query on the same collection, with nothing set |
| OdataService.EntityUriDelegates | projects/primeng-odata/src/lib/odata/odata-service.ts:81-83 | the service's entity URI is the configuration's, never throwing for a string key: bare for a GUID, quoted otherwise |
| OdataService.Service.EntityUri | projects/primeng-odata/src/lib/odata/odata-service.ts:81-83 | the entity URI is the collection URI followed by `(` and ends in `)` |
| OdataService.Service.CustomActionUrl | projects/primeng-odata/src/lib/odata/odata-service.ts:40-43 | an action is posted to `<entity URI>/<action name>` |
| OdataService.Service.CustomCollectionActionUrl | projects/primeng-odata/src/lib/odata/odata-service.ts:45-48 | a collection action is posted to `<collection URI>/<action name>` |
| OdataService.Service.CustomFunctionUrl | projects/primeng-odata/src/lib/odata/odata-service.ts:51-59 | a function URL exists exactly when its segment does; it lies under `<entity URI>/` and ends in `)` |
| OdataService.Service.CustomCollectionFunctionUrl | projects/primeng-odata/src/lib/odata/odata-service.ts:62-70 | a collection function URL exists exactly when its segment does; it lies under `<collection URI>/` and ends in `)` |
| OdataService.Service.ItemPropertyUrl | projects/primeng-odata/src/lib/odata/odata-service.ts:72-75 | a property is read from the same place an action of that name is posted to, `<entity URI>/<property name>` |
| OdataService.BoundUrls | projects/primeng-odata/src/lib/odata/odata-service.ts:40-75 | actions, functions and properties hang under `<collection>(<key>)/` or `<collection>/`, and a function URL throws exactly when its segment does |
| OdataService.CustomFunctionWithoutParameters | projects/primeng-odata/src/lib/odata/odata-service.ts:51-70 | a parameterless call to `Rate` or `Rate()` gets `…/Rate()` |
| OdataService.CustomFunctionWithParameters | projects/primeng-odata/src/lib/odata/odata-service.ts:51-59 | a call with `{a: n}` gets `…/F(a=n)` |

## Left out

- The HTTP client, the `Observable` pipelines and the error hook (`handleError`, which only logs). Requests are modelled as the values handed to the client: method, URL, parameters, headers and body.
- `execWithCount`: it only calls `exec` with the paged return type, which `Exec(Paged)` models.
- The percent-encoding that `HttpParams` applies when it writes the query string. `QueryString` joins `key=value` without encoding.
- `JSON.stringify` of bodies: a body is the entity `Value` itself.
- Header names are compared exactly. `HttpHeaders` compares them case-insensitively.
- The request options other than their headers (`params`, `observe`, `responseType`, `withCredentials`, `reportProgress`). A delete hands `defaultRequestOptions` to the client as they are (`odata-operation.ts`, line 248), so it sends whatever `params` a caller has put there. `OdataOperation.Operation.Exec` and `OdataOperation.ExecMatchesUrl` say a delete sends no parameters only because the model has no `params` field; by default it is unset.
- The custom request options bundle, and the body of `CustomAction`/`CustomCollectionAction`. For the custom calls only the URL is modelled.
- The response of `ItemProperty` and of the custom calls, which the code returns without decoding.
- `console.error` and `console.warn` diagnostics: they have no effect on results.
- The `TypeName` getter of the service, which only returns the type name.
- Dependency injection and module wiring, the model files without logic and the `OdataReturnType` enum, which is `ReturnType`.
- Floating-point numbers: `Num` holds integers only.
- `Strings.IntToString`: `Num` is an unbounded integer, and `IntToString` writes out every digit. JavaScript numbers lose precision above 2^53 and print from 1e21 on in exponent form, so `top(1e21)` sends `$top=1e+21` (`odata-query.ts`, line 233). The model renders such values differently.
- The engine's enumeration order for objects with integer-like keys. Properties are listed in the order a `Value` gives them.
- `OdataUtils.TryParseInt`: covers integers and strings whose trimmed text is an optionally signed digit run. JavaScript's `isNaN`/`parseInt` pair also accepts decimal, exponent and hexadecimal text (`'1.5'`, `'1e3'`, `'0x1A'`) and one-element numeric arrays, reading a leading integer from them. The model reads all of these as no count. For a number of 1e21 or more, `parseInt` reads the exponent text that `String(n)` writes and returns the digits before the `e`, so `1e21` gives 1 (from `'1e+21'`). The model returns such a number as it is.
- `OdataOperation.Operation.Expand`, `OdataOperation.Operation.Select` and the query's `Expand`, `Select`, `OrderBy` and `Apply`: `toStringArray` returns the caller's own array (`odata-operation.ts`, line 140), so a caller who changes that array later also changes the operation or query. The model stores the list as a value, so it does not capture this aliasing.
- `OdataOperation.QueryString`: `HttpParams.toString()` writes the values grouped by key, in the order each key first appeared. `QueryString` writes them in the order they were appended. The two agree when all keys differ. Under the default keys they do: a record's keys are distinct, and a custom key never starts with `$`. The model's custom options are a list that may repeat a key, and custom `KeyConfigs` can make a system key equal to another key. In either case the real URL orders the values differently.
- `OdataConfiguration.ExtractQueryResultData` and `OdataConfiguration.ExtractQueryResultDataWithCount`: an `Envelope` cannot hold a body whose `value` is missing or is not an array, nor an `@odata.nextLink` that is truthy but not a string. For a missing `value`, `extractQueryResultData` returns `undefined` (`odata-configuration.ts`, line 89). `extractQueryResultDataWithCount` stores `undefined` as `data` (lines 104-106). Then, if the count does not parse, reading `entities.length` throws a TypeError (line 113). A `value` that is not an array is returned or stored as it is, and the fallback count is that value's `length`. A truthy `@odata.nextLink` that is not a string, such as a number, is stored as the next link as it is (lines 116-118). The model covers only bodies in the standard envelope format.
- `OdataOperation.ToStringArray`: a `String` object is treated like a string primitive, and a non-array of another type is `Other`.

## Findings

| source | as written | input that shows it | evidently intended | confidence | as-written member | corrected member |
|---|---|---|---|---|---|---|
| projects/primeng-odata/src/lib/odata/odata-operation.ts:56-62 | each element of `Array.from(expandData)` is a `[key, value]` pair, so `element.value` is undefined and `element.value.any()` throws a TypeError | `Expand('EXP')` on any query or operation, then `getUrl()` | `$expand=EXP`, and the rendering `EXP,Boss($select=Select)` the test at projects/primeng-odata/src/test/odata-query.spec.ts:94 expects | high; not executed | OdataOperation.ExpandSelectAsWrittenThrows | OdataOperation.ExpandSelectParamsMeaning |
