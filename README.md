# laravel-cloudsearch, modelled in Dafny

This project models the core of laravel-cloudsearch, a Laravel package that keeps Eloquent models indexed in an Amazon CloudSearch domain and queries that domain. The model covers four parts.

- **The structured-query compiler.** `StructuredSearch` holds one clause tree of the CloudSearch 2013-01-01 "structured" query parser as a list of rendered statements. `StructuredQueryBuilder` holds the rest of the request state and compiles it into the request parameters. `Query\Builder` is the fluent facade that routes each call to the query tree or the filter tree.
- **The change queue.** `Queue` keeps one row per (entry id, entry type, action) with a waiting or running status. `push` upserts a row, `getBatch` claims a batch, and `flushBatch` deletes the claimed rows.
- **The batch processor.** `QueueCommand` splits a claimed batch by action, then by model class. It hands each group to the handler its action names, chunked by `batching_size`, and flushes the batch at the end.
- **The search client and field reconciliation.**
  - From `CloudSearcher`, the pure parts: document payloads, rebuilding a hit's attributes, `isMultiLevelArray`, grouping results, and the page offset.
  - From `FieldsCommand`, the reconciliation of the domain's index fields with the configured ones, and the count of accepted changes.

## Layout and modelling choices

The files and their modules are:

- `wrappers.dfy` (`Wrappers`): `Option`, `Result` and `Outcome`.
- `php.dfy` (`Php`): PHP values and the coercions the code relies on. These are truthiness, string interpolation, and the loose comparison `== 0` under PHP 8 rules.
- `collections.dfy` (`Collections`): PHP arrays as ordered maps, `OMap<K, V> = seq<(K, V)>`. Lookup finds the first entry. Assignment overwrites in place or appends. `unset` removes. Also grouping, chunking, flattening and `array_filter`.
- `escaping.dfy` (`Escaping`): the escaping `__call` applies, and a reader of the resulting quoted literal.
- `clause_syntax.dfy` (`ClauseSyntax`): the text of leaf and range clauses, and a parser that reads them back.
- `structured_search.dfy` (`Clauses`): class `StructuredSearch`.
- `requests.dfy` (`Requests`): class `StructuredQueryBuilder`.
- `fluent.dfy` (`Fluent`): class `Builder`.
- `queue.dfy` (`Queues`): class `Queue`.
- `queue_command.dfy` (`Batches`): class `QueueCommand`.
- `searcher.dfy` (`Searcher`): the pure parts of `CloudSearcher`.
- `fields_command.dfy` (`Fields`): class `FieldsCommand`.

How the source's constructs are modelled:

- **Closure blocks.** A closure passed to `qAnd`, `qOr` or `qNot` is a script of the calls it makes on the fresh sub-builder (`Clauses.Op`, `Clauses.Block`). Each method that changes state is proved against a function on that script (`Clauses.Apply`, `Clauses.Exec`).
- **Classes.** Every class whose fields the source updates is a Dafny `class`. Its methods state the whole new state, usually as an append to a list or an update of one field of `State()`.
- **Collaborators** become parameters:
  - the JSON encoder is a `Codec` of three functions;
  - the search endpoint and the database lookup are functions;
  - the AWS field calls are an oracle `respond` giving each request's HTTP status;
  - the clock is an argument of `Push`;
  - which classes are localized is a set of class names;
  - the application locale is a value.
- **Integers** are unbounded. No arithmetic in the modelled code can overflow in practice.

Where the code and its documentation disagree, the model follows the code in these cases:

- **Hits without a type.** A hit without `searchable_type` becomes a `null` entry of the result list; it is not dropped (`src/CloudSearcher.php:206-208`, `269`).
- **Redefining a changed field.** `syncCurrentFields` redefines a changed field with the type the domain already has, not the configured one (`src/Console/FieldsCommand.php:91-92`). The class `FieldsCommand` does the same. The corrected plan is modelled beside it, and the difference is recorded under "## Findings".
- **Methods that return null.** Several methods return nothing:
  - `StructuredSearch::matchall` (`src/StructuredSearch.php:56-59`);
  - `StructuredQueryBuilder::expr` (`src/StructuredQueryBuilder.php:157-160`);
  - `facet` (:185-191);
  - `facetBuckets` (:210-216);
  - `stats` (:336-339).

  The last four do so although their doc blocks promise `@return StructuredQueryBuilder`. The model's request-builder methods return nothing at all. The facade never uses the `$this` that the others return. The `Query\Builder` facade returns itself in every case, which is what the model states.

Two places where the code cannot run as written are modelled as intended instead; "## Left out" says what that loses.

## Model

| member | source | states |
|---|---|---|
| Collections.GetNoneIffAbsent | src/Console/FieldsCommand.php:86 | a lookup misses exactly when the key is not among the array's keys |
| Collections.Put | src/StructuredQueryBuilder.php:159 | after `$a[$k] = $v`, `$k` maps to `$v` and every other key is unchanged |
| Collections.PutKeys | src/Console/FieldsCommand.php:128 | assigning an existing key keeps the key order; a new key is appended last |
| Collections.PutDistinct | src/Console/FieldsCommand.php:128 | assignment keeps the keys distinct |
| Collections.PutAbsent | src/Console/FieldsCommand.php:128 | assigning a missing key appends the pair |
| Collections.PutPut | src/StructuredQueryBuilder.php:187-190 | a second assignment to the same key overwrites the first: the last call wins |
| Collections.Remove | src/Console/FieldsCommand.php:95 | after `unset`, the key is missing and every other key is unchanged |
| Collections.ConcatAppend | src/Console/QueueCommand.php:99-101 | concatenating the chunks of two runs is concatenating each run |
| Collections.Select | src/CloudSearcher.php:224-226 | the items selected for a key all have that key and come from the input |
| Collections.GroupByGet | src/CloudSearcher.php:220-229 | the group of a key holds exactly the items with that key, in input order, and a key with no item has no group |
| Collections.GroupByDistinct | src/CloudSearcher.php:225 | each key has one group |
| Collections.GroupByPartition | src/CloudSearcher.php:220-229 | the groups together hold every item exactly once |
| Collections.GroupByHomogeneous | src/Console/QueueCommand.php:63 | every item of a group has that group's key |
| Collections.Chunks | src/Console/QueueCommand.php:99 | for a positive size the chunks, in order, concatenate to the input; every chunk is non-empty and at most the size, and all but the last are full |
| Collections.Flatten | src/Query/Builder.php:92 | `array_flatten` yields no arrays |
| Collections.FlattenAppend | src/Query/Builder.php:92 | flattening a concatenation is flattening each part, so every scalar leaf is kept in order, with repeats |
| Collections.FlattenOne | src/Query/Builder.php:92 | a scalar entry (null and false included) is kept as it is; a nested array gives its own leaves |
| Collections.FilterTruthy | src/Query/Builder.php:92 | `array_filter` keeps exactly the truthy elements |
| Collections.FilterTruthyAppend | src/Query/Builder.php:92 | filtering a concatenation is filtering each part, so order and repeats are kept |
| Collections.FilterTruthyOne | src/Query/Builder.php:92 | one entry is kept exactly when it is truthy |
| Php.Truthy | src/StructuredSearch.php:284 | a value is falsy exactly when it is one of the values PHP lists as false: null, false, 0, `""`, `"0"`, `[]` |
| Php.Interpolate | src/StructuredSearch.php:285 | interpolation is empty exactly for null, false and `""`; numbers and booleans render as digits and signs |
| Php.LooselyZero | src/StructuredQueryBuilder.php:142 | for a non-string, `== 0` holds exactly for the falsy non-arrays; `"0"` equals 0 and, under PHP 8, `""` does not |
| Php.Lower | src/CloudSearcher.php:272 | `strtolower` maps A-Z to a-z and keeps every other character |
| Php.LowerKeeps | src/StructuredSearch.php:313 | a text without capitals is its own lower case |
| Php.LowerIdempotent | src/StructuredSearch.php:313 | lower-casing twice gives what lower-casing once gives |
| Escaping.Escape | src/StructuredSearch.php:320-321 | the two `preg_replace` passes equal escaping each character on its own |
| Escaping.EscapeIsOnePass | src/StructuredSearch.php:318-324 | escaping backslashes and then quotes is one pass that maps `\` to `\\` and `'` to `\'`, so the escapes inserted for backslashes are not escaped again |
| Escaping.ReadEscaped | src/StructuredSearch.php:318-324 | an escaped string in single quotes reads back as the original string, with the rest of the text untouched |
| Escaping.ReadEachEscaped | src/StructuredSearch.php:318-324 | the same round trip for the one-pass form |
| Escaping.EscapePlain | src/StructuredSearch.php:318-324 | a string without `\` or `'` is unchanged by escaping |
| Escaping.EscapeKeepsFalsy | src/StructuredSearch.php:318-324 | escaping keeps `""` and `"0"` and yields them from nothing else, so an argument's truthiness is unchanged |
| Escaping.EscapeArg | src/StructuredSearch.php:318-324 | only string arguments are rewritten; every other argument passes unchanged |
| Escaping.InterpolateEscapeArg | src/StructuredSearch.php:318-324 | an escaped argument interpolates to the escaped interpolation, with the same truthiness |
| Escaping.DigitsArePlain | src/StructuredSearch.php:318-324 | an integer argument's text needs no escaping |
| Escaping.EscapeArgs | src/StructuredSearch.php:318-324 | the loop over `$args` escapes every argument in place and keeps the count |
| ClauseSyntax.AppendAttrsIsConcat | src/StructuredSearch.php:280-297 | appending the optional attributes one at a time is appending their concatenation |
| ClauseSyntax.EscapeAttrs | src/StructuredSearch.php:318-324 | escaping the attribute values keeps the names and escapes each value |
| ClauseSyntax.ReadAttrsEscaped | src/StructuredSearch.php:280-297 | the parser reads back exactly the truthy attributes, in order, then the quoted value |
| ClauseSyntax.ParseLeafText | src/StructuredSearch.php:280-297 | an escaped leaf `(kind [field='F' ][boost='B' ]'V')` parses back to its kind, its truthy attributes and its value |
| ClauseSyntax.RangeBounds | src/StructuredSearch.php:238-253 | a range has bounds exactly when at least one of min and max is truthy |
| ClauseSyntax.RangeBoundsRead | src/StructuredSearch.php:238-253 | the bounds read back as `[min,max]`, `[min,}` or `{,max]`: closed where the bound is truthy, open where it is not |
| Clauses.LeafAttrs | src/StructuredSearch.php:75 | a leaf binds field and boost, and `near` also distance between them; `near`'s distance defaults to 3 |
| Clauses.LeafEntry | src/StructuredSearch.php:310-327 | the statement a leaf call appends parses back to the leaf, its truthy attributes and its unescaped value |
| Clauses.LeafTextReadsBack | src/StructuredSearch.php:318-325 | rendering the escaped arguments reads back as the unescaped ones |
| Clauses.EscapeAll | src/StructuredSearch.php:318-324 | escaping keeps the number of arguments |
| Clauses.LeafAttrsEscaped | src/StructuredSearch.php:318-324 | escaping the arguments and then naming them is naming them and then escaping the values |
| Clauses.Apply | src/StructuredSearch.php:36-58 | every call appends at most one statement |
| Clauses.Wrap | src/StructuredSearch.php:38-46 | a block appends at most one statement |
| Clauses.Render | src/StructuredSearch.php:338-341 | rendering fails exactly on an empty tree |
| Clauses.Exec | src/StructuredSearch.php:40 | a script appends at most one statement per call |
| Clauses.ExecPasses | src/StructuredSearch.php:40 | a script runs to the end exactly when none of its calls fails |
| Clauses.ExecStep | src/StructuredSearch.php:40 | one more call appends its statements, or stops the script with its error |
| Clauses.ExecStops | src/StructuredSearch.php:40 | nothing after a failing call runs |
| Clauses.ExecPrefixStops | src/StructuredSearch.php:40 | a script whose first calls already fail runs exactly as that prefix |
| Clauses.ExecAppend | src/StructuredSearch.php:42 | running two scripts in turn is running their concatenation, stopping at the first failure |
| Clauses.ExecSingle | src/StructuredSearch.php:42 | a one-call script appends what that call appends, or fails with its error |
| Clauses.LeafCallReadsBack | src/StructuredSearch.php:310-327 | a leaf call through `__call` appends exactly one statement, which parses back to the leaf, its truthy attributes and its unescaped value |
| Clauses.CallFailures | src/StructuredSearch.php:313-315 | a name that is no leaf method in any case throws "Method doesn't exist"; a leaf without its value fails; every other call succeeds |
| Clauses.LeafNameLower | src/StructuredSearch.php:75-280 | the leaf methods are declared in lower case |
| Clauses.CallIgnoresCase | src/StructuredSearch.php:313-327 | `method_exists` and `call_user_func_array` match names whatever their case: a leaf called under any spelling behaves as the lower-case call |
| Clauses.CapitalizedTerm | src/StructuredSearch.php:280-327 | `Term('x')` reaches `__call` and appends the `term` statement |
| Clauses.RangeReadsBack | src/StructuredSearch.php:236-258 | a range appends nothing exactly when both bounds are falsy, and otherwise one statement whose bounds read back |
| Clauses.RenderIsAndBlock | src/StructuredSearch.php:36-49 | an `and` closure block appends what rendering its sub-builder yields, and fails when the sub-builder is empty |
| Clauses.ObjectBlocks | src/StructuredSearch.php:107-120 | `qAnd` and `qOr` ignore an object that is not a closure; `qNot` runs an invokable one and fails on one it cannot call; a value that is neither an object nor a string is ignored by all three |
| Clauses.LiteralBlockNotEscaped | src/StructuredSearch.php:44-46 | a string block is embedded unescaped, so a quote in it closes the literal early |
| Clauses.LeafTextOfTwo | src/StructuredSearch.php:280-297 | a term, phrase or prefix renders as `(kind ` + optional field + optional boost + quoted value + `)` |
| Clauses.LeafTextOfThree | src/StructuredSearch.php:75-96 | near renders its attributes in the order field, distance, boost, then the value |
| Clauses.StructuredSearch.constructor | src/StructuredSearch.php:15 | a new tree has no statements (`$query` starts unset) |
| Clauses.StructuredSearch.Term | src/StructuredSearch.php:280-297 | term appends its one statement |
| Clauses.StructuredSearch.Phrase | src/StructuredSearch.php:159-176 | phrase appends its one statement |
| Clauses.StructuredSearch.Prefix | src/StructuredSearch.php:192-209 | prefix appends its one statement |
| Clauses.StructuredSearch.Near | src/StructuredSearch.php:75-96 | near appends its one statement |
| Clauses.StructuredSearch.Range | src/StructuredSearch.php:236-258 | range appends what the range call appends |
| Clauses.StructuredSearch.MatchAll | src/StructuredSearch.php:56-59 | matchall appends `(matchall)` |
| Clauses.StructuredSearch.Call | src/StructuredSearch.php:310-327 | `__call` matches the name whatever its case, then appends what the call appends, or fails and leaves the tree |
| Clauses.StructuredSearch.Group | src/StructuredSearch.php:36-144 | a block runs its script on a fresh builder and appends the wrapped result |
| Clauses.StructuredSearch.QAnd | src/StructuredSearch.php:36-49 | `qAnd` appends what its block yields, only for a closure or a string |
| Clauses.StructuredSearch.QOr | src/StructuredSearch.php:131-144 | `qOr` appends what its block yields, only for a closure or a string |
| Clauses.StructuredSearch.QNot | src/StructuredSearch.php:107-120 | `qNot` appends what its block yields, for any object or a string, and fails on an object it cannot call |
| Clauses.StructuredSearch.Do | src/StructuredSearch.php:36-327 | one call changes the tree only by appending what `Apply` yields |
| Clauses.StructuredSearch.Run | src/StructuredSearch.php:40 | a script run on a builder appends exactly what `Exec` yields and stops at the first failure |
| Clauses.StructuredSearch.RunStep | src/StructuredSearch.php:40 | after passing calls, the next call leaves the outcome and statements of the one-longer prefix |
| Requests.NamesDistinct | src/StructuredQueryBuilder.php:400-468 | the twelve request parameters have distinct names |
| Requests.KeepGet | src/StructuredQueryBuilder.php:400-468 | a parameter of the compiled request is present exactly when its guard held, with its candidate value |
| Requests.KeepOrdered | src/StructuredQueryBuilder.php:400-468 | the compiled parameters keep their fixed order |
| Requests.CursorValue | src/StructuredQueryBuilder.php:140-145 | the stored cursor is never loosely 0, and a value not loosely 0 is stored as given |
| Requests.InitialNotZero | src/StructuredQueryBuilder.php:142 | `'initial'` is not loosely 0 |
| Requests.StatsText | src/StructuredQueryBuilder.php:456-464 | the `stats` parameter is a JSON object, `{}` exactly when there are no fields, opening with the first field's entry |
| Requests.HaversinText | src/StructuredQueryBuilder.php:385-389 | the expression opens with `haversin(lat,` and closes with `field.longitude)` |
| Requests.CursorTruthy | src/StructuredQueryBuilder.php:140-145 | a value loosely equal to 0 becomes `'initial'`; the stored cursor is falsy only for `""` and `[]` |
| Requests.LatLonRange | src/StructuredQueryBuilder.php:363-369 | the box's corners are always truthy, so latlon always appends one closed range |
| Requests.StructuredQueryBuilder.constructor | src/StructuredQueryBuilder.php:99-103 | two distinct empty trees, size 10, start 0, everything else unset |
| Requests.StructuredQueryBuilder.Cursor | src/StructuredQueryBuilder.php:140-145 | only the cursor changes |
| Requests.StructuredQueryBuilder.Expr | src/StructuredQueryBuilder.php:157-160 | the expression for the accessor is set or overwritten; nothing else changes |
| Requests.StructuredQueryBuilder.Facet | src/StructuredQueryBuilder.php:185-191 | the field's facet is set or overwritten with sort and size |
| Requests.StructuredQueryBuilder.FacetBuckets | src/StructuredQueryBuilder.php:210-216 | the field's facet is set or overwritten with buckets and method |
| Requests.StructuredQueryBuilder.Options | src/StructuredQueryBuilder.php:238-243 | the option is set or overwritten |
| Requests.StructuredQueryBuilder.ReturnFields | src/StructuredQueryBuilder.php:259-264 | only the return fields change |
| Requests.StructuredQueryBuilder.Size | src/StructuredQueryBuilder.php:273-278 | only the size changes |
| Requests.StructuredQueryBuilder.Sort | src/StructuredQueryBuilder.php:296-301 | the sort becomes `"field direction"`, replacing any earlier one |
| Requests.StructuredQueryBuilder.Start | src/StructuredQueryBuilder.php:312-317 | only the start changes |
| Requests.StructuredQueryBuilder.Stats | src/StructuredQueryBuilder.php:336-339 | the field is appended to the stats fields |
| Requests.StructuredQueryBuilder.AddDistanceExpr | src/StructuredQueryBuilder.php:383-393 | the `distance` expression becomes `haversin(lat,lon,F.latitude,F.longitude)` |
| Requests.StructuredQueryBuilder.LatLon | src/StructuredQueryBuilder.php:353-372 | one range is appended to the filter tree, the query tree is unchanged, and the distance expression is added exactly when `addExpr` is truthy |
| Requests.StructuredQueryBuilder.Sent | src/StructuredQueryBuilder.php:400-468 | exactly one of cursor and start is sent; the query parser and size are always sent; cursor, return and sort are sent only when truthy; the query and filter trees only when non-empty |
| Requests.StructuredQueryBuilder.Candidates | src/StructuredQueryBuilder.php:400-468 | there is one guarded assignment per parameter, in parameter order |
| Requests.StructuredQueryBuilder.BuildStructuredQuery | src/StructuredQueryBuilder.php:400-468 | each parameter is sent as `Sent` defines: cursor only when it is truthy, start only when it is not, queryParser and size always, the trees only when non-empty, stats as the joined entries; the keys are in the fixed order |
| Requests.KeptAreSent | src/StructuredQueryBuilder.php:400-468 | the sequential build agrees with the per-parameter definition `Sent` and keeps the parameter order |
| Fluent.AddLeaf | src/Query/Builder.php:290-295 | a leaf call through the facade appends its escaped statement |
| Fluent.Pairs | src/Query/Builder.php:92-94 | every value of a filter is paired with its field, in order |
| Fluent.PhraseEntries | src/Query/Builder.php:92-97 | one phrase statement per (value, field) pair, in order |
| Fluent.PhraseEntriesAppend | src/Query/Builder.php:90-99 | phrase statements of two runs of pairs concatenate |
| Fluent.FilterPhrasesScalar | src/Query/Builder.php:88-102 | every value that `filter` phrases is a scalar |
| Fluent.FilterScalars | src/Query/Builder.php:96-98 | with only scalar values, `filter` adds one phrase per field, in order |
| Fluent.FilterEntriesReadBack | src/Query/Builder.php:88-102 | every statement `filter` adds parses back as a phrase on its field with its value |
| Fluent.AddFilters | src/Query/Builder.php:90-99 | the nested loops append exactly the phrase statements of the filter pairs |
| Fluent.AddFilter | src/Query/Builder.php:91-98 | one field appends the phrases of its truthy, flattened values, or of its scalar value |
| Fluent.AddPhrases | src/Query/Builder.php:92-94 | a loop of phrase calls appends one statement per value |
| Fluent.PhrasesStep | src/Query/Builder.php:92-94 | one more value adds its phrase at the end |
| Fluent.LocaleOr | src/Query/Builder.php:62 | the given locale if truthy, otherwise the application locale |
| Fluent.Builder.constructor | src/Query/Builder.php:22-26 | the facade wraps a new empty request builder |
| Fluent.Builder.Term | src/Query/Builder.php:386-391 | appends to the query tree only and returns the same facade |
| Fluent.Builder.FilterTerm | src/Query/Builder.php:402-407 | appends to the filter tree only and returns the same facade |
| Fluent.Builder.Phrase | src/Query/Builder.php:290-295 | appends to the query tree only |
| Fluent.Builder.FilterPhrase | src/Query/Builder.php:306-311 | appends to the filter tree only |
| Fluent.Builder.Prefix | src/Query/Builder.php:322-327 | appends to the query tree only |
| Fluent.Builder.FilterPrefix | src/Query/Builder.php:338-343 | appends to the filter tree only |
| Fluent.Builder.Near | src/Query/Builder.php:201-206 | appends to the query tree only |
| Fluent.Builder.FilterNear | src/Query/Builder.php:218-223 | appends to the filter tree only |
| Fluent.Builder.Range | src/Query/Builder.php:354-359 | appends the range to the query tree only |
| Fluent.Builder.FilterRange | src/Query/Builder.php:370-375 | appends the range to the filter tree only |
| Fluent.Builder.MatchAll | src/Query/Builder.php:184-189 | appends `(matchall)` to the query tree only |
| Fluent.Builder.QAnd | src/Query/Builder.php:158-163 | appends the `and` block to the query tree only |
| Fluent.Builder.FilterAnd | src/Query/Builder.php:172-177 | appends the `and` block to the filter tree only |
| Fluent.Builder.QOr | src/Query/Builder.php:260-265 | appends the `or` block to the query tree only |
| Fluent.Builder.FilterOr | src/Query/Builder.php:274-279 | appends the `or` block to the filter tree only |
| Fluent.Builder.QNot | src/Query/Builder.php:232-237 | appends the `not` block to the query tree only |
| Fluent.Builder.FilterNot | src/Query/Builder.php:246-251 | appends the `not` block to the filter tree only |
| Fluent.Builder.Filter | src/Query/Builder.php:88-102 | appends the filter's phrase statements to the query tree; the filter tree is unchanged |
| Fluent.Builder.ByLocale | src/Query/Builder.php:59-65 | appends one `locale` phrase with the given or the application locale |
| Fluent.Builder.SearchableType | src/Query/Builder.php:35-50 | appends a `searchable_type` phrase with the class name, and a `locale` phrase exactly when the class is localized |
| Fluent.Builder.Cursor | src/Query/Builder.php:74-79 | forwards to the request builder's cursor |
| Fluent.Builder.Expr | src/Query/Builder.php:112-117 | forwards to the request builder's expr |
| Fluent.Builder.Facet | src/Query/Builder.php:128-133 | forwards to facet |
| Fluent.Builder.FacetBuckets | src/Query/Builder.php:144-149 | forwards to facetBuckets |
| Fluent.Builder.ReturnFields | src/Query/Builder.php:416-421 | forwards to returnFields |
| Fluent.Builder.Options | src/Query/Builder.php:431-436 | forwards to options |
| Fluent.Builder.Take | src/Query/Builder.php:445-450 | sets the size |
| Fluent.Builder.Sort | src/Query/Builder.php:460-465 | forwards to sort |
| Fluent.Builder.Start | src/Query/Builder.php:474-479 | forwards to start |
| Fluent.Builder.Stats | src/Query/Builder.php:488-493 | forwards to stats |
| Fluent.Builder.LatLon | src/Query/Builder.php:506-511 | forwards to latlon: one filter range, the optional distance expression |
| Fluent.Builder.AddDistanceExpr | src/Query/Builder.php:522-527 | forwards to addDistanceExpr |
| Fluent.Builder.Get | src/CloudSearcher.php:153-156 | one result per hit of the compiled request, each rebuilt from its hit |
| Fluent.Builder.First | src/Query/Builder.php:534-539 | the size is set to 1 and sent as 1; the result is the first hit rebuilt, or nothing when there is no hit |
| Fluent.Builder.Paginate | src/CloudSearcher.php:166-177 | size becomes perPage and start the page offset; the results are the hits rebuilt |
| Searcher.SearchableId | src/Eloquent/Searchable.php:71-78 | the key, or for a localized model `locale-key` |
| Searcher.SearchDocument | src/CloudSearcher.php:400-409 | the model's document with `searchable_type` set to its class |
| Searcher.SearchDocumentNonEmpty | src/CloudSearcher.php:69 | the document is never empty, so the skip in `update` never happens |
| Searcher.BlankNulls | src/CloudSearcher.php:77-79 | every null field becomes `''`, and every other field and every key is unchanged |
| Searcher.Update | src/CloudSearcher.php:57-87 | one `add` document per model, with its id and its document with nulls blanked |
| Searcher.Remove | src/CloudSearcher.php:96-124 | one `delete` document with version 1 per model |
| Searcher.Slashes | src/CloudSearcher.php:272 | every backslash becomes `/` |
| Searcher.AfterLastSlash | src/CloudSearcher.php:272 | a suffix of the path with no `/` in it |
| Searcher.ResultType | src/CloudSearcher.php:272 | the result type has no slash, no backslash and no upper-case letter, and is no longer than the class name |
| Searcher.ResultTypeChars | src/CloudSearcher.php:272 | the base name of the lower-cased class name has no slash, no backslash and no capital, and is no longer than the name |
| Searcher.PathChars | src/CloudSearcher.php:272 | lower-casing and replacing backslashes leaves no backslash and no upper-case letter |
| Searcher.BasenameChars | src/CloudSearcher.php:272 | `basename` yields a slash-free piece of the path |
| Searcher.ResultTypeOfClass | src/CloudSearcher.php:272 | the result type of `Ns\Name` is the lower-cased `Name` |
| Searcher.ResultTypeOfPlainClass | src/CloudSearcher.php:272 | the result type of a class without a namespace is its lower-cased name |
| Searcher.Firsts | src/CloudSearcher.php:264-266 | each attribute is the first value of its field |
| Searcher.HitAttributes | src/CloudSearcher.php:264-272 | the hit's attributes without `searchable_type` and with `result_type` |
| Searcher.NewFromHit | src/CloudSearcher.php:261-276 | no record exactly when the type is missing or falsy; otherwise a record of that class whose attributes are the first values, without `searchable_type`, with `result_type` |
| Searcher.HydrateResults | src/CloudSearcher.php:204-211 | one entry per hit, null exactly for hits without a type |
| Searcher.IsMultiLevelArray | src/CloudSearcher.php:364-373 | true exactly when every element is an array, so true for `[]` |
| Searcher.GroupResults | src/CloudSearcher.php:220-229 | the results grouped by table in input order, each result in exactly one group |
| Searcher.PageOffset | src/CloudSearcher.php:172-173 | the start of a page is `(page - 1) * perPage`, and not negative from page 1 on |
| Searcher.Paginate | src/CloudSearcher.php:172-173 | size becomes perPage and start the page offset; nothing else changes |
| Searcher.PagesTile | src/CloudSearcher.php:172-173 | page 1 starts at 0 and each page starts where the previous one ends |
| Queues.Pushed | src/Queue.php:57-70 | `push` upserts the key's row as waiting since now and leaves every other row |
| Queues.Claimed | src/Queue.php:80-84 | the claim keeps every key and timestamp, leaves no row waiting, and leaves rows that were not waiting unchanged |
| Queues.Flushed | src/Queue.php:99-104 | the flush deletes exactly the running rows and leaves the others unchanged |
| Queues.ClaimRunsAll | src/Queue.php:80-84 | after a claim nothing is waiting, every row is running, and timestamps are kept |
| Queues.FlushKeepsWaiting | src/Queue.php:99-104 | a flush deletes exactly the running rows and keeps the waiting ones unchanged |
| Queues.RepushSurvivesFlush | src/Queue.php:57-70 | a row pushed again while running is waiting, so the flush keeps it |
| Queues.StatusTransitions | src/Queue.php:14-15 | rows are created waiting; only a claim makes a row running; only a push makes a running row waiting; only a flush deletes, and only running rows |
| Queues.Enumerate | src/Queue.php:87-91 | the selected rows are every running key exactly once |
| Queues.Queue.constructor | database/migrations/2017_06_19_161000_create_cloudsearch_queues_table.php:16-24 | the table starts empty |
| Queues.Queue.Push | src/Queue.php:57-70 | the key's row is waiting since now; all other rows are unchanged |
| Queues.Queue.GetBatch | src/Queue.php:77-92 | the waiting rows are claimed; the batch holds exactly the running rows, grouped by action, each in the group of its action |
| Queues.Queue.FlushBatch | src/Queue.php:99-104 | the running rows are deleted |
| Batches.Ids | src/Console/QueueCommand.php:100 | the entry ids of a chunk, in order |
| Batches.Tag | src/Console/QueueCommand.php:63-64 | each entry-type group becomes a handler group of its action |
| Batches.ActionGroupsPartition | src/Console/QueueCommand.php:63 | grouping one action's rows by entry type keeps every row exactly once |
| Batches.GroupsPartition | src/Console/QueueCommand.php:62-66 | the handler groups together hold every row of the batch exactly once |
| Batches.GroupsHomogeneous | src/Console/QueueCommand.php:62-66 | every row of a handler group has the group's action and entry type |
| Batches.UpdateCalls | src/Console/QueueCommand.php:77-89 | every update call uploads between 1 and `batching_size` records; there is none exactly when nothing is found |
| Batches.DeleteCalls | src/Console/QueueCommand.php:97-102 | every delete call sends between 1 and `batching_size` ids; there is none exactly when the group is empty |
| Batches.GroupCalls | src/Console/QueueCommand.php:64 | a handler exists exactly when the action is `update` or `delete` in any case; otherwise the group fails on its action as given; `update` only uploads and `delete` only deletes |
| Batches.GroupCallsIgnoreCase | src/Console/QueueCommand.php:64 | `$this->{$action}` matches the method whatever its case: a group runs as under its lower-cased action |
| Batches.CapitalizedUpdate | src/Console/QueueCommand.php:64 | a group pushed with action `Update` is handled by `update` |
| Batches.DeleteForwardsAll | src/Console/QueueCommand.php:97-102 | the delete chunks forward every entry id of the group, in order, at most `batching_size` each |
| Batches.UpdateForwardsAll | src/Console/QueueCommand.php:77-89 | the update chunks upload exactly the records found for the group's ids, at most `batching_size` each |
| Batches.DroppedChunks | src/Console/QueueCommand.php:99-101 | the ids of all delete chunks are the ids of all rows |
| Batches.UploadedChunks | src/Console/QueueCommand.php:86-88 | the records of all upload chunks are all records |
| Batches.Handlers | src/Console/QueueCommand.php:64 | each group is handled by the handler its action names |
| Batches.RunThen | src/Console/QueueCommand.php:62-66 | running two runs of handlers is running the first, then the second only if the first got through |
| Batches.DispatchThen | src/Console/QueueCommand.php:62-66 | the same for handler groups |
| Batches.DispatchOne | src/Console/QueueCommand.php:64 | one group makes its handler's calls, or fails on an action without a handler |
| Batches.RunPasses | src/Console/QueueCommand.php:64 | a run gets through exactly when every handler exists |
| Batches.DispatchPasses | src/Console/QueueCommand.php:64 | a batch gets through exactly when every action is `update` or `delete`, in any case |
| Batches.QueueCommand.constructor | src/Console/QueueCommand.php:46-53 | `batching_size` is the configured value, or 100 |
| Batches.QueueCommand.Update | src/Console/QueueCommand.php:77-89 | sends the update chunks of the group |
| Batches.QueueCommand.Delete | src/Console/QueueCommand.php:97-102 | sends the delete chunks of the group |
| Batches.QueueCommand.Handle1 | src/Console/QueueCommand.php:64 | calls the handler the action names, whatever its case, or fails and sends nothing |
| Batches.QueueCommand.HandleAction | src/Console/QueueCommand.php:63-65 | handles the action's entry-type groups in order, exactly as `Dispatch` says |
| Batches.QueueCommand.DispatchBatch | src/Console/QueueCommand.php:62-66 | handles every group of the batch in order and stops at the first failure |
| Batches.QueueCommand.Handle | src/Console/QueueCommand.php:58-69 | claims a batch of exactly the running rows, hands every row to one group of its action and entry type, and flushes once, only when every group was handled |
| Fields.Described | src/Console/FieldsCommand.php:121-132 | the described map lists each name once, and is empty exactly when the domain describes no field |
| Fields.DescribedGet | src/Console/FieldsCommand.php:121-132 | each described field maps to its type, a later duplicate overwriting an earlier one; names not described are missing |
| Fields.GetFields | src/Console/FieldsCommand.php:127-129 | the loop builds the described map |
| Fields.Forced | src/Console/FieldsCommand.php:49 | `searchable_type` is `literal` whatever the configuration says; every other field is as configured |
| Fields.FieldOutcome | src/Console/FieldsCommand.php:86-93 | the corrected requests for one remote field: at most one, about that field; none exactly when the desired type equals the remote one; a delete exactly when the field is not desired |
| Fields.Defines | src/Console/FieldsCommand.php:106-112 | one define per field left |
| Fields.Plan | src/Console/FieldsCommand.php:57-58 | the corrected plan makes at most one request per remote field and per desired field |
| Fields.Reconcile | src/Console/FieldsCommand.php:81-99 | the corrected remote pass makes at most one call per remote field |
| Fields.ReconcileLeftover | src/Console/FieldsCommand.php:95 | after the remote pass, the fields left are exactly the desired fields the domain does not have |
| Fields.ReconcileDistinct | src/Console/FieldsCommand.php:95 | the fields left keep distinct names |
| Fields.FieldOutcomeEffect | src/Console/FieldsCommand.php:86-93 | with the corrected redefinition, a field's call deletes a field not desired, sets a changed field to its desired type, and leaves every other field |
| Fields.ApplyReconcile | src/Console/FieldsCommand.php:81-99 | the corrected remote pass settles every remote field and touches no other |
| Fields.ApplyDefines | src/Console/FieldsCommand.php:106-112 | the new-field pass defines exactly the fields left |
| Fields.PlanConverges | src/Console/FieldsCommand.php:57-58 | with the corrected redefinition, if every request is accepted, the domain ends with exactly the desired fields and types |
| Fields.PlanEmptyIffInSync | src/Console/FieldsCommand.php:57-58 | no request is made exactly when the domain already has the desired fields and types |
| Fields.FieldOutcomeAsWritten | src/Console/FieldsCommand.php:86-93 | as written, one remote field gets as many requests as in the corrected plan, but a define always carries the remote type; it differs from the corrected outcome exactly when the field is desired with another type |
| Fields.ReconcileAsWritten | src/Console/FieldsCommand.php:81-99 | the remote pass as written leaves the same fields for the new-field pass and makes as many requests as the corrected one |
| Fields.PlanAsWritten | src/Console/FieldsCommand.php:57-58 | `handle` as written makes as many requests as the corrected plan |
| Fields.FieldOutcomeAsWrittenEffect | src/Console/FieldsCommand.php:86-93 | as written, a field's requests delete it when not desired, keep its remote type otherwise, and touch no other field |
| Fields.ApplyReconcileAsWritten | src/Console/FieldsCommand.php:81-99 | the remote pass as written settles each remote field that way and touches no other |
| Fields.PlanAsWrittenOutcome | src/Console/FieldsCommand.php:57-58 | after `handle` as written, with every request accepted, a remote field still desired keeps its remote type; every other field is as desired |
| Fields.PlanAsWrittenEmptyIffInSync | src/Console/FieldsCommand.php:57-58 | as written, no request is made exactly when the domain already has the desired fields and types |
| Fields.ApplyDistinct | src/Console/FieldsCommand.php:86-93 | carrying out define and delete requests keeps field names distinct |
| Fields.AsWrittenNeverSettles | src/Console/FieldsCommand.php:91-92 | as written, a field whose configured type differs from the domain's keeps the domain's type, the domain is not in line, and the next run requests again |
| Fields.AsWrittenYearExample | src/Console/FieldsCommand.php:91-92 | `year` configured `int` but indexed `text` is redefined as `text` and stays `text`; the corrected outcome defines it as `int` |
| Fields.Accepted | src/Console/FieldsCommand.php:153-155 | no more accepted changes than requests |
| Fields.AcceptedPositive | src/Console/FieldsCommand.php:64 | the count is positive exactly when some request got status 200 |
| Fields.FieldsCommand.constructor | src/Console/FieldsCommand.php:35 | no changes and no requests yet |
| Fields.FieldsCommand.DefineField | src/Console/FieldsCommand.php:142-158 | one define request; `changes` grows by one exactly when it got status 200 |
| Fields.FieldsCommand.DeleteField | src/Console/FieldsCommand.php:167-180 | one delete request; `changes` grows by one exactly when it got status 200 |
| Fields.FieldsCommand.SyncField | src/Console/FieldsCommand.php:86-93 | the as-written requests for one remote field: a delete when not desired, a define with the remote type when the type changed |
| Fields.FieldsCommand.SyncCurrentFields | src/Console/FieldsCommand.php:81-99 | the as-written requests of the remote pass, and the fields left once the remote names are unset |
| Fields.FieldsCommand.SyncNewFields | src/Console/FieldsCommand.php:106-112 | one define per field left |
| Fields.FieldsCommand.Sync | src/Console/FieldsCommand.php:57-58 | the remote pass followed by the new-field pass |
| Fields.FieldsCommand.Handle | src/Console/FieldsCommand.php:40-74 | an empty configuration reports and makes no request; otherwise it makes exactly the as-written planned requests, and offers a rebuild exactly when some change was accepted |

## Left out

- AWS SDK calls (`uploadDocuments`, `search`, `describeIndexFields`, `defineIndexField`, `deleteIndexField`, `indexDocuments`) and the lazily built clients are network I/O. Their requests and payloads are modelled; their responses are parameters.
- `execute` catches AWS exceptions and calls `dd()`, which dumps and ends the process. This is I/O.
- The reflective ORM hydration (`newFromBuilderRecursive`, `loadRelationsAttributesRecursive`, `loadPivotAttribute`, `hydrateRecursive`) relies on Eloquent internals. A hit becomes a record of class name and attributes.
- `quickSearch` calls a method that does not exist.
- `paginateResults` builds a paginator object, which is presentation; the page offset and the request are modelled.
- The `cos`/`deg2rad` arithmetic of `latlon` is floating point. The box's corners are parameters.
- `json_encode` of expressions, facets and options is a `Codec` parameter.
- PHP array keys are not coerced (numeric strings to integers), and `Arr::get` dot notation is not modelled. Keys are plain strings.
- A configured field whose type is `null` is treated as missing. In the model, a configured field always has a type.
- A missing `cloud-search.fields` configuration is treated as an empty one.
- `confirm`, `runIndexing` and console output in `FieldsCommand::handle` are interactive I/O. The model returns the report that decides whether a rebuild is offered.
- The queue's UPDATE and SELECT are separate statements without a transaction. The model runs them in sequence and claims no atomicity. The unused `$expire` is not modelled.
- `QueueCommand` dispatches by `$this->{$action}`, which PHP resolves whatever the case. The model treats only the two handler names as handlers, in any case. An action that names another method of the command (its own or one inherited from Laravel's `Command`, such as `line` or `info`) would call that method; these calls are not modelled, and the model fails such a group. Any other action ends the command before the flush, as in PHP.
- The other console commands, the service provider, the observer, the scopes and the migration are framework glue.
- Clauses.StructuredSearch.GetQuery and Clauses.StructuredSearch.ToString only read the state and carry no contract of their own; `Render` states what rendering yields.
- Fields.PlanConverges assumes every request is accepted; under rejected requests it says nothing about the final fields.
- Searcher.Remove: the `method_exists` guard is always true, so no model is skipped and the guard is not modelled.
- Searcher.Update: the empty-document skip is not modelled, because `SearchDocumentNonEmpty` shows it never applies.
- A closure block that appends nothing, and `__toString` of an empty tree, raise an error in PHP 8 (`implode` over `null`). The model returns `EmptyBlock` there; PHP 7 behaviour is not modelled.
- Batches.QueueCommand.Delete: `delete` calls `CloudSearcher::delete`, which does not exist, and `CloudSearcher` has no `__call` (`src/Console/QueueCommand.php:100`). In PHP the first delete chunk raises an `Error`. The model instead forwards each chunk's entry ids to a delete sink, which is what the handler evidently intends (the removal method is `remove`).
- Batches.QueueCommand.Handle: because of that `Error`, a batch holding any delete row never reaches `flushBatch` (`src/Console/QueueCommand.php:68`), and the groups after the first delete group are never handled. The model handles them and flushes; it does not model the `Error`, the missing flush or the skipped groups.
- Batches.DispatchPasses: it treats `delete` as a handler that gets through. As written, a `delete` group with at least one row stops the batch with an `Error`, so a batch gets through only when every action is `update`.
- Fluent.Builder.constructor: `Query\Builder` instantiates `StructuredQueryBuilder` without an import, so the name resolves inside its own namespace, where no such class exists (`src/Query/Builder.php:25`). In PHP the constructor raises an `Error`; the model uses the root-namespace builder.
- Fluent.Builder.Paginate: the default `$perPage = 15` of `Query\Builder::paginate` and `CloudSearcher::paginate` (`src/Query/Builder.php:558`, `src/CloudSearcher.php:166`) is not modelled. `perPage` is always passed explicitly, and the current page, which Laravel resolves from the request, is a parameter.
- Floats are not modelled. A float argument enters as its interpolated text: a `range` bound such as a price, a `term` or `phrase` value, and the `lat`/`lon` of `latlon` (`src/StructuredQueryBuilder.php:353`) and `addDistanceExpr` (:383). Truthiness differs only for zero: PHP finds the float `0.0` falsy, but the model's `Str("0.0")` is truthy. PHP's float-to-text formatting is not modelled.
- Optional parameters with a non-null default cannot be omitted in the model; every method takes all its arguments. A PHP caller who omits them gets these defaults:
  - `cursor`: `'initial'` (`src/Query/Builder.php:74`, `src/StructuredQueryBuilder.php:140`). The model's `CursorValue` turns any loosely-0 cursor into `'initial'`.
  - `facet`: `"bucket"` and `10` (`src/Query/Builder.php:128`, `src/StructuredQueryBuilder.php:185`).
  - `facetBuckets`: `"filter"` (`src/Query/Builder.php:144`, `src/StructuredQueryBuilder.php:210`).
  - `sort`: `'asc'` (`src/Query/Builder.php:460`, `src/StructuredQueryBuilder.php:296`).
  - `latlon`: radius `50` and `addExpr` `false` (`src/Query/Builder.php:506`, `src/StructuredQueryBuilder.php:353`). The radius only feeds the floating-point corners, which are parameters.
  - `paginate`: `15`, on the `Fluent.Builder.Paginate` line above.
  The leaf defaults (`near`'s distance `3`, and the null field and boost) are modelled.
- `cursor`'s loose `== 0` follows PHP 8. Under PHP 7 a non-numeric string would also compare equal to 0; this is not modelled.

## Findings

| source | as written | input that shows it | evidently intended | confidence | as-written member | corrected member |
|---|---|---|---|---|---|---|
| src/Console/FieldsCommand.php:91-92 | a field whose configured type differs from the domain's is redefined with the domain's own type `$type` | field `year` configured `int` and indexed `text`: `defineField('year', 'text')` leaves it `text`, and the next run requests the same define again | redefine with the configured type `$current_type`, so the domain reaches the configuration | high, not executed | Fields.AsWrittenNeverSettles | Fields.PlanConverges |
