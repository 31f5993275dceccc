# famulus data-access core in Dafny

This project models the data-access layer of famulus in Dafny:

- `Lib\DbQuery` is the fluent SELECT builder. It keeps the selected columns, WHERE clauses, ORDER BY items and named parameters, and renders them with `build()`.
- `Lib\Dal` is the base class of every persistent entity. An entity has a table, an ordered property => column map and a primary-key property. From these it builds its INSERT, UPDATE, DELETE and point SELECT statements, and it fills its properties from fetched rows.

The database and the cache are the two process-wide services the entity calls:

- `Executor.Database` records every statement it is sent. It answers through a function of the statements sent before, so any answering behaviour can be supplied.
- `Executor.Cache` is a map.

Modules, following the program's structure:

- `Text`: `implode` (`Join`), decimal rendering, and `str_replace` (`ReplaceAll`).
- `Php`: PHP values, truthiness, `is_numeric`, the `(int)` cast, and the `Outcome` of an operation that can throw.
- `Schema`: an entity's static declaration, i.e. table, ordered map and key.
- `Query`: `DbQuery` as a class. Its fields are the lists and the parameter map the PHP object mutates.
- `Executor`: the database and the cache.
- `Statements`: the statement texts and parameter maps as functions, plus the hydration function. Their properties are proved as lemmas.
- `Dal`: `Entity` as a class. Its fields are the entity's properties. Its methods are `sync`, `copyFromDbRow`, `delete`, `_getById` and their static entry points, and each is proved against the functions of `Statements`.
- `InsertFinding`: the INSERT text exactly as `sync` writes it, and where it goes wrong.
- `Scenarios`: the test entity of the repository's unit tests (`test` table, `id` => `table_id`, `prop1` => `table_prop1`). Each method calls the operations on a database whose answers are fixed by its preconditions, and its statements and results are proved equal to the texts the tests expect. Where the repository's test double answers differently (it reports a count of 0 for every SELECT), the precondition states the answer the test's registered row implies.

An exception is modelled as a failed `Outcome`, `Fail(InvalidArgument(message))` or `Fail(UnknownColumn(message))`. In the PHP code the failing method has then changed whatever it changed before the `throw`; the contracts state that partial state as well.

The model follows the code, except in two places where the code defeats its own evident purpose. Both are recorded under Findings:

- The INSERT column list. The comment at lib/Dal.php:70 says the key is only used for UPDATEs, and the `str_replace` at lib/Dal.php:93 deletes the key column from the INSERT's column list. The pattern it deletes ends with a comma, so the key column stays when it is the last map entry.
- The point-lookup cache. At lib/Dal.php:193-203 the only value ever stored is `$retVal`, read from the cache before the query. Inside `if (!$retVal)` that value is falsy, so no later lookup finds a truthy entry, and the hit path at lib/Dal.php:195 would copy nothing into the entity anyway.

In both cases the as-written behaviour is modelled and exhibited, and the corrected behaviour is the one the rest of the model uses. Rows marked "(corrected, see Findings)" describe the corrected behaviour, not the program's.

## Model

| member | source | states |
|---|---|---|
| Query.DbQuery.constructor | lib/DbQuery.php:23-27 | A new builder holds the given table, map and optional key. Its selection, clauses, sort items and parameters are empty. |
| Query.DbQuery.NextParamName | lib/DbQuery.php:220-222 | The next parameter name is `:param<n>`, where n is the number of parameters bound so far. No other count gives that name, and it is not yet bound. |
| Query.ParamIndexOfName | lib/DbQuery.php:221 | `:param<k>` reads back as k. |
| Query.ParamNameInjective | lib/DbQuery.php:221 | Different counts give different parameter names. |
| Query.ParamNamesDistinct | lib/DbQuery.php:127-131 | The names allocated for one `in()` call are pairwise distinct. |
| Query.BindingsRange | lib/DbQuery.php:127-131 | Binding n values from count k adds n entries, all named `:param<k..k+n-1>`. |
| Query.BindingAt | lib/DbQuery.php:128-129 | The j-th value of an `in()` call is bound under `:param<k+j>`. |
| Query.InKeepsParam | lib/DbQuery.php:127-131 | An `in()` call never rebinds a parameter that was already bound. |
| Query.InBindsValue | lib/DbQuery.php:127-131 | After `in()`, the j-th new name maps to the j-th value. |
| Query.ColumnFor | lib/DbQuery.php:224-230 | A property resolves to a column exactly when the map has it and the column is truthy. Otherwise the lookup fails. |
| Query.ResolvedPrefix | lib/DbQuery.php:37-42 | The properties `select` resolves before the first unknown one. There are never more than were given. |
| Query.SelectionSpec | lib/DbQuery.php:34-45 | After `select`, the projection is the old one followed by the columns of the properties before the first unknown one that were not yet selected, each once, in the order first given (`NewColumns`). It stays duplicate-free. It succeeds iff every property resolves, and otherwise fails naming the first unknown property. |
| Query.SelectionOrder | lib/DbQuery.php:37-42 | The loop's projection is the old projection followed by the new columns in first-occurrence order. |
| Query.NewColumnsSeen | lib/DbQuery.php:40 | Which columns are new depends only on which columns are already selected, not on their order. |
| Query.ResolvedIsMapped | lib/DbQuery.php:224-230 | A property that resolves names a column of the map, so the projection only holds mapped columns. |
| Query.DbQuery.Select | lib/DbQuery.php:34-45 | The new projection and the outcome are those of `Selection` on the old projection. |
| Query.DbQuery.Compare | lib/DbQuery.php:53-115 | An unknown property fails and changes nothing. Otherwise exactly one clause is appended (`IS NULL`/`IS NOT NULL` for a null value) and the rendered WHERE text grows by ` AND ` and that clause. A non-null value is bound under the next parameter name, and a null binds nothing. |
| Query.DbQuery.In | lib/DbQuery.php:123-135 | An unknown property fails and changes nothing. Otherwise the values are bound in order under fresh consecutive names, and the clause `` `col` IN (names) `` is appended. |
| Query.InClauseEmpty | lib/DbQuery.php:132 | An empty value list renders as `` `col` IN () ``. |
| Query.DbQuery.BindValues | lib/DbQuery.php:127-131 | The loop binds every value under `:param<k+j>`, keeps every earlier binding, and returns the names in order. |
| Query.DbQuery.BindStep | lib/DbQuery.php:128-130 | One iteration binds the next name to the next value and appends that name, so the bindings and names stay those of the values bound so far. |
| Query.DbQuery.Sort | lib/DbQuery.php:145-156 | A direction other than `ASC`/`DESC` fails with the quoted direction in the message, before the property is looked up. An unknown property fails. Otherwise one `` `col` DIR `` item is appended. |
| Query.DbQuery.Build | lib/DbQuery.php:184-196 | The SQL starts with the SELECT part, and it is just that part when there are no clauses and no sort items. |
| Query.DbQuery.Projection | lib/DbQuery.php:164 | With nothing selected the projection is every mapped column in map order. In a valid builder it names only mapped columns. |
| Query.DbQuery.SelectPart | lib/DbQuery.php:161-167 | The SELECT part opens with ``SELECT ` `` and ends by naming the table: `` ` FROM `table` ``. |
| Query.DbQuery.WherePart | lib/DbQuery.php:172-174 | No clauses render as empty text and one clause as itself. With more, the text ends with ` AND ` and the last clause. |
| Query.DbQuery.SortPart | lib/DbQuery.php:176-178 | No items render as empty text and one item as itself. With more, the text ends with `, ` and the last item. |
| Query.DbQuery.AndQuery | lib/DbQuery.php:137-139 | `andQuery` changes nothing in the builder; its body is empty. |
| Query.DbQuery.OrQuery | lib/DbQuery.php:141-143 | `orQuery` changes nothing in the builder; its body is empty. |
| Dal.BlankFields | lib/Dal.php:214-217 | A freshly instantiated entity has every declared property, all null. |
| Dal.Entity.Blank | lib/Dal.php:214-217 | `_instantiateThisObject`: an entity of the schema whose declared properties are all null. |
| Dal.Entity.constructor | lib/Dal.php:16-24 | (corrected, see Findings) A numeric argument performs the point lookup. An object or array is copied in as a row. Anything else leaves a blank entity and touches neither the database nor the cache. |
| Dal.Entity.Sync | lib/Dal.php:50-108 | (corrected, see Findings; the INSERT omits the key column even when it is last) Exactly one statement is issued, the one `SyncStatement` describes. The key takes the insert id only after an INSERT that reports one. The result is `$retVal > 0` on the database's answer. |
| Dal.Entity.SyncLists | lib/Dal.php:69-87 | The loop over the map builds exactly the parameter map and the list of pieces that `SyncParams` and `SyncPieces` describe. |
| Dal.NewQuery | lib/Dal.php:110-112 | `query()` returns a fresh, empty builder over the entity's table, map and key. |
| Dal.Entity.CopyFromDbRow | lib/Dal.php:126-142 | The fields become the hydration of the row (`CopyEffect`). |
| Dal.Entity.CreateFromDbRow | lib/Dal.php:117-121 | A fresh entity holding the hydration of the row into blank fields. |
| Dal.CopyEffectAt | lib/Dal.php:133-139 | A mapped property takes the row's value for its column, cast to int for the key column. |
| Dal.CopyEffectFrame | lib/Dal.php:133-139 | Hydration keeps the set of properties and leaves unmapped properties unchanged. |
| Dal.CopyEffectIdempotent | lib/Dal.php:126-142 | Copying the same row twice is the same as copying it once. |
| Dal.HydratedEntitySyncsAsUpdate | lib/Dal.php:59-66 | An entity hydrated from a row whose key casts to a non-zero int syncs as an UPDATE. |
| Dal.Entity.Delete | lib/Dal.php:147-162 | A truthy key issues exactly the DELETE on the key column with `:id` bound to the key, and returns the answer. Otherwise nothing is issued and the result is `false`. |
| Dal.Entity.DeleteById | lib/Dal.php:167-171 | `deleteById` sets the property named `id` and deletes, with the contract of `delete`. |
| Dal.DeleteByIdKey | lib/Dal.php:167-171 | For a key not named `id`, `deleteById` never deletes. For a key named `id`, the id is the key. |
| Dal.Entity.GetById | lib/Dal.php:173-177 | (corrected, see Findings) A fresh entity after the point lookup from blank fields. A non-numeric id fails with "ID must be a number". |
| Dal.Entity.LoadById | lib/Dal.php:182-209 | The new fields, cache and statement log are those `LoadedById` relates to the old ones (corrected cache, see Findings). A non-numeric id fails and changes nothing. |
| Dal.LoadedByIdAsWritten | lib/Dal.php:182-209 | `_getById` as written: either nothing is sent or exactly the point SELECT is, and the entity keeps its set of properties. A hit copies nothing, and a miss stores the value read before the query. |
| Dal.LoadByIdCacheStaysFalsy | lib/Dal.php:192-204 | As written, a miss leaves the key without a truthy value, and the SELECT was issued. So the next lookup of that id queries again. |
| Dal.LoadByIdCachesRow | lib/Dal.php:192-204 | With the corrected cache, a miss that finds a row issues the point SELECT and stores the fetched row under the key. |
| Dal.RepeatLookupServedByCache | lib/Dal.php:192-204 | With the corrected cache, once a lookup leaves a truthy entry, the same lookup again issues nothing, keeps the cache and yields the same fields. |
| Dal.PointSelectExtendsBuild | lib/Dal.php:196-197 | The point SELECT is a fresh builder's `build()` text followed by the key condition and `LIMIT 1`. |
| Statements.NonKeyEntriesSpec | lib/Dal.php:69-71 | The non-key entries (defined as the map's entries other than the key's, kept in map order) are one fewer than the map's entries, contain every non-key entry and nothing else, and none of them names the key column. |
| Statements.NonKeyEntriesMembers | lib/Dal.php:69-71 | An entry is a non-key entry iff it is in the map and is not the key's. |
| Statements.NonKeyEntriesCount | lib/Dal.php:69-71 | Dropping the key removes one entry when the key is mapped, and none otherwise. |
| Statements.SyncPiecesAreNonKeyPieces | lib/Dal.php:81-85 | The pieces `sync` collects are one per non-key entry, in map order, for both INSERT and UPDATE. |
| Statements.SyncParamsAt | lib/Dal.php:72-79 | Every property the loop visits is bound under `:prop` to its value, JSON-encoded when it is an object. |
| Statements.SyncParamsOnly | lib/Dal.php:71-79 | Every bound name is `:prop` for a visited property. |
| Statements.SyncParamsFresh | lib/Dal.php:71-79 | A name that is no visited property's placeholder is not bound. |
| Statements.SyncParamsCount | lib/Dal.php:69-87 | The parameter count is the piece count, plus one for the key in an UPDATE. |
| Statements.SyncStatementKind | lib/Dal.php:59-66 | `sync` issues an UPDATE iff the key casts to a non-zero int and no insert is forced, and an INSERT otherwise. |
| Statements.InsertStatementSpec | lib/Dal.php:69-93 | The INSERT lists every non-key column with its `:prop` placeholder at the same position. It binds exactly those placeholders to their values and never the key. |
| Statements.UpdateStatementSpec | lib/Dal.php:69-95 | The UPDATE sets `` `col` = :prop `` for every non-key entry and matches the key column against `:pk`. It binds every mapped property, the key included. |
| Statements.SyncParamsNamed | lib/Dal.php:71-79 | Whatever `sync` binds is the placeholder of a mapped property, and a non-key one for an INSERT. |
| Statements.DeleteStatement | lib/Dal.php:155-156 | The DELETE binds exactly `:id`, to the id, and its text ends by comparing the key column with `:id`: `` `keycol` = :id ``. |
| Statements.SelectByIdStatement | lib/Dal.php:196-199 | The point SELECT binds exactly `:id`, to the id, and its text ends with the key comparison and `LIMIT 1`: `` `keycol` = :id LIMIT 1 ``. |
| Statements.CacheKey | lib/Dal.php:192 | The id's decimal text reads back as the segment of the key after its last underscore. |
| Statements.CacheKeyInjective | lib/Dal.php:192 | Two lookups share a cache entry only for the same table and the same id text. |
| Statements.HydratedAt | lib/Dal.php:133-139 | A mapped property takes the row's value when the row has the column, and keeps its own otherwise. |
| Statements.HydratedUnmapped | lib/Dal.php:133-139 | Properties outside the map are never touched. |
| Statements.HydratedIdempotent | lib/Dal.php:133-139 | Hydrating twice from the same row changes nothing more. |
| InsertFinding.InsertSqlAsWritten | lib/Dal.php:92-93 | The INSERT text as the code writes it: the draft listing every column, after `str_replace` removes the key column and its comma. The result is the draft unchanged or shorter. |
| InsertFinding.ReplacedDraft | lib/Dal.php:93 | `str_replace` turns the draft into the intended column list when the key is not last, and leaves the key column in when it is last. |
| InsertFinding.AsWrittenText | lib/Dal.php:92-93 | After `str_replace`, the INSERT text lists every column other than the key, except that the last column always stays. |
| InsertFinding.AsWrittenIsInsertSql | lib/Dal.php:92-93 | When the key is not the last map entry, the as-written text is exactly the intended INSERT. |
| InsertFinding.AsWrittenAgreesWhenKeyNotLast | lib/Dal.php:69-93 | For such a map, the statement text `sync` issues is the one the code writes. |
| InsertFinding.AsWrittenKeepsLastKey | lib/Dal.php:92-93 | When the key is the last map entry, `str_replace` removes nothing and the key column stays in the INSERT. |
| Php.IntCastReadsDecimal | lib/Dal.php:62 | `(int)` of an integer's decimal text gives back that integer. |
| Php.LeadingDigitsOfDigits | lib/Dal.php:62 | `(int)` reads a whole all-digit text. |
| Schema.KeyColumnIff | lib/Dal.php:136 | An entry's column is the key column iff its property is the key. |
| Executor.Database.Query | lib/Dal.php:98 | Sending a statement appends it to the log and returns the database's answer to it. |
| Executor.Cache.Get | lib/Dal.php:193 | A read returns the stored value, or null for a key never set. |
| Executor.Cache.Set | lib/Dal.php:203 | A write replaces exactly that key. |
| Text.ReplaceAllShrinks | lib/Dal.php:93 | `str_replace` by a text shorter than the pattern either changes nothing or shortens the text. |
| Text.ReplaceAllSkipsPrefix | lib/Dal.php:93 | `str_replace` leaves a prefix alone when the pattern's first character does not occur in it. |
| Scenarios.SelectById86 | test/lib/Dal.php:34-40 | The point SELECT for id 86 is the text and the `:id` binding the test expects. |
| Scenarios.UpdateScenario | test/lib/Dal.php:101-116 | Entity (5, "dude") syncs to the UPDATE text the test expects, with both parameters bound. |
| Scenarios.UpdateWithSync | test/lib/Dal.php:101-120 | Running `sync` on it issues that one statement, keeps the fields, and reports success. |
| Scenarios.InsertScenario | test/lib/Dal.php:204-214 | An entity with a zero key, or a forced insert, syncs to the INSERT of `table_prop1` alone, binding only `:prop1`. |
| Scenarios.InsertWithSync | test/lib/Dal.php:66-96 | Running `sync` issues that INSERT, reports success and stores insert id 1 in the key. |
| Scenarios.DeleteById97 | test/lib/Dal.php:181-189 | The DELETE for id 97 is the text and binding the test expects. |
| Scenarios.DeleteWithId | test/lib/Dal.php:181-189 | `deleteById(97)` issues exactly that DELETE and returns the database's answer. |
| Scenarios.HydrationScenario | test/lib/Dal.php:191-202 | Copying row ("3", "dude") gives key int 3 and prop1 "dude". |
| Scenarios.Row86Copied | test/lib/Dal.php:146-159 | Copying the row registered for id 86 gives key 86 and prop1 "first". |
| Scenarios.GetById86 | test/lib/Dal.php:146-165 | (corrected, see Findings) With the database answering the point SELECT with the test's row, `getById(86)` issues exactly the expected SELECT, holds the row's values, and caches the row, so a second `getById(86)` issues nothing more. The program as written would query again (see `Dal.LoadByIdCacheStaysFalsy`). |
| Scenarios.GetByIdOfText | test/lib/Dal.php:172-174 | A non-numeric id fails with "ID must be a number" and touches neither database nor cache. |
| Scenarios.CacheKey86 | lib/Dal.php:192 | The cache key for table `test` and id 86 is `Lib:Dal:test_getById_86`. |
| Scenarios.KeyLastInsertKeepsKeyColumn | lib/Dal.php:92-93 | For the map (prop1, id) with key id, the as-written INSERT keeps `` `table_id` `` in the column list. |
| Scenarios.KeyLastInsertIntended | lib/Dal.php:92-93 | For the same map, the corrected INSERT lists only `` `table_prop1` ``. |
| Scenarios.TestColumns | lib/DbQuery.php:224-230 | Over the test map, `prop1` and `id` resolve and `name` does not. |
| Scenarios.TestQuery | lib/DbQuery.php:53-156 | `eq(prop1, null)`, `gt(id, 3)` and `sort(id, DESC)` give clauses `IS NULL` and `> :param0`, sort item `` `table_id` DESC `` and binding `:param0` => 3. A `down` direction and an unknown property fail with their messages and change nothing. |
| Scenarios.Refusals | lib/DbQuery.php:53-156 | On a builder over the test map, `sort(id, "down")` fails with the quoted direction and `eq(name, 1)` fails naming `name`; clauses, parameters and sort items are unchanged. |
| Scenarios.TestQueryText | lib/DbQuery.php:184-196 | That builder renders as `SELECT ... FROM test WHERE ... IS NULL AND ... > :param0 ORDER BY ... DESC`. |

## Left out

- The database and the cache are not modelled beyond their contracts. `Db::Query` is an oracle given as the database's `respond` function, and `Db::Fetch` returns the first row of a result. The connection, real SQL execution and the repository's test double, which answers by the statement's first word, are not modelled. The scenarios state the answers the tests expect as preconditions on `respond`.
- `json_encode` is a parameter (`json`) of `sync`, because its output format is outside this layer. Every object-valued property is bound as `Str(json(v))`.
- `is_numeric` is modelled as true for integers and for decimal integer texts with an optional sign. The `(int)` cast reads an optional sign and the leading digits. Leading whitespace, fractions, exponents, floats and integer overflow are not modelled.
- PHP's ordered arrays are modelled by their contents only. The entity map is an ordered sequence. The parameter maps are unordered maps, so the order of keys in `$params` is not modelled.
- `andQuery`, `orQuery` and `execute` have empty bodies in the source. `AndQuery` and `OrQuery` are kept as methods that change nothing, and `execute` is not modelled.
- The unused `_verb`, `_group`, `_limit` and `_offset` of `DbQuery`, and the unused `_where`, `_params` and `_sort` of `Dal`, are not modelled.
- Entities without a primary key are not modelled: every schema names a mapped, non-empty key property.
- Maps in which two properties share one column are not modelled: `Schema.Valid` requires every column to appear once (`ColumnsUnique`), while PHP accepts such a map. With a shared column, `copyFromDbRow` would copy that column into both properties and int-cast both when it is the key's column, and the INSERT `str_replace` would remove every occurrence of the key column. `KeyColumnIff`, `NonKeyEntriesSpec` and `CopyEffectAt` rely on this restriction.
- Table, column and property names are identifiers: letters, digits and underscores. `str_replace` is then reasoned about on those texts only.
- The static getters `getDbTable`, `getDbMap` and `getDbPrimaryKey`, and `_instantiateThisObject`, are folded into the `Schema` value and the set of declared properties the entity is instantiated with.
- Loose `!=` between a key name and a property name is treated as string inequality, which it is for the identifier names above.
- In `sync`, an INSERT whose map has only the key never assigns `$params`, so the code passes an undefined variable. The model binds an empty map. (An UPDATE binds the key there.)
- Reading a property the entity does not declare gives null, as PHP does. The warning PHP also emits is not modelled.
- A thrown exception is a failed `Outcome`; stack unwinding is not modelled.
- lib/DbQuery.php has no `use Exception`, so its `new Exception` names `Lib\Exception`. Unless the autoloader (lib/bootstrap.php:32-44) finds `./lib/exception.php`, `select`, `compare`, `in` and `sort` raise a class-not-found error instead of the messages `Select`, `Compare`, `In` and `Sort` model. The model assumes the intended `Exception`, as lib/Dal.php imports it.
- Scenarios.TestQueryText: the expected SQL is stated as a concatenation of its clause texts, not as one literal.

## Findings

| source | as written | input that shows it | evidently intended | confidence | as-written member | corrected member |
|---|---|---|---|---|---|---|
| lib/Dal.php:92-93 | The key column is removed from the INSERT column list by deleting `` `keycol`, ``. That text is present only when a comma follows the key column. | Map `prop1 => table_prop1, id => table_id`, key `id`, entity with a null id. The INSERT is `` INSERT INTO `test` (`table_prop1`,`table_id`) VALUES (:prop1) ``: two columns and one value. | The key column is never listed, giving `` INSERT INTO `test` (`table_prop1`) VALUES (:prop1) `` | not executed | InsertFinding.AsWrittenKeepsLastKey, Scenarios.KeyLastInsertKeepsKeyColumn | Statements.InsertStatementSpec, Scenarios.KeyLastInsertIntended |
| lib/Dal.php:192-204 | On a miss, the cache entry is set to the value read before the query, which is falsy. On a hit, nothing is copied into the entity. | `getById(86)` with an empty cache and a database returning one row. Afterwards the cache holds null under `Lib:Dal:test_getById_86`, so a second `getById(86)` queries again. | The cache holds the fetched row after a successful miss, and a hit copies the cached row in. | not executed | Dal.LoadedByIdAsWritten, Dal.LoadByIdCacheStaysFalsy | Dal.RepeatLookupServedByCache, Scenarios.GetById86 |
