# osu-web: cursor pagination, search reindexing and the notification view-model

A Dafny model of three pieces of the osu! website:

- **The base Eloquent model** (`app/Models/Model.php`). It provides keyset ("cursor")
  pagination. `cursorWhere` turns a list of `{column, order, value}` cursors into the nested
  WHERE condition `c1 dir= v1 AND (c1 dir v1 OR <rest>)`. On its outermost call it also
  orders by every cursor column. Beside it sit `cursorSort`, `reorderBy`, `orderByField`
  (a raw `FIELD(col, ?,…,?)` ordering), the capped `realCount`, `none`, and the key and
  table-name helpers, including `setKeysForSaveQuery` for composite keys.
  The query builder is a class, `Query.QueryBuilder`, with three fields: a sequence of WHERE
  clauses, a sequence of ORDER BY clauses, and the bindings of raw ORDER BY clauses. As in
  the framework, that binding list is kept apart from the clauses. The scopes are methods
  that append to these fields.
  `Query.Compile` reads a clause list the way SQL does: the first clause's boolean is
  dropped, and AND binds tighter than OR. `Query.Eval` decides whether a row is selected.
- **The search-indexing trait** (`app/Traits/EsIndexableModel.php`). `esReindexAll`
  visits the models whose key is above `fromId`, in batches. For each batch it builds one
  bulk body: a `delete` entry for each model that should not be indexed, and an `index`
  entry followed by the document for each model that should. It sends one bulk request
  per batch, adds the response's item count to a running count, and reports the count to
  the progress callback. Also modelled: `esIndexIntoNew`, and the request maps of
  `esIndexDocument` and `esDeleteDocument`, where caller options override the defaults.
- **The notification view-model** (`resources/assets/lib/models/notification.ts`). It is a
  class. `id` and `objectType` are `readonly`, so they are `const` fields here.
  `updateFromJson` copies the payload fields, rebuilds `details` from fresh defaults with
  every key camelCased, and renames `comment_new` to `comment_reply` for replies to the
  current user. The getters `canMarkRead`, `identity`, `title`, `messageGroup` and
  `stackId` are functions.

What is proved:

- For every row, the cursor condition holds exactly when the row comes strictly after the
  cursor tuple. The order is lexicographic, and each column takes its own direction.
- The save query of a composite-key model selects exactly the rows that carry the
  model's original key values.
- The bind list of `FIELD(...)` has one `?` per id, and distinct ids get distinct bindings.
- Bulk bodies keep model order. Each document sits right after its index entry.
- Batching loses, repeats and reorders no model.
- The batches visit the models in increasing key order.
- Generated index names differ for different times.
- The running count grows by exactly each batch's item count, so the progress reports
  never decrease.
- Every bulk request of `esIndexIntoNew` targets the new index.
- After re-keying, each `details` key holds the last value written for its camelCased
  form.
- Within one object type and category, stack ids separate objects.
- The title after an update is the last payload entry filed under `title`, or under
  `titleUnicode` when the original title is preferred and present.

Some things are parameters, not computed here. Value domain and framework behaviour:

- Column values are integers. A row is a map from column names, and a column missing
  from the map is NULL.
- The conditions built here have no NOT. For such conditions, treating "unknown" as "not
  selected" is exactly SQL's selection (`Query.EvalIsSqlSelection`).
- Cursor values are non-null.
- `Query.QueryBuilder` models the framework's `where`, `orWhere(closure)`, `orderBy`,
  `orderByRaw` and `orders = null`. Two framework rules are built in: a nested group with
  no clauses is dropped, and `where(col, '=', null)` becomes `IS NULL`.
- `orders = null` clears the ORDER BY clauses and leaves the order bindings unchanged. So
  `reorderBy` after `orderByField` leaves the `FIELD` bindings on the query
  (`EloquentModel.OrderByFieldThenReorder`).

Search settings and clients:

- `esIndexName()` and `esType()` are an `IndexSettings` value.
- The search client is a function from a request map to a response with an `items`
  sequence.
- The indexing query's rows are a sequence in key order.
- `time()` is an integer parameter.

Notification surroundings: the `Env` value holds lodash `camelCase`, `categoryFromName`,
`osu.trans`, `newEmptyNotificationDetails()`, `currentUser.id` and the "show original
title" preference.

The framework's fallbacks are inputs: `parent::getForeignKey()` is a parameter. The
framework's single-key `setKeysForSaveQuery` is one equality on the key name, against
its original value or else its current one.

## Model

| member | source | states |
|---|---|---|
| `EloquentModel.ForeignKeyOverride` | app/Models/Model.php:23-30 | the foreign key differs from the framework's exactly when a primary key other than `id` is declared under another name, and then it is that primary key |
| `EloquentModel.GetMacros` | app/Models/Model.php:32-39 | the declared macros (none when unset), unchanged and in order, followed by `realCount` then `last` |
| `EloquentModel.RealCount` | app/Models/Model.php:60-70 | the result is at most the configured maximum and at most the number of rows the query's condition selects, and equals one of them (their minimum); the query is not changed |
| `EloquentModel.MatchCount` | app/Models/Model.php:68 | the count of selected rows never exceeds the table size |
| `EloquentModel.SortOrders` | app/Models/Model.php:84-86 | one ORDER BY per sort item, same column and order, in sequence |
| `EloquentModel.OrderByCursors` | app/Models/Model.php:98-102 | the loop appends exactly the cursor ORDER BYs and leaves the WHERE clauses alone |
| `EloquentModel.CursorSort` | app/Models/Model.php:81-90 | with a null or empty cursor: the sort items' ORDER BYs and no condition; otherwise exactly what `cursorWhere(cursor)` adds, `sort` ignored |
| `EloquentModel.CursorWhere` | app/Models/Model.php:92-119 | no cursors: query unchanged; otherwise the cursor ORDER BYs only when `isFirst`, and exactly the clauses `CursorClauses(cursors)` |
| `EloquentModel.CursorClauses` | app/Models/Model.php:104-118 | no clauses exactly for no cursors, and all of them ANDed to the query |
| `Strings.UpperIsDesc` | app/Models/Model.php:106 | an order upper-cases to `DESC` exactly when it spells "desc" in any mix of cases |
| `Strings.Upper` | app/Models/Model.php:106 | upper-casing keeps the length and maps each character by ASCII upper-casing |
| `EloquentModel.CompareStrict` | app/Models/Model.php:106-113 | the strict operator compares in the cursor's direction; the operator with `=` appended is its non-strict form |
| `EloquentModel.CursorClausesTree` | app/Models/Model.php:108-118 | the clauses compile to the tree: one cursor gives `col dir v`; more give `col dir= v AND (col dir v OR tree(rest))` |
| `EloquentModel.LexAfterCons` | app/Models/Model.php:108-118 | being after a cursor tuple means passing the first column, or tying on it and being after the rest |
| `EloquentModel.CursorPredMeaning` | app/Models/Model.php:104-118 | for every row, the condition holds iff the row ties on some prefix of the cursor columns and passes the next one in its direction |
| `EloquentModel.CursorWhereMeaning` | app/Models/Model.php:92-118 | on a query of ANDed clauses, the query afterwards selects exactly the rows it selected before that lie strictly after the cursor tuple (all of them for no cursors) |
| `EloquentModel.CursorRowExcluded` | app/Models/Model.php:104-118 | a row that ties with every cursor value, such as the last row of the previous page, is not after the cursor |
| `EloquentModel.ReorderBy` | app/Models/Model.php:121-126 | exactly one ORDER BY remains, on the given field and order; the condition and the order bindings are unchanged |
| `EloquentModel.PlaceholdersStep` | app/Models/Model.php:136 | one more id puts one more `?,` in front of the bind list |
| `EloquentModel.PlaceholdersShape` | app/Models/Model.php:136-137 | for `n` ids the bind list has length `2n-1`, `?` at even positions and `,` at odd ones |
| `EloquentModel.CountAppend` | app/Models/Model.php:136 | helper: counting a character is additive over concatenation |
| `EloquentModel.PlaceholdersCount` | app/Models/Model.php:136 | the bind list holds exactly one `?` per id |
| `Strings.NatToString` | app/Models/Model.php:138 | a non-empty string of decimal digits |
| `Strings.IntToString` | app/Models/Model.php:138 | a non-empty numeral that starts with `-` exactly for negative numbers |
| `Strings.DigitChar` | app/Models/Model.php:138 | helper: a digit maps to a decimal digit character |
| `Strings.NatRoundTrip` | app/Models/Model.php:138 | the digits of a natural number parse back to it |
| `Strings.IntRoundTrip` | app/Models/Model.php:138 | `strval` of an integer parses back to the integer |
| `Strings.IntToStringInjective` | app/Models/Model.php:138 | distinct integers have distinct `strval` strings |
| `Strings.UpperCharOfLetter` | app/Models/Model.php:106 | helper: the characters that upper-case to a letter's upper-case form are that letter in either case |
| `Strings.SpellsDesc` | app/Models/Model.php:106 | helper: a string equals `DESC` iff its four characters are D, E, S, C |
| `EloquentModel.BindingsInjective` | app/Models/Model.php:138-140 | equal bindings come from equal ids, so the order given by the ids is kept |
| `EloquentModel.BindingsRoundTrip` | app/Models/Model.php:138-140 | one binding per id, and each binding parses back to its id |
| `EloquentModel.OrderByField` | app/Models/Model.php:128-141 | no ids: nothing added; otherwise one raw ORDER BY `FIELD(field, <bind list>)`, and the ids' strings appended to the order bindings |
| `EloquentModel.OrderByFieldThenReorder` | app/Models/Model.php:121-141 | after `orderByField` then `reorderBy`, only the new ORDER BY is left, while the `FIELD` bindings stay on the query |
| `EloquentModel.NoneScope` | app/Models/Model.php:143-146 | appends the constant-false condition and nothing else |
| `EloquentModel.NoneSelectsNothing` | app/Models/Model.php:145 | after it, a query of ANDed clauses selects no row |
| `EloquentModel.DbNameFallback` | app/Models/Model.php:184-189 | without a connection of its own the model reads the default connection's database; with one, a database exists exactly when that connection is configured, and it is the configured one |
| `EloquentModel.TableNameParts` | app/Models/Model.php:191-194 | the name always ends with the table; with the prefix it is the database name, a `.`, then the table; without it, the table alone |
| `EloquentModel.KeyClauses` | app/Models/Model.php:202-204 | one clause per composite key, in order: equality with the original value, or IS NULL when there is none |
| `EloquentModel.SetKeysForSaveQuery` | app/Models/Model.php:199-210 | composite keys: exactly the key clauses appended; otherwise the single key's equality; ORDER BY untouched |
| `EloquentModel.SaveQueryMatches` | app/Models/Model.php:199-206 | the save query selects exactly the rows whose key columns all carry the original key values (NULL where the original has none) |
| `Query.EvalIsSqlSelection` | app/Models/Model.php:109-117 | the two-valued evaluation agrees with SQL's three-valued one on which rows are selected |
| `Query.CompileOne` | app/Models/Model.php:109 | helper: a single clause is its own condition |
| `Query.CompileTwo` | app/Models/Model.php:111-117 | two clauses read as their AND or their OR, by the second clause's boolean |
| `Query.AndBindsTighter` | app/Models/Model.php:113-116 | `a OR b AND c` reads as `a OR (b AND c)` |
| `Query.FoldConjunction` | app/Models/Model.php:111-112 | a run of AND clauses holds iff every clause holds |
| `Query.CompileConjunction` | app/Models/Model.php:111-112 | a list of AND clauses selects the rows that satisfy every clause |
| `Query.CompileAppend` | app/Models/Model.php:111-112 | appending AND clauses to AND clauses conjoins the conditions |
| `Query.QueryBuilder.constructor` | app/Models/Model.php:112-115 | a fresh nested builder has no clauses, no orders and no order bindings |
| `Query.QueryBuilder.Where` | app/Models/Model.php:109-113 | appends one AND comparison, ORDER BY untouched |
| `Query.QueryBuilder.WhereEquals` | app/Models/Model.php:203 | appends one AND equality, or IS NULL for a null value |
| `Query.QueryBuilder.WhereFalse` | app/Models/Model.php:145 | appends the constant-false condition |
| `Query.QueryBuilder.WhereNested` | app/Models/Model.php:112-117 | appends the compiled group with the given boolean, or nothing for an empty group |
| `Query.QueryBuilder.OrderBy` | app/Models/Model.php:85 | appends one ORDER BY, condition untouched |
| `Query.QueryBuilder.OrderByRaw` | app/Models/Model.php:140 | appends one raw ORDER BY and puts its bindings at the end of the order bindings, condition untouched |
| `Query.QueryBuilder.ClearOrders` | app/Models/Model.php:123 | removes every ORDER BY; the condition and the order bindings stay |
| `EsIndexableModel.ModelActions` | app/Traits/EsIndexableModel.php:43-58 | a model yields one action if it is deleted and two if it is indexed |
| `EsIndexableModel.ActionsAppend` | app/Traits/EsIndexableModel.php:43-58 | the body for two runs of models is the first run's body followed by the second's |
| `EsIndexableModel.ActionsLength` | app/Traits/EsIndexableModel.php:41-58 | the body length is 1 per deleted model plus 2 per indexed model, so at least one per model |
| `EsIndexableModel.ActionsInModelOrder` | app/Traits/EsIndexableModel.php:43-58 | model `i`'s `[delete]` or `[index, document]` block sits in the body right after the blocks of the models before it |
| `EsIndexableModel.DefaultModelActions` | app/Traits/EsIndexableModel.php:46-57 | a model with the trait's defaults (lines 87-90 and 122-130) yields an `index` entry with `_id` its key and null routing, followed by its document |
| `EsIndexableModel.DefaultsOnlyIndex` | app/Traits/EsIndexableModel.php:43-58 | if every model is to be indexed, the body has two entries per model, model `i`'s index entry at `2i` and its document at `2i+1` |
| `EsIndexableModel.BuildActions` | app/Traits/EsIndexableModel.php:41-58 | the loop builds exactly the body `Actions(models)` |
| `EsIndexableModel.NonEmptyChunkIsSent` | app/Traits/EsIndexableModel.php:60 | a non-empty batch always has actions, so a bulk request is sent for it |
| `EsIndexableModel.RequestsTarget` | app/Traits/EsIndexableModel.php:60-66 | every bulk request goes to `options['index']` when set, else to `esIndexName()`, with a non-empty body |
| `EsIndexableModel.PrefixStep` | app/Traits/EsIndexableModel.php:60-74 | one more batch adds its item count to the count, its request (if any) to the requests, and the new count to the reports |
| `EsIndexableModel.ReportsAreRunningCounts` | app/Traits/EsIndexableModel.php:68-74 | one progress report per batch, each the running count after that batch |
| `EsIndexableModel.CountNeverDecreases` | app/Traits/EsIndexableModel.php:68 | the running count after more batches is never smaller |
| `EsIndexableModel.ReportsNeverDecrease` | app/Traits/EsIndexableModel.php:72-74 | later progress reports are never smaller than earlier ones |
| `EsIndexableModel.AfterId` | app/Traits/EsIndexableModel.php:37 | a model is visited iff it is in the query's rows and its key is above `fromId` |
| `EsIndexableModel.ChunksPartition` | app/Traits/EsIndexableModel.php:40 | the batches, joined, are the visited models in order; none is empty or larger than the batch size |
| `EsIndexableModel.FlattenMembers` | app/Traits/EsIndexableModel.php:40 | a model of some batch is among the visited models |
| `EsIndexableModel.OnlyAfterId` | app/Traits/EsIndexableModel.php:37-40 | every model in every batch comes from the indexing query and has a key above `fromId` |
| `EsIndexableModel.AfterIdOrdered` | app/Traits/EsIndexableModel.php:37 | filtering by `fromId` keeps increasing key order |
| `EsIndexableModel.BatchesInKeyOrder` | app/Traits/EsIndexableModel.php:37-40 | the batches visit the models above `fromId` in increasing key order |
| `EsIndexableModel.IndexChunk` | app/Traits/EsIndexableModel.php:40-75 | the batch's request is sent only for a non-empty body, and the count grows by its response's items |
| `EsIndexableModel.ReindexAll` | app/Traits/EsIndexableModel.php:32-79 | the final count, the requests made and the progress reports are those of the batches of models above `fromId`; no reports without a callback |
| `EsIndexableModel.NewIndexNameDistinct` | app/Traits/EsIndexableModel.php:19 | a given name is used as is; a generated name starts with `esIndexName()_`, and names generated at different times differ |
| `EsIndexableModel.IndexIntoNew` | app/Traits/EsIndexableModel.php:17-30 | returns the new name, reindexes from id 0 with `index` set to it, and every bulk request targets it |
| `EsIndexableModel.Merge` | app/Traits/EsIndexableModel.php:94-100 | keys of both; caller options win on shared keys, other defaults are kept |
| `EsIndexableModel.DeleteDocument` | app/Traits/EsIndexableModel.php:92-103 | a delete call with index, type, routing, id and client ignoring 404, each overridable by the options |
| `EsIndexableModel.IndexDocument` | app/Traits/EsIndexableModel.php:105-120 | the delete call with the same options when the model should not be indexed; otherwise an index call with index, type, routing, id and body, each overridable by the options |
| `Notifications.CamelKeys` | resources/assets/lib/models/notification.ts:91-94 | exactly the camelCase forms of the entries' keys |
| `Notifications.RekeyKeys` | resources/assets/lib/models/notification.ts:89-94 | the details hold the defaults' keys and the camelCase form of every payload key, nothing else |
| `Notifications.RekeyLaterWins` | resources/assets/lib/models/notification.ts:91-94 | each payload value is stored under its camelCased key unless a later key camelCases to the same name |
| `Notifications.RekeyKeepsDefaults` | resources/assets/lib/models/notification.ts:89-94 | a default no payload key camelCases to keeps its value |
| `Notifications.DetailsFieldFromPayload` | resources/assets/lib/models/notification.ts:89-94 | after re-keying, a key holds the value of the last payload entry whose key camelCases to it |
| `Notifications.DetailsFieldDefault` | resources/assets/lib/models/notification.ts:89-94 | a key no payload entry camelCases to reads as in the fresh defaults (undefined when they lack it) |
| `Notifications.TitleFromPayload` | resources/assets/lib/models/notification.ts:67-73 | without the original-title preference, the title after an update is the last payload entry whose key camelCases to `title` |
| `Notifications.OriginalTitleFromPayload` | resources/assets/lib/models/notification.ts:67-70 | with the preference, a present last `titleUnicode`-keyed payload entry is the title |
| `Notifications.TitleIgnoresUnicode` | resources/assets/lib/models/notification.ts:67-73 | without the preference, `titleUnicode` has no effect on the title; with it, an absent, null or empty one falls back to `title` |
| `Notifications.RenameOnlyFromCommentNew` | resources/assets/lib/models/notification.ts:85-98 | the name changes exactly for a `comment_new` object payload whose `reply_to.user_id` equals the current user's id, and then only to `comment_reply` |
| `Notifications.ObjectIdTextInjective` | resources/assets/lib/models/notification.ts:63-65 | rendered object ids (a numeral, or `undefined`) tell ids apart |
| `Notifications.CancelAround` | resources/assets/lib/models/notification.ts:64 | helper: equal strings with the same prefix and equally long suffixes agree in the middle |
| `Notifications.Notification.constructor` | resources/assets/lib/models/notification.ts:15-25 | the given id and object type, empty default details, unread, not being marked, other fields undefined; `canMarkRead` holds iff the id is positive |
| `Notifications.Notification.CategoryOfMissingName` | resources/assets/lib/models/notification.ts:27-29 | a notification without a name is in the same category as one named `''` |
| `Notifications.Notification.SameIdentitySameStack` | resources/assets/lib/models/notification.ts:39-46 | notifications with the same identity have the same id and the same stack id |
| `Notifications.Notification.MessageGroupIsTitleUnlessChannel` | resources/assets/lib/models/notification.ts:48-61 | a non-channel notification's group message is its title; a channel one's is a translated string |
| `Notifications.Notification.StackIdSeparatesObjects` | resources/assets/lib/models/notification.ts:63-65 | same object type and category and same stack id imply the same object id |
| `Notifications.Notification.UpdateFromJson` | resources/assets/lib/models/notification.ts:82-102 | the plain fields copied; details rebuilt from fresh defaults; the name rewritten as `UpdatedName`; `canMarkRead` (lines 23-25) then holds iff the id is positive and the payload is unread; id and object type are constants |
| `Notifications.Notification.FromJson` | resources/assets/lib/models/notification.ts:77-80 | a fresh notification with the payload's id and object type, in the state `updateFromJson` leaves |

## Left out

- Transactions and saving: `save`, `delete`, `saveOrExplode`, the after-commit and
  after-rollback hooks, `lockSelf` and `refresh`. These are the framework's transaction
  manager and database work.
- `macroLast`: it runs a query and returns a row. SQL execution is not modelled.
  `realCount`'s `count()` is the number of matching rows of a given table.
- `scopeWithPresent`: it compares a column with the empty string, and column values here
  are integers.
- Laravel's `orderBy` direction validation. Its rejection of `<`, `>`, `<=`, `>=` against
  null is also not modelled: cursor values are non-null integers.
- `where([key => value])` nests its single comparison in a parenthesised group. The model
  appends the comparison directly, which has the same meaning.
- `EloquentModel.CursorWhere`, `EloquentModel.CursorSort`, `EloquentModel.NoneScope`: these
  append their clauses to the query's flat clause list. The framework's scope call would
  first group the earlier clauses in parentheses when they contain an OR. That grouping is
  not modelled. So after earlier `a OR b`, the model reads `a OR (b AND cursor)`, while the
  framework gives `(a OR b) AND cursor`. For this reason `EloquentModel.CursorWhereMeaning`
  and `EloquentModel.NoneSelectsNothing` assume the earlier clauses are all ANDed.
- `EloquentModel.SaveQueryMatches` also assumes ANDed earlier clauses. `setKeysForSaveQuery`
  is a protected method, not a scope, so nothing groups for it. The framework applies it to
  a fresh save query, which has no earlier clauses.
- `EloquentModel.RealCount`: the count query keeps whatever order bindings the query
  holds, since `orders = null` does not remove them. The model's count depends only on
  the WHERE clauses, so it does not capture how leftover bindings affect the database
  call.
- `EsIndexableModel.AfterId`: the indexing query's own conditions are taken to be ANDed.
  The source appends `where(key, '>', fromId)` as a plain clause, and `chunkById` appends
  its key bound the same way. If the indexing query had a top-level `orWhere`, SQL
  precedence would attach these bounds to its last AND group only. Rows at or below
  `fromId` could then be visited. The model filters every row.
- The offset and limit that `realCount` clears are not modelled. The builder holds no
  offset or limit, so the count depends only on the WHERE clauses.
- `chunkById` paging is not modelled: the batches are consecutive runs of the rows in key
  order. `Log::info` lines, the reindex duration and the search-engine calls themselves
  (`bulk`, `index`, `delete`, `esCreateIndex`) are left out. Single-document operations
  return the call they would make, not its response.
- PHP array key order in request maps and in bulk metadata is not modelled: they are
  unordered maps.
- MobX reactivity (`@observable`, `@computed` caching). The internals of lodash
  `camelCase`, `categoryFromName`, `categoryGroupKey`, `displayType` and `osu.trans` are
  uninterpreted: the `categoryGroupKey` and `displayType` getters only forward to code
  outside this model.
- `osu.presence` is taken as "defined, not null, not the empty string".
- `json.details` is an object, given as its entries in iteration order, or a non-object.
  A null or array payload, for which `typeof` also says "object", is not modelled.
- Default arguments are explicit parameters here. The defaults are `batchSize = 1000`,
  `fromId = 0`, `options = []` and `progress = null` of `esReindexAll`. Also `batchSize =
  1000`, `name = null` and `progress = null` of `esIndexIntoNew`, `options = []` of the
  single-document calls, `isFirst = true` of `cursorWhere` and `includeDbPrefix = false` of
  `tableName`.
- `EsIndexableModel.ReindexAll`, `EsIndexableModel.IndexIntoNew`: the indexing query's rows
  must come in strictly increasing key order (`KeyOrdered`). That is the order in which
  `chunkById` pages by key. The model does not sort.
- Numbers are integers. JavaScript floating-point rendering is not modelled.
