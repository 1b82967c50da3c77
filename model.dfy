/**
 * The project's base Eloquent model: keyset (cursor) pagination scopes, ordering scopes,
 * the capped row count, and the key and table-name helpers.
 */
module EloquentModel {
  import opened Wrappers
  import opened Strings
  import opened Query

  // ---------------------------------------------------------------- names and keys

  /**
   * `getForeignKey`: a model whose primary key is unset or `'id'` keeps the framework's
   * foreign key name (`parentForeignKey`); any other primary key is its own foreign key.
   */
  function GetForeignKey(primaryKey: Option<string>, parentForeignKey: string): string {
    if primaryKey.None? || primaryKey.value == "id" then parentForeignKey else primaryKey.value
  }

  /**
   * The foreign key differs from the framework's exactly when the model declares a primary
   * key other than `id` under a different name, and then it is that primary key.
   */
  lemma ForeignKeyOverride(primaryKey: Option<string>, parentForeignKey: string)
    ensures GetForeignKey(primaryKey, parentForeignKey) != parentForeignKey <==>
      primaryKey.Some? && primaryKey.value != "id" && primaryKey.value != parentForeignKey
    ensures GetForeignKey(primaryKey, parentForeignKey) != parentForeignKey ==>
      Some(GetForeignKey(primaryKey, parentForeignKey)) == primaryKey
  {
  }

  /** `getMacros`: the declared macros (none when unset), then `realCount` and `last`. */
  function GetMacros(macros: Option<seq<string>>): (r: seq<string>)
    ensures |r| == |macros.GetOr([])| + 2
    ensures r[..|r| - 2] == macros.GetOr([])
    ensures r[|r| - 2] == "realCount" && r[|r| - 1] == "last"
  {
    macros.GetOr([]) + ["realCount", "last"]
  }

  /**
   * `dbName`: the database of the model's connection, falling back to the default
   * connection; `databases` maps each configured connection to its database.
   */
  function DbName(connection: Option<string>, defaultConnection: string, databases: map<string, string>): Option<string> {
    Lookup(databases, connection.GetOr(defaultConnection))
  }

  /**
   * A model without a connection of its own reads the default connection's database; one
   * with a connection reads that connection's database, or none when it is not configured.
   */
  lemma DbNameFallback(connection: Option<string>, defaultConnection: string, databases: map<string, string>)
    ensures connection.None? ==>
      DbName(connection, defaultConnection, databases) == DbName(Some(defaultConnection), defaultConnection, databases)
    ensures connection.Some? ==>
      (DbName(connection, defaultConnection, databases).Some? <==> connection.value in databases)
    ensures forall d :: DbName(connection, defaultConnection, databases) == Some(d) ==>
      connection.GetOr(defaultConnection) in databases && databases[connection.GetOr(defaultConnection)] == d
  {
  }

  /** `tableName`: the table, qualified by `database.` on request (a missing database reads as ''). */
  function TableName(includeDbPrefix: bool, dbName: Option<string>, table: string): string {
    (if includeDbPrefix then dbName.GetOr("") + "." else "") + table
  }

  /**
   * The qualified name is the database name, then `.`, then the table; the unqualified
   * name is the table alone. Either way the name ends with the table.
   */
  lemma TableNameParts(includeDbPrefix: bool, dbName: Option<string>, table: string)
    ensures var r := TableName(includeDbPrefix, dbName, table);
      && |r| >= |table| && r[|r| - |table|..] == table
      && (includeDbPrefix ==>
            |r| == |dbName.GetOr("")| + 1 + |table| && r[..|dbName.GetOr("")|] == dbName.GetOr("")
            && r[|dbName.GetOr("")|] == '.')
      && (!includeDbPrefix ==> r == table)
  {
    var r := TableName(includeDbPrefix, dbName, table);
    if includeDbPrefix {
      var db := dbName.GetOr("");
      assert r == db + "." + table;
      assert r[..|db|] == db;
      assert r[|r| - |table|..] == table;
    }
  }

  // ---------------------------------------------------------------- counting

  /** The number of rows of `table` the condition selects. */
  function MatchCount(p: Pred, table: seq<Row>): (n: nat)
    ensures n <= |table|
  {
    if table == [] then 0
    else MatchCount(p, table[..|table| - 1]) + (if Eval(p, table[|table| - 1]) then 1 else 0)
  }

  /**
   * `realCount`: the number of rows a copy of the query without ordering, offset and limit
   * selects (the query itself is untouched), capped at the configured `maxCount`.
   */
  function RealCount(query: QueryBuilder, table: seq<Row>, maxCount: int): (r: int)
    reads query
    ensures r <= maxCount && r <= MatchCount(query.Condition(), table)
    ensures r == maxCount || r == MatchCount(query.Condition(), table)
  {
    var count := MatchCount(query.Condition(), table);
    if count < maxCount then count else maxCount
  }

  // ---------------------------------------------------------------- ordering

  datatype SortItem = SortItem(column: string, order: string)

  datatype Cursor = Cursor(column: string, order: string, value: int)

  /** One ORDER BY per sort item, in sequence. */
  function SortOrders(sort: seq<SortItem>): (r: seq<OrderClause>)
    ensures |r| == |sort|
    ensures forall i :: 0 <= i < |sort| ==> r[i] == OrderBy(sort[i].column, sort[i].order)
  {
    if sort == [] then []
    else SortOrders(sort[..|sort| - 1]) + [OrderBy(sort[|sort| - 1].column, sort[|sort| - 1].order)]
  }

  /** The column and order of each cursor, as a sort item. */
  function SortItems(cursors: seq<Cursor>): seq<SortItem> {
    seq(|cursors|, i requires 0 <= i < |cursors| => SortItem(cursors[i].column, cursors[i].order))
  }

  /** One ORDER BY per cursor column, in sequence. */
  function CursorOrders(cursors: seq<Cursor>): seq<OrderClause> {
    SortOrders(SortItems(cursors))
  }

  /** `scopeReorderBy`: drop every ORDER BY, then order by `field`. */
  method ReorderBy(query: QueryBuilder, field: string, order: string)
    modifies query
    ensures query.orders == [OrderBy(field, order)]
    ensures query.orderBindings == old(query.orderBindings)
    ensures query.wheres == old(query.wheres)
  {
    query.ClearOrders();
    query.OrderBy(field, order);
  }

  /** `array_fill(0, n, x)`. */
  function Fill(n: nat, x: string): seq<string> {
    seq(n, _ => x)
  }

  /** The bind list of `FIELD(...)`: `n` question marks separated by commas. */
  function Placeholders(n: nat): string {
    Join(",", Fill(n, "?"))
  }

  lemma PlaceholdersStep(n: nat)
    requires n >= 1
    ensures Placeholders(n + 1) == "?" + "," + Placeholders(n)
  {
    assert Fill(n + 1, "?")[1..] == Fill(n, "?");
  }

  /** The bind list alternates `?` and `,`, starting and ending with `?`. */
  lemma {:induction false} PlaceholdersShape(n: nat)
    requires n >= 1
    ensures |Placeholders(n)| == 2 * n - 1
    ensures forall i :: 0 <= i < |Placeholders(n)| ==> Placeholders(n)[i] == if i % 2 == 0 then '?' else ','
  {
    if n == 1 {
      assert Placeholders(1) == "?";
    } else {
      PlaceholdersShape(n - 1);
      PlaceholdersStep(n - 1);
      var r, p := Placeholders(n), Placeholders(n - 1);
      forall i | 2 <= i < |r|
        ensures r[i] == if i % 2 == 0 then '?' else ','
      {
        assert r[i] == p[i - 2];
      }
    }
  }

  function Count(c: char, s: string): nat {
    if s == [] then 0 else Count(c, s[..|s| - 1]) + (if s[|s| - 1] == c then 1 else 0)
  }

  lemma {:induction false} CountAppend(c: char, s: string, t: string)
    ensures Count(c, s + t) == Count(c, s) + Count(c, t)
    decreases |t|
  {
    if t == [] {
      assert s + t == s;
    } else {
      var u := s + t;
      assert u[..|u| - 1] == s + t[..|t| - 1];
      assert u[|u| - 1] == t[|t| - 1];
      CountAppend(c, s, t[..|t| - 1]);
      assert Count(c, u) == Count(c, u[..|u| - 1]) + (if u[|u| - 1] == c then 1 else 0);
    }
  }

  /** The bind list holds exactly one `?` per id. */
  lemma {:induction false} PlaceholdersCount(n: nat)
    ensures Count('?', Placeholders(n)) == n
  {
    if n == 1 {
      assert Placeholders(1) == "?";
      assert "?"[..0] == "";
    } else if n > 1 {
      PlaceholdersCount(n - 1);
      PlaceholdersStep(n - 1);
      CountAppend('?', "?,", Placeholders(n - 1));
      assert "?,"[..1] == "?" && "?"[..0] == "";
      assert Count('?', "?") == 1;
      assert Count('?', "?,") == 1;
      assert "?" + "," + Placeholders(n - 1) == "?," + Placeholders(n - 1);
    }
  }

  /** The raw ORDER BY of `scopeOrderByField`. */
  function FieldSql(field: string, n: nat): string {
    "FIELD(" + field + ", " + Placeholders(n) + ")"
  }

  /** `array_map('strval', ids)`. */
  function Bindings(ids: seq<int>): seq<string> {
    seq(|ids|, i requires 0 <= i < |ids| => IntToString(ids[i]))
  }

  /** There is one binding per id, and each binding reads back as its id. */
  lemma BindingsRoundTrip(ids: seq<int>, i: nat)
    requires i < |ids|
    ensures |Bindings(ids)| == |ids|
    ensures ParseInt(Bindings(ids)[i]) == ids[i]
  {
    IntRoundTrip(ids[i]);
  }

  /** Distinct ids keep distinct bindings, so the order given by `ids` survives. */
  lemma BindingsInjective(ids: seq<int>, i: nat, j: nat)
    requires i < |ids| && j < |ids| && Bindings(ids)[i] == Bindings(ids)[j]
    ensures ids[i] == ids[j]
  {
    IntToStringInjective(ids[i], ids[j]);
  }

  /** `scopeOrderByField`: order by the position of `field` in `ids`; nothing for no ids. */
  method OrderByField(query: QueryBuilder, field: string, ids: seq<int>)
    modifies query
    ensures ids == [] ==> query.orders == old(query.orders)
    ensures ids != [] ==> query.orders == old(query.orders) + [OrderByRaw(FieldSql(field, |ids|))]
    ensures query.orderBindings == old(query.orderBindings) + Bindings(ids)
    ensures query.wheres == old(query.wheres)
  {
    var size := |ids|;
    if size == 0 {
      return;
    }
    query.OrderByRaw(FieldSql(field, size), Bindings(ids));
  }

  /**
   * `orderByField` followed by `reorderBy`: only the new ORDER BY is left, but the `FIELD`
   * bindings stay in the query's order bindings.
   */
  method OrderByFieldThenReorder(query: QueryBuilder, field: string, ids: seq<int>, column: string, order: string)
    modifies query
    ensures query.orders == [OrderBy(column, order)]
    ensures query.orderBindings == old(query.orderBindings) + Bindings(ids)
    ensures query.wheres == old(query.wheres)
  {
    OrderByField(query, field, ids);
    ReorderBy(query, column, order);
  }

  // ---------------------------------------------------------------- cursor pagination

  predicate IsDesc(order: string) {
    Upper(order) == "DESC"
  }

  /** The strict comparison that steps past a cursor in its column's direction. */
  function StrictOp(order: string): string {
    if IsDesc(order) then "<" else ">"
  }

  /**
   * The clauses `scopeCursorWhere` adds for `cursors`: for one cursor the strict
   * comparison; for more, the non-strict comparison on the first column and then the group
   * `(first strictly beyond OR the clauses for the rest)`.
   */
  function CursorClauses(cursors: seq<Cursor>): (r: seq<WhereClause>)
    ensures r == [] <==> cursors == []
    ensures AndOnly(r)
    decreases |cursors|
  {
    if cursors == [] then []
    else
      var c := cursors[0];
      var dir := StrictOp(c.order);
      if |cursors| == 1 then [WhereClause(AndWhere, Cmp(c.column, dir, c.value))]
      else
        var group := [WhereClause(AndWhere, Cmp(c.column, dir, c.value)),
                      WhereClause(OrWhere, Compile(CursorClauses(cursors[1..])))];
        [WhereClause(AndWhere, Cmp(c.column, dir + "=", c.value)), WhereClause(AndWhere, Compile(group))]
  }

  /** The predicate tree of a cursor list. */
  function CursorPred(cursors: seq<Cursor>): Pred
    requires cursors != []
    decreases |cursors|
  {
    var c := cursors[0];
    var dir := StrictOp(c.order);
    if |cursors| == 1 then Cmp(c.column, dir, c.value)
    else And(Cmp(c.column, dir + "=", c.value), Or(Cmp(c.column, dir, c.value), CursorPred(cursors[1..])))
  }

  /** The added clauses are well built: they compile to `CursorPred`. */
  lemma {:induction false} CursorClausesTree(cursors: seq<Cursor>)
    requires cursors != []
    ensures Compile(CursorClauses(cursors)) == CursorPred(cursors)
    decreases |cursors|
  {
    var c := cursors[0];
    var dir := StrictOp(c.order);
    if |cursors| == 1 {
      CompileOne(AndWhere, Cmp(c.column, dir, c.value));
    } else {
      CursorClausesTree(cursors[1..]);
      var inner := Compile(CursorClauses(cursors[1..]));
      CompileTwo(AndWhere, Cmp(c.column, dir, c.value), OrWhere, inner);
      var group := Compile([WhereClause(AndWhere, Cmp(c.column, dir, c.value)), WhereClause(OrWhere, inner)]);
      CompileTwo(AndWhere, Cmp(c.column, dir + "=", c.value), AndWhere, group);
    }
  }

  /** The row's value in the cursor's column lies strictly beyond the cursor, in its direction. */
  predicate Passes(row: Row, c: Cursor) {
    c.column in row && (if IsDesc(c.order) then row[c.column] < c.value else row[c.column] > c.value)
  }

  /** The row's value in the cursor's column equals the cursor's value. */
  predicate Ties(row: Row, c: Cursor) {
    c.column in row && row[c.column] == c.value
  }

  /**
   * The row comes strictly after the cursor tuple in the lexicographic order in which each
   * column takes its own direction: it ties on a prefix and passes on the next column.
   */
  ghost predicate LexAfter(row: Row, cursors: seq<Cursor>) {
    exists k :: 0 <= k < |cursors| && Passes(row, cursors[k]) && forall j :: 0 <= j < k ==> Ties(row, cursors[j])
  }

  lemma LexAfterCons(row: Row, cursors: seq<Cursor>)
    requires cursors != []
    ensures LexAfter(row, cursors) <==>
      Passes(row, cursors[0]) || (Ties(row, cursors[0]) && LexAfter(row, cursors[1..]))
  {
    var rest := cursors[1..];
    if LexAfter(row, cursors) && !Passes(row, cursors[0]) {
      var k :| 0 <= k < |cursors| && Passes(row, cursors[k]) && forall j :: 0 <= j < k ==> Ties(row, cursors[j]);
      assert k > 0;
      assert Ties(row, cursors[0]);
      assert Passes(row, rest[k - 1]) && forall j :: 0 <= j < k - 1 ==> Ties(row, rest[j]) by {
        assert forall j :: 0 <= j < k - 1 ==> rest[j] == cursors[j + 1];
      }
    }
    if Passes(row, cursors[0]) {
      assert 0 < |cursors| && Passes(row, cursors[0]);
    }
    if Ties(row, cursors[0]) && LexAfter(row, rest) {
      var k :| 0 <= k < |rest| && Passes(row, rest[k]) && forall j :: 0 <= j < k ==> Ties(row, rest[j]);
      assert Passes(row, cursors[k + 1]);
      assert forall j :: 0 <= j < k + 1 ==> Ties(row, cursors[j]) by {
        assert forall j :: 1 <= j < k + 1 ==> cursors[j] == rest[j - 1];
      }
    }
  }

  lemma CompareStrict(order: string, x: int, v: int)
    ensures Compare(StrictOp(order), x, v) <==> (if IsDesc(order) then x < v else x > v)
    ensures Compare(StrictOp(order) + "=", x, v) <==> (if IsDesc(order) then x <= v else x >= v)
  {
    assert "<" + "=" == "<=" && ">" + "=" == ">=";
  }

  /**
   * For every row, the cursor predicate holds exactly when the row is strictly after the
   * cursor tuple. A NULL in a cursor column fails that column's comparisons, so it
   * leaves the row out unless an earlier column already passes.
   */
  lemma {:induction false} CursorPredMeaning(cursors: seq<Cursor>, row: Row)
    requires cursors != []
    ensures Eval(CursorPred(cursors), row) <==> LexAfter(row, cursors)
    decreases |cursors|
  {
    var c := cursors[0];
    LexAfterCons(row, cursors);
    if c.column in row {
      CompareStrict(c.order, row[c.column], c.value);
    }
    if |cursors| == 1 {
      assert !LexAfter(row, cursors[1..]);
    } else {
      CursorPredMeaning(cursors[1..], row);
      var dir := StrictOp(c.order);
      var ge, gt, more := Cmp(c.column, dir + "=", c.value), Cmp(c.column, dir, c.value), CursorPred(cursors[1..]);
      assert CursorPred(cursors) == And(ge, Or(gt, more));
      assert Eval(And(ge, Or(gt, more)), row) <==> Eval(ge, row) && (Eval(gt, row) || Eval(more, row));
    }
  }

  /**
   * What `cursorWhere` adds to a query whose earlier clauses are all ANDed: the query then
   * selects the rows it selected before that lie strictly after the cursor tuple, and every
   * such row; with no cursors it selects what it selected before.
   */
  lemma CursorWhereMeaning(earlier: seq<WhereClause>, cursors: seq<Cursor>, row: Row)
    requires AndOnly(earlier)
    ensures Eval(Compile(earlier + CursorClauses(cursors)), row) <==>
      Eval(Compile(earlier), row) && (cursors != [] ==> LexAfter(row, cursors))
  {
    if cursors == [] {
      assert earlier + CursorClauses(cursors) == earlier;
    } else {
      CompileAppend(earlier, CursorClauses(cursors), row);
      CursorClausesTree(cursors);
      CursorPredMeaning(cursors, row);
    }
  }

  /** The row the cursor was taken from (it ties on every column) is never selected again. */
  lemma CursorRowExcluded(cursors: seq<Cursor>, row: Row)
    requires forall j :: 0 <= j < |cursors| ==> Ties(row, cursors[j])
    ensures !LexAfter(row, cursors)
  {
  }

  /** The `foreach` of `scopeCursorWhere` that orders by every cursor column. */
  method OrderByCursors(query: QueryBuilder, cursors: seq<Cursor>)
    modifies query
    ensures query.orders == old(query.orders) + CursorOrders(cursors)
    ensures query.wheres == old(query.wheres)
    ensures query.orderBindings == old(query.orderBindings)
  {
    var i := 0;
    while i < |cursors|
      invariant 0 <= i <= |cursors|
      invariant query.orders == old(query.orders) + CursorOrders(cursors[..i])
      invariant query.orderBindings == old(query.orderBindings)
      invariant query.wheres == old(query.wheres)
    {
      assert cursors[..i + 1][..i] == cursors[..i];
      query.OrderBy(cursors[i].column, cursors[i].order);
      i := i + 1;
    }
    assert cursors[..i] == cursors;
  }

  /**
   * `scopeCursorWhere`: restrict the query to the rows after the cursor tuple; on the
   * outermost call (`isFirst`) also order by every cursor column.
   */
  method CursorWhere(query: QueryBuilder, cursors: seq<Cursor>, isFirst: bool)
    modifies query
    ensures query.orders == old(query.orders) + (if isFirst then CursorOrders(cursors) else [])
    ensures query.wheres == old(query.wheres) + CursorClauses(cursors)
    ensures query.orderBindings == old(query.orderBindings)
    decreases |cursors|
  {
    if cursors == [] {
      return;
    }

    if isFirst {
      OrderByCursors(query, cursors);
    }

    var cursor := cursors[0];
    var rest := cursors[1..];
    var dir := StrictOp(cursor.order);

    if |rest| == 0 {
      query.Where(cursor.column, dir, cursor.value);
    } else {
      query.Where(cursor.column, dir + "=", cursor.value);
      var group := new QueryBuilder();
      group.Where(cursor.column, dir, cursor.value);
      var inner := new QueryBuilder();
      CursorWhere(inner, rest, false);
      assert inner.wheres == CursorClauses(rest) != [];
      group.WhereNested(OrWhere, inner);
      assert group.wheres == [WhereClause(AndWhere, Cmp(cursor.column, dir, cursor.value)),
                              WhereClause(OrWhere, Compile(CursorClauses(rest)))];
      query.WhereNested(AndWhere, group);
      assert CursorClauses(cursors) == [WhereClause(AndWhere, Cmp(cursor.column, dir + "=", cursor.value)),
                                        WhereClause(AndWhere, Compile(group.wheres))];
    }
  }

  /**
   * `scopeCursorSort`: without a cursor (null or empty) order by the sort items; with one,
   * ignore `sort` and page after the cursor.
   */
  method CursorSort(query: QueryBuilder, sort: seq<SortItem>, cursor: Option<seq<Cursor>>)
    modifies query
    ensures cursor.None? || cursor == Some([]) ==>
      query.orders == old(query.orders) + SortOrders(sort) && query.wheres == old(query.wheres)
    ensures cursor.Some? && cursor.value != [] ==>
      query.orders == old(query.orders) + CursorOrders(cursor.value)
      && query.wheres == old(query.wheres) + CursorClauses(cursor.value)
    ensures query.orderBindings == old(query.orderBindings)
  {
    if cursor.None? || cursor.value == [] {
      var i := 0;
      while i < |sort|
        invariant 0 <= i <= |sort|
        invariant query.orders == old(query.orders) + SortOrders(sort[..i])
        invariant query.orderBindings == old(query.orderBindings)
        invariant query.wheres == old(query.wheres)
      {
        assert sort[..i + 1][..i] == sort[..i];
        query.OrderBy(sort[i].column, sort[i].order);
        i := i + 1;
      }
      assert sort[..i] == sort;
    } else {
      CursorWhere(query, cursor.value, true);
    }
  }

  // ---------------------------------------------------------------- scopes on conditions

  /** `scopeNone`: `whereRaw('false')`. */
  method NoneScope(query: QueryBuilder)
    modifies query
    ensures query.wheres == old(query.wheres) + [WhereClause(AndWhere, False)]
    ensures query.orders == old(query.orders)
    ensures query.orderBindings == old(query.orderBindings)
  {
    query.WhereFalse();
  }

  /** After `scopeNone` on a query of ANDed clauses no row is selected. */
  lemma NoneSelectsNothing(earlier: seq<WhereClause>, row: Row)
    requires AndOnly(earlier)
    ensures !Eval(Compile(earlier + [WhereClause(AndWhere, False)]), row)
  {
    CompileAppend(earlier, [WhereClause(AndWhere, False)], row);
    CompileOne(AndWhere, False);
  }

  // ---------------------------------------------------------------- saving with composite keys

  /** One equality per composite key column, against the original value (or null). */
  function KeyClauses(keys: seq<string>, original: map<string, int>): (r: seq<WhereClause>)
    ensures |r| == |keys|
    ensures forall i :: 0 <= i < |keys| ==> r[i] == WhereClause(AndWhere, EqualsPred(keys[i], Lookup(original, keys[i])))
  {
    if keys == [] then []
    else
      var k := keys[|keys| - 1];
      KeyClauses(keys[..|keys| - 1], original) + [WhereClause(AndWhere, EqualsPred(k, Lookup(original, k)))]
  }

  /** The framework's value for a single key: the original value, else the current one. */
  function KeyForSave(keyName: string, original: map<string, int>, attributes: map<string, int>): Option<int> {
    if keyName in original then Some(original[keyName]) else Lookup(attributes, keyName)
  }

  /**
   * `setKeysForSaveQuery`: with composite `primaryKeys`, one equality per key against its
   * original value; otherwise the framework's single-key equality.
   */
  method SetKeysForSaveQuery(query: QueryBuilder, primaryKeys: Option<seq<string>>, keyName: string,
                             original: map<string, int>, attributes: map<string, int>)
    modifies query
    ensures primaryKeys.Some? ==> query.wheres == old(query.wheres) + KeyClauses(primaryKeys.value, original)
    ensures primaryKeys.None? ==>
      query.wheres == old(query.wheres) + [WhereClause(AndWhere, EqualsPred(keyName, KeyForSave(keyName, original, attributes)))]
    ensures query.orders == old(query.orders)
    ensures query.orderBindings == old(query.orderBindings)
  {
    if primaryKeys.Some? {
      var keys := primaryKeys.value;
      var i := 0;
      while i < |keys|
        invariant 0 <= i <= |keys|
        invariant query.wheres == old(query.wheres) + KeyClauses(keys[..i], original)
        invariant query.orders == old(query.orders)
        invariant query.orderBindings == old(query.orderBindings)
      {
        assert keys[..i + 1][..i] == keys[..i];
        query.WhereEquals(keys[i], Lookup(original, keys[i]));
        i := i + 1;
      }
      assert keys[..i] == keys;
    } else {
      query.WhereEquals(keyName, KeyForSave(keyName, original, attributes));
    }
  }

  /**
   * The save query of a composite-key model selects exactly the rows whose key columns
   * carry the model's original key values (NULL where the original has none).
   */
  lemma SaveQueryMatches(earlier: seq<WhereClause>, keys: seq<string>, original: map<string, int>, row: Row)
    requires AndOnly(earlier)
    ensures Eval(Compile(earlier + KeyClauses(keys, original)), row) <==>
      Eval(Compile(earlier), row) && forall k :: k in keys ==> Lookup(row, k) == Lookup(original, k)
  {
    var kc := KeyClauses(keys, original);
    CompileAppend(earlier, kc, row);
    CompileConjunction(kc, row);
    forall i | 0 <= i < |keys|
      ensures Eval(kc[i].cond, row) <==> Lookup(row, keys[i]) == Lookup(original, keys[i])
    {
    }
    if AllHold(kc, row) {
      forall k | k in keys
        ensures Lookup(row, k) == Lookup(original, k)
      {
        var i :| 0 <= i < |keys| && keys[i] == k;
        assert Eval(kc[i].cond, row);
      }
    }
  }
}
