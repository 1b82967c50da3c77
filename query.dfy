/**
 * The part of Eloquent's query builder the core drives: a list of WHERE clauses joined by
 * AND / OR, a list of ORDER BY clauses, and what a WHERE condition means for a table row.
 */
module Query {
  import opened Wrappers

  /** A table row: column name to value. A column absent from the map holds SQL NULL. */
  type Row = map<string, int>

  /** A WHERE condition. */
  datatype Pred =
    | True
    | False
    | Cmp(column: string, op: string, value: int)
    | IsNull(column: string)
    | And(left: Pred, right: Pred)
    | Or(left: Pred, right: Pred)

  /** The boolean a clause is attached with: `where` or `orWhere`. */
  datatype Connective = AndWhere | OrWhere

  datatype WhereClause = WhereClause(boolean: Connective, cond: Pred)

  datatype OrderClause =
    | OrderBy(column: string, direction: string)
    | OrderByRaw(sql: string)

  /** The comparison operators the core produces; any other operator never holds. */
  predicate Compare(op: string, x: int, y: int) {
    if op == "<" then x < y
    else if op == ">" then x > y
    else if op == "<=" then x <= y
    else if op == ">=" then x >= y
    else if op == "=" then x == y
    else false
  }

  /** Whether `row` is selected by a WHERE clause with condition `p`. */
  predicate Eval(p: Pred, row: Row) {
    match p
    case True => true
    case False => false
    case Cmp(c, op, v) => c in row && Compare(op, row[c], v)
    case IsNull(c) => c !in row
    case And(l, r) => Eval(l, row) && Eval(r, row)
    case Or(l, r) => Eval(l, row) || Eval(r, row)
  }

  /** SQL's three truth values. */
  datatype Truth = T | F | Unknown

  /** SQL's own reading of a condition: a comparison involving NULL is unknown. */
  function Eval3(p: Pred, row: Row): Truth {
    match p
    case True => T
    case False => F
    case Cmp(c, op, v) => if c !in row then Unknown else if Compare(op, row[c], v) then T else F
    case IsNull(c) => if c !in row then T else F
    case And(l, r) =>
      var a, b := Eval3(l, row), Eval3(r, row);
      if a == F || b == F then F else if a == T && b == T then T else Unknown
    case Or(l, r) =>
      var a, b := Eval3(l, row), Eval3(r, row);
      if a == T || b == T then T else if a == F && b == F then F else Unknown
  }

  /**
   * A WHERE clause keeps exactly the rows its condition makes true, so for these
   * negation-free conditions the two-valued `Eval` is SQL's selection.
   */
  lemma {:induction false} EvalIsSqlSelection(p: Pred, row: Row)
    ensures Eval(p, row) <==> Eval3(p, row) == T
  {
    match p
    case True =>
    case False =>
    case Cmp(_, _, _) =>
    case IsNull(_) =>
    case And(l, r) => EvalIsSqlSelection(l, row); EvalIsSqlSelection(r, row);
    case Or(l, r) => EvalIsSqlSelection(l, row); EvalIsSqlSelection(r, row);
  }

  /**
   * The condition a clause list stands for in SQL: the first clause's boolean is dropped,
   * and AND binds tighter than OR, so the list reads as an OR of AND-groups.
   */
  function Compile(ws: seq<WhereClause>): Pred {
    if ws == [] then True else Fold(None, ws[0].cond, ws[1..])
  }

  /** `done` is the OR of the finished AND-groups, `group` the AND-group being built. */
  function Fold(done: Option<Pred>, group: Pred, rest: seq<WhereClause>): Pred
    decreases |rest|
  {
    if rest == [] then Close(done, group)
    else if rest[0].boolean == AndWhere then Fold(done, And(group, rest[0].cond), rest[1..])
    else Fold(Some(Close(done, group)), rest[0].cond, rest[1..])
  }

  function Close(done: Option<Pred>, group: Pred): Pred {
    if done.None? then group else Or(done.value, group)
  }

  lemma CompileOne(c: Connective, p: Pred)
    ensures Compile([WhereClause(c, p)]) == p
  {
  }

  lemma CompileTwo(c: Connective, p: Pred, d: Connective, q: Pred)
    ensures Compile([WhereClause(c, p), WhereClause(d, q)]) == if d == AndWhere then And(p, q) else Or(p, q)
  {
    var ws := [WhereClause(c, p), WhereClause(d, q)];
    assert ws[1..] == [WhereClause(d, q)];
    assert ws[1..][1..] == [];
    if d == AndWhere {
      assert Fold(None, p, ws[1..]) == Fold(None, And(p, q), []);
    } else {
      assert Fold(None, p, ws[1..]) == Fold(Some(p), q, []);
    }
  }

  /** The precedence Compile gives: `a OR b AND c` is `a OR (b AND c)`. */
  lemma AndBindsTighter(a: Pred, b: Pred, c: Pred)
    ensures Compile([WhereClause(AndWhere, a), WhereClause(OrWhere, b), WhereClause(AndWhere, c)])
      == Or(a, And(b, c))
  {
    var ws := [WhereClause(AndWhere, a), WhereClause(OrWhere, b), WhereClause(AndWhere, c)];
    assert ws[1..] == [WhereClause(OrWhere, b), WhereClause(AndWhere, c)];
    assert ws[1..][1..] == [WhereClause(AndWhere, c)];
    assert ws[1..][1..][1..] == [];
    assert Fold(None, a, ws[1..]) == Fold(Some(a), b, ws[1..][1..]);
    assert Fold(Some(a), b, ws[1..][1..]) == Fold(Some(a), And(b, c), []);
  }

  predicate AndOnly(ws: seq<WhereClause>) {
    forall i :: 0 <= i < |ws| ==> ws[i].boolean == AndWhere
  }

  predicate AllHold(ws: seq<WhereClause>, row: Row) {
    forall i :: 0 <= i < |ws| ==> Eval(ws[i].cond, row)
  }

  lemma {:induction false} FoldConjunction(group: Pred, rest: seq<WhereClause>, row: Row)
    requires AndOnly(rest)
    ensures Eval(Fold(None, group, rest), row) <==> Eval(group, row) && AllHold(rest, row)
    decreases |rest|
  {
    if rest != [] {
      FoldConjunction(And(group, rest[0].cond), rest[1..], row);
      assert AllHold(rest, row) <==> Eval(rest[0].cond, row) && AllHold(rest[1..], row) by {
        assert forall i :: 1 <= i < |rest| ==> rest[i] == rest[1..][i - 1];
      }
    }
  }

  /** A list of AND clauses selects the rows that satisfy every clause. */
  lemma CompileConjunction(ws: seq<WhereClause>, row: Row)
    requires AndOnly(ws)
    ensures Eval(Compile(ws), row) <==> AllHold(ws, row)
  {
    if ws != [] {
      FoldConjunction(ws[0].cond, ws[1..], row);
      assert forall i :: 1 <= i < |ws| ==> ws[i] == ws[1..][i - 1];
    }
  }

  /** Appending AND clauses to AND clauses conjoins the two conditions. */
  lemma CompileAppend(ws: seq<WhereClause>, vs: seq<WhereClause>, row: Row)
    requires AndOnly(ws) && AndOnly(vs)
    ensures AndOnly(ws + vs)
    ensures Eval(Compile(ws + vs), row) <==> Eval(Compile(ws), row) && Eval(Compile(vs), row)
  {
    var all := ws + vs;
    assert forall i :: 0 <= i < |ws| ==> all[i] == ws[i];
    assert forall i :: 0 <= i < |vs| ==> all[|ws| + i] == vs[i];
    CompileConjunction(all, row);
    CompileConjunction(ws, row);
    CompileConjunction(vs, row);
  }

  /** `where(column, '=', value)`; Eloquent turns a comparison with null into IS NULL. */
  function EqualsPred(column: string, value: Option<int>): Pred {
    if value.None? then IsNull(column) else Cmp(column, "=", value.value)
  }

  /**
   * The query builder's clause lists; every scope of the core adds to them in place. The
   * bindings of raw ORDER BY clauses are kept apart from the clauses, in the builder's
   * `order` binding list, as the framework does.
   */
  class QueryBuilder {
    var wheres: seq<WhereClause>
    var orders: seq<OrderClause>
    var orderBindings: seq<string>

    constructor ()
      ensures wheres == [] && orders == [] && orderBindings == []
    {
      wheres := [];
      orders := [];
      orderBindings := [];
    }

    /** The WHERE condition of the query. */
    function Condition(): Pred
      reads this
    {
      Compile(wheres)
    }

    /** `where(column, op, value)` with a non-null value. */
    method Where(column: string, op: string, value: int)
      modifies this
      ensures wheres == old(wheres) + [WhereClause(AndWhere, Cmp(column, op, value))]
      ensures orders == old(orders)
      ensures orderBindings == old(orderBindings)
    {
      wheres := wheres + [WhereClause(AndWhere, Cmp(column, op, value))];
    }

    /** `where([column => value])`: equality, or IS NULL when the value is null. */
    method WhereEquals(column: string, value: Option<int>)
      modifies this
      ensures wheres == old(wheres) + [WhereClause(AndWhere, EqualsPred(column, value))]
      ensures orders == old(orders)
      ensures orderBindings == old(orderBindings)
    {
      wheres := wheres + [WhereClause(AndWhere, EqualsPred(column, value))];
    }

    /** `whereRaw('false')`. */
    method WhereFalse()
      modifies this
      ensures wheres == old(wheres) + [WhereClause(AndWhere, False)]
      ensures orders == old(orders)
      ensures orderBindings == old(orderBindings)
    {
      wheres := wheres + [WhereClause(AndWhere, False)];
    }

    /**
     * `where(closure)` / `orWhere(closure)` once the closure has filled the fresh builder
     * `sub`: its clauses become one parenthesised group, and a group with no clauses is dropped.
     */
    method WhereNested(boolean: Connective, sub: QueryBuilder)
      modifies this
      ensures old(sub.wheres) == [] ==> wheres == old(wheres)
      ensures old(sub.wheres) != [] ==> wheres == old(wheres) + [WhereClause(boolean, Compile(old(sub.wheres)))]
      ensures orders == old(orders)
      ensures orderBindings == old(orderBindings)
    {
      if sub.wheres != [] {
        wheres := wheres + [WhereClause(boolean, Compile(sub.wheres))];
      }
    }

    method OrderBy(column: string, direction: string)
      modifies this
      ensures orders == old(orders) + [OrderClause.OrderBy(column, direction)]
      ensures wheres == old(wheres)
      ensures orderBindings == old(orderBindings)
    {
      orders := orders + [OrderClause.OrderBy(column, direction)];
    }

    /** `orderByRaw(sql, bindings)`: the clause goes to the orders, its bindings to the order bindings. */
    method OrderByRaw(sql: string, bindings: seq<string>)
      modifies this
      ensures orders == old(orders) + [OrderClause.OrderByRaw(sql)]
      ensures orderBindings == old(orderBindings) + bindings
      ensures wheres == old(wheres)
    {
      orders := orders + [OrderClause.OrderByRaw(sql)];
      orderBindings := orderBindings + bindings;
    }

    /** `getQuery()->orders = null`: the ORDER BY clauses go, their bindings stay. */
    method ClearOrders()
      modifies this
      ensures orders == [] && wheres == old(wheres)
      ensures orderBindings == old(orderBindings)
    {
      orders := [];
    }
  }
}
