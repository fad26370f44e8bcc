// The statement, query, table-reference and boolean-expression generators
// of grammar.go. These are mutually recursive (a WHERE clause may hold an
// EXISTS subquery, a FROM clause a subquery or a join whose condition is a
// boolean expression), so every member of the cycle takes the fuel that
// bounds the recursion, and those that name aliases update the statement's
// shared StmtSeq counters.
module Statements {
  import opened Wrappers
  import opened Text
  import opened Schema
  import opened Scopes
  import opened Ast
  import opened Grammar
  import C = Characteristics

  /** A Go panic or the model's fuel bound: the outcomes that are not a retried error. */
  predicate Fatal(e: GenError) {
    e.Panic? || e == OutOfFuel
  }

  /** The Base of the node `p` (nil for a statement generated at the top). */
  function ParentBase(p: Option<Ctx>): Option<Base> {
    if p.None? then None else Some(p.value.base)
  }

  predicate RootedOpt(p: Option<Ctx>) {
    p.None? || Rooted(p.value)
  }

  // ------------------------------------------------------- what is built

  /** A generated boolean expression: good and of type BOOL. */
  predicate BoolOk(e: Prod) {
    Good(e) && HasType(e) && TypeOf(e) == BOOL
  }

  /** An EXISTS gets a Base one level below the context's; the other boolean nodes use the context's own. */
  predicate BoolBase(e: Prod, ctx: Ctx) {
    if e.ExistsExpr? then e.base == NewBase(Some(ctx.base)) else BaseOf(e) == Some(ctx.base)
  }

  /** The join types generateJoinedTable can spell. */
  const JoinTypes: seq<string> := ["CROSS", "INNER", "LEFT", "LEFT OUTER"]

  /**
   * `text` is `L.a = R.b`: `a` a column of the lhs ref `L`, `b` a column of
   * the rhs ref `R`, both of the same type.
   */
  ghost predicate JoinsOn(text: string, lrefs: seq<Relation>, rrefs: seq<Relation>) {
    exists a: RelationColumn, b: RelationColumn ::
      a.rel in lrefs && a.col in a.rel.Columns() && b.rel in rrefs && b.col in b.rel.Columns()
      && a.col.typ == b.col.typ && text == EqText(a.rel, a.col, b.rel, b.col)
  }

  /** The text of a column equality: `L.a = R.b`. */
  function EqText(l: Relation, a: Column, r: Relation, b: Column): (t: string)
    ensures |t| >= 3
  {
    l.Name() + "." + a.name + " = " + r.Name() + "." + b.name
  }

  /** An ON condition of a join of `l` and `r`: a column equality, or a boolean expression over both. */
  ghost predicate ConditionOk(c: Prod, l: Prod, r: Prod) {
    Good(c)
    && ((c.SimpleJoinCondition? && JoinsOn(c.conditionText, References(l), References(r)))
        || (c.ExpressionJoinCondition? && c.lhs == l && c.rhs == r
            && c.whereClause.Some? && BoolOk(c.whereClause.value)))
  }

  /** A select list: at least one expression, one derived column per expression, of its type. */
  ghost predicate SelectListOk(sc: Prod) {
    sc.SelectClause? && Good(sc) && 1 <= |sc.valueExprs| == |sc.derivedColumns|
    && forall i :: 0 <= i < |sc.valueExprs| ==> ValueOk(sc.valueExprs[i], sc.derivedColumns[i].typ)
  }

  /** No LIMIT, or `LIMIT k` for the sum of two d100 rolls. */
  ghost predicate LimitOk(l: string) {
    l == "" || exists k: nat :: 2 <= k <= 200 && l == "LIMIT " + NatToString(k)
  }

  /** A generated SELECT. */
  ghost predicate SelectOk(q: Prod) {
    q.SelectStmt? && Good(q)
    && q.setQuantifier in ["", "DISTINCT", "ALL"]
    && q.fromClause.FromClause? && |q.fromClause.tableRefs| == 1
    && SelectListOk(q.selectClause)
    && q.whereClause.Some? && BoolOk(q.whereClause.value)
    && LimitOk(q.limitClause) && q.offsetClause == "" && q.orderByClause.None?
  }

  /**
   * A generated table reference of a query whose scope is `s`: a table of
   * the scope under a fresh alias, a subquery whose alias relation carries
   * its derived columns, or a join whose refs are the lhs refs then the
   * rhs refs; in every case at least one relation is made visible.
   */
  ghost predicate TableRefOk(t: Prod, s: Scope) {
    Good(t) && References(t) != []
    && match t
       case TableOrQueryName(_, tab, refs) =>
         tab in s.tables && |refs| == 1 && refs[0].Table? && refs[0].Columns() == tab.Columns()
       case TableSubquery(_, lateral, q, refs) =>
         !lateral && SelectOk(q) && |refs| == |s.refs| + 1 && refs[..|s.refs|] == s.refs
         && refs[|s.refs|].AliasedRelation? && refs[|s.refs|].aliasCols == q.selectClause.derivedColumns
       case JoinedTable(_, jt, refs, l, r, c, alias) =>
         jt in JoinTypes && refs == References(l) + References(r)
         && c.Some? && ConditionOk(c.value, l, r) && alias == ""
       case _ => false
  }

  // ------------------------------------------------------- node lemmas

  lemma BinaryGood(b: Option<Base>, l: Prod, op: string, r: Prod)
    requires b.Some? && Good(l) && Good(r)
    ensures BoolOk(BinaryExpr(b, l, op, r))
  {
    assert C.Kids(BinaryExpr(b, l, op, r)) == [l, r];
  }

  lemma NullPredicateGood(b: Base, negate: bool, e: Prod)
    requires Good(e)
    ensures BoolOk(NullPredicateExpr(b, negate, e))
  {
    assert C.Kids(NullPredicateExpr(b, negate, e)) == [e];
  }

  lemma ExistsGood(b: Base, q: Prod)
    requires Good(q)
    ensures BoolOk(ExistsExpr(b, q))
  {
    assert C.Kids(ExistsExpr(b, q)) == [q];
  }

  lemma SelectGood(b: Base, quant: string, sc: Prod, fc: Prod, w: Prod, limit: string)
    requires Good(sc) && Good(fc) && Good(w)
    ensures Good(SelectStmt(b, quant, sc, fc, Some(w), limit, "", None))
  {
    assert C.Kids(SelectStmt(b, quant, sc, fc, Some(w), limit, "", None)) == [sc, fc, w];
  }

  /** The parts GenerateSelect puts together make a SelectOk statement. */
  lemma SelectOkIntro(b: Base, quant: string, sc: Prod, fc: Prod, w: Prod, limit: string)
    requires quant in ["", "DISTINCT", "ALL"] && fc.FromClause? && |fc.tableRefs| == 1 && Good(fc)
    requires SelectListOk(sc) && BoolOk(w) && LimitOk(limit)
    ensures SelectOk(SelectStmt(b, quant, sc, fc, Some(w), limit, "", None))
  {
    SelectGood(b, quant, sc, fc, w, limit);
  }

  lemma FromGood(b: Base, t: Prod)
    requires Good(t)
    ensures Good(FromClause(b, [t]))
  {
    assert C.Kids(FromClause(b, [t])) == [t];
  }

  lemma SubqueryGood(b: Base, q: Prod, refs: seq<Relation>)
    requires Good(q) && refs != []
    ensures Good(TableSubquery(b, false, q, refs))
  {
    assert C.Kids(TableSubquery(b, false, q, refs)) == [q];
  }

  lemma JoinedGood(b: Base, jt: string, refs: seq<Relation>, l: Prod, r: Prod, c: Prod)
    requires Good(l) && Good(r) && Good(c)
    ensures Good(JoinedTable(b, jt, refs, l, r, Some(c), ""))
  {
    assert C.Kids(JoinedTable(b, jt, refs, l, r, Some(c), "")) == [l, r, c];
  }

  lemma ExpressionJoinGood(b: Base, l: Prod, r: Prod, w: Prod)
    requires Good(w)
    ensures Good(ExpressionJoinCondition(b, l, r, Some(w)))
  {
    assert C.Kids(ExpressionJoinCondition(b, l, r, Some(w))) == [w];
  }

  lemma SelectClauseGood(b: Base, es: seq<Prod>, cols: seq<Column>)
    requires |cols| >= |es| && forall i :: 0 <= i < |es| ==> Good(es[i])
    ensures Good(SelectClause(b, es, cols))
  {
    assert C.Kids(SelectClause(b, es, cols)) == es;
  }

  lemma SetClauseGood(b: Base, vals: seq<Prod>, names: seq<string>)
    requires |vals| >= |names| && forall i :: 0 <= i < |vals| ==> Good(vals[i])
    ensures Good(SetClause(b, vals, names))
  {
    assert C.Kids(SetClause(b, vals, names)) == vals;
  }

  lemma InsertGood(b: Base, t: Relation, es: seq<Prod>)
    requires forall i :: 0 <= i < |es| ==> Good(es[i])
    ensures Good(InsertStmt(b, t, es))
  {
    assert C.Kids(InsertStmt(b, t, es)) == es;
  }

  lemma UpdateGood(b: Base, t: Relation, sc: Prod, w: Prod)
    requires Good(sc) && Good(w)
    ensures Good(UpdateStmt(b, t, sc, Some(w)))
  {
    assert C.Kids(UpdateStmt(b, t, sc, Some(w))) == [sc, w];
  }

  lemma DeleteGood(b: Base, t: Relation, w: Prod)
    requires Good(w)
    ensures Good(DeleteStmt(b, t, Some(w)))
  {
    assert C.Kids(DeleteStmt(b, t, Some(w))) == [w];
  }

  lemma CTEGood(b: Base, names: seq<string>, qs: seq<Prod>, q: Prod)
    requires |names| >= |qs| && (forall i :: 0 <= i < |qs| ==> Good(qs[i])) && Good(q)
    ensures Good(CTEStmt(b, names, qs, q))
  {
    assert C.Kids(CTEStmt(b, names, qs, q)) == qs + [q];
  }

  lemma TableNameRefOk(b: Base, tab: Relation, alias: string, s: Scope)
    requires tab in s.tables
    ensures TableRefOk(TableOrQueryName(b, tab, [NewTable(alias, tab.Columns(), [], false, false)]), s)
  {
  }

  lemma SubqueryRefOk(b: Base, q: Prod, alias: string, s: Scope)
    requires SelectOk(q)
    ensures TableRefOk(TableSubquery(b, false, q, s.refs + [AliasedRelation(alias, q.selectClause.derivedColumns)]), s)
  {
    var refs := s.refs + [AliasedRelation(alias, q.selectClause.derivedColumns)];
    assert refs[..|s.refs|] == s.refs;
    SubqueryGood(b, q, refs);
  }

  lemma JoinedRefOk(b: Base, jt: string, l: Prod, r: Prod, c: Prod, s: Scope)
    requires jt in JoinTypes && Good(l) && Good(r) && References(l) != [] && ConditionOk(c, l, r)
    ensures TableRefOk(JoinedTable(b, jt, References(l) + References(r), l, r, Some(c), ""), s)
  {
    JoinedGood(b, jt, References(l) + References(r), l, r, c);
  }

  // ------------------------------------------------------------ helpers

  /** The refs copy loops of generateFromClause and generateExpressionJoinCondition. */
  method AppendRefs(refs: seq<Relation>, more: seq<Relation>) returns (r: seq<Relation>)
    ensures r == refs + more
  {
    r := refs;
    for i := 0 to |more|
      invariant r == refs + more[..i]
    {
      assert more[..i + 1] == more[..i] + [more[i]];
      r := r + [more[i]];
    }
    assert more[..|more|] == more;
  }

  /** generateJoinedTable's copy of the lhs refs and then the rhs refs into one array. */
  method ConcatRefs(lRefs: seq<Relation>, rRefs: seq<Relation>) returns (r: seq<Relation>)
    ensures r == lRefs + rRefs
  {
    var a := new Relation[|lRefs| + |rRefs|];
    for i := 0 to |lRefs|
      invariant forall k :: 0 <= k < i ==> a[k] == lRefs[k]
    {
      a[i] := lRefs[i];
    }
    for j := 0 to |rRefs|
      invariant forall k :: 0 <= k < |lRefs| ==> a[k] == lRefs[k]
      invariant forall k :: 0 <= k < j ==> a[|lRefs| + k] == rRefs[k]
    {
      var i := j + |lRefs|;
      a[i] := rRefs[j];
    }
    r := a[..];
  }

  /** Some ref has at least one column. */
  predicate HasColumns(refs: seq<Relation>) {
    exists i :: 0 <= i < |refs| && |refs[i].Columns()| > 0
  }

  /** atLeastOneColumn. */
  method AtLeastOneColumn(refs: seq<Relation>) returns (b: bool)
    ensures b <==> HasColumns(refs)
  {
    for i := 0 to |refs|
      invariant forall j :: 0 <= j < i ==> |refs[j].Columns()| == 0
    {
      if |refs[i].Columns()| > 0 {
        return true;
      }
    }
    return false;
  }

  /**
   * The loop of generateSimpleJoinCondition over rRef's columns: the first
   * column of col1's type gives `L.a = R.b`; with none the text stays empty.
   */
  method JoinText(lRef: Relation, col1: Column, rRef: Relation) returns (cond: string)
    ensures cond == "" <==> forall j :: 0 <= j < |rRef.Columns()| ==> rRef.Columns()[j].typ != col1.typ
    ensures cond != "" ==> exists j :: (0 <= j < |rRef.Columns()| && rRef.Columns()[j].typ == col1.typ
      && (forall i :: 0 <= i < j ==> rRef.Columns()[i].typ != col1.typ)
      && cond == EqText(lRef, col1, rRef, rRef.Columns()[j]))
  {
    cond := "";
    var cols := rRef.Columns();
    for j := 0 to |cols|
      invariant forall i :: 0 <= i < j ==> cols[i].typ != col1.typ
    {
      if col1.typ == cols[j].typ {
        cond := EqText(lRef, col1, rRef, cols[j]);
        return;
      }
    }
  }

  // ------------------------------------------------------- join conditions

  /**
   * generateSimpleJoinCondition: a panic unless some lhs ref has a column;
   * then at most 11 attempts, each picking an lhs ref with columns, an rhs
   * ref and an lhs column, and succeeding when the rhs ref has a column of
   * the same type; an error after the eleventh failure.
   */
  method GenerateSimpleJoinCondition(ctx: Ctx, lrefs: seq<Relation>, rrefs: seq<Relation>)
    returns (r: Gen<Prod>, ghost attempts: nat)
    ensures attempts <= 11
    ensures !HasColumns(lrefs) ==> r == Err(Panic("expected at least one column in refs"))
    ensures r.Ok? ==> (r.value.SimpleJoinCondition? && r.value.base == NewBase(Some(ctx.base))
      && JoinsOn(r.value.conditionText, lrefs, rrefs))
    ensures r.Err? ==> (r.error == Panic("expected at least one column in refs")
      || (rrefs == [] && r.error == Panic("No items to pick from"))
      || (attempts == 11 && r.error == NoMatch("retried 10 times without finding join condition")))
  {
    var ok := AtLeastOneColumn(lrefs);
    if !ok {
      return Err(Panic("expected at least one column in refs")), 0;
    }
    var cnt := 0;
    while true
      invariant cnt <= 11
      decreases 11 - cnt
    {
      if cnt > 10 {
        return Err(NoMatch("retried 10 times without finding join condition")), cnt;
      }
      cnt := cnt + 1;
      var lRef := Pick(lrefs);
      var l := lRef.value;
      if |l.Columns()| == 0 {
        continue;
      }
      var rRef := Pick(rrefs);
      if rRef.Err? {
        return Err(rRef.error), cnt;
      }
      var rr := rRef.value;
      var col1 := Pick(l.Columns());
      var cond := JoinText(l, col1.value, rr);
      if cond == "" {
        continue;
      }
      assert JoinsOn(cond, lrefs, rrefs) by {
        var j :| 0 <= j < |rr.Columns()| && rr.Columns()[j].typ == col1.value.typ
          && cond == EqText(l, col1.value, rr, rr.Columns()[j]);
        var a, b := RelationColumn(l, col1.value), RelationColumn(rr, rr.Columns()[j]);
        assert a.col in a.rel.Columns() && b.col in b.rel.Columns();
      }
      return Ok(SimpleJoinCondition(NewBase(Some(ctx.base)), cond)), cnt;
    }
  }

  // ------------------------------------------------- boolean expressions

  /** generateTruthExpression: TRUE on a d6 below 4, else FALSE. */
  method GenerateTruth(ctx: Ctx) returns (e: Prod)
    ensures e.TruthExpr? && e.base == ctx.base && BoolOk(e)
  {
    var d := Roll(6);
    e := TruthExpr(ctx.base, d < 4);
  }

  const CommonOps: seq<string> := ["=", "<>"]
  const OrderingOps: seq<string> := ["=", "<>", "<", ">", "<=", ">="]

  /** The types randomOperatorByType lets compare with an ordering operator. */
  predicate Ordered(t: SqlType) {
    t in {INT, REAL, NUMERIC, DATE, TIME, DATETIME, TEXT, BLOB}
  }

  /** randomOperatorByType: any of the six comparisons for an ordered type, else `=` or `<>`. */
  method RandomOperatorByType(t: SqlType) returns (op: string)
    ensures Ordered(t) ==> op in OrderingOps
    ensures !Ordered(t) ==> op in CommonOps
  {
    var ops := CommonOps;
    if Ordered(t) {
      ops := ops + ["<", ">", "<=", ">="];
    }
    var pick := Pick(ops);
    op := pick.value;
  }

  /**
   * The node generateComparisonOperation builds: the Go literal leaves the
   * embedded *Base nil.
   */
  function ComparisonAsWritten(l: Prod, op: string, r: Prod): (e: Prod)
    ensures e.BinaryExpr? && BaseOf(e).None? && e.left == l && e.right == r
  {
    BinaryExpr(None, l, op, r)
  }

  /** The visitor reads Level() of every node, so it cannot walk that comparison. */
  lemma ComparisonAsWrittenNotVisitable(l: Prod, op: string, r: Prod)
    ensures !C.Visitable(ComparisonAsWritten(l, op, r))
  {
  }

  /** Nor any SELECT whose WHERE clause is that comparison. */
  lemma WhereAsWrittenNotVisitable(b: Base, quant: string, sc: Prod, fc: Prod, l: Prod, op: string, r: Prod, limit: string)
    ensures !C.Visitable(SelectStmt(b, quant, sc, fc, Some(ComparisonAsWritten(l, op, r)), limit, "", None))
  {
    var w := ComparisonAsWritten(l, op, r);
    var q := SelectStmt(b, quant, sc, fc, Some(w), limit, "", None);
    assert C.Kids(q)[2] == w;
    ComparisonAsWrittenNotVisitable(l, op, r);
  }

  /**
   * generateComparisonOperation, with the comparison given the context's
   * Base: a type drawn from the visible column types, two value
   * expressions of that type and an operator for it.
   */
  method GenerateComparison(ctx: Ctx, fuel: nat) returns (r: Gen<Prod>, typ: SqlType)
    requires Rooted(ctx)
    ensures r.Ok? ==> r.value.BinaryExpr? && r.value.optBase == Some(ctx.base) && BoolOk(r.value)
    ensures r.Ok? ==> (typ in AvailableTypes(ctx.scope)
      && ValueOk(r.value.left, typ) && ValueOk(r.value.right, typ)
      && (Ordered(typ) ==> r.value.op in OrderingOps) && (!Ordered(typ) ==> r.value.op in CommonOps))
    ensures AvailableTypes(ctx.scope) == [] ==> r == Err(Panic("No items to pick from"))
    ensures r.Err? ==> Fatal(r.error)
  {
    var t := Pick(AvailableTypes(ctx.scope));
    if t.Err? {
      return Err(t.error), INVALID;
    }
    typ := t.value;
    var left, _ := RetryValueExpression(ctx, typ, fuel);
    if left.Err? {
      return Err(Asserted(left.error, "expected no error")), typ;
    }
    var op := RandomOperatorByType(typ);
    var right, _ := RetryValueExpression(ctx, typ, fuel);
    if right.Err? {
      return Err(Asserted(right.error, "expected no error")), typ;
    }
    BinaryGood(Some(ctx.base), left.value, op, right.value);
    r := Ok(BinaryExpr(Some(ctx.base), left.value, op, right.value));
  }

  /** generateNullPredicateExpression: IS [NOT] NULL over a value expression of any type. */
  method GenerateNullPredicate(ctx: Ctx, fuel: nat) returns (r: Gen<Prod>)
    requires Rooted(ctx)
    ensures r.Ok? ==> r.value.NullPredicateExpr? && r.value.base == ctx.base && BoolOk(r.value)
    ensures r.Ok? ==> ValueOk(r.value.expr, INVALID) && BaseOf(r.value.expr) == Some(ctx.base)
    ensures r.Err? ==> Fatal(r.error)
  {
    var e, _ := RetryValueExpression(ctx, INVALID, fuel);
    if e.Err? {
      return Err(Asserted(e.error, "expected no error"));
    }
    var d := Roll(6);
    NullPredicateGood(ctx.base, d < 4, e.value);
    r := Ok(NullPredicateExpr(ctx.base, d < 4, e.value));
  }

  /**
   * generateBoolExpression: TRUE/FALSE once the level exceeds a d100;
   * otherwise a comparison, an AND/OR of two boolean expressions, a NULL
   * test, a truth value or an EXISTS, each with a d6 below 4 in turn.
   */
  method GenerateBoolExpr(ctx: Ctx, u: StmtSeq, fuel: nat) returns (r: Gen<Prod>)
    requires Rooted(ctx)
    modifies u
    ensures r.Ok? ==> BoolOk(r.value) && BoolBase(r.value, ctx)
    ensures r.Err? ==> Fatal(r.error)
    ensures u.Get("cte") == old(u.Get("cte"))
    decreases fuel
  {
    if fuel == 0 {
      return Err(OutOfFuel);
    }
    var f := fuel - 1;
    var d := Roll(100);
    if ctx.base.level > d {
      var e := GenerateTruth(ctx);
      return Ok(e);
    }
    d := Roll(6);
    if d < 4 {
      var cmp, _ := GenerateComparison(ctx, f);
      return cmp;
    }
    d := Roll(6);
    if d < 4 {
      r := GenerateBooleanComparison(ctx, u, f);
      return;
    }
    d := Roll(6);
    if d < 4 {
      r := GenerateNullPredicate(ctx, f);
      return;
    }
    d := Roll(6);
    if d < 4 {
      var e := GenerateTruth(ctx);
      return Ok(e);
    }
    r := GenerateExists(ctx, u, f);
  }

  /** generateBooleanComparisonOperation: two boolean expressions joined by AND or OR. */
  method GenerateBooleanComparison(ctx: Ctx, u: StmtSeq, fuel: nat) returns (r: Gen<Prod>)
    requires Rooted(ctx)
    modifies u
    ensures r.Ok? ==> (r.value.BinaryExpr? && r.value.optBase == Some(ctx.base) && BoolOk(r.value)
      && r.value.op in ["AND", "OR"] && BoolOk(r.value.left) && BoolOk(r.value.right))
    ensures r.Err? ==> Fatal(r.error)
    ensures u.Get("cte") == old(u.Get("cte"))
    decreases fuel
  {
    if fuel == 0 {
      return Err(OutOfFuel);
    }
    var f := fuel - 1;
    var left := GenerateBoolExpr(ctx, u, f);
    if left.Err? {
      return Err(left.error);
    }
    var op := Pick(["AND", "OR"]);
    var right := GenerateBoolExpr(ctx, u, f);
    if right.Err? {
      return Err(right.error);
    }
    BinaryGood(Some(ctx.base), left.value, op.value, right.value);
    r := Ok(BinaryExpr(Some(ctx.base), left.value, op.value, right.value));
  }

  /** generateExistsExpression: EXISTS over a SELECT generated one level down, against the same scope. */
  method GenerateExists(ctx: Ctx, u: StmtSeq, fuel: nat) returns (r: Gen<Prod>)
    requires Rooted(ctx)
    modifies u
    ensures r.Ok? ==> (r.value.ExistsExpr? && r.value.base == NewBase(Some(ctx.base))
      && BoolOk(r.value) && SelectOk(r.value.subquery))
    ensures r.Err? ==> Fatal(r.error)
    ensures u.Get("cte") == old(u.Get("cte"))
    decreases fuel
  {
    if fuel == 0 {
      return Err(OutOfFuel);
    }
    var f := fuel - 1;
    var b := NewBase(Some(ctx.base));
    var q := GenerateSelect(Some(Ctx(KExistsExpr, b, ctx.scope)), ctx.scope, u, f);
    if q.Err? {
      return Err(q.error);
    }
    ExistsGood(b, q.value);
    r := Ok(ExistsExpr(b, q.value));
  }

  // ------------------------------------------------------------- queries

  /**
   * GenerateSelect: a new local scope with the outer tables and no refs,
   * an optional DISTINCT or ALL (a d100 of 1 each), a FROM clause whose
   * refs become the local refs, a select list and a WHERE clause over
   * them, and a LIMIT on a d6 above 2.
   */
  method GenerateSelect(p: Option<Ctx>, s: Scope, u: StmtSeq, fuel: nat) returns (r: Gen<Prod>)
    requires RootedOpt(p)
    modifies u
    ensures r.Ok? ==> SelectOk(r.value) && r.value.base == NewBase(ParentBase(p))
    ensures r.Err? ==> Fatal(r.error)
    ensures u.Get("cte") == old(u.Get("cte"))
    decreases fuel
  {
    if fuel == 0 {
      return Err(OutOfFuel);
    }
    var f := fuel - 1;
    var base := NewBase(ParentBase(p));
    var local := NewSelectScope(s, false);
    var quant := SetQuantifier();
    var from, refs := GenerateFromClause(Ctx(KSelectStmt, base, local), u, f);
    if from.Err? {
      return Err(from.error);
    }
    local := local.(refs := refs);
    var ctx := Ctx(KSelectStmt, base, local);
    var sc := GenerateSelectClause(ctx, u, f);
    if sc.Err? {
      return Err(sc.error);
    }
    var w := GenerateBoolExpr(ctx, u, f);
    if w.Err? {
      return Err(w.error);
    }
    var limit := LimitClause();
    SelectOkIntro(base, quant, sc.value, from.value, w.value, limit);
    r := Ok(SelectStmt(base, quant, sc.value, from.value, Some(w.value), limit, "", None));
  }

  /** DISTINCT on a first d100 of 1, else ALL on a second d100 of 1, else nothing. */
  method SetQuantifier() returns (quant: string)
    ensures quant in ["", "DISTINCT", "ALL"]
  {
    quant := "";
    var d := Roll(100);
    if d == 1 {
      quant := "DISTINCT";
    } else {
      d := Roll(100);
      if d == 1 {
        quant := "ALL";
      }
    }
  }

  /** `LIMIT` and the sum of two d100 rolls on a d6 above 2, else no limit. */
  method LimitClause() returns (limit: string)
    ensures LimitOk(limit)
  {
    limit := "";
    var d := Roll(6);
    if d > 2 {
      var a := Roll(100);
      var b := Roll(100);
      limit := "LIMIT " + NatToString(a + b);
    }
  }

  /**
   * generateFromClause: one table reference, whose References are then
   * appended to the enclosing query's refs (returned as `refs`).
   */
  method GenerateFromClause(ctx: Ctx, u: StmtSeq, fuel: nat) returns (r: Gen<Prod>, refs: seq<Relation>)
    requires Rooted(ctx)
    modifies u
    ensures r.Ok? ==> (r.value.FromClause? && r.value.base == NewBase(Some(ctx.base)) && Good(r.value)
      && |r.value.tableRefs| == 1 && TableRefOk(r.value.tableRefs[0], ctx.scope)
      && refs == ctx.scope.refs + References(r.value.tableRefs[0]))
    ensures r.Err? ==> Fatal(r.error)
    ensures u.Get("cte") == old(u.Get("cte"))
    decreases fuel
  {
    refs := ctx.scope.refs;
    if fuel == 0 {
      return Err(OutOfFuel), refs;
    }
    var f := fuel - 1;
    var b := NewBase(Some(ctx.base));
    var t := GenerateTableRef(Ctx(KFromClause, b, ctx.scope), u, f);
    if t.Err? {
      return Err(t.error), refs;
    }
    refs := AppendRefs(refs, References(t.value));
    FromGood(b, t.value);
    r := Ok(FromClause(b, [t.value]));
  }

  /**
   * One pass of generateSelectClause's loop: a type drawn from the visible
   * column types, a value expression of it, and the column `c<k>` for the
   * current "c" counter, which it advances.
   */
  method GenerateSelectItem(ctx: Ctx, u: StmtSeq, fuel: nat) returns (r: Gen<Prod>, col: Column)
    requires Rooted(ctx)
    modifies u
    ensures r.Ok? ==> (ValueOk(r.value, col.typ) && col.typ in AvailableTypes(ctx.scope)
      && col.name == "c" + NatToString(old(u.Get("c"))) && u.ids == old(u.ids)["c" := old(u.Get("c")) + 1])
    ensures r.Err? ==> Fatal(r.error) && u.ids == old(u.ids)
  {
    col := Column("", INVALID);
    var typ := Pick(AvailableTypes(ctx.scope));
    if typ.Err? {
      return Err(typ.error), col;
    }
    var e, _ := RetryValueExpression(ctx, typ.value, fuel);
    if e.Err? {
      return Err(Asserted(e.error, "expected no error")), col;
    }
    col := Column("c" + NatToString(u.Get("c")), typ.value);
    u.Incr("c");
    r := Ok(e.value);
  }

  /**
   * generateSelectClause: at least one expression; each of a type drawn
   * from the visible column types, named `c<k>` after the shared "c"
   * counter, which it advances; another one on a d6 above 1.
   */
  method GenerateSelectClause(ctx: Ctx, u: StmtSeq, fuel: nat) returns (r: Gen<Prod>)
    requires Rooted(ctx)
    modifies u
    ensures r.Ok? ==> (SelectListOk(r.value) && r.value.base == NewBase(Some(ctx.base))
      && ItemsOk(r.value.valueExprs, r.value.derivedColumns, old(u.Get("c")), ctx.scope))
    ensures r.Ok? ==> u.ids == old(u.ids)["c" := old(u.Get("c")) + |r.value.derivedColumns|]
    ensures r.Err? ==> Fatal(r.error)
    ensures u.Get("cte") == old(u.Get("cte"))
  {
    var b := NewBase(Some(ctx.base));
    var k0 := u.Get("c");
    ghost var m0 := u.ids;
    var es: seq<Prod> := [];
    var cols: seq<Column> := [];
    var f := fuel;
    while true
      invariant ItemsOk(es, cols, k0, ctx.scope)
      invariant u.ids == if cols == [] then m0 else m0["c" := k0 + |cols|]
      decreases f
    {
      if f == 0 {
        return Err(OutOfFuel);
      }
      f := f - 1;
      var e, col := GenerateSelectItem(ctx, u, fuel);
      if e.Err? {
        return Err(e.error);
      }
      ItemsSnoc(es, cols, e.value, col, k0, ctx.scope);
      es, cols := es + [e.value], cols + [col];
      var d := Roll(6);
      if d <= 1 {
        break;
      }
    }
    ItemsSelectList(b, es, cols, k0, ctx.scope);
    r := Ok(SelectClause(b, es, cols));
  }

  /** The select items built so far: `es[i]` has the type of column `c<k0+i>`, a visible column type. */
  ghost predicate ItemsOk(es: seq<Prod>, cols: seq<Column>, k0: nat, s: Scope) {
    |es| == |cols|
    && (forall i :: 0 <= i < |es| ==> ValueOk(es[i], cols[i].typ))
    && forall i :: 0 <= i < |cols| ==> cols[i].typ in AvailableTypes(s) && cols[i].name == "c" + NatToString(k0 + i)
  }

  lemma ItemsSnoc(es: seq<Prod>, cols: seq<Column>, e: Prod, col: Column, k0: nat, s: Scope)
    requires ItemsOk(es, cols, k0, s) && ValueOk(e, col.typ) && col.typ in AvailableTypes(s)
    requires col.name == "c" + NatToString(k0 + |cols|)
    ensures ItemsOk(es + [e], cols + [col], k0, s)
  {
  }

  lemma ItemsSelectList(b: Base, es: seq<Prod>, cols: seq<Column>, k0: nat, s: Scope)
    requires ItemsOk(es, cols, k0, s) && es != []
    ensures SelectListOk(SelectClause(b, es, cols))
  {
    SelectClauseGood(b, es, cols);
  }

  /** The derived column names of one select list are pairwise distinct. */
  lemma DerivedNamesDistinct(es: seq<Prod>, cols: seq<Column>, k0: nat, s: Scope)
    requires ItemsOk(es, cols, k0, s)
    ensures forall i, j :: 0 <= i < j < |cols| ==> cols[i].name != cols[j].name
  {
    forall i, j | 0 <= i < j < |cols|
      ensures cols[i].name != cols[j].name
    {
      if cols[i].name == cols[j].name {
        PrefixedNatInjective("c", k0 + i, k0 + j);
      }
    }
  }

  // ------------------------------------------------------ table references

  /**
   * generateTableRef: below level 3 + d6, a subquery when a d6 is above 3
   * and the level is below another d6, else a join on a d6 above 3; a
   * table name otherwise.
   */
  method GenerateTableRef(ctx: Ctx, u: StmtSeq, fuel: nat) returns (r: Gen<Prod>)
    requires Rooted(ctx)
    modifies u
    ensures r.Ok? ==> TableRefOk(r.value, ctx.scope) && BaseOf(r.value) == Some(NewBase(Some(ctx.base)))
    ensures r.Err? ==> Fatal(r.error)
    ensures u.Get("cte") == old(u.Get("cte"))
    decreases fuel
  {
    if fuel == 0 {
      return Err(OutOfFuel);
    }
    var f := fuel - 1;
    var d := Roll(6);
    if ctx.base.level < 3 + d {
      var d1 := Roll(6);
      if d1 > 3 {
        var d2 := Roll(6);
        if ctx.base.level < d2 {
          r := GenerateTableSubquery(ctx, u, f);
          return;
        }
      }
      d1 := Roll(6);
      if d1 > 3 {
        r := GenerateJoinedTable(ctx, u, f);
        return;
      }
    }
    r := GenerateTableOrQueryName(ctx, u);
  }

  /**
   * generateTableOrQueryName: a table of the scope under the alias
   * `t<n>`, n the "table" counter after its increment; the "c" counter is
   * reset to the table's column count.
   */
  method GenerateTableOrQueryName(ctx: Ctx, u: StmtSeq) returns (r: Gen<Prod>)
    modifies u
    ensures r.Ok? ==> (TableRefOk(r.value, ctx.scope) && r.value.TableOrQueryName?
      && r.value.base == NewBase(Some(ctx.base))
      && r.value.refs == [NewTable("t" + NatToString(old(u.Get("table")) + 1), r.value.table.Columns(), [], false, false)])
    ensures r.Ok? ==> u.ids == old(u.ids)["c" := |r.value.table.Columns()|]["table" := old(u.Get("table")) + 1]
    ensures ctx.scope.tables == [] ==> r == Err(Panic("No items to pick from"))
    ensures r.Err? ==> r == Err(Panic("No items to pick from"))
    ensures u.Get("cte") == old(u.Get("cte"))
  {
    var b := NewBase(Some(ctx.base));
    var t := Pick(ctx.scope.tables);
    if t.Err? {
      return Err(t.error);
    }
    var tab := t.value;
    u.Start("c", |tab.Columns()|);
    u.Incr("table");
    var alias := "t" + NatToString(u.Get("table"));
    TableNameRefOk(b, tab, alias, ctx.scope);
    r := Ok(TableOrQueryName(b, tab, [NewTable(alias, tab.Columns(), [], false, false)]));
  }

  /**
   * generateTableSubquery: a SELECT one level down against a copy of the
   * scope, aliased `subq<n>` after the "subq" counter, its derived columns
   * appended to the copy's refs.
   */
  method GenerateTableSubquery(ctx: Ctx, u: StmtSeq, fuel: nat) returns (r: Gen<Prod>)
    requires Rooted(ctx)
    modifies u
    ensures r.Ok? ==> (TableRefOk(r.value, ctx.scope) && r.value.TableSubquery?
      && r.value.base == NewBase(Some(ctx.base))
      && u.Get("subq") >= 1
      && r.value.scopeRefs[|r.value.scopeRefs| - 1].alias == "subq" + NatToString(u.Get("subq") - 1))
    ensures r.Err? ==> Fatal(r.error)
    ensures u.Get("cte") == old(u.Get("cte"))
    decreases fuel
  {
    if fuel == 0 {
      return Err(OutOfFuel);
    }
    var f := fuel - 1;
    var b := NewBase(Some(ctx.base));
    var scope := NewScope(ctx.scope);
    var q := GenerateSelect(Some(Ctx(KTableSubquery, b, scope)), scope, u, f);
    if q.Err? {
      return Err(q.error);
    }
    var alias := "subq" + NatToString(u.Get("subq"));
    u.Incr("subq");
    var refs := scope.refs + [AliasedRelation(alias, q.value.selectClause.derivedColumns)];
    SubqueryRefOk(b, q.value, alias, ctx.scope);
    r := Ok(TableSubquery(b, false, q.value, refs));
  }

  /** The join type dice: CROSS on a d20 of 1, else INNER on a d6 below 4, else LEFT, LEFT OUTER on a further d6 of 1. */
  method JoinType() returns (typ: string)
    ensures typ in JoinTypes
  {
    var d := Roll(20);
    if d == 1 {
      return "CROSS";
    }
    var inner := false;
    d := Roll(6);
    if d < 4 {
      typ := "INNER";
      inner := true;
    } else {
      typ := "LEFT";
    }
    if !inner {
      d := Roll(6);
      if d == 1 {
        typ := typ + " OUTER";
        assert typ == "LEFT OUTER";
      }
    }
  }

  /**
   * generateJoinedTable: two table references one level down, a join type
   * and an ON condition; a condition that fails with an error makes it
   * start over. Its refs are the lhs refs followed by the rhs refs.
   */
  method GenerateJoinedTable(ctx: Ctx, u: StmtSeq, fuel: nat) returns (r: Gen<Prod>)
    requires Rooted(ctx)
    modifies u
    ensures r.Ok? ==> (TableRefOk(r.value, ctx.scope) && r.value.JoinedTable?
      && r.value.base == NewBase(Some(ctx.base)))
    ensures r.Err? ==> Fatal(r.error)
    ensures u.Get("cte") == old(u.Get("cte"))
    decreases fuel
  {
    var b := NewBase(Some(ctx.base));
    var tctx := Ctx(KJoinedTable, b, ctx.scope);
    var f: nat := fuel;
    while true
      invariant f <= fuel
      invariant u.Get("cte") == old(u.Get("cte"))
      decreases f
    {
      if f == 0 {
        return Err(OutOfFuel);
      }
      f := f - 1;
      var l := GenerateTableRef(tctx, u, f);
      if l.Err? {
        return Err(l.error);
      }
      var rr := GenerateTableRef(tctx, u, f);
      if rr.Err? {
        return Err(rr.error);
      }
      var typ := JoinType();
      var cond := GenerateJoinCondition(tctx, l.value, rr.value, u, f);
      if cond.Err? {
        if cond.error.NoMatch? {
          continue;
        }
        return Err(cond.error);
      }
      var refs := ConcatRefs(References(l.value), References(rr.value));
      JoinedRefOk(b, typ, l.value, rr.value, cond.value, ctx.scope);
      return Ok(JoinedTable(b, typ, refs, l.value, rr.value, Some(cond.value), ""));
    }
  }

  /** generateJoinCondition: an expression condition on a d6 below 6, else a column equality. */
  method GenerateJoinCondition(ctx: Ctx, l: Prod, r: Prod, u: StmtSeq, fuel: nat) returns (c: Gen<Prod>)
    requires Rooted(ctx)
    modifies u
    ensures c.Ok? ==> ConditionOk(c.value, l, r)
    ensures c.Err? ==> Fatal(c.error) || c.error == NoMatch("retried 10 times without finding join condition")
    ensures u.Get("cte") == old(u.Get("cte"))
    decreases fuel
  {
    if fuel == 0 {
      return Err(OutOfFuel);
    }
    var f := fuel - 1;
    var d := Roll(6);
    if d < 6 {
      c := GenerateExpressionJoinCondition(ctx, l, r, u, f);
      return;
    }
    var simple, _ := GenerateSimpleJoinCondition(ctx, References(l), References(r));
    if simple.Ok? {
      SimpleConditionOk(simple.value, l, r);
    }
    c := simple;
  }

  /** A column equality over the two sides' refs is a join condition of them. */
  lemma SimpleConditionOk(c: Prod, l: Prod, r: Prod)
    requires c.SimpleJoinCondition? && JoinsOn(c.conditionText, References(l), References(r))
    ensures ConditionOk(c, l, r)
  {
    assert C.Kids(c) == [];
  }

  /**
   * generateExpressionJoinCondition: a boolean expression against a copy
   * of the scope whose refs gain the lhs and then the rhs refs; it never
   * fails with an error.
   */
  method GenerateExpressionJoinCondition(ctx: Ctx, l: Prod, r: Prod, u: StmtSeq, fuel: nat) returns (c: Gen<Prod>)
    requires Rooted(ctx)
    modifies u
    ensures c.Ok? ==> ConditionOk(c.value, l, r) && c.value.base == NewBase(Some(ctx.base))
    ensures c.Err? ==> Fatal(c.error)
    ensures u.Get("cte") == old(u.Get("cte"))
    decreases fuel
  {
    if fuel == 0 {
      return Err(OutOfFuel);
    }
    var f := fuel - 1;
    var b := NewBase(Some(ctx.base));
    var scope := NewScope(ctx.scope);
    var refs := AppendRefs(scope.refs, References(l));
    refs := AppendRefs(refs, References(r));
    scope := scope.(refs := refs);
    var w := GenerateBoolExpr(Ctx(KExpressionJoinCondition, b, scope), u, f);
    if w.Err? {
      return Err(w.error);
    }
    ExpressionJoinGood(b, l, r, w.value);
    c := Ok(ExpressionJoinCondition(b, l, r, Some(w.value)));
  }
}
