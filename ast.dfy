// The ast package: the production nodes of a generated SQL statement, their
// SQL rendering (Out) and their result type (Type).
module Ast {
  import opened Wrappers
  import opened Text
  import opened Schema
  import opened Scopes

  /** The concrete production types, standing for Go's dynamic type of a Prod. */
  datatype NodeKind =
    | KViewStmt | KInsertStmt | KUpdateStmt | KSetClause | KDeleteStmt | KCTEStmt
    | KSelectStmt | KFromClause | KTableOrQueryName | KSelectClause | KExplainStmt
    | KAnalyseStmt | KVacuumStmt | KCompoundStmt | KSavepointStmt | KTableSubquery
    | KColumnReference | KConstExpr | KBinaryExpr | KExistsExpr | KTruthExpr
    | KNullPredicateExpr | KFunCallExpr | KWindowFunExpr | KCaseExpr | KCastExpr
    | KCoalesceExpr | KIfNullIfExpr | KJoinedTable | KSimpleJoinCondition
    | KExpressionJoinCondition

  /** The kinds that implement ValueExpr (they have a Type method). */
  predicate IsValueExprKind(k: NodeKind) {
    k in {KColumnReference, KConstExpr, KBinaryExpr, KExistsExpr, KTruthExpr,
          KNullPredicateExpr, KFunCallExpr, KWindowFunExpr, KCaseExpr, KCastExpr,
          KCoalesceExpr, KIfNullIfExpr}
  }

  /**
   * Base: the parent link and the nesting level. The scope pointer of the
   * Go struct is carried beside the node by the generators.
   */
  datatype Base = Base(parent: Parent, level: int)

  /** The node a Base points up to: its kind and its own Base, or nil. */
  datatype Parent = Nil | ParentNode(kind: NodeKind, base: Base)

  /**
   * NewBase: one level deeper than `parent`, whose parent link it copies
   * (the grandparent, not `parent` itself); the zero Base for nil.
   */
  function NewBase(parent: Option<Base>): (b: Base)
    ensures parent.None? ==> b == Base(Nil, 0)
    ensures parent.Some? ==> b.level == parent.value.level + 1 && b.parent == parent.value.parent
  {
    match parent
    case None => Base(Nil, 0)
    case Some(p) => Base(p.parent, p.level + 1)
  }

  /** Base.Indent: one space per level. */
  function Indent(b: Base): string {
    Spaces(b.level)
  }

  /** OrderByTerm: a column name with an optional collation and direction. */
  datatype OrderByTerm = OrderByTerm(columnName: string, collation: string, sortDirection: string)

  datatype OrderByClause = OrderByClause(terms: seq<OrderByTerm>)

  /**
   * The production nodes with ast.go's fields. A nil interface field is an
   * Option; a BinaryExpr built by generateComparisonOperation has no Base.
   */
  datatype Prod =
    | ViewStmt(base: Base, temporary: bool, ifNotExists: bool, name: string, cols: seq<Prod>, selectQuery: Prod)
    | InsertStmt(base: Base, table: Relation, exprs: seq<Prod>)
    | UpdateStmt(base: Base, table: Relation, setClause: Prod, whereClause: Option<Prod>)
    | SetClause(base: Base, values: seq<Prod>, names: seq<string>)
    | DeleteStmt(base: Base, table: Relation, whereClause: Option<Prod>)
    | CTEStmt(base: Base, refNames: seq<string>, withQueries: seq<Prod>, query: Prod)
    | SelectStmt(base: Base, setQuantifier: string, selectClause: Prod, fromClause: Prod,
                 whereClause: Option<Prod>, limitClause: string, offsetClause: string,
                 orderByClause: Option<OrderByClause>)
    | FromClause(base: Base, tableRefs: seq<Prod>)
    | TableOrQueryName(base: Base, table: Relation, refs: seq<Relation>)
    | SelectClause(base: Base, valueExprs: seq<Prod>, derivedColumns: seq<Column>)
    | ExplainStmt(base: Base, queryPlan: bool, stmt: Prod)
    | AnalyseStmt(base: Base, name: string)
    | VacuumStmt(base: Base, name: string, file: string)
    | CompoundStmt(base: Base, lhs: Prod, rhs: Prod, op: string, limitClause: string,
                   orderByClause: Option<OrderByClause>)
    | SavepointStmt(base: Base, stmts: seq<Prod>, name: string, endIdx: int, endStmt: string)
    | TableSubquery(base: Base, isLateral: bool, query: Prod, scopeRefs: seq<Relation>)
    | ColumnReference(base: Base, reference: string, typ: SqlType)
    | ConstExpr(base: Base, value: string, typ: SqlType)
    | BinaryExpr(optBase: Option<Base>, left: Prod, op: string, right: Prod)
    | ExistsExpr(base: Base, subquery: Prod)
    | TruthExpr(base: Base, truth: bool)
    | NullPredicateExpr(base: Base, negate: bool, expr: Prod)
    | FunCallExpr(base: Base, proc: Routine, isAggregate: bool, setQuantifier: string,
                  params: seq<Prod>, typ: SqlType)
    | WindowFunExpr(base: Base, partionBy: seq<Prod>, orderBy: seq<Prod>, aggregate: Prod, typ: SqlType)
    | CaseExpr(base: Base, val: Option<Prod>, whens: seq<Prod>, thens: seq<Prod>,
               elseExpr: Option<Prod>, typ: SqlType)
    | CastExpr(base: Base, expr: Prod, typ: SqlType)
    | CoalesceExpr(base: Base, exprs: seq<Prod>, typ: SqlType)
    | IfNullIfExpr(base: Base, isIfNull: bool, expr1: Prod, expr2: Prod, typ: SqlType)
    | JoinedTable(base: Base, joinType: string, refs: seq<Relation>, lhs: Prod, rhs: Prod,
                  condition: Option<Prod>, alias: string)
    | SimpleJoinCondition(base: Base, conditionText: string)
    | ExpressionJoinCondition(base: Base, lhs: Prod, rhs: Prod, whereClause: Option<Prod>)

  function KindOf(p: Prod): NodeKind {
    match p
    case ViewStmt(_, _, _, _, _, _) => KViewStmt
    case InsertStmt(_, _, _) => KInsertStmt
    case UpdateStmt(_, _, _, _) => KUpdateStmt
    case SetClause(_, _, _) => KSetClause
    case DeleteStmt(_, _, _) => KDeleteStmt
    case CTEStmt(_, _, _, _) => KCTEStmt
    case SelectStmt(_, _, _, _, _, _, _, _) => KSelectStmt
    case FromClause(_, _) => KFromClause
    case TableOrQueryName(_, _, _) => KTableOrQueryName
    case SelectClause(_, _, _) => KSelectClause
    case ExplainStmt(_, _, _) => KExplainStmt
    case AnalyseStmt(_, _) => KAnalyseStmt
    case VacuumStmt(_, _, _) => KVacuumStmt
    case CompoundStmt(_, _, _, _, _, _) => KCompoundStmt
    case SavepointStmt(_, _, _, _, _) => KSavepointStmt
    case TableSubquery(_, _, _, _) => KTableSubquery
    case ColumnReference(_, _, _) => KColumnReference
    case ConstExpr(_, _, _) => KConstExpr
    case BinaryExpr(_, _, _, _) => KBinaryExpr
    case ExistsExpr(_, _) => KExistsExpr
    case TruthExpr(_, _) => KTruthExpr
    case NullPredicateExpr(_, _, _) => KNullPredicateExpr
    case FunCallExpr(_, _, _, _, _, _) => KFunCallExpr
    case WindowFunExpr(_, _, _, _, _) => KWindowFunExpr
    case CaseExpr(_, _, _, _, _, _) => KCaseExpr
    case CastExpr(_, _, _) => KCastExpr
    case CoalesceExpr(_, _, _) => KCoalesceExpr
    case IfNullIfExpr(_, _, _, _, _) => KIfNullIfExpr
    case JoinedTable(_, _, _, _, _, _, _) => KJoinedTable
    case SimpleJoinCondition(_, _) => KSimpleJoinCondition
    case ExpressionJoinCondition(_, _, _, _) => KExpressionJoinCondition
  }

  /** GetBase: the node's Base; None only for a comparison BinaryExpr. */
  function BaseOf(p: Prod): Option<Base> {
    if p.BinaryExpr? then p.optBase else Some(p.base)
  }

  /** TableRef.References: the relations a table reference makes visible to its query. */
  function References(p: Prod): seq<Relation> {
    match p
    case TableOrQueryName(_, _, refs) => refs
    case TableSubquery(_, _, _, refs) => refs
    case JoinedTable(_, _, refs, _, _, _, _) => refs
    case _ => []
  }

  // ------------------------------------------------------------- rendering

  /**
   * The nodes whose Out does not panic: every child it renders renders,
   * each indexed list is long enough for the loop that reads it, the
   * clauses Out dereferences are set, and a CAST target type has an Out.
   */
  predicate Renders(p: Prod)
    decreases p
  {
    match p
    case ViewStmt(_, _, _, _, cols, q) => (forall i :: 0 <= i < |cols| ==> Renders(cols[i])) && Renders(q)
    case InsertStmt(_, _, exprs) => forall i :: 0 <= i < |exprs| ==> Renders(exprs[i])
    case UpdateStmt(_, _, sc, w) => Renders(sc) && w.Some? && Renders(w.value)
    case SetClause(_, vals, names) => |vals| >= |names| && forall i :: 0 <= i < |names| ==> Renders(vals[i])
    case DeleteStmt(_, _, w) => w.Some? && Renders(w.value)
    case CTEStmt(_, rn, wq, q) =>
      |rn| >= |wq| && (forall i :: 0 <= i < |wq| ==> Renders(wq[i])) && Renders(q)
    case SelectStmt(_, _, sc, fc, w, _, _, _) => Renders(sc) && Renders(fc) && w.Some? && Renders(w.value)
    case FromClause(_, refs) => forall i :: 0 <= i < |refs| ==> Renders(refs[i])
    case TableOrQueryName(_, _, refs) => |refs| > 0
    case SelectClause(_, es, cols) => |cols| >= |es| && forall i :: 0 <= i < |es| ==> Renders(es[i])
    case ExplainStmt(_, _, s) => Renders(s)
    case AnalyseStmt(_, _) => true
    case VacuumStmt(_, _, _) => true
    case CompoundStmt(_, l, r, _, _, _) => Renders(l) && Renders(r)
    case SavepointStmt(_, ss, _, _, _) => forall i :: 0 <= i < |ss| ==> Renders(ss[i])
    case TableSubquery(_, _, q, refs) => Renders(q) && |refs| > 0
    case ColumnReference(_, _, _) => true
    case ConstExpr(_, _, _) => true
    case BinaryExpr(_, l, _, r) => Renders(l) && Renders(r)
    case ExistsExpr(_, q) => Renders(q)
    case TruthExpr(_, _) => true
    case NullPredicateExpr(_, _, e) => Renders(e)
    case FunCallExpr(_, _, agg, _, ps, _) =>
      if agg && ps == [] then true
      else if |ps| == 1 then Renders(ps[0])
      else forall i :: 0 <= i < |ps| ==> Renders(ps[i])
    case WindowFunExpr(_, pb, ob, agg, _) =>
      (forall i :: 0 <= i < |pb| ==> Renders(pb[i])) && (forall i :: 0 <= i < |ob| ==> Renders(ob[i]))
      && Renders(agg)
    case CaseExpr(_, v, ws, ts, e, _) =>
      (v.Some? ==> Renders(v.value)) && |ts| >= |ws|
      && (forall i :: 0 <= i < |ws| ==> Renders(ws[i]) && Renders(ts[i]))
      && e.Some? && Renders(e.value)
    case CastExpr(_, e, t) => Renders(e) && TypeOut(t).Some?
    case CoalesceExpr(_, es, _) => forall i :: 0 <= i < |es| ==> Renders(es[i])
    case IfNullIfExpr(_, _, e1, e2, _) => Renders(e1) && Renders(e2)
    case JoinedTable(_, _, _, l, r, c, _) => Renders(l) && Renders(r) && (c.Some? ==> Renders(c.value))
    case SimpleJoinCondition(_, _) => true
    case ExpressionJoinCondition(_, _, _, w) => w.Some? && Renders(w.value)
  }

  /** The Out of each node of a list, in order. */
  function Outs(ps: seq<Prod>): (r: seq<string>)
    requires forall i :: 0 <= i < |ps| ==> Renders(ps[i])
    ensures |r| == |ps|
    decreases ps
  {
    if ps == [] then [] else Outs(ps[..|ps| - 1]) + [Out(ps[|ps| - 1])]
  }

  /** The Out of the first `k` nodes of a list (the loops that stop at another list's length). */
  function OutsUpTo(ps: seq<Prod>, k: nat): (r: seq<string>)
    requires k <= |ps| && forall i :: 0 <= i < k ==> Renders(ps[i])
    ensures |r| == k
    decreases ps, k
  {
    if k == 0 then [] else OutsUpTo(ps, k - 1) + [Out(ps[k - 1])]
  }

  /** OrderByTerm.Out: the column, then ` COLLATE c` and ` dir` only when set. */
  function TermOut(t: OrderByTerm): string {
    t.columnName
    + (if t.collation != "" then " COLLATE " + t.collation else "")
    + (if t.sortDirection != "" then " " + t.sortDirection else "")
  }

  function TermOuts(ts: seq<OrderByTerm>): (r: seq<string>)
    ensures |r| == |ts|
  {
    if ts == [] then [] else TermOuts(ts[..|ts| - 1]) + [TermOut(ts[|ts| - 1])]
  }

  /** OrderByClause.Out: the loop writing `, ` after every term but the last. */
  function OrderByOut(c: OrderByClause): string {
    if c.terms == [] then "" else "ORDER BY " + SepUnless(TermOuts(c.terms), ", ", |c.terms|)
  }

  /** SetClause's `name = value` pairs, paired by index. */
  function Assignments(names: seq<string>, vals: seq<string>): (r: seq<string>)
    requires |vals| >= |names|
    ensures |r| == |names|
  {
    seq(|names|, i requires 0 <= i < |names| => names[i] + " = " + vals[i])
  }

  /** SelectClause's `expr AS cN` items, paired by index. */
  function SelectItems(vals: seq<string>, cols: seq<Column>): (r: seq<string>)
    requires |cols| >= |vals|
    ensures |r| == |vals|
  {
    seq(|vals|, i requires 0 <= i < |vals| => vals[i] + " AS " + cols[i].name)
  }

  /** The `name AS (\n query \n)` parts of a CTE. */
  function CteParts(ind: string, names: seq<string>, queries: seq<string>): (r: seq<string>)
    requires |names| >= |queries|
    ensures |r| == |queries|
  {
    seq(|queries|, i requires 0 <= i < |queries| => ind + names[i] + " AS (\n" + queries[i] + "\n)")
  }

  /** The `WHEN w THEN t\n` arms of a CASE. */
  function CaseArms(ws: seq<string>, ts: seq<string>): (r: seq<string>)
    requires |ts| >= |ws|
    ensures |r| == |ws|
  {
    seq(|ws|, i requires 0 <= i < |ws| => "WHEN " + ws[i] + " THEN " + ts[i] + "\n")
  }

  /**
   * Out: each node's SQL text, following the builder loops of ast.go; the
   * separator loops are written in their Go shape (SepBefore for
   * `if i > 0`, SepUnless for `if i+1 != n` and `if i < n-1`).
   */
  function Out(p: Prod): string
    requires Renders(p) == true
    decreases p, 1
  {
    if p.ViewStmt? || p.InsertStmt? || p.UpdateStmt? || p.DeleteStmt? || p.CTEStmt? || p.SelectStmt? then StatementOut(p)
    else
    if p.ExplainStmt? || p.AnalyseStmt? || p.VacuumStmt? || p.CompoundStmt? || p.SavepointStmt? || p.SetClause? || p.FromClause? || p.SelectClause? then OtherStatementOut(p)
    else
    if p.TableOrQueryName? || p.TableSubquery? || p.JoinedTable? || p.SimpleJoinCondition? || p.ExpressionJoinCondition? then TableRefOut(p)
    else
    if p.ColumnReference? || p.ConstExpr? || p.BinaryExpr? || p.ExistsExpr? || p.TruthExpr? || p.NullPredicateExpr? then SimpleExprOut(p)
    else if p.FunCallExpr? then CallExprOut(p)
    else if p.WindowFunExpr? then WindowOut(p)
    else if p.CaseExpr? then CaseOut(p)
    else ConditionalExprOut(p)
  }

  /** Out of the statements. */
  function StatementOut(p: Prod): string
    requires Renders(p) == true && (p.ViewStmt? || p.InsertStmt? || p.UpdateStmt? || p.DeleteStmt? || p.CTEStmt? || p.SelectStmt?)
    decreases p, 0
  {
    match p
    case ViewStmt(_, tmp, ine, name, cols, q) =>
      "CREATE " + (if tmp then "TEMPORARY " else "") + "VIEW " + (if ine then "IF NOT EXISTS " else "")
      + name + (if |cols| > 0 then " (" + SepBefore(Outs(cols), ", ") + ")" else "")
      + " AS " + Out(q)
    case InsertStmt(_, t, exprs) =>
      "INSERT INTO " + t.Name() + " "
      + (if |exprs| == 0 then "DEFAULT VALUES" else "VALUES (" + SepBefore(Outs(exprs), ", ") + ")")
    case UpdateStmt(_, t, sc, w) =>
      "UPDATE " + t.Name() + " " + "\n" + Out(sc) + "\n" + "WHERE " + Out(w.value)
    case DeleteStmt(_, t, w) =>
      "DELETE FROM " + t.Name() + "\n" + "WHERE " + Out(w.value)
    case CTEStmt(b, rn, wq, q) =>
      "WITH " + SepUnless(CteParts(Indent(b), rn, Outs(wq)), ", ", |wq|) + Out(q)
    case SelectStmt(b, quant, sc, fc, w, limit, offset, ob) =>
      "SELECT " + (if quant != "" then quant + " " else "") + Out(sc)
      + "\n" + Indent(b) + Out(fc)
      + "\n" + Indent(b) + "WHERE " + Out(w.value)
      + (if ob.Some? then "\n" + Indent(b) + OrderByOut(ob.value) else "")
      + (if limit != "" then "\n" + Indent(b) + limit + " " + offset else "")
    case _ => ""
  }

  /** Out of the remaining statements and the clauses. */
  function OtherStatementOut(p: Prod): string
    requires Renders(p) == true && (p.ExplainStmt? || p.AnalyseStmt? || p.VacuumStmt? || p.CompoundStmt? || p.SavepointStmt? || p.SetClause? || p.FromClause? || p.SelectClause?)
    decreases p, 0
  {
    match p
    case ExplainStmt(_, qp, s) =>
      "EXPLAIN " + (if qp then "QUERY PLAN " else "") + Out(s)
    case AnalyseStmt(_, name) =>
      "ANALYZE " + name
    case VacuumStmt(_, name, file) =>
      if file == "" then "VACUUM " + name else "VACUUM " + name + " INTO " + file
    case CompoundStmt(_, l, r, op, limit, ob) =>
      Out(l) + "\n" + op + "\n" + Out(r)
      + (if ob.Some? then "\n" + OrderByOut(ob.value) else "")
      + (if limit != "" then "\n" + limit else "")
    case SavepointStmt(_, ss, name, _, end) =>
      "SAVEPOINT " + name + ";\n" + Concat(seq(|ss|, i requires 0 <= i < |ss| => Outs(ss)[i] + ";\n")) + end
    case SetClause(_, vals, names) =>
      "SET " + SepBefore(Assignments(names, OutsUpTo(vals, |names|)), ", ")
    case FromClause(_, refs) =>
      "FROM " + SepUnless(Outs(refs), ", ", |refs|)
    case SelectClause(_, es, cols) =>
      SepUnless(SelectItems(Outs(es), cols), ", ", |es|)
    case _ => ""
  }

  /** Out of the table references and join conditions. */
  function TableRefOut(p: Prod): string
    requires Renders(p) == true && (p.TableOrQueryName? || p.TableSubquery? || p.JoinedTable? || p.SimpleJoinCondition? || p.ExpressionJoinCondition?)
    decreases p, 0
  {
    match p
    case TableOrQueryName(_, t, refs) =>
      t.Name() + " AS " + refs[0].Name()
    case TableSubquery(_, lateral, q, refs) =>
      (if lateral then "LATERAL " else "") + "(" + Out(q) + ") as " + refs[0].Name()
    case JoinedTable(b, jt, _, l, r, c, _) =>
      Out(l) + "\n" + Indent(b) + jt + " JOIN "
      + (if r.JoinedTable? then "(\n" + Indent(b) + Out(r) + Indent(b) + ")\n"
         else Out(r) + Indent(b) + "\n")
      + (if c.Some? then Indent(b) + " ON (" + Out(c.value) + ")" else "")
    case SimpleJoinCondition(_, text) => text
    case ExpressionJoinCondition(_, _, _, w) => Out(w.value)
    case _ => ""
  }

  /** Out of the leaf and boolean expressions. */
  function SimpleExprOut(p: Prod): string
    requires Renders(p) == true && (p.ColumnReference? || p.ConstExpr? || p.BinaryExpr? || p.ExistsExpr? || p.TruthExpr? || p.NullPredicateExpr?)
    decreases p, 0
  {
    match p
    case ColumnReference(_, reference, _) => reference
    case ConstExpr(_, value, _) => value
    case BinaryExpr(_, l, op, r) => Out(l) + " " + op + " " + Out(r)
    case ExistsExpr(b, q) =>
      "EXISTS (\n" + Indent(b) + Out(q) + "\n" + Indent(b) + ")"
    case TruthExpr(_, v) => if v then "true" else "false"
    case NullPredicateExpr(_, neg, e) =>
      Out(e) + " IS " + (if neg then "NOT " else "") + "NULL"
    case _ => ""
  }

  /** Out of a function call. */
  function CallExprOut(p: Prod): string
    requires Renders(p) == true && p.FunCallExpr?
    decreases p, 0
  {
    match p
    case FunCallExpr(_, proc, agg, quant, ps, _) =>
      Ident(proc) + "("
      + (if agg && |ps| == 0 then "*"
         else if |ps| == 1 then quant + " " + Out(ps[0])
         else SepUnless(Outs(ps), ",", |ps|))
      + ")"
    case _ => ""
  }

  /** Out of a window function: the ORDER BY loop tests the PARTITION BY length. */
  function WindowOut(p: Prod): string
    requires Renders(p) == true && p.WindowFunExpr?
    decreases p, 0
  {
    Indent(p.base) + Out(p.aggregate) + " OVER (PARTITION BY " + SepUnless(Outs(p.partionBy), ",", |p.partionBy|)
    + " ORDER BY " + SepUnless(Outs(p.orderBy), ",", |p.partionBy|) + ")"
  }

  /** Out of a CASE expression: the arms, then ELSE and END at the node's indent. */
  function CaseOut(p: Prod): string
    requires Renders(p) == true && p.CaseExpr?
    decreases p, 0
  {
    var b, ws := p.base, p.whens;
    var vText := if p.val.Some? then " " + Out(p.val.value) else "";
    var arms := CaseArms(Outs(ws), OutsUpTo(p.thens, |ws|));
    "\n" + Indent(b) + "CASE" + vText + " "
    + SepUnless(arms, Indent(b) + "     ", |ws|)
    + Indent(b) + "     ELSE " + Out(p.elseExpr.value) + "\n" + Indent(b) + "END"
  }

  /** Out of the CAST, COALESCE and IFNULL / NULLIF expressions. */
  function ConditionalExprOut(p: Prod): string
    requires Renders(p) == true && (p.CastExpr? || p.CoalesceExpr? || p.IfNullIfExpr?)
    decreases p, 0
  {
    if p.CastExpr? then "CAST(" + Out(p.expr) + " AS " + TypeOut(p.typ).value + ")"
    else if p.CoalesceExpr? then "COALESCE(" + SepBefore(Outs(p.exprs), ", ") + ")"
    else (if p.isIfNull then "IFNULL(" else "NULLIF(") + Out(p.expr1) + ", " + Out(p.expr2) + ")"
  }

  // ----------------------------------------------------------------- types

  /** The nodes with a Type method whose Type does not recurse into a non-value node. */
  predicate HasType(p: Prod)
    decreases p
  {
    IsValueExprKind(KindOf(p))
    && (p.CoalesceExpr? ==> forall i :: 0 <= i < |p.exprs| ==> HasType(p.exprs[i]))
  }

  /** CoalesceExpr.Type's loop: the first type that is not NULL, else NULL. */
  function FirstNonNull(ts: seq<SqlType>): SqlType {
    if ts == [] then NULL else if ts[0] != NULL then ts[0] else FirstNonNull(ts[1..])
  }

  function TypesOf(es: seq<Prod>): (r: seq<SqlType>)
    requires forall i :: 0 <= i < |es| ==> HasType(es[i])
    ensures |r| == |es|
    decreases es
  {
    if es == [] then [] else TypesOf(es[..|es| - 1]) + [TypeOf(es[|es| - 1])]
  }

  /** ValueExpr.Type: the stored type, BOOL for the boolean nodes, Coalesce's first non-NULL. */
  function TypeOf(p: Prod): SqlType
    requires HasType(p)
    decreases p
  {
    match p
    case ColumnReference(_, _, t) => t
    case ConstExpr(_, _, t) => t
    case BinaryExpr(_, _, _, _) => BOOL
    case ExistsExpr(_, _) => BOOL
    case TruthExpr(_, _) => BOOL
    case NullPredicateExpr(_, _, _) => BOOL
    case FunCallExpr(_, _, _, _, _, t) => t
    case WindowFunExpr(_, _, _, _, t) => t
    case CaseExpr(_, _, _, _, _, t) => t
    case CastExpr(_, _, t) => t
    case CoalesceExpr(_, es, _) => FirstNonNull(TypesOf(es))
    case IfNullIfExpr(_, _, _, _, t) => t
  }

  // ---------------------------------------------------------- constructors

  /**
   * NewSelectStmt's new local scope: a copy of the outer tables, the same
   * schema, and the outer refs only for a lateral query.
   */
  function NewSelectScope(s: Scope, lateral: bool): (r: Scope)
    ensures r.tables == s.tables && r.schema == s.schema
    ensures r.refs == (if lateral then s.refs else [])
  {
    Scope(s.tables, if lateral then s.refs else [], s.schema)
  }

  // ---------------------------------------------------------------- lemmas

  /** The i-th rendered element is the Out of the i-th node. */
  lemma {:induction false} OutsAt(ps: seq<Prod>, i: nat)
    requires forall j :: 0 <= j < |ps| ==> Renders(ps[j])
    requires i < |ps|
    ensures Outs(ps)[i] == Out(ps[i])
    decreases |ps|
  {
    if i < |ps| - 1 {
      var init := ps[..|ps| - 1];
      OutsAt(init, i);
    }
  }

  /** The loops bounded by another list's length render a prefix. */
  lemma {:induction false} OutsUpToPrefix(ps: seq<Prod>, k: nat)
    requires k <= |ps| && forall i :: 0 <= i < k ==> Renders(ps[i])
    ensures OutsUpTo(ps, k) == Outs(ps[..k])
    decreases k
  {
    if k > 0 {
      OutsUpToPrefix(ps, k - 1);
      assert ps[..k][..k - 1] == ps[..k - 1];
    }
  }

  /** INSERT: DEFAULT VALUES exactly when there is no value, else the values joined by commas. */
  lemma InsertOutForm(b: Base, t: Relation, exprs: seq<Prod>)
    requires Renders(InsertStmt(b, t, exprs))
    ensures Out(InsertStmt(b, t, exprs))
            == "INSERT INTO " + t.Name() + " "
               + (if exprs == [] then "DEFAULT VALUES" else "VALUES (" + Join(Outs(exprs), ", ") + ")")
  {
    SepBeforeIsJoin(Outs(exprs), ", ");
  }

  /** SET: the `name = value` pairs of the named columns, joined by commas. */
  lemma SetClauseOutForm(b: Base, vals: seq<Prod>, names: seq<string>)
    requires Renders(SetClause(b, vals, names))
    ensures Out(SetClause(b, vals, names))
            == "SET " + Join(Assignments(names, Outs(vals[..|names|])), ", ")
  {
    OutsUpToPrefix(vals, |names|);
    SepBeforeIsJoin(Assignments(names, OutsUpTo(vals, |names|)), ", ");
  }

  /** FROM: the table references joined by commas. */
  lemma FromClauseOutForm(b: Base, refs: seq<Prod>)
    requires Renders(FromClause(b, refs))
    ensures Out(FromClause(b, refs)) == "FROM " + Join(Outs(refs), ", ")
  {
    SepUnlessIsJoin(Outs(refs), ", ");
  }

  /** The select list: `expr AS cN` items joined by commas. */
  lemma SelectClauseOutForm(b: Base, es: seq<Prod>, cols: seq<Column>)
    requires Renders(SelectClause(b, es, cols))
    ensures Out(SelectClause(b, es, cols)) == Join(SelectItems(Outs(es), cols), ", ")
  {
    SepUnlessIsJoin(SelectItems(Outs(es), cols), ", ");
  }

  /** WITH: the named queries joined by commas, the main query right after the last `)`. */
  lemma CteOutForm(b: Base, rn: seq<string>, wq: seq<Prod>, q: Prod)
    requires Renders(CTEStmt(b, rn, wq, q))
    ensures Out(CTEStmt(b, rn, wq, q)) == "WITH " + Join(CteParts(Indent(b), rn, Outs(wq)), ", ") + Out(q)
  {
    SepUnlessIsJoin(CteParts(Indent(b), rn, Outs(wq)), ", ");
  }

  /** ORDER BY: nothing without terms, else the terms joined by commas. */
  lemma OrderByOutForm(c: OrderByClause)
    ensures OrderByOut(c) == if c.terms == [] then "" else "ORDER BY " + Join(TermOuts(c.terms), ", ")
  {
    SepUnlessIsJoin(TermOuts(c.terms), ", ");
  }

  /** A function call: `*` for an aggregate without argument, the quantifier before a single argument, else the arguments joined by commas. */
  lemma FunCallOutForm(b: Base, proc: Routine, agg: bool, quant: string, ps: seq<Prod>, t: SqlType)
    requires Renders(FunCallExpr(b, proc, agg, quant, ps, t))
    ensures agg && ps == [] ==> Out(FunCallExpr(b, proc, agg, quant, ps, t)) == Ident(proc) + "(*)"
    ensures |ps| == 1 ==> Out(FunCallExpr(b, proc, agg, quant, ps, t)) == Ident(proc) + "(" + quant + " " + Out(ps[0]) + ")"
    ensures !(agg && ps == []) && |ps| != 1 ==>
            Out(FunCallExpr(b, proc, agg, quant, ps, t)) == Ident(proc) + "(" + Join(Outs(ps), ",") + ")"
  {
    var e := FunCallExpr(b, proc, agg, quant, ps, t);
    assert Out(e) == CallExprOut(e);
    SepUnlessIsJoin(Outs(ps), ",");
  }

  lemma WindowOutUnfold(b: Base, pb: seq<Prod>, ob: seq<Prod>, agg: Prod, t: SqlType)
    requires Renders(WindowFunExpr(b, pb, ob, agg, t))
    ensures Out(WindowFunExpr(b, pb, ob, agg, t))
            == Indent(b) + Out(agg) + " OVER (PARTITION BY " + SepUnless(Outs(pb), ",", |pb|)
               + " ORDER BY " + SepUnless(Outs(ob), ",", |pb|) + ")"
  {
    var w := WindowFunExpr(b, pb, ob, agg, t);
    assert Out(w) == WindowOut(w);
  }

  /**
   * The window's ORDER BY loop compares against the PARTITION BY length: with
   * lists of equal length both are joined by commas, with fewer ORDER BY terms
   * than PARTITION BY terms a comma is left before the closing parenthesis.
   */
  lemma WindowOrderBySeparator(b: Base, pb: seq<Prod>, ob: seq<Prod>, agg: Prod, t: SqlType)
    requires Renders(WindowFunExpr(b, pb, ob, agg, t))
    ensures |ob| == |pb| ==>
            Out(WindowFunExpr(b, pb, ob, agg, t)) == Indent(b) + Out(agg) + " OVER (PARTITION BY " + Join(Outs(pb), ",")
                                                     + " ORDER BY " + Join(Outs(ob), ",") + ")"
    ensures 0 < |ob| < |pb| ==>
            Out(WindowFunExpr(b, pb, ob, agg, t)) == Indent(b) + Out(agg) + " OVER (PARTITION BY " + Join(Outs(pb), ",")
                                                     + " ORDER BY " + Join(Outs(ob), ",") + "," + ")"
  {
    WindowOutUnfold(b, pb, ob, agg, t);
    SepUnlessIsJoin(Outs(pb), ",");
    if |ob| == |pb| {
      SepUnlessIsJoin(Outs(ob), ",");
    } else if 0 < |ob| < |pb| {
      SepUnlessPrefix(Outs(ob), ",", |pb|);
    }
  }

  lemma CaseOutUnfold(b: Base, v: Option<Prod>, ws: seq<Prod>, ts: seq<Prod>, e: Prod, t: SqlType)
    requires Renders(CaseExpr(b, v, ws, ts, Some(e), t))
    ensures Out(CaseExpr(b, v, ws, ts, Some(e), t))
            == "\n" + Indent(b) + "CASE" + (if v.Some? then " " + Out(v.value) else "") + " "
               + SepUnless(CaseArms(Outs(ws), OutsUpTo(ts, |ws|)), Indent(b) + "     ", |ws|)
               + Indent(b) + "     ELSE " + Out(e) + "\n" + Indent(b) + "END"
  {
    var c := CaseExpr(b, v, ws, ts, Some(e), t);
    assert Out(c) == CaseOut(c);
  }

  /** CASE: the WHEN arms joined by the node's indent and five spaces, then ELSE and END. */
  lemma CaseOutForm(b: Base, v: Option<Prod>, ws: seq<Prod>, ts: seq<Prod>, e: Prod, t: SqlType)
    requires Renders(CaseExpr(b, v, ws, ts, Some(e), t))
    ensures Out(CaseExpr(b, v, ws, ts, Some(e), t))
            == "\n" + Indent(b) + "CASE" + (if v.Some? then " " + Out(v.value) else "") + " "
               + Join(CaseArms(Outs(ws), Outs(ts[..|ws|])), Indent(b) + "     ")
               + Indent(b) + "     ELSE " + Out(e) + "\n" + Indent(b) + "END"
  {
    CaseOutUnfold(b, v, ws, ts, e, t);
    OutsUpToPrefix(ts, |ws|);
    SepUnlessIsJoin(CaseArms(Outs(ws), OutsUpTo(ts, |ws|)), Indent(b) + "     ");
  }

  /** COALESCE: the arguments joined by commas. */
  lemma CoalesceOutForm(b: Base, es: seq<Prod>, t: SqlType)
    requires Renders(CoalesceExpr(b, es, t))
    ensures Out(CoalesceExpr(b, es, t)) == "COALESCE(" + Join(Outs(es), ", ") + ")"
  {
    var c := CoalesceExpr(b, es, t);
    assert Out(c) == ConditionalExprOut(c);
    SepBeforeIsJoin(Outs(es), ", ");
  }

  /** A view's column list, when present, is the columns joined by commas. */
  lemma ViewOutForm(b: Base, tmp: bool, ine: bool, name: string, cols: seq<Prod>, q: Prod)
    requires Renders(ViewStmt(b, tmp, ine, name, cols, q))
    ensures Out(ViewStmt(b, tmp, ine, name, cols, q))
            == "CREATE " + (if tmp then "TEMPORARY " else "") + "VIEW " + (if ine then "IF NOT EXISTS " else "")
               + name + (if cols != [] then " (" + Join(Outs(cols), ", ") + ")" else "") + " AS " + Out(q)
  {
    SepBeforeIsJoin(Outs(cols), ", ");
  }

  /** UPDATE: the table, its SET clause on the next line, then WHERE on a line of its own. */
  lemma UpdateOutForm(b: Base, t: Relation, sc: Prod, w: Prod)
    requires Renders(sc) && Renders(w)
    ensures Out(UpdateStmt(b, t, sc, Some(w))) == "UPDATE " + t.Name() + " \n" + Out(sc) + "\nWHERE " + Out(w)
  {
  }

  /** DELETE: the table, then WHERE on the next line. */
  lemma DeleteOutForm(b: Base, t: Relation, w: Prod)
    requires Renders(w)
    ensures Out(DeleteStmt(b, t, Some(w))) == "DELETE FROM " + t.Name() + "\nWHERE " + Out(w)
  {
  }

  /**
   * SELECT: the quantifier only when set, the select list, FROM and WHERE
   * always, each on a line of its own, then ORDER BY and `limit offset`
   * each on a line of its own only when present.
   */
  lemma SelectOutForm(p: Prod)
    requires p.SelectStmt? && Renders(p) == true
    ensures Out(p)
            == "SELECT " + (if p.setQuantifier != "" then p.setQuantifier + " " else "") + Out(p.selectClause)
               + "\n" + Indent(p.base) + Out(p.fromClause)
               + "\n" + Indent(p.base) + "WHERE " + Out(p.whereClause.value)
               + (if p.orderByClause.Some? then "\n" + Indent(p.base) + OrderByOut(p.orderByClause.value) else "")
               + (if p.limitClause != "" then "\n" + Indent(p.base) + p.limitClause + " " + p.offsetClause else "")
  {
    assert Out(p) == StatementOut(p);
  }

  /** EXPLAIN, with QUERY PLAN when asked, before the explained statement. */
  lemma ExplainOut(b: Base, qp: bool, s: Prod)
    requires Renders(s)
    ensures Out(ExplainStmt(b, qp, s)) == "EXPLAIN " + (if qp then "QUERY PLAN " else "") + Out(s)
  {
    var e := ExplainStmt(b, qp, s);
    assert Out(e) == OtherStatementOut(e);
  }

  /** ANALYZE prints its name; VACUUM prints its name, and INTO its file only when there is one. */
  lemma AnalyseVacuumOut(b: Base, name: string, file: string)
    ensures Out(AnalyseStmt(b, name)) == "ANALYZE " + name
    ensures file == "" ==> Out(VacuumStmt(b, name, file)) == "VACUUM " + name
    ensures file != "" ==> Out(VacuumStmt(b, name, file)) == "VACUUM " + name + " INTO " + file
  {
    var a, v := AnalyseStmt(b, name), VacuumStmt(b, name, file);
    assert Out(a) == OtherStatementOut(a);
    assert Out(v) == OtherStatementOut(v);
  }

  /** A named table prints `name AS alias`, the alias being the first of its refs. */
  lemma TableNameOut(b: Base, t: Relation, refs: seq<Relation>)
    requires |refs| > 0
    ensures Out(TableOrQueryName(b, t, refs)) == t.Name() + " AS " + refs[0].Name()
  {
    var n := TableOrQueryName(b, t, refs);
    assert Out(n) == TableRefOut(n);
  }

  /** A subquery prints LATERAL when lateral, then the query in parentheses and `as` the first ref of its scope. */
  lemma TableSubqueryOut(b: Base, lateral: bool, q: Prod, refs: seq<Relation>)
    requires Renders(q) && |refs| > 0
    ensures Out(TableSubquery(b, lateral, q, refs))
            == (if lateral then "LATERAL " else "") + "(" + Out(q) + ") as " + refs[0].Name()
  {
    var t := TableSubquery(b, lateral, q, refs);
    assert Out(t) == TableRefOut(t);
  }

  /**
   * A join whose right side is not a join: the left side, then `type JOIN`
   * and the right side on the next line, followed by the indent and a
   * newline; ` ON (...)` follows only with a condition.
   */
  lemma JoinedTableOutForm(j: Prod)
    requires j.JoinedTable? && Renders(j) == true && !j.rhs.JoinedTable?
    ensures Out(j)
            == Out(j.lhs) + "\n" + Indent(j.base) + j.joinType + " JOIN " + (Out(j.rhs) + Indent(j.base) + "\n")
               + (if j.condition.Some? then Indent(j.base) + " ON (" + Out(j.condition.value) + ")" else "")
  {
    assert Out(j) == TableRefOut(j);
  }

  /** A join whose right side is itself a join puts that join in parentheses. */
  lemma NestedJoinOutForm(j: Prod)
    requires j.JoinedTable? && Renders(j) == true && j.rhs.JoinedTable?
    ensures Out(j)
            == Out(j.lhs) + "\n" + Indent(j.base) + j.joinType + " JOIN "
               + ("(\n" + Indent(j.base) + Out(j.rhs) + Indent(j.base) + ")\n")
               + (if j.condition.Some? then Indent(j.base) + " ON (" + Out(j.condition.value) + ")" else "")
  {
    assert Out(j) == TableRefOut(j);
  }

  /** A simple join condition prints its text verbatim. */
  lemma SimpleJoinConditionOut(b: Base, text: string)
    ensures Out(SimpleJoinCondition(b, text)) == text
  {
    var s := SimpleJoinCondition(b, text);
    assert Out(s) == TableRefOut(s);
  }

  /** An expression join condition prints its WHERE expression and nothing else. */
  lemma ExpressionJoinConditionOut(e: Prod)
    requires e.ExpressionJoinCondition? && Renders(e) == true
    ensures Out(e) == Out(e.whereClause.value)
  {
    assert Out(e) == TableRefOut(e);
  }

  /** A column reference prints its reference and a constant its value, verbatim. */
  lemma LeafOut(b: Base, reference: string, value: string, t: SqlType)
    ensures Out(ColumnReference(b, reference, t)) == reference
    ensures Out(ConstExpr(b, value, t)) == value
  {
    var c, k := ColumnReference(b, reference, t), ConstExpr(b, value, t);
    assert Out(c) == SimpleExprOut(c);
    assert Out(k) == SimpleExprOut(k);
  }

  /** A binary expression prints `left op right`, with or without a Base. */
  lemma BinaryOut(e: Prod)
    requires e.BinaryExpr? && Renders(e) == true
    ensures Out(e) == Out(e.left) + " " + e.op + " " + Out(e.right)
  {
    assert Out(e) == SimpleExprOut(e);
  }

  /** EXISTS puts its subquery on its own lines, the closing parenthesis at the node's indent. */
  lemma ExistsOut(e: Prod)
    requires e.ExistsExpr? && Renders(e) == true
    ensures Out(e) == "EXISTS (\n" + Indent(e.base) + Out(e.subquery) + "\n" + Indent(e.base) + ")"
  {
    assert Out(e) == SimpleExprOut(e);
  }

  /** CAST prints its operand and the DDL name of its target type. */
  lemma CastOut(c: Prod)
    requires c.CastExpr? && Renders(c) == true
    ensures TypeOut(c.typ).Some? && Out(c) == "CAST(" + Out(c.expr) + " AS " + TypeOut(c.typ).value + ")"
  {
    assert Out(c) == ConditionalExprOut(c);
  }

  /** IFNULL or NULLIF, by the flag, over its two operands. */
  lemma IfNullIfOut(n: Prod)
    requires n.IfNullIfExpr? && Renders(n) == true
    ensures n.isIfNull ==> Out(n) == "IFNULL(" + Out(n.expr1) + ", " + Out(n.expr2) + ")"
    ensures !n.isIfNull ==> Out(n) == "NULLIF(" + Out(n.expr1) + ", " + Out(n.expr2) + ")"
  {
    assert Out(n) == ConditionalExprOut(n);
  }

  /** The value nodes that are neither boolean nor COALESCE report the type they store. */
  lemma StoredTypeOf(p: Prod)
    requires HasType(p) && (p.ColumnReference? || p.ConstExpr? || p.FunCallExpr? || p.WindowFunExpr?
                            || p.CaseExpr? || p.CastExpr? || p.IfNullIfExpr?)
    ensures TypeOf(p) == p.typ
  {
  }

  /** The i-th element of TypesOf is the type of the i-th node. */
  lemma {:induction false} TypesOfAt(es: seq<Prod>, i: nat)
    requires forall j :: 0 <= j < |es| ==> HasType(es[j])
    requires i < |es|
    ensures TypesOf(es)[i] == TypeOf(es[i])
    decreases |es|
  {
    if i < |es| - 1 {
      TypesOfAt(es[..|es| - 1], i);
    }
  }

  /**
   * COALESCE ignores the type it stores: its type is NULL exactly when every
   * argument has type NULL, and otherwise that of the first argument whose
   * type is not NULL.
   */
  lemma CoalesceTypeOf(b: Base, es: seq<Prod>, t: SqlType)
    requires HasType(CoalesceExpr(b, es, t))
    ensures TypeOf(CoalesceExpr(b, es, t)) == NULL <==> forall i :: 0 <= i < |es| ==> TypeOf(es[i]) == NULL
    ensures TypeOf(CoalesceExpr(b, es, t)) != NULL ==>
            exists k :: 0 <= k < |es| && TypeOf(es[k]) == TypeOf(CoalesceExpr(b, es, t))
                        && forall i :: 0 <= i < k ==> TypeOf(es[i]) == NULL
  {
    var ts := TypesOf(es);
    FirstNonNullSpec(ts);
    forall i | 0 <= i < |es| ensures ts[i] == TypeOf(es[i]) {
      TypesOfAt(es, i);
    }
  }

  /** TruthExpr prints its value. */
  lemma TruthOut(b: Base, v: bool)
    ensures Out(TruthExpr(b, v)) == (if v then "true" else "false")
  {
    var t := TruthExpr(b, v);
    assert Out(t) == SimpleExprOut(t);
  }

  /** NullPredicateExpr appends IS NULL, or IS NOT NULL when negated. */
  lemma NullPredicateOut(n: Prod)
    requires n.NullPredicateExpr? && Renders(n) == true
    ensures n.negate ==> Out(n) == Out(n.expr) + " IS NOT NULL"
    ensures !n.negate ==> Out(n) == Out(n.expr) + " IS NULL"
  {
    assert Out(n) == SimpleExprOut(n);
  }

  /** The boolean nodes all report type BOOL, whatever their parts. */
  lemma BoolNodesType(b: Base, ob: Option<Base>, l: Prod, op: string, r: Prod, q: Prod, v: bool, neg: bool, e: Prod)
    ensures TypeOf(BinaryExpr(ob, l, op, r)) == BOOL && TypeOf(ExistsExpr(b, q)) == BOOL
    ensures TypeOf(TruthExpr(b, v)) == BOOL && TypeOf(NullPredicateExpr(b, neg, e)) == BOOL
  {
  }

  /**
   * CoalesceExpr.Type: NULL exactly when every argument type is NULL; otherwise
   * the type of the first argument that is not NULL.
   */
  lemma {:induction false} FirstNonNullSpec(ts: seq<SqlType>)
    ensures FirstNonNull(ts) == NULL <==> forall i :: 0 <= i < |ts| ==> ts[i] == NULL
    ensures FirstNonNull(ts) != NULL ==>
            exists k :: 0 <= k < |ts| && ts[k] == FirstNonNull(ts) && forall i :: 0 <= i < k ==> ts[i] == NULL
    decreases |ts|
  {
    if ts != [] && ts[0] == NULL {
      FirstNonNullSpec(ts[1..]);
      if FirstNonNull(ts) != NULL {
        var k :| 0 <= k < |ts[1..]| && ts[1..][k] == FirstNonNull(ts[1..]) && forall i :: 0 <= i < k ==> ts[1..][i] == NULL;
        assert ts[k + 1] == FirstNonNull(ts);
        assert forall i :: 0 <= i < k + 1 ==> ts[i] == NULL by {
          forall i | 0 <= i < k + 1 ensures ts[i] == NULL {
            if i > 0 { assert ts[i] == ts[1..][i - 1]; }
          }
        }
      } else {
        assert forall i :: 1 <= i < |ts| ==> ts[i] == ts[1..][i - 1];
      }
    } else if ts != [] {
      assert ts[0] == FirstNonNull(ts);
    }
  }
}
