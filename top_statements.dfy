// The top-level statement generators of grammar.go: INSERT, UPDATE with
// its SET clause, DELETE, WITH (CTE), ANALYZE, VACUUM, EXPLAIN and
// GenerateStatement, which chooses among them.
module TopStatements {
  import opened Wrappers
  import opened Text
  import opened Schema
  import opened Scopes
  import opened Ast
  import opened Grammar
  import opened Statements
  import C = Characteristics

  // ------------------------------------------------------------ SET clause

  /**
   * The SET assignments built so far: `names[i] = vals[i]` assigns the
   * column `cols[idx[i]]` a value of its type, the columns in table order.
   */
  ghost predicate Picks(idx: seq<nat>, vals: seq<Prod>, names: seq<string>, cols: seq<Column>) {
    |idx| == |vals| == |names|
    && (forall i :: 0 <= i < |idx| ==> idx[i] < |cols| && names[i] == cols[idx[i]].name)
    && (forall i :: 0 <= i < |idx| ==> ValueOk(vals[i], cols[idx[i]].typ))
    && forall i, j :: 0 <= i < j < |idx| ==> idx[i] < idx[j]
  }

  /** A generated SET clause of table `t`: at least one assignment, as Picks describes. */
  ghost predicate SetOk(c: Prod, t: Relation) {
    c.SetClause? && Good(c) && |c.values| >= 1
    && exists idx :: Picks(idx, c.values, c.names, t.Columns())
  }

  lemma PicksSnoc(idx: seq<nat>, vals: seq<Prod>, names: seq<string>, cols: seq<Column>, k: nat, e: Prod)
    requires Picks(idx, vals, names, cols) && k < |cols| && ValueOk(e, cols[k].typ)
    requires forall i :: 0 <= i < |idx| ==> idx[i] < k
    ensures Picks(idx + [k], vals + [e], names + [cols[k].name], cols)
  {
  }

  /** A SET clause never assigns one column twice, given the table's column names are distinct. */
  lemma {:induction false} SetNamesDistinct(idx: seq<nat>, vals: seq<Prod>, names: seq<string>, cols: seq<Column>)
    requires Picks(idx, vals, names, cols)
    requires forall a, b :: 0 <= a < b < |cols| ==> cols[a].name != cols[b].name
    ensures forall i, j :: 0 <= i < j < |names| ==> names[i] != names[j]
  {
    forall i, j | 0 <= i < j < |names|
      ensures names[i] != names[j]
    {
      assert idx[i] < idx[j] < |cols|;
    }
  }

  /**
   * One pass of generateSetClause's loop over the columns: each column is
   * skipped on a d6 below 4, or else assigned a value expression of its type.
   */
  method SetPass(ctx: Ctx, cols: seq<Column>, fuel: nat) returns (r: Gen<seq<Prod>>, names: seq<string>, ghost idx: seq<nat>)
    requires Rooted(ctx)
    ensures r.Ok? ==> Picks(idx, r.value, names, cols)
    ensures r.Err? ==> Fatal(r.error)
  {
    var vals: seq<Prod> := [];
    names, idx := [], [];
    for k := 0 to |cols|
      invariant Picks(idx, vals, names, cols)
      invariant forall i :: 0 <= i < |idx| ==> idx[i] < k
    {
      var d := Roll(6);
      if d < 4 {
        continue;
      }
      var e, _ := RetryValueExpression(ctx, cols[k].typ, fuel);
      if e.Err? {
        return Err(Asserted(e.error, "expected no error")), names, idx;
      }
      PicksSnoc(idx, vals, names, cols, k, e.value);
      vals, names, idx := vals + [e.value], names + [cols[k].name], idx + [k];
    }
    r := Ok(vals);
  }

  /**
   * generateSetClause: passes over the table's columns until one of them
   * assigns at least one column. A table with no column never gets there.
   */
  method GenerateSetClause(ctx: Ctx, t: Relation, fuel: nat) returns (r: Gen<Prod>, ghost idx: seq<nat>)
    requires Rooted(ctx)
    ensures r.Ok? ==> (r.value.SetClause? && r.value.base == NewBase(Some(ctx.base)) && SetOk(r.value, t)
      && Picks(idx, r.value.values, r.value.names, t.Columns()))
    ensures !t.Table? ==> r == Err(Panic("expected type to be of *schema.Table"))
    ensures t.Columns() == [] ==> r.Err?
    ensures r.Err? ==> Fatal(r.error)
  {
    idx := [];
    if !t.Table? {
      return Err(Panic("expected type to be of *schema.Table")), idx;
    }
    var b := NewBase(Some(ctx.base));
    var cctx := Ctx(KSetClause, b, ctx.scope);
    var f := fuel;
    while f > 0
      decreases f
    {
      f := f - 1;
      var vals, names, pidx := SetPass(cctx, t.Columns(), fuel);
      if vals.Err? {
        return Err(vals.error), idx;
      }
      if vals.value != [] {
        assert pidx[0] < |t.Columns()|;
        SetClauseGood(b, vals.value, names);
        idx := pidx;
        return Ok(SetClause(b, vals.value, names)), idx;
      }
    }
    r := Err(OutOfFuel);
  }

  // ---------------------------------------------------------------- DML

  /** The values of an INSERT: one per column of `cols`, in order, each of the column's type. */
  ghost predicate ValuesFit(es: seq<Prod>, cols: seq<Column>) {
    |es| == |cols| && forall i :: 0 <= i < |es| ==> ValueOk(es[i], cols[i].typ)
  }

  /**
   * GenerateInsert: a table picked from the scope, which must be a plain
   * table, a scope without refs, and one value expression per column.
   */
  method GenerateInsert(p: Option<Ctx>, s: Scope, fuel: nat) returns (r: Gen<Prod>)
    requires RootedOpt(p)
    ensures r.Ok? ==> (r.value.InsertStmt? && r.value.base == NewBase(ParentBase(p)) && Good(r.value)
      && r.value.table in s.tables && r.value.table.Table? && ValuesFit(r.value.exprs, r.value.table.Columns()))
    ensures s.tables == [] ==> r == Err(Panic("No items to pick from"))
    ensures s.refs != [] ==> r.Err?
    ensures s.tables != [] && s.refs != [] && (forall t :: t in s.tables ==> t.Table?) ==>
      r == Err(Panic("expected zero references in insert stmt"))
    ensures r.Err? ==> Fatal(r.error)
  {
    var victim := Pick(s.tables);
    if victim.Err? {
      return Err(victim.error);
    }
    var tab := victim.value;
    if !tab.Table? {
      return Err(Panic("type assertion failed"));
    }
    var base := NewBase(ParentBase(p));
    var local := NewScope(s);
    if local.refs != [] {
      return Err(Panic("expected zero references in insert stmt"));
    }
    var ctx := Ctx(KInsertStmt, base, local);
    var cols := tab.Columns();
    var es: seq<Prod> := [];
    for k := 0 to |cols|
      invariant ValuesFit(es, cols[..k])
    {
      var e, _ := RetryValueExpression(ctx, cols[k].typ, fuel);
      if e.Err? {
        return Err(Asserted(e.error, "expected no error"));
      }
      assert cols[..k + 1] == cols[..k] + [cols[k]];
      es := es + [e.value];
    }
    assert cols[..|cols|] == cols;
    InsertGood(base, tab, es);
    r := Ok(InsertStmt(base, tab, es));
  }

  /**
   * The scope of an UPDATE or DELETE: a copy of the statement's scope with
   * the victim table appended to its refs.
   */
  function VictimScope(s: Scope, victim: Relation): (l: Scope)
    ensures l.tables == s.tables && l.schema == s.schema && l.refs == s.refs + [victim]
  {
    var local := NewScope(s);
    local.(refs := local.refs + [victim])
  }

  /**
   * GenerateUpdate: a plain table picked from the scope and made visible
   * to the statement, a WHERE clause, then a SET clause of that table.
   */
  method GenerateUpdate(p: Option<Ctx>, s: Scope, u: StmtSeq, fuel: nat) returns (r: Gen<Prod>)
    requires RootedOpt(p)
    modifies u
    ensures r.Ok? ==> (r.value.UpdateStmt? && r.value.base == NewBase(ParentBase(p)) && Good(r.value)
      && r.value.table in s.tables && r.value.table.Table? && SetOk(r.value.setClause, r.value.table)
      && r.value.whereClause.Some? && BoolOk(r.value.whereClause.value))
    ensures s.tables == [] ==> r == Err(Panic("No items to pick from"))
    ensures r.Err? ==> Fatal(r.error)
    ensures u.Get("cte") == old(u.Get("cte"))
  {
    var victim := Pick(s.tables);
    if victim.Err? {
      return Err(victim.error);
    }
    var tab := victim.value;
    if !tab.Table? {
      return Err(Panic("type assertion failed"));
    }
    var base := NewBase(ParentBase(p));
    var ctx := Ctx(KUpdateStmt, base, VictimScope(s, tab));
    var w := GenerateBoolExpr(ctx, u, fuel);
    if w.Err? {
      return Err(w.error);
    }
    var sc, _ := GenerateSetClause(ctx, tab, fuel);
    if sc.Err? {
      return Err(sc.error);
    }
    UpdateGood(base, tab, sc.value, w.value);
    r := Ok(UpdateStmt(base, tab, sc.value, Some(w.value)));
  }

  /** GenerateDelete: a plain table picked from the scope and made visible to a WHERE clause. */
  method GenerateDelete(p: Option<Ctx>, s: Scope, u: StmtSeq, fuel: nat) returns (r: Gen<Prod>)
    requires RootedOpt(p)
    modifies u
    ensures r.Ok? ==> (r.value.DeleteStmt? && r.value.base == NewBase(ParentBase(p)) && Good(r.value)
      && r.value.table in s.tables && r.value.table.Table?
      && r.value.whereClause.Some? && BoolOk(r.value.whereClause.value))
    ensures s.tables == [] ==> r == Err(Panic("No items to pick from"))
    ensures r.Err? ==> Fatal(r.error)
    ensures u.Get("cte") == old(u.Get("cte"))
  {
    var victim := Pick(s.tables);
    if victim.Err? {
      return Err(victim.error);
    }
    var tab := victim.value;
    if !tab.Table? {
      return Err(Panic("type assertion failed"));
    }
    var base := NewBase(ParentBase(p));
    var w := GenerateBoolExpr(Ctx(KDeleteStmt, base, VictimScope(s, tab)), u, fuel);
    if w.Err? {
      return Err(w.error);
    }
    DeleteGood(base, tab, w.value);
    r := Ok(DeleteStmt(base, tab, Some(w.value)));
  }

  // ---------------------------------------------------------------- WITH

  /** The WITH queries so far: query `i` is a generated SELECT named `cte<k0+i>`. */
  ghost predicate CtesOk(names: seq<string>, qs: seq<Prod>, k0: nat) {
    |names| == |qs|
    && (forall i :: 0 <= i < |qs| ==> SelectOk(qs[i]))
    && forall i :: 0 <= i < |names| ==> names[i] == "cte" + NatToString(k0 + i)
  }

  lemma CtesSnoc(names: seq<string>, qs: seq<Prod>, k0: nat, q: Prod)
    requires CtesOk(names, qs, k0) && SelectOk(q)
    ensures CtesOk(names + ["cte" + NatToString(k0 + |names|)], qs + [q], k0)
  {
  }

  /** The names of one WITH are pairwise distinct. */
  lemma CteNamesDistinct(names: seq<string>, qs: seq<Prod>, k0: nat)
    requires CtesOk(names, qs, k0)
    ensures forall i, j :: 0 <= i < j < |names| ==> names[i] != names[j]
  {
    forall i, j | 0 <= i < j < |names|
      ensures names[i] != names[j]
    {
      if names[i] == names[j] {
        PrefixedNatInjective("cte", k0 + i, k0 + j);
      }
    }
  }

  /**
   * The first loop of GenerateCTE: SELECTs against the statement's own
   * scope, each named after the "cte" counter, which it advances; another
   * one on a d6 above 2.
   */
  method WithQueries(ctx: Ctx, s: Scope, u: StmtSeq, fuel: nat) returns (r: Gen<seq<Prod>>, names: seq<string>)
    requires Rooted(ctx)
    modifies u
    ensures r.Ok? ==> (CtesOk(names, r.value, old(u.Get("cte"))) && |names| >= 1
      && u.Get("cte") == old(u.Get("cte")) + |names|)
    ensures r.Err? ==> Fatal(r.error)
  {
    var k0 := u.Get("cte");
    var qs: seq<Prod> := [];
    names := [];
    var f := fuel;
    while true
      invariant CtesOk(names, qs, k0) && u.Get("cte") == k0 + |names|
      decreases f
    {
      if f == 0 {
        return Err(OutOfFuel), names;
      }
      f := f - 1;
      var q := GenerateSelect(Some(ctx), s, u, fuel);
      if q.Err? {
        return Err(q.error), names;
      }
      CtesSnoc(names, qs, k0, q.value);
      names, qs := names + ["cte" + NatToString(u.Get("cte"))], qs + [q.value];
      u.Incr("cte");
      var d := Roll(6);
      if d <= 2 {
        break;
      }
    }
    r := Ok(qs);
  }

  /**
   * The second loop of GenerateCTE: tables drawn from the statement's
   * scope appended to the tables of the main query's scope; another one on
   * a d6 above 3.
   */
  method ExtraTables(tables: seq<Relation>, fuel: nat) returns (r: Gen<seq<Relation>>)
    ensures r.Ok? ==> |r.value| >= 1 && forall i :: 0 <= i < |r.value| ==> r.value[i] in tables
    ensures tables == [] ==> r == Err(Panic("No items to pick from"))
    ensures r.Err? ==> Fatal(r.error)
  {
    var extra: seq<Relation> := [];
    var f := fuel;
    while true
      invariant forall i :: 0 <= i < |extra| ==> extra[i] in tables
      decreases f
    {
      var t := Pick(tables);
      if t.Err? {
        return Err(t.error);
      }
      extra := extra + [t.value];
      var d := Roll(6);
      if d <= 3 {
        break;
      }
      if f == 0 {
        return Err(OutOfFuel);
      }
      f := f - 1;
    }
    r := Ok(extra);
  }

  /**
   * GenerateCTE: at least one named WITH query against the statement's
   * scope, then at least one extra copy of its tables, then the main
   * SELECT against the enlarged copy of the scope.
   */
  method GenerateCTE(p: Option<Ctx>, s: Scope, u: StmtSeq, fuel: nat) returns (r: Gen<Prod>)
    requires RootedOpt(p)
    modifies u
    ensures r.Ok? ==> (r.value.CTEStmt? && r.value.base == NewBase(ParentBase(p)) && Good(r.value)
      && |r.value.withQueries| >= 1 && CtesOk(r.value.refNames, r.value.withQueries, old(u.Get("cte")))
      && SelectOk(r.value.query)
      && u.Get("cte") == old(u.Get("cte")) + |r.value.withQueries|)
    ensures r.Err? ==> Fatal(r.error)
  {
    var base := NewBase(ParentBase(p));
    var local := NewScope(s);
    var ctx := Ctx(KCTEStmt, base, local);
    var qs, names := WithQueries(ctx, s, u, fuel);
    if qs.Err? {
      return Err(qs.error);
    }
    var extra := ExtraTables(s.tables, fuel);
    if extra.Err? {
      return Err(extra.error);
    }
    local := local.(tables := local.tables + extra.value);
    var q := GenerateSelect(Some(Ctx(KCTEStmt, base, local)), local, u, fuel);
    if q.Err? {
      return Err(q.error);
    }
    CTEGood(base, names, qs.value, q.value);
    r := Ok(CTEStmt(base, names, qs.value, q.value));
  }

  // ------------------------------------------------------ ANALYZE, VACUUM

  /**
   * The names GenerateAnalyse can give: the schema itself, or
   * `schema.table` under a named schema, or a bare table name otherwise.
   */
  ghost predicate AnalyseName(name: string, s: Scope) {
    if s.schema.name != "" then
      name == s.schema.name || exists t :: t in s.tables && name == s.schema.name + "." + t.Name()
    else
      exists t :: t in s.tables && name == t.Name()
  }

  /**
   * GenerateAnalyse: under a named schema, the schema on a d6 below 3 and
   * otherwise one of its tables qualified by it; a bare table name under
   * the unnamed schema. Picking a table from an empty scope panics.
   */
  method GenerateAnalyse(p: Option<Ctx>, s: Scope) returns (r: Gen<Prod>)
    ensures r.Ok? ==> (r.value.AnalyseStmt? && r.value.base == NewBase(ParentBase(p)) && Good(r.value)
      && AnalyseName(r.value.name, s))
    ensures s.tables != [] ==> r.Ok?
    ensures r.Err? ==> s.tables == [] && r.error == Panic("No items to pick from")
  {
    var base := NewBase(ParentBase(p));
    var name := s.schema.name;
    var d := Roll(6);
    if s.schema.name == "" || d >= 3 {
      var t := Pick(s.tables);
      if t.Err? {
        return Err(t.error);
      }
      name := if s.schema.name != "" then s.schema.name + "." + t.value.Name() else t.value.Name();
    }
    r := Ok(AnalyseStmt(base, name));
  }

  /** The INTO file of a VACUUM: the temporary directory name and the milliseconds, between single quotes. */
  function VacuumFile(dir: string, millis: nat): (f: string)
    ensures |f| >= 3 && f[0] == '\'' && f[|f| - 1] == '\'' && f[1..|f| - 1] == dir + NatToString(millis)
  {
    "'" + dir + NatToString(millis) + "'"
  }

  /**
   * The INTO file as GenerateVacuum builds it: the opening quote is
   * appended to the empty file and then overwritten by the directory name,
   * so only the closing quote remains.
   */
  function VacuumFileAsWritten(dir: string, millis: nat): (f: string)
    ensures |f| >= 2 && f[|f| - 1] == '\''
  {
    dir + NatToString(millis) + "'"
  }

  /** A directory name that does not begin with a quote gives an unbalanced quoted string. */
  lemma VacuumFileAsWrittenUnbalanced(dir: string, millis: nat)
    requires dir == [] || dir[0] != '\''
    ensures VacuumFileAsWritten(dir, millis)[0] != '\''
    ensures VacuumFileAsWritten(dir, millis) != VacuumFile(dir, millis)
  {
    var f := VacuumFileAsWritten(dir, millis);
    if dir == [] {
      assert f[0] == NatToString(millis)[0];
    } else {
      assert f[0] == dir[0];
    }
  }

  /**
   * GenerateVacuum: on a d100 of 1 an INTO file named after a fresh
   * temporary directory `dir` (a failure to create it panics) and the
   * current time in milliseconds; the schema name, or "main" for the
   * unnamed schema. The file is built in its corrected form VacuumFile, not
   * as VacuumFileAsWritten, which is what the Go code builds.
   */
  method GenerateVacuum(p: Option<Ctx>, s: Scope, dir: Result<string, string>, millis: nat) returns (r: Gen<Prod>)
    ensures r.Ok? ==> (r.value.VacuumStmt? && r.value.base == NewBase(ParentBase(p)) && Good(r.value)
      && r.value.name == (if s.schema.name != "" then s.schema.name else "main")
      && (r.value.file == "" || (dir.Ok? && r.value.file == VacuumFile(dir.value, millis))))
    ensures dir.Ok? ==> r.Ok?
    ensures r.Err? ==> dir.Err? && r.error == Panic(dir.error)
  {
    var base := NewBase(ParentBase(p));
    var file := "";
    var d := Roll(100);
    if d == 1 {
      if dir.Err? {
        return Err(Panic(dir.error));
      }
      file := VacuumFile(dir.value, millis);
    }
    var name := if s.schema.name != "" then s.schema.name else "main";
    r := Ok(VacuumStmt(base, name, file));
  }

  // ----------------------------------------------------------- statements

  /** What each kind of generated statement is, against the scope `s` it was generated in. */
  ghost predicate StatementOk(p: Prod, s: Scope) {
    Good(p) && BaseOf(p) == Some(Base(Nil, 0))
    && match p
       case InsertStmt(_, t, es) => t in s.tables && t.Table? && ValuesFit(es, t.Columns())
       case UpdateStmt(_, t, sc, w) =>
         t in s.tables && t.Table? && SetOk(sc, t) && w.Some? && BoolOk(w.value)
       case DeleteStmt(_, t, w) => t in s.tables && t.Table? && w.Some? && BoolOk(w.value)
       case CTEStmt(_, names, qs, q) => |qs| >= 1 && (exists k0 :: CtesOk(names, qs, k0)) && SelectOk(q)
       case AnalyseStmt(_, name) => AnalyseName(name, s)
       case SelectStmt(_, _, _, _, _, _, _, _) => SelectOk(p)
       case _ => false
  }

  /**
   * GenerateStatement: INSERT, UPDATE, DELETE or WITH, each on a d42 of 1
   * in turn, ANALYZE on a d1000 of 1, and a SELECT otherwise. The VACUUM
   * branch needs two d1000 rolls summing to 1 and is never taken.
   */
  method GenerateStatement(s: Scope, u: StmtSeq, fuel: nat) returns (r: Gen<Prod>)
    modifies u
    ensures r.Ok? ==> StatementOk(r.value, s) && !r.value.VacuumStmt?
    ensures r.Err? ==> Fatal(r.error)
  {
    var d := Roll(42);
    if d == 1 {
      r := GenerateInsert(None, s, fuel);
      return;
    }
    d := Roll(42);
    if d == 1 {
      r := GenerateUpdate(None, s, u, fuel);
      return;
    }
    d := Roll(42);
    if d == 1 {
      r := GenerateDelete(None, s, u, fuel);
      return;
    }
    d := Roll(42);
    if d == 1 {
      r := GenerateCTE(None, s, u, fuel);
      return;
    }
    d := Roll(1000);
    if d == 1 {
      r := GenerateAnalyse(None, s);
      return;
    }
    var a := Roll(1000);
    var b := Roll(1000);
    assert a + b != 1;
    r := GenerateSelect(None, s, u, fuel);
  }

  /** GenerateExplain: EXPLAIN, with QUERY PLAN on a d6 below 3, of a statement generated at the top. */
  method GenerateExplain(p: Option<Ctx>, s: Scope, u: StmtSeq, fuel: nat) returns (r: Gen<Prod>)
    modifies u
    ensures r.Ok? ==> (r.value.ExplainStmt? && r.value.base == NewBase(ParentBase(p)) && Good(r.value)
      && StatementOk(r.value.stmt, s))
    ensures r.Err? ==> Fatal(r.error)
  {
    var base := NewBase(ParentBase(p));
    var d := Roll(6);
    var st := GenerateStatement(s, u, fuel);
    if st.Err? {
      return Err(st.error);
    }
    ExplainGood(base, d < 3, st.value);
    r := Ok(ExplainStmt(base, d < 3, st.value));
  }

  lemma ExplainGood(b: Base, qp: bool, st: Prod)
    requires Good(st)
    ensures Good(ExplainStmt(b, qp, st))
  {
    assert C.Kids(ExplainStmt(b, qp, st)) == [st];
  }
}
