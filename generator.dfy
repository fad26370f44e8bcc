// generator.go: the Generator and its three batch builders, with the
// schema generator generateTable of grammar.go they draw one schema from.
module Generator {
  import opened Wrappers
  import opened Text
  import opened Schema
  import opened Scopes
  import opened Ast
  import opened Grammar
  import opened Statements
  import opened TopStatements

  // ------------------------------------------------------------ the schema

  /** A table generateTable makes: `t<i>`, 2 to 10 columns `c0, c1, ...` of the grammar's types, no defaults kept. */
  predicate TableShape(t: Relation, i: nat) {
    t.Table? && t.name == "t" + NatToString(i) && 2 <= |t.cols| <= 10 && t.defaults == []
    && forall k :: 0 <= k < |t.cols| ==> t.cols[k].name == "c" + NatToString(k) && t.cols[k].typ in Types
  }

  /** The schema generateTable(num) makes: unnamed, `num` tables, the built-in routine tables. */
  predicate SchemaShape(sch: Schema, num: nat) {
    sch.name == "" && |sch.tables| == num
    && (forall i :: 0 <= i < num ==> TableShape(sch.tables[i], i))
    && sch.aggregates == BuiltInAggregates && sch.routines == BuiltInFunctions
  }

  /**
   * The columns of one table: `c<k>` of a type picked from the grammar's
   * types, and, on a d6 of 1, a default constant of that type that is
   * appended after the `n` empty defaults.
   */
  method GenerateColumns(n: nat) returns (cols: seq<Column>, defaults: seq<string>)
    ensures |cols| == n && |defaults| >= n
    ensures forall k :: 0 <= k < n ==> cols[k].name == "c" + NatToString(k) && cols[k].typ in Types
    ensures forall k :: 0 <= k < n ==> defaults[k] == ""
  {
    var dummy := Ctx(KSelectStmt, NewBase(None), Scope([], [], Schema("", [], [], [])));
    cols := [];
    defaults := seq(n, _ => "");
    for k := 0 to n
      invariant ColumnsShape(cols, k) && BlankDefaults(defaults, n)
    {
      var col, extra := GenerateColumn(dummy, k);
      ColumnsSnoc(cols, col, k);
      BlankAppend(defaults, extra, n);
      cols := cols + [col];
      defaults := defaults + extra;
    }
  }

  /** Column `k` of a generated table: `c<k>` of a random type, maybe with a default constant. */
  method GenerateColumn(dummy: Ctx, k: nat) returns (col: Column, extra: seq<string>)
    ensures col.name == "c" + NatToString(k) && col.typ in Types && |extra| <= 1
  {
    var t := Pick(Types);
    col := Column("c" + NatToString(k), t.value);
    extra := [];
    var d := Roll(6);
    if d == 1 {
      var v := GenerateConstant(dummy, col.typ);
      ConstGood(v);
      extra := [Out(v)];
    }
  }

  /** The first `k` generated columns: `c0 .. c<k-1>`, each of a type from Types. */
  ghost predicate ColumnsShape(cols: seq<Column>, k: nat) {
    |cols| == k && forall j :: 0 <= j < k ==> cols[j].name == "c" + NatToString(j) && cols[j].typ in Types
  }

  lemma ColumnsSnoc(cols: seq<Column>, col: Column, k: nat)
    requires ColumnsShape(cols, k) && col.name == "c" + NatToString(k) && col.typ in Types
    ensures ColumnsShape(cols + [col], k + 1)
  {
    assert forall j :: 0 <= j < k ==> (cols + [col])[j] == cols[j];
  }

  /** The first `n` defaults are empty. */
  ghost predicate BlankDefaults(ds: seq<string>, n: nat) {
    |ds| >= n && forall j :: 0 <= j < n ==> ds[j] == ""
  }

  lemma BlankAppend(ds: seq<string>, extra: seq<string>, n: nat)
    requires BlankDefaults(ds, n)
    ensures BlankDefaults(ds + extra, n)
  {
    assert forall j :: 0 <= j < n ==> (ds + extra)[j] == ds[j];
  }

  /** generateTable: `num` tables `t0, t1, ...` with random flags, appended in order. */
  method GenerateTable(num: nat) returns (sch: Schema)
    ensures SchemaShape(sch, num)
  {
    var tables: seq<Relation> := [];
    for i := 0 to num
      invariant |tables| == i && forall j :: 0 <= j < i ==> TableShape(tables[j], j)
    {
      var extra := Intn(9);
      var cols, defaults := GenerateColumns(2 + extra);
      var tmp := Intn(2);
      var ine := Intn(2);
      var tab := NewTable("t" + NatToString(i), cols, defaults, tmp == 0, ine == 0);
      tables := tables + [tab];
    }
    sch := Schema("", tables, BuiltInFunctions, BuiltInAggregates);
  }

  /** The tables of a generated schema have pairwise distinct names, and so do each table's columns. */
  lemma SchemaNamesDistinct(sch: Schema, num: nat)
    requires SchemaShape(sch, num)
    ensures forall i, j :: 0 <= i < j < num ==> sch.tables[i].Name() != sch.tables[j].Name()
    ensures forall i, a, b :: 0 <= i < num && 0 <= a < b < |sch.tables[i].Columns()| ==>
      sch.tables[i].Columns()[a].name != sch.tables[i].Columns()[b].name
  {
    forall i, j | 0 <= i < j < num
      ensures sch.tables[i].Name() != sch.tables[j].Name()
    {
      if sch.tables[i].Name() == sch.tables[j].Name() {
        PrefixedNatInjective("t", i, j);
      }
    }
    forall i, a, b | 0 <= i < num && 0 <= a < b < |sch.tables[i].Columns()|
      ensures sch.tables[i].Columns()[a].name != sch.tables[i].Columns()[b].name
    {
      var cols := sch.tables[i].Columns();
      if cols[a].name == cols[b].name {
        PrefixedNatInjective("c", a, b);
      }
    }
  }

  // -------------------------------------------------------- the generator

  /** Config: whether generation should avoid non-deterministic output. */
  datatype Config = Config(isDeterministic: bool)

  /** The type universe of a generator: fewer types when the output must be deterministic. */
  function Universe(isDeterministic: bool): (ts: seq<SqlType>)
    ensures isDeterministic ==> ts == [INT, TEXT, BOOL, NULL]
    ensures !isDeterministic ==> ts == [NUMERIC, INT, TEXT, BLOB, BOOL, NULL]
  {
    if isDeterministic then [INT, TEXT, BOOL, NULL] else [NUMERIC, INT, TEXT, BLOB, BOOL, NULL]
  }

  /** The deterministic universe is the other one without NUMERIC and BLOB. */
  lemma UniverseDeterministicSubset(t: SqlType)
    ensures t in Universe(true) <==> t in Universe(false) && t != NUMERIC && t != BLOB
  {
  }

  /** The scope every statement of a batch starts from: the schema's tables, no refs. */
  function BatchScope(sch: Schema): (s: Scope)
    ensures s.tables == sch.tables && s.refs == [] && s.schema == sch
  {
    Scope(sch.tables, [], sch)
  }

  /** An INSERT, UPDATE or DELETE. */
  predicate IsIUD(p: Prod) {
    p.InsertStmt? || p.UpdateStmt? || p.DeleteStmt?
  }

  /**
   * A statement generated against a fresh scope over the schema `sch`
   * with its own new, empty StmtSeq, so that no alias counter carries over
   * from another statement; `iud` asks for an INSERT, UPDATE or DELETE.
   */
  method FreshStatement(sch: Schema, iud: bool, fuel: nat) returns (r: Gen<Prod>)
    ensures r.Ok? ==> StatementOk(r.value, BatchScope(sch)) && (iud ==> IsIUD(r.value))
    ensures r.Err? ==> Fatal(r.error)
  {
    var s := BatchScope(sch);
    var u := new StmtSeq();
    if iud {
      var d := Intn(3);
      if d == 0 {
        r := GenerateInsert(None, s, fuel);
      } else if d == 1 {
        r := GenerateUpdate(None, s, u, fuel);
      } else {
        r := GenerateDelete(None, s, u, fuel);
      }
    } else {
      r := GenerateStatement(s, u, fuel);
    }
  }

  /** A slot of a batch over `sch`: a generated statement, of the DML kinds when `iud` asks for them. */
  ghost predicate SlotOk(p: Prod, sch: Schema, iud: bool) {
    StatementOk(p, BatchScope(sch)) && (iud ==> IsIUD(p))
  }

  /** uid_statements: the number of DML statements a structured batch starts with. */
  const UidStatements: nat := 5

  class Generator {
    var isDeterministic: bool
    var types: seq<SqlType>

    /** New: the configuration's flag and its type universe. */
    constructor New(cfg: Config)
      ensures isDeterministic == cfg.isDeterministic && types == Universe(cfg.isDeterministic)
    {
      isDeterministic := cfg.isDeterministic;
      types := Universe(cfg.isDeterministic);
    }

    /** NextBatchRandom: `n` statements over one schema of one table. */
    method NextBatchRandom(n: nat, fuel: nat) returns (r: Gen<array<Prod>>, ghost sch: Schema)
      ensures SchemaShape(sch, 1)
      ensures r.Ok? ==> (fresh(r.value) && r.value.Length == n
        && forall i :: 0 <= i < n ==> StatementOk(r.value[i], BatchScope(sch)))
      ensures r.Err? ==> Fatal(r.error)
    {
      r, sch := FillBatch(n, false, fuel);
    }

    /** NextBatchUID: `n` INSERT, UPDATE or DELETE statements over one schema of one table. */
    method NextBatchUID(n: nat, fuel: nat) returns (r: Gen<array<Prod>>, ghost sch: Schema)
      ensures SchemaShape(sch, 1)
      ensures r.Ok? ==> (fresh(r.value) && r.value.Length == n
        && forall i :: 0 <= i < n ==> StatementOk(r.value[i], BatchScope(sch)) && IsIUD(r.value[i]))
      ensures r.Err? ==> Fatal(r.error)
    {
      r, sch := FillBatch(n, true, fuel);
    }

    /** The loop NextBatchRandom and NextBatchUID share: a fresh array over one schema, every slot filled. */
    method FillBatch(n: nat, iud: bool, fuel: nat) returns (r: Gen<array<Prod>>, ghost sch: Schema)
      ensures SchemaShape(sch, 1)
      ensures r.Ok? ==> (fresh(r.value) && r.value.Length == n
        && forall i :: 0 <= i < n ==> SlotOk(r.value[i], sch, iud))
      ensures r.Err? ==> Fatal(r.error)
    {
      var batch := new Prod[n];
      var schema := GenerateTable(1);
      sch := schema;
      var err := FillSlots(batch, schema, 0, n, iud, fuel);
      if err.Some? {
        return Err(err.value), sch;
      }
      r := Ok(batch);
    }

    /** `for i := lo; i < hi; i++ { batch[i] = ... }`: slots lo..hi-1 filled by index, the others untouched. */
    method FillSlots(batch: array<Prod>, sch: Schema, lo: nat, hi: nat, iud: bool, fuel: nat) returns (err: Option<GenError>)
      requires lo <= hi <= batch.Length
      modifies batch
      ensures err.None? ==> forall j :: lo <= j < hi ==> SlotOk(batch[j], sch, iud)
      ensures forall j :: 0 <= j < batch.Length && !(lo <= j < hi) ==> batch[j] == old(batch[j])
      ensures err.Some? ==> Fatal(err.value)
    {
      for i := lo to hi
        invariant forall j :: lo <= j < i ==> SlotOk(batch[j], sch, iud)
        invariant forall j :: 0 <= j < batch.Length && !(lo <= j < i) ==> batch[j] == old(batch[j])
      {
        var st := FreshStatement(sch, iud, fuel);
        if st.Err? {
          return Some(st.error);
        }
        batch[i] := st.value;
      }
      err := None;
    }

    /**
     * NextBatchStructured: five INSERT, UPDATE or DELETE statements, then
     * statements of any kind. The range loop leaves its index at its last
     * value, 4, and the second loop starts from there, so the fifth slot is
     * written twice and ends up holding a statement of any kind; `calls`
     * counts the statements generated, one more than the batch holds.
     */
    method NextBatchStructured(n: nat, fuel: nat) returns (r: Gen<array<Prod>>, ghost sch: Schema, ghost calls: nat)
      ensures n <= UidStatements ==> r == Err(Panic("Batch not large enough"))
      ensures r.Ok? ==> (fresh(r.value) && r.value.Length == n && SchemaShape(sch, 1)
        && (forall i :: 0 <= i < n ==> SlotOk(r.value[i], sch, false))
        && (forall i :: 0 <= i < UidStatements - 1 ==> SlotOk(r.value[i], sch, true))
        && calls == n + 1)
      ensures r.Err? ==> Fatal(r.error)
    {
      calls := 0;
      sch := Schema("", [], [], []);
      if n <= UidStatements {
        return Err(Panic("Batch not large enough")), sch, calls;
      }
      var batch := new Prod[n];
      var schema := GenerateTable(1);
      sch := schema;
      var err := FillSlots(batch, schema, 0, UidStatements, true, fuel);
      if err.Some? {
        return Err(err.value), sch, calls;
      }
      calls := UidStatements;
      var i := UidStatements - 1;
      err := FillSlots(batch, schema, i, n, false, fuel);
      if err.Some? {
        return Err(err.value), sch, calls;
      }
      calls := calls + (n - i);
      r := Ok(batch);
      assert forall j :: 0 <= j < i ==> SlotOk(batch[j], sch, true) && SlotOk(batch[j], sch, false);
    }
  }
}
