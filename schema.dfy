// The schema package: SQL types, columns, relations, tables, routines and
// the built-in routine tables the generator draws from.
module Schema {
  import opened Wrappers
  import opened Text

  /** SqlType: the storage classes plus the pseudo types used in routine signatures. */
  datatype SqlType =
    | INVALID | NUMERIC | REAL | INT | TEXT | BLOB | BOOL | NULL | DATE | TIME | DATETIME
    | MULTI | TIMEVALUE | TIMEMODIFIER | RUNE | ANY | REAL01

  /**
   * SqlType.Out: the DDL spelling of a type. Go panics for every type without
   * a case (INVALID, TIME and the pseudo types); here that is None.
   */
  function TypeOut(t: SqlType): Option<string>
  {
    match t
    case NUMERIC => Some("NUMERIC")
    case REAL => Some("REAL")
    case INT => Some("INTEGER")
    case TEXT => Some("TEXT")
    case BLOB => Some("BLOB")
    case BOOL => Some("BOOLEAN")
    case NULL => Some("NULL")
    case DATE => Some("DATE")
    case DATETIME => Some("DATETIME")
    case _ => None
  }

  /**
   * The type names the grammar spells its types with (its `types` list):
   * the DDL names above plus TIME. Used as the inverse of TypeOut.
   */
  function TypeNamed(name: string): Option<SqlType>
  {
    if name == "INTEGER" then Some(INT)
    else if name == "REAL" then Some(REAL)
    else if name == "TEXT" then Some(TEXT)
    else if name == "BLOB" then Some(BLOB)
    else if name == "NUMERIC" then Some(NUMERIC)
    else if name == "BOOLEAN" then Some(BOOL)
    else if name == "DATE" then Some(DATE)
    else if name == "TIME" then Some(TIME)
    else if name == "DATETIME" then Some(DATETIME)
    else if name == "NULL" then Some(NULL)
    else None
  }

  /** Out and the grammar's names agree: an inverse pair, except that TIME has no Out. */
  lemma TypeOutRoundTrip(t: SqlType, name: string)
    ensures TypeOut(t).Some? <==> t in {NUMERIC, REAL, INT, TEXT, BLOB, BOOL, NULL, DATE, DATETIME}
    ensures TypeOut(t) == Some(name) ==> TypeNamed(name) == Some(t)
    ensures TypeNamed(name) == Some(t) && t != TIME ==> TypeOut(t) == Some(name)
    ensures TypeOut(TIME) == None && TypeNamed("TIME") == Some(TIME)
  {
  }

  /** Column: a name and a type. */
  datatype Column = Column(name: string, typ: SqlType)

  /** Column.Out: `name TYPE`; None where the type has no Out. */
  function ColumnOut(c: Column): (r: Option<string>)
    ensures r.Some? <==> TypeOut(c.typ).Some?
    ensures r.Some? ==> r.value == c.name + " " + TypeOut(c.typ).value
  {
    match TypeOut(c.typ)
    case None => None
    case Some(t) => Some(c.name + " " + t)
  }

  /**
   * The two NamedRelation implementations: a base table (`defaults` is the
   * field NewTable never fills) and an alias over derived columns.
   */
  datatype Relation =
    | Table(name: string, cols: seq<Column>, defaults: seq<string>, isTemp: bool, ifNotExists: bool)
    | AliasedRelation(alias: string, aliasCols: seq<Column>)
  {
    function Name(): string {
      if Table? then name else alias
    }

    function Columns(): seq<Column> {
      if Table? then cols else aliasCols
    }
  }

  /** NewTable: keeps name, columns and flags, and drops the defaults it is given. */
  function NewTable(n: string, cols: seq<Column>, defaults: seq<string>, isTemp: bool, ifNotExists: bool): (t: Relation)
    ensures t.Table? && t.Name() == n && t.Columns() == cols && t.defaults == []
    ensures t.isTemp == isTemp && t.ifNotExists == ifNotExists
  {
    Table(n, cols, [], isTemp, ifNotExists)
  }

  // ------------------------------------------------------------ Table.Out

  /**
   * Table.Out panics when a column's type has no Out, and when `defaults` is
   * non-empty but shorter than the columns (an index out of range). The
   * first `k` columns can be written when neither happens among them.
   */
  predicate PrefixRenderable(t: Relation, k: nat)
    requires t.Table?
  {
    k <= |t.cols|
    && (forall j :: 0 <= j < k ==> TypeOut(t.cols[j].typ).Some?)
    && (|t.defaults| == 0 || |t.defaults| >= k)
  }

  predicate Renderable(t: Relation)
    requires t.Table?
  {
    PrefixRenderable(t, |t.cols|)
  }

  /** The line of column `i` without separator: indent, `name TYPE` and its default. */
  function ColumnLine(t: Relation, i: nat): string
    requires t.Table? && PrefixRenderable(t, i + 1)
  {
    "    " + t.cols[i].name + " " + TypeOut(t.cols[i].typ).value
    + (if |t.defaults| > 0 && t.defaults[i] != "" then " DEFAULT " + t.defaults[i] else "")
  }

  /** The lines of the first `k` columns. */
  function ColumnLines(t: Relation, k: nat): (r: seq<string>)
    requires t.Table? && PrefixRenderable(t, k)
    ensures |r| == k
  {
    if k == 0 then [] else ColumnLines(t, k - 1) + [ColumnLine(t, k - 1)]
  }

  /**
   * The DDL of a table: `CREATE TABLE name (`, the column lines joined by
   * `,` + newline, a final newline when there are columns, and `)`.
   */
  function TableText(t: Relation): Option<string>
    requires t.Table?
  {
    if !Renderable(t) then None
    else Some("CREATE TABLE " + t.name + " (\n"
              + (if t.cols == [] then "" else Join(ColumnLines(t, |t.cols|), ",\n") + "\n")
              + ")")
  }

  /** What Table.Out's loop has written after `i` columns. */
  function LoopLines(t: Relation, i: nat): string
    requires t.Table? && PrefixRenderable(t, i)
  {
    if i == 0 then "" else LoopLines(t, i - 1) + LineWithSep(t, i - 1)
  }

  /** Column `i`'s line as the loop writes it: a comma unless it is the last column. */
  function LineWithSep(t: Relation, i: nat): string
    requires t.Table? && PrefixRenderable(t, i + 1)
  {
    ColumnLine(t, i) + (if i + 1 < |t.cols| then "," else "") + "\n"
  }

  lemma {:induction false} LoopLinesJoin(t: Relation, i: nat)
    requires t.Table? && 0 < i && PrefixRenderable(t, i)
    ensures LoopLines(t, i) == Join(ColumnLines(t, i), ",\n") + (if i < |t.cols| then ",\n" else "\n")
  {
    if i > 1 {
      LoopLinesJoin(t, i - 1);
      JoinSnoc(ColumnLines(t, i - 1), ColumnLine(t, i - 1), ",\n");
    }
  }

  /** One column line of Table.Out's loop, or None where the loop gives up. */
  method ColumnLineOut(t: Relation, i: nat) returns (line: Option<string>)
    requires t.Table? && i < |t.cols| && PrefixRenderable(t, i)
    ensures line.Some? <==> PrefixRenderable(t, i + 1)
    ensures line.Some? ==> line.value == ColumnLine(t, i)
  {
    var ty := TypeOut(t.cols[i].typ);
    if ty.None? {
      return None;
    }
    var text := "    " + t.cols[i].name + " " + ty.value;
    if |t.defaults| > 0 {
      if i >= |t.defaults| {
        return None;
      }
      if t.defaults[i] != "" {
        text := text + " DEFAULT " + t.defaults[i];
      }
    }
    return Some(text);
  }

  /** A column the loop cannot write makes the whole table unrenderable. */
  lemma PrefixStops(t: Relation, i: nat)
    requires t.Table? && i < |t.cols| && !PrefixRenderable(t, i + 1)
    ensures !Renderable(t)
  {
  }

  /** What the loop has written after every column, closed by `)`, is TableText. */
  lemma TableTextOfLoop(t: Relation)
    requires t.Table? && Renderable(t)
    ensures TableText(t) == Some("CREATE TABLE " + t.name + " (\n" + LoopLines(t, |t.cols|) + ")")
  {
    if t.cols != [] {
      LoopLinesJoin(t, |t.cols|);
    }
  }

  /** Column `i`'s line with the separator the loop puts after it. */
  lemma LineWithSepIs(t: Relation, i: nat, line: string)
    requires t.Table? && i < |t.cols| && PrefixRenderable(t, i + 1) && line == ColumnLine(t, i)
    ensures line + (if i < |t.cols| - 1 then "," else "") + "\n" == LineWithSep(t, i)
  {
  }

  /** Table.Out: the loop over the columns, proved to produce TableText. */
  method TableOut(t: Relation) returns (r: Option<string>)
    requires t.Table?
    ensures r == TableText(t)
  {
    var head := "CREATE TABLE " + t.name + " (\n";
    var buf := head;
    var i := 0;
    while i < |t.cols|
      invariant 0 <= i <= |t.cols| && PrefixRenderable(t, i)
      invariant buf == head + LoopLines(t, i)
    {
      var line := ColumnLineOut(t, i);
      if line.None? {
        PrefixStops(t, i);
        return None;
      }
      LineWithSepIs(t, i, line.value);
      buf := buf + line.value + (if i < |t.cols| - 1 then "," else "") + "\n";
      i := i + 1;
    }
    TableTextOfLoop(t);
    r := Some(buf + ")");
  }

  /** Tables only render when every column type has an Out and the defaults fit. */
  lemma TableTextDefined(t: Relation)
    requires t.Table?
    ensures TableText(t).Some? <==> Renderable(t)
  {
  }

  /** Neither the flags nor the defaults given to NewTable reach the DDL. */
  lemma NewTableIgnoresDefaultsAndFlags(n: string, cols: seq<Column>, d: seq<string>, tmp: bool, ine: bool)
    ensures TableText(NewTable(n, cols, d, tmp, ine)) == TableText(NewTable(n, cols, [], false, false))
  {
    var a, b := NewTable(n, cols, d, tmp, ine), NewTable(n, cols, [], false, false);
    if Renderable(a) {
      assert forall k :: 0 <= k <= |cols| ==> ColumnLines(a, k) == ColumnLines(b, k) by {
        forall k | 0 <= k <= |cols| { ColumnLinesSame(a, b, k); }
      }
    }
  }

  lemma {:induction false} ColumnLinesSame(a: Relation, b: Relation, k: nat)
    requires a.Table? && b.Table? && a.cols == b.cols && a.defaults == b.defaults
    requires k <= |a.cols| && Renderable(a) && Renderable(b)
    ensures ColumnLines(a, k) == ColumnLines(b, k)
  {
    if k > 0 { ColumnLinesSame(a, b, k - 1); }
  }

  /** A table with a TIME column has no DDL (SqlType.Out panics on TIME). */
  lemma TimeColumnHasNoText(n: string, c: string)
    ensures TableText(NewTable(n, [Column(c, TIME)], [], false, false)) == None
  {
    var t := NewTable(n, [Column(c, TIME)], [], false, false);
    assert TypeOut(t.cols[0].typ).None?;
  }

  // ----------------------------------------------------------- Schema.Out

  /** NamedRelation.Out: a table's DDL; an aliased relation panics. */
  function RelationText(r: Relation): Option<string>
  {
    if r.Table? then TableText(r) else None
  }

  /** Schema: the tables and routines generation uses (operators are never read). */
  datatype Schema = Schema(name: string, tables: seq<Relation>, routines: seq<Routine>, aggregates: seq<Routine>)

  predicate SchemaRenderable(s: Schema) {
    forall i :: 0 <= i < |s.tables| ==> RelationText(s.tables[i]).Some?
  }

  function TableStatements(ts: seq<Relation>): (r: seq<string>)
    requires forall i :: 0 <= i < |ts| ==> RelationText(ts[i]).Some?
    ensures |r| == |ts|
  {
    if ts == [] then [] else TableStatements(ts[..|ts| - 1]) + [RelationText(ts[|ts| - 1]).value + ";"]
  }

  /** The schema DDL: every table's statement with `;`, separated by a blank line. */
  function SchemaText(s: Schema): Option<string>
  {
    if !SchemaRenderable(s) then None else Some(Join(TableStatements(s.tables), "\n\n"))
  }

  /** Schema.Out: the loop over the tables, proved to produce SchemaText. */
  method SchemaOut(s: Schema) returns (r: Option<string>)
    ensures r == SchemaText(s)
  {
    var buf := "";
    var i := 0;
    while i < |s.tables|
      invariant 0 <= i <= |s.tables|
      invariant forall j :: 0 <= j < i ==> RelationText(s.tables[j]).Some?
      invariant buf == Join(TableStatements(s.tables[..i]), "\n\n")
    {
      if i > 0 {
        buf := buf + "\n\n";
      }
      var t := s.tables[i];
      var out: Option<string>;
      if t.Table? {
        out := TableOut(t);
      } else {
        out := None;
      }
      if out.None? {
        return None;
      }
      assert s.tables[..i + 1][..i] == s.tables[..i];
      if i > 0 {
        JoinSnoc(TableStatements(s.tables[..i]), out.value + ";", "\n\n");
      }
      buf := buf + out.value + ";";
      i := i + 1;
    }
    assert s.tables[..i] == s.tables;
    r := Some(buf);
  }

  /** RelationColumn: a column together with the relation it is read from. */
  datatype RelationColumn = RelationColumn(rel: Relation, col: Column)

  // ------------------------------------------------------------- routines

  /** Routine: a function or aggregate signature. */
  datatype Routine = Routine(name: string, schema: string, argTypes: seq<SqlType>, retType: SqlType)

  /** Routine.Ident: `schema.name` when a schema is set, else the bare name. */
  function Ident(r: Routine): (s: string)
    ensures r.schema == "" ==> s == r.name
    ensures r.schema != "" ==> |s| > |r.schema| && s[..|r.schema|] == r.schema && s[|r.schema|..] == "." + r.name
  {
    if r.schema != "" then r.schema + "." + r.name else r.name
  }

  function R(name: string, args: seq<SqlType>, ret: SqlType): Routine {
    Routine(name, "", args, ret)
  }

  const BuiltInAggregates: seq<Routine> := [
    R("avg", [INT], INT), R("avg", [REAL], REAL),
    R("count", [REAL], INT), R("count", [TEXT], INT), R("count", [INT], INT), R("count", [], INT),
    R("group_concat", [TEXT], TEXT), R("group_concat", [TEXT, TEXT], TEXT),
    R("string_agg", [TEXT, TEXT], TEXT),
    R("max", [REAL], REAL), R("max", [INT], INT), R("max", [TEXT], TEXT),
    R("min", [REAL], REAL), R("min", [INT], INT), R("min", [TEXT], TEXT),
    R("sum", [REAL], REAL), R("sum", [INT], INT),
    R("total", [REAL], REAL), R("total", [INT], REAL)
  ]

  // The built-in scalar functions, in table order, in sections small enough
  // for the verifier to enumerate (core functions, then date and time functions).
  const CoreFunctions1: seq<Routine> := [
    R("abs", [ANY], REAL), R("round", [ANY], REAL), R("round", [ANY, ANY], REAL),
    R("max", [ANY, ANY, MULTI, ANY], REAL), R("min", [ANY, ANY, MULTI, ANY], REAL), R("char", [MULTI, RUNE], TEXT),
    R("hex", [ANY], TEXT)
  ]

  const CoreFunctions2: seq<Routine> := [
    R("instr", [ANY, ANY], INT), R("length", [ANY], INT), R("like", [ANY, ANY], INT),
    R("like", [ANY, ANY, RUNE], INT), R("lower", [ANY], TEXT), R("ltrim", [ANY], TEXT)
  ]

  const CoreFunctions3: seq<Routine> := [
    R("ltrim", [ANY, ANY], TEXT), R("printf", [TEXT, MULTI, ANY], TEXT), R("quote", [ANY], TEXT),
    R("replace", [ANY, ANY, ANY], TEXT), R("rtrim", [ANY], TEXT), R("rtrim", [ANY, ANY], TEXT)
  ]

  const CoreFunctions4: seq<Routine> := [
    R("substr", [ANY, ANY], TEXT), R("substr", [ANY, ANY, ANY], TEXT), R("trim", [ANY], TEXT),
    R("trim", [ANY, ANY], TEXT), R("unicode", [ANY], INT), R("upper", [ANY], TEXT)
  ]

  const CoreFunctions5: seq<Routine> := [
    R("coalesce", [ANY, ANY, MULTI, ANY], TEXT), R("ifnull", [ANY, ANY], TEXT), R("nullif", [ANY, ANY], TEXT),
    R("likelihood", [ANY, REAL01], INT), R("likely", [ANY], INT), R("unlikely", [ANY], INT)
  ]

  const CoreFunctions6: seq<Routine> := [
    R("typeof", [ANY], TEXT), R("glob", [ANY, ANY], INT), R("changes", [], INT),
    R("last_insert_rowid", [], INT), R("random", [], INT), R("randomblob", [INT], BLOB)
  ]

  const CoreFunctions7: seq<Routine> := [
    R("sqlite_compileoption_get", [INT], TEXT), R("sqlite_compileoption_used", [TEXT], INT), R("sqlite_source_id", [], TEXT),
    R("sqlite_version", [], TEXT), R("total_changes", [], INT), R("zeroblob", [INT], BLOB)
  ]

  const DatetimeFunctions1: seq<Routine> := [
    R("date", [], TEXT), R("date", [TIMEVALUE, MULTI, TIMEMODIFIER], TEXT), R("time", [], TEXT),
    R("time", [TIMEVALUE, MULTI, TIMEMODIFIER], TEXT), R("datetime", [], TEXT), R("datetime", [TIMEVALUE, MULTI, TIMEMODIFIER], TEXT)
  ]

  const DatetimeFunctions2: seq<Routine> := [
    R("julianday", [], REAL), R("julianday", [TIMEVALUE, MULTI, TIMEMODIFIER], REAL), R("strftime", [TEXT], TEXT),
    R("strftime", [TEXT, TIMEVALUE], TEXT), R("strftime", [TEXT, TIMEVALUE, MULTI, TIMEMODIFIER], TEXT)
  ]

  const BuiltInFunctions: seq<Routine> :=
    CoreFunctions1 + CoreFunctions2 + CoreFunctions3 + CoreFunctions4 + CoreFunctions5 + CoreFunctions6 + CoreFunctions7 + DatetimeFunctions1 + DatetimeFunctions2

  /** MULTI marks "repeat what follows": it is never the last argument type. */
  predicate MultiFollowed(ats: seq<SqlType>) {
    forall i :: 0 <= i < |ats| && ats[i] == MULTI ==> i + 1 < |ats|
  }

  /** A TIMEMODIFIER argument always comes after a TIMEVALUE argument. */
  predicate ModifierAfterValue(ats: seq<SqlType>) {
    forall i :: 0 <= i < |ats| && ats[i] == TIMEMODIFIER ==>
      exists j :: 0 <= j < i && ats[j] == TIMEVALUE
  }

  /** The built-in function table is consistent in both respects. */
  lemma BuiltInFunctionsWellFormed(r: Routine)
    requires r in BuiltInFunctions
    ensures MultiFollowed(r.argTypes) && ModifierAfterValue(r.argTypes)
  {
    if r in CoreFunctions1 { SectionWellFormed1(r); }
    else if r in CoreFunctions2 { SectionWellFormed2(r); }
    else if r in CoreFunctions3 { SectionWellFormed3(r); }
    else if r in CoreFunctions4 { SectionWellFormed4(r); }
    else if r in CoreFunctions5 { SectionWellFormed5(r); }
    else if r in CoreFunctions6 { SectionWellFormed6(r); }
    else if r in CoreFunctions7 { SectionWellFormed7(r); }
    else if r in DatetimeFunctions1 { SectionWellFormed8(r); }
    else { assert r in DatetimeFunctions2; SectionWellFormed9(r); }
  }

  /** The time-value templates of the datetime functions, in table order. */
  const DatetimeTimeValues: seq<string> := [
    "'%d-%d-%d'", "'%d-%d-%d %d:%d'", "'%d-%d-%d %d:%d:%d'", "'%d-%d-%d %d:%d:%d.%03d'",
    "'%d-%d-%dT%d:%d'", "'%d-%d-%dT%02d:%02d:%02d'", "'%d-%d-%dT%02d:%02d:%02d.%03d'",
    "'%02d:%02d'", "'%02d:%02d:%02d'", "'%02d:%02d:%02d.%03d'", "'now'", "'DDDDDDDDDD'"
  ]

  lemma SectionWellFormed1(r: Routine)
    requires r in CoreFunctions1
    ensures MultiFollowed(r.argTypes) && ModifierAfterValue(r.argTypes)
  {
  }

  lemma SectionWellFormed2(r: Routine)
    requires r in CoreFunctions2
    ensures MultiFollowed(r.argTypes) && ModifierAfterValue(r.argTypes)
  {
  }

  lemma SectionWellFormed3(r: Routine)
    requires r in CoreFunctions3
    ensures MultiFollowed(r.argTypes) && ModifierAfterValue(r.argTypes)
  {
  }

  lemma SectionWellFormed4(r: Routine)
    requires r in CoreFunctions4
    ensures MultiFollowed(r.argTypes) && ModifierAfterValue(r.argTypes)
  {
  }

  lemma SectionWellFormed5(r: Routine)
    requires r in CoreFunctions5
    ensures MultiFollowed(r.argTypes) && ModifierAfterValue(r.argTypes)
  {
  }

  lemma SectionWellFormed6(r: Routine)
    requires r in CoreFunctions6
    ensures MultiFollowed(r.argTypes) && ModifierAfterValue(r.argTypes)
  {
  }

  lemma SectionWellFormed7(r: Routine)
    requires r in CoreFunctions7
    ensures MultiFollowed(r.argTypes) && ModifierAfterValue(r.argTypes)
  {
  }

  lemma SectionWellFormed8(r: Routine)
    requires r in DatetimeFunctions1
    ensures MultiFollowed(r.argTypes) && ModifierAfterValue(r.argTypes)
  {
    if r.argTypes == [TIMEVALUE, MULTI, TIMEMODIFIER] {
      assert r.argTypes[0] == TIMEVALUE;
    }
  }

  lemma SectionWellFormed9(r: Routine)
    requires r in DatetimeFunctions2
    ensures MultiFollowed(r.argTypes) && ModifierAfterValue(r.argTypes)
  {
    if r.argTypes == [TIMEVALUE, MULTI, TIMEMODIFIER] {
      assert r.argTypes[0] == TIMEVALUE;
    } else if r.argTypes == [TEXT, TIMEVALUE, MULTI, TIMEMODIFIER] {
      assert r.argTypes[1] == TIMEVALUE;
    }
  }


  /** Every aggregate takes at most two arguments, each of a concrete storage type. */
  lemma BuiltInAggregatesConcrete()
    ensures forall i :: 0 <= i < |BuiltInAggregates| ==> |BuiltInAggregates[i].argTypes| <= 2
    ensures forall i, k :: 0 <= i < |BuiltInAggregates| && 0 <= k < |BuiltInAggregates[i].argTypes| ==>
      BuiltInAggregates[i].argTypes[k] in {INT, REAL, TEXT}
  {
  }

  // ------------------------------------------------ RemoveNonDeterministic

  const NonDeterministicNames: set<string> := {
    "random", "randomblob",
    "sqlite_source_id", "sqlite_version", "total_changes", "sqlite_offset",
    "sqlite_compileoption_get", "sqlite_compileoption_used", "load_extension",
    "date", "time", "datetime", "julianday", "strftime"
  }

  /** The routines whose name is not marked non-deterministic, in their order. */
  function Deterministic(fs: seq<Routine>): seq<Routine>
  {
    if fs == [] then []
    else Deterministic(fs[..|fs| - 1])
         + (if fs[|fs| - 1].name in NonDeterministicNames then [] else [fs[|fs| - 1]])
  }

  /** RemoveNonDeterministic: the filtering loop, proved to produce Deterministic. */
  method RemoveNonDeterministic(functions: seq<Routine>) returns (r: seq<Routine>)
    ensures r == Deterministic(functions)
  {
    r := [];
    var i := 0;
    while i < |functions|
      invariant 0 <= i <= |functions|
      invariant r == Deterministic(functions[..i])
    {
      assert functions[..i + 1][..i] == functions[..i];
      if functions[i].name !in NonDeterministicNames {
        r := r + [functions[i]];
      }
      i := i + 1;
    }
    assert functions[..i] == functions;
  }

  /** A routine survives exactly when it was there and its name is not listed. */
  lemma {:induction false} DeterministicMembers(fs: seq<Routine>, x: Routine)
    ensures x in Deterministic(fs) <==> x in fs && x.name !in NonDeterministicNames
  {
    if fs != [] {
      DeterministicMembers(fs[..|fs| - 1], x);
      assert fs == fs[..|fs| - 1] + [fs[|fs| - 1]];
    }
  }

  /** Filtering commutes with concatenation: the survivors keep their order. */
  lemma {:induction false} DeterministicAppend(a: seq<Routine>, b: seq<Routine>)
    ensures Deterministic(a + b) == Deterministic(a) + Deterministic(b)
    decreases |b|
  {
    if b == [] {
      assert a + b == a;
    } else {
      assert (a + b)[..|a + b| - 1] == a + b[..|b| - 1];
      DeterministicAppend(a, b[..|b| - 1]);
    }
  }

  /** A list with no listed name is left as it is. */
  lemma {:induction false} DeterministicKeepsClean(fs: seq<Routine>)
    requires forall i :: 0 <= i < |fs| ==> fs[i].name !in NonDeterministicNames
    ensures Deterministic(fs) == fs
  {
    if fs != [] {
      DeterministicKeepsClean(fs[..|fs| - 1]);
    }
  }

  /** Filtering twice is filtering once. */
  lemma DeterministicIdempotent(fs: seq<Routine>)
    ensures Deterministic(Deterministic(fs)) == Deterministic(fs)
  {
    var d := Deterministic(fs);
    forall i | 0 <= i < |d| ensures d[i].name !in NonDeterministicNames {
      DeterministicMembers(fs, d[i]);
    }
    DeterministicKeepsClean(d);
  }

  /** The filtered built-in table contains no routine with a listed name. */
  lemma DeterministicBuiltInsClean(x: Routine)
    requires x in Deterministic(BuiltInFunctions)
    ensures x.name !in NonDeterministicNames && x in BuiltInFunctions
  {
    DeterministicMembers(BuiltInFunctions, x);
  }
}
