// diff_test_engine.go: how the outcomes of running one text on the old
// and the new SQLite are judged, and the text forms of query results and
// database dumps. The databases themselves are not modelled: what a query
// returns, or the error it fails with, is an input.
module DiffEngine {
  import opened Wrappers
  import opened Text

  /** One side's answer: the rendered result (empty on failure) and the error text, nil when it succeeded. */
  datatype Outcome = Outcome(out: string, err: Option<string>)

  /** A mismatch the engine logs: the reason, the text run, and the two sides' texts. */
  datatype Report = Report(reason: string, query: string, outOld: string, outNew: string)

  /** fmt.Sprint of an error: its text, or `<nil>`. */
  function ErrText(e: Option<string>): string {
    if e.Some? then e.value else "<nil>"
  }

  const Crash: string := "crash_old_vs_new"
  const Mismatch: string := "mismatch_output"

  /**
   * The three checks of ExecAndCompareQuery and CompareDBStates, in order:
   * one side failing alone, both failing with different texts, and both
   * succeeding with different results. Failures with equal texts are not
   * reported.
   */
  function Verdict(query: string, o: Outcome, n: Outcome): (r: Option<Report>)
    ensures r.Some? && r.value.reason == Crash <==>
      (o.err.Some? != n.err.Some?) || (o.err.Some? && n.err.Some? && o.err.value != n.err.value)
    ensures r.Some? && r.value.reason == Crash ==> r.value == Report(Crash, query, ErrText(o.err), ErrText(n.err))
    ensures r.Some? && r.value.reason == Mismatch <==>
      o.err.Some? == n.err.Some? && (o.err.Some? ==> o.err.value == n.err.value) && o.out != n.out
    ensures r.Some? && r.value.reason == Mismatch ==> r.value == Report(Mismatch, query, o.out, n.out)
    ensures r.Some? ==> r.value.reason in {Crash, Mismatch}
  {
    if o.err.Some? != n.err.Some? then Some(Report(Crash, query, ErrText(o.err), ErrText(n.err)))
    else if o.err.Some? && n.err.Some? && o.err.value != n.err.value then
      Some(Report(Crash, query, ErrText(o.err), ErrText(n.err)))
    else if o.out != n.out then Some(Report(Mismatch, query, o.out, n.out))
    else None
  }

  /** The reason of a verdict, if any. */
  function Reason(r: Option<Report>): Option<string> {
    if r.Some? then Some(r.value.reason) else None
  }

  /** Swapping the old and the new side gives the same reason, or again no report. */
  lemma VerdictSymmetric(query: string, o: Outcome, n: Outcome)
    ensures Reason(Verdict(query, o, n)) == Reason(Verdict(query, n, o))
  {
  }

  /** Identical outcomes are never reported. */
  lemma VerdictReflexive(query: string, o: Outcome)
    ensures Verdict(query, o, o).None?
  {
  }

  /**
   * With the engine's outcomes, where a failed query or dump renders as
   * empty, an output mismatch needs both sides to succeed, and nothing is
   * reported exactly when both succeed alike or both fail alike.
   */
  lemma VerdictOnFailedEmpty(query: string, o: Outcome, n: Outcome)
    requires o.err.Some? ==> o.out == ""
    requires n.err.Some? ==> n.out == ""
    ensures Reason(Verdict(query, o, n)) == Some(Mismatch) <==> o.err.None? && n.err.None? && o.out != n.out
    ensures Verdict(query, o, n).None? <==>
      (o.err.None? && n.err.None? && o.out == n.out) || (o.err.Some? && n.err.Some? && o.err == n.err)
  {
  }

  /** CompareDBStates: the three checks of the query comparison, on the two dumps, logged under the name DUMP. */
  function DbStateVerdict(o: Outcome, n: Outcome): (r: Option<Report>)
    ensures r.Some? ==> r.value.query == "DUMP"
    ensures forall q :: Reason(r) == Reason(Verdict(q, o, n))
  {
    Verdict("DUMP", o, n)
  }

  /** ExecAndCompareSQLErrors: only one side failing alone is reported; texts and outputs are not compared. */
  function SqlErrorsVerdict(sql: string, errOld: Option<string>, errNew: Option<string>): (r: Option<Report>)
    ensures r.Some? <==> errOld.Some? != errNew.Some?
    ensures r.Some? ==> r.value == Report(Crash, sql, ErrText(errOld), ErrText(errNew))
  {
    if errOld.Some? != errNew.Some? then Some(Report(Crash, sql, ErrText(errOld), ErrText(errNew))) else None
  }

  /** The SQL-errors check reports a subset of what the query check on the same errors reports. */
  lemma SqlErrorsWeaker(q: string, o: Outcome, n: Outcome)
    ensures SqlErrorsVerdict(q, o.err, n.err).Some? ==> Verdict(q, o, n) == SqlErrorsVerdict(q, o.err, n.err)
  {
  }

  // ----------------------------------------------------------- text forms

  /** One row: each value's text followed by `|`, then a newline. */
  function RowText(vals: seq<string>): string {
    Concat(seq(|vals|, j requires 0 <= j < |vals| => vals[j] + "|")) + "\n"
  }

  /** The rows of a result set, one line each; empty for no rows. */
  function RowsText(rows: seq<seq<string>>): string {
    Concat(seq(|rows|, i requires 0 <= i < |rows| => RowText(rows[i])))
  }

  /** The number of occurrences of `c` in `s`. */
  function Count(s: string, c: char): nat
    decreases |s|
  {
    if s == [] then 0 else Count(s[..|s| - 1], c) + (if s[|s| - 1] == c then 1 else 0)
  }

  lemma {:induction false} CountAppend(a: string, b: string, c: char)
    ensures Count(a + b, c) == Count(a, c) + Count(b, c)
    decreases |b|
  {
    if b == [] {
      assert a + b == a;
    } else {
      assert (a + b)[..|a + b| - 1] == a + b[..|b| - 1];
      CountAppend(a, b[..|b| - 1], c);
    }
  }

  /** No value text contains `c`. */
  predicate Free(vals: seq<string>, c: char) {
    forall j, k :: 0 <= j < |vals| && 0 <= k < |vals[j]| ==> vals[j][k] != c
  }

  lemma {:induction false} CountAbsent(s: string, c: char)
    requires forall k :: 0 <= k < |s| ==> s[k] != c
    ensures Count(s, c) == 0
    decreases |s|
  {
    if s != [] {
      CountAbsent(s[..|s| - 1], c);
    }
  }

  /** A row whose values have no newline holds exactly one newline, its last character. */
  lemma {:induction false} RowTextLines(vals: seq<string>)
    requires Free(vals, '\n')
    ensures Count(RowText(vals), '\n') == 1
    decreases |vals|
  {
    var cells := seq(|vals|, j requires 0 <= j < |vals| => vals[j] + "|");
    CellsNoNewline(cells, vals, |vals|);
    assert cells[..|vals|] == cells;
    CountAppend(Concat(cells), "\n", '\n');
    assert Count("\n", '\n') == 1 by {
      assert "\n"[..0] == "";
    }
  }

  lemma {:induction false} CellsNoNewline(cells: seq<string>, vals: seq<string>, n: nat)
    requires n <= |vals| == |cells| && Free(vals, '\n')
    requires forall j :: 0 <= j < |vals| ==> cells[j] == vals[j] + "|"
    ensures Count(Concat(cells[..n]), '\n') == 0
    decreases n
  {
    if n > 0 {
      CellsNoNewline(cells, vals, n - 1);
      assert cells[..n][..n - 1] == cells[..n - 1];
      var last := cells[n - 1];
      forall k | 0 <= k < |last|
        ensures last[k] != '\n'
      {
        if k < |vals[n - 1]| {
          assert last[k] == vals[n - 1][k];
        }
      }
      CountAbsent(last, '\n');
      CountAppend(Concat(cells[..n - 1]), last, '\n');
    }
  }

  /** With no newline inside a value, the rows text has one newline per row, so rows can be told apart. */
  lemma {:induction false} RowsTextLines(rows: seq<seq<string>>)
    requires forall i :: 0 <= i < |rows| ==> Free(rows[i], '\n')
    ensures Count(RowsText(rows), '\n') == |rows|
    decreases |rows|
  {
    if rows != [] {
      var init := rows[..|rows| - 1];
      RowsTextLines(init);
      RowTextLines(rows[|rows| - 1]);
      var lines := seq(|rows|, i requires 0 <= i < |rows| => RowText(rows[i]));
      assert lines[..|rows| - 1] == seq(|init|, i requires 0 <= i < |init| => RowText(init[i]));
      CountAppend(RowsText(init), RowText(rows[|rows| - 1]), '\n');
    }
  }

  /**
   * extractResultToString (and the same loop in dumpTable): for each row,
   * each value's text and a `|`, then a newline.
   */
  method ExtractResultToString(rows: seq<seq<string>>) returns (result: string)
    ensures result == RowsText(rows)
  {
    result := "";
    for i := 0 to |rows|
      invariant result == RowsText(rows[..i])
    {
      var line := RowToString(rows[i]);
      RowsSnoc(rows, i);
      result := result + line;
    }
    assert rows[..|rows|] == rows;
  }

  lemma RowsSnoc(rows: seq<seq<string>>, i: nat)
    requires i < |rows|
    ensures RowsText(rows[..i + 1]) == RowsText(rows[..i]) + RowText(rows[i])
  {
    var pre := rows[..i + 1];
    assert pre[..i] == rows[..i];
    var lines := seq(|pre|, k requires 0 <= k < |pre| => RowText(pre[k]));
    assert lines[..i] == seq(i, k requires 0 <= k < i => RowText(rows[..i][k]));
  }

  method RowToString(vals: seq<string>) returns (line: string)
    ensures line == RowText(vals)
  {
    line := "";
    for j := 0 to |vals|
      invariant line == Concat(seq(j, k requires 0 <= k < j => vals[k] + "|"))
    {
      ghost var cells := seq(j + 1, k requires 0 <= k < j + 1 => vals[k] + "|");
      assert cells[..j] == seq(j, k requires 0 <= k < j => vals[k] + "|");
      line := line + (vals[j] + "|");
    }
    line := line + "\n";
  }

  // ----------------------------------------------------------------- dumps

  /** What a query answers: its rows as value texts, or an error text. */
  type Answer = Result<seq<seq<string>>, string>

  /**
   * What DumpDB asks a database: the schema listing, the table names (or
   * the error the listing, a scan of it or the cursor failed with), and
   * the answer to `SELECT * FROM "<name>"` for any table name.
   */
  datatype Db = Db(schemaRows: Answer, names: Result<seq<string>, string>, select: string -> Answer)

  /** execQueryWithResult: the rows text, or "" with the error. */
  method QueryWithResult(a: Answer) returns (r: Outcome)
    ensures a.Ok? ==> r == Outcome(RowsText(a.value), None)
    ensures a.Err? ==> r == Outcome("", Some(a.error))
  {
    if a.Err? {
      return Outcome("", Some(a.error));
    }
    var text := ExtractResultToString(a.value);
    r := Outcome(text, None);
  }

  /** Every listed table answers with rows. */
  predicate AllTablesOk(db: Db, names: seq<string>) {
    forall i :: 0 <= i < |names| ==> db.select(names[i]).Ok?
  }

  /** The per-table dumps, in the order the names were listed. */
  function TablesText(db: Db, names: seq<string>): string
    requires AllTablesOk(db, names)
  {
    Concat(seq(|names|, i requires 0 <= i < |names| && AllTablesOk(db, names) => RowsText(db.select(names[i]).value)))
  }

  /**
   * DumpDB: the schema listing, `--`, and every table's rows in the order
   * of the name listing; the first error met yields "" with that error.
   */
  method DumpDB(db: Db) returns (r: Outcome)
    ensures r.err.Some? ==> r.out == ""
    ensures db.schemaRows.Err? ==> r == Outcome("", Some(db.schemaRows.error))
    ensures db.schemaRows.Ok? && db.names.Err? ==> r == Outcome("", Some(db.names.error))
    ensures db.schemaRows.Ok? && db.names.Ok? && AllTablesOk(db, db.names.value) ==>
      r == Outcome(RowsText(db.schemaRows.value) + "--\n" + TablesText(db, db.names.value), None)
    ensures db.schemaRows.Ok? && db.names.Ok? && !AllTablesOk(db, db.names.value) ==>
      exists j :: (0 <= j < |db.names.value| && db.select(db.names.value[j]).Err?
        && AllTablesOk(db, db.names.value[..j]) && r == Outcome("", Some(db.select(db.names.value[j]).error)))
  {
    var s := QueryWithResult(db.schemaRows);
    if s.err.Some? {
      return Outcome("", s.err);
    }
    var result := s.out + "--\n";
    if db.names.Err? {
      return Outcome("", Some(db.names.error));
    }
    var names := db.names.value;
    ghost var head := result;
    for i := 0 to |names|
      invariant AllTablesOk(db, names[..i])
      invariant result == head + TablesText(db, names[..i])
    {
      var t := QueryWithResult(db.select(names[i]));
      if t.err.Some? {
        assert names[..i] == names[..i];
        return Outcome("", t.err);
      }
      TablesSnoc(db, names, i);
      result := result + t.out;
    }
    assert names[..|names|] == names;
    r := Outcome(result, None);
  }

  lemma TablesSnoc(db: Db, names: seq<string>, i: nat)
    requires i < |names| && AllTablesOk(db, names[..i]) && db.select(names[i]).Ok?
    ensures AllTablesOk(db, names[..i + 1])
    ensures TablesText(db, names[..i + 1]) == TablesText(db, names[..i]) + RowsText(db.select(names[i]).value)
  {
    var pre := names[..i + 1];
    assert pre[..i] == names[..i];
    assert AllTablesOk(db, pre);
    var parts := seq(|pre|, k requires 0 <= k < |pre| && AllTablesOk(db, pre) => RowsText(db.select(pre[k]).value));
    assert parts[..i] == seq(i, k requires 0 <= k < i && AllTablesOk(db, names[..i]) => RowsText(db.select(names[..i][k]).value));
  }
}
