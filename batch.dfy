// batch.go: a list of statements that share one schema, with the two
// texts the fuzzer writes out for it.
module Batch {
  import opened Wrappers
  import opened Text
  import opened Ast

  /** Batch: the schema's DDL text, the statements, and the error that made it crash (nil when none). */
  datatype Batch = Batch(schema: string, stmts: seq<Prod>, err: Option<string>)

  /** Every statement of the list can be rendered. */
  predicate AllRender(stmts: seq<Prod>) {
    forall i :: 0 <= i < |stmts| ==> Renders(stmts[i])
  }

  /** NewBatch: the schema text and the statements, with no error. */
  function NewBatch(sch: string, stmts: seq<Prod>): (b: Batch)
    ensures b.schema == sch && b.stmts == stmts && b.err.None?
  {
    Batch(sch, stmts, None)
  }

  /** Len: the number of statements. */
  function Len(b: Batch): (n: nat)
    ensures n == |b.stmts|
  {
    |b.stmts|
  }

  /** Slice(s, e): statements s..e-1 under the same schema, the error reset. */
  function Slice(b: Batch, s: nat, e: nat): (r: Batch)
    requires s <= e <= Len(b)
    ensures Len(r) == e - s && r.schema == b.schema && r.err.None?
    ensures forall k :: 0 <= k < e - s ==> r.stmts[k] == b.stmts[s + k]
  {
    Batch(b.schema, b.stmts[s..e], None)
  }

  /** Each statement's text followed by a terminator, in order. */
  function Terminated(stmts: seq<Prod>, term: string): (r: seq<string>)
    requires AllRender(stmts)
    ensures |r| == |stmts|
  {
    seq(|stmts|, i requires 0 <= i < |stmts| && AllRender(stmts) => Out(stmts[i]) + term)
  }

  /** The statements' part of a batch text: each statement followed by `term`. */
  function StmtsText(stmts: seq<Prod>, term: string): string
    requires AllRender(stmts)
  {
    Concat(Terminated(stmts, term))
  }

  /** The statements' text of a concatenation is the concatenation of their texts. */
  lemma StmtsTextAppend(a: seq<Prod>, b: seq<Prod>, term: string)
    requires AllRender(a) && AllRender(b)
    ensures AllRender(a + b)
    ensures StmtsText(a + b, term) == StmtsText(a, term) + StmtsText(b, term)
  {
    assert AllRender(a + b);
    assert Terminated(a + b, term) == Terminated(a, term) + Terminated(b, term);
    ConcatAppend(Terminated(a, term), Terminated(b, term));
  }

  /** Cutting a batch in two at `m` cuts its statements' text in two. */
  lemma SliceText(b: Batch, m: nat, term: string)
    requires m <= Len(b) && AllRender(b.stmts)
    ensures AllRender(Slice(b, 0, m).stmts) && AllRender(Slice(b, m, Len(b)).stmts)
    ensures StmtsText(Slice(b, 0, m).stmts, term) + StmtsText(Slice(b, m, Len(b)).stmts, term) == StmtsText(b.stmts, term)
  {
    assert b.stmts[0..m] + b.stmts[m..|b.stmts|] == b.stmts;
    StmtsTextAppend(b.stmts[0..m], b.stmts[m..|b.stmts|], term);
  }

  /** The whole-batch slice renders as the batch does. */
  lemma SliceAllText(b: Batch, term: string)
    requires AllRender(b.stmts)
    ensures Slice(b, 0, Len(b)).schema == b.schema && Slice(b, 0, Len(b)).stmts == b.stmts
  {
    assert b.stmts[0..|b.stmts|] == b.stmts;
  }

  /**
   * String, written into a fresh builder: the schema and a newline, then
   * every statement followed by a newline and a semicolon.
   */
  method String(b: Batch) returns (t: string)
    requires AllRender(b.stmts)
    ensures t == b.schema + "\n" + StmtsText(b.stmts, "\n;")
  {
    t := b.schema + "\n";
    ghost var head := t;
    for i := 0 to |b.stmts|
      invariant t == head + StmtsText(b.stmts[..i], "\n;")
    {
      assert b.stmts[..i + 1] == b.stmts[..i] + [b.stmts[i]];
      StmtsTextAppend(b.stmts[..i], [b.stmts[i]], "\n;");
      t := t + (Out(b.stmts[i]) + "\n;");
    }
    assert b.stmts[..|b.stmts|] == b.stmts;
  }

  /** The opening and closing lines of a crash report around the error text. */
  function CrashHeader(err: string): string {
    "/* -----------Error-----------\n" + err + "-----------/Error----------- */\n"
  }

  /**
   * CrashString, written into a fresh builder: the error between the two
   * banner lines, the schema and a newline, then every statement followed
   * by a semicolon and a newline. A batch without an error panics.
   */
  method CrashString(b: Batch) returns (t: Result<string, string>)
    requires AllRender(b.stmts)
    ensures b.err.None? ==> t == Err("nil pointer dereference")
    ensures b.err.Some? ==> t == Ok(CrashHeader(b.err.value) + b.schema + "\n" + StmtsText(b.stmts, ";\n"))
  {
    if b.err.None? {
      return Err("nil pointer dereference");
    }
    var s := CrashHeader(b.err.value) + b.schema + "\n";
    ghost var head := s;
    for i := 0 to |b.stmts|
      invariant s == head + StmtsText(b.stmts[..i], ";\n")
    {
      assert b.stmts[..i + 1] == b.stmts[..i] + [b.stmts[i]];
      StmtsTextAppend(b.stmts[..i], [b.stmts[i]], ";\n");
      s := s + (Out(b.stmts[i]) + ";\n");
    }
    assert b.stmts[..|b.stmts|] == b.stmts;
    t := Ok(s);
  }

  /** String leaves the last statement's semicolon at the very end, not followed by a newline. */
  lemma StringEndsInSemicolon(stmts: seq<Prod>)
    requires AllRender(stmts) && stmts != []
    ensures var t := StmtsText(stmts, "\n;"); |t| >= 2 && t[|t| - 2..] == "\n;"
  {
    var n := |stmts| - 1;
    assert stmts == stmts[..n] + [stmts[n]];
    StmtsTextAppend(stmts[..n], [stmts[n]], "\n;");
    assert Terminated([stmts[n]], "\n;") == [Out(stmts[n]) + "\n;"];
    assert [Out(stmts[n]) + "\n;"][..0] == [];
  }
}
