// The Scope record of the ast package: what a query being generated can
// name in a FROM clause (`tables`) and whose columns it can reference
// (`refs`), with the schema it runs against. The id counters every scope
// of one statement shares by pointer are the StmtSeq object.
module Scopes {
  import opened Wrappers
  import opened Schema

  datatype Scope = Scope(tables: seq<Relation>, refs: seq<Relation>, schema: Schema)

  /**
   * Scope.StmtSeq: the alias counters ("table", "c", "subq", "cte") that
   * all scopes of one statement share; a missing key reads as 0.
   */
  class StmtSeq {
    var ids: map<string, nat>

    /** A fresh, empty map, as each statement of a batch gets. */
    constructor ()
      ensures ids == map[]
    {
      ids := map[];
    }

    /** GetStmtUid. */
    function Get(k: string): nat
      reads this
    {
      if k in ids then ids[k] else 0
    }

    /** IncrStmtUid: one more for `k`, every other counter as it was. */
    method Incr(k: string)
      modifies this
      ensures ids == old(ids)[k := old(Get(k)) + 1]
      ensures Get(k) == old(Get(k)) + 1
      ensures forall k' :: k' != k ==> Get(k') == old(Get(k'))
    {
      ids := ids[k := Get(k) + 1];
    }

    /** StartStmtUid: `k` set to `c`, every other counter as it was. */
    method Start(k: string, c: nat)
      modifies this
      ensures ids == old(ids)[k := c]
      ensures Get(k) == c
      ensures forall k' :: k' != k ==> Get(k') == old(Get(k'))
    {
      ids := ids[k := c];
    }
  }

  /** The columns of `cols` (columns of relation `r`) whose type is `t`, paired with `r`, in order. */
  function ColumnsOfType(r: Relation, cols: seq<Column>, t: SqlType): seq<RelationColumn>
  {
    if cols == [] then []
    else ColumnsOfType(r, cols[..|cols| - 1], t)
         + (if cols[|cols| - 1].typ == t then [RelationColumn(r, cols[|cols| - 1])] else [])
  }

  /** Every (relation, column) pair of `refs` whose column has type `t`: the filter RefsOfType computes. */
  function Matching(refs: seq<Relation>, t: SqlType): seq<RelationColumn>
  {
    if refs == [] then []
    else Matching(refs[..|refs| - 1], t) + ColumnsOfType(refs[|refs| - 1], refs[|refs| - 1].Columns(), t)
  }

  /** Scope.RefsOfType: the nested loop over the refs and their columns. */
  method RefsOfType(s: Scope, t: SqlType) returns (res: seq<RelationColumn>)
    ensures res == Matching(s.refs, t)
  {
    res := [];
    var i := 0;
    while i < |s.refs|
      invariant 0 <= i <= |s.refs|
      invariant res == Matching(s.refs[..i], t)
    {
      var r := s.refs[i];
      var found := ColumnsOfTypeLoop(r, r.Columns(), t);
      MatchingSnoc(s.refs, i, t);
      res := res + found;
      i := i + 1;
    }
    assert s.refs[..i] == s.refs;
  }

  /** The inner loop of RefsOfType: the columns of `r` among `cols` that have type `t`. */
  method ColumnsOfTypeLoop(r: Relation, cols: seq<Column>, t: SqlType) returns (res: seq<RelationColumn>)
    ensures res == ColumnsOfType(r, cols, t)
  {
    res := [];
    var j := 0;
    while j < |cols|
      invariant 0 <= j <= |cols|
      invariant res == ColumnsOfType(r, cols[..j], t)
    {
      assert cols[..j + 1][..j] == cols[..j];
      if cols[j].typ == t {
        res := res + [RelationColumn(r, cols[j])];
      }
      j := j + 1;
    }
    assert cols[..j] == cols;
  }

  lemma MatchingSnoc(refs: seq<Relation>, i: nat, t: SqlType)
    requires i < |refs|
    ensures Matching(refs[..i + 1], t) == Matching(refs[..i], t) + ColumnsOfType(refs[i], refs[i].Columns(), t)
  {
    var next := refs[..i + 1];
    assert next[..|next| - 1] == refs[..i] && next[|next| - 1] == refs[i];
  }

  lemma {:induction false} ColumnsOfTypeMembers(r: Relation, cols: seq<Column>, t: SqlType, x: RelationColumn)
    ensures x in ColumnsOfType(r, cols, t) <==> x.rel == r && x.col in cols && x.col.typ == t
  {
    if cols != [] {
      ColumnsOfTypeMembers(r, cols[..|cols| - 1], t, x);
      assert cols == cols[..|cols| - 1] + [cols[|cols| - 1]];
    }
  }

  /**
   * Soundness and completeness: a pair is returned exactly when its
   * relation is one of the refs, its column is one of that relation's
   * columns, and the column has the requested type.
   */
  lemma {:induction false} MatchingMembers(refs: seq<Relation>, t: SqlType, x: RelationColumn)
    ensures x in Matching(refs, t) <==> x.rel in refs && x.col in x.rel.Columns() && x.col.typ == t
  {
    if refs != [] {
      var last := refs[|refs| - 1];
      MatchingMembers(refs[..|refs| - 1], t, x);
      ColumnsOfTypeMembers(last, last.Columns(), t, x);
      assert refs == refs[..|refs| - 1] + [last];
    }
  }

  lemma {:induction false} ColumnsOfTypeAppend(r: Relation, a: seq<Column>, b: seq<Column>, t: SqlType)
    ensures ColumnsOfType(r, a + b, t) == ColumnsOfType(r, a, t) + ColumnsOfType(r, b, t)
    decreases |b|
  {
    if b == [] {
      assert a + b == a;
    } else {
      assert (a + b)[..|a + b| - 1] == a + b[..|b| - 1];
      ColumnsOfTypeAppend(r, a, b[..|b| - 1], t);
    }
  }

  /** Order: the pairs of earlier refs come before those of later refs. */
  lemma {:induction false} MatchingAppend(a: seq<Relation>, b: seq<Relation>, t: SqlType)
    ensures Matching(a + b, t) == Matching(a, t) + Matching(b, t)
    decreases |b|
  {
    if b == [] {
      assert a + b == a;
    } else {
      var ab, init, last := a + b, b[..|b| - 1], b[|b| - 1];
      assert ab[..|ab| - 1] == a + init;
      assert ab[|ab| - 1] == last;
      MatchingAppend(a, init, t);
      var tail := ColumnsOfType(last, last.Columns(), t);
      assert Matching(ab, t) == Matching(a + init, t) + tail;
      assert Matching(b, t) == Matching(init, t) + tail;
      var x, y := Matching(a, t), Matching(init, t);
      Assoc(x, y, tail);
    }
  }

  /** Concatenation regrouped; stated apart so the step above stays cheap. */
  lemma Assoc<T>(x: seq<T>, y: seq<T>, z: seq<T>)
    ensures (x + y) + z == x + (y + z)
  {
  }

  /** Order within one relation: its matching columns in column order. */
  lemma MatchingSingle(r: Relation, t: SqlType)
    ensures Matching([r], t) == ColumnsOfType(r, r.Columns(), t)
  {
    assert [r][..0] == [];
  }

  /** The result is empty exactly when no ref has a column of type `t` (in particular with no refs). */
  lemma MatchingEmpty(refs: seq<Relation>, t: SqlType)
    ensures Matching(refs, t) == [] <==>
      forall r, c :: r in refs && c in r.Columns() ==> c.typ != t
  {
    if Matching(refs, t) != [] {
      MatchingMembers(refs, t, Matching(refs, t)[0]);
    } else {
      forall r, c | r in refs && c in r.Columns() ensures c.typ != t {
        MatchingMembers(refs, t, RelationColumn(r, c));
      }
    }
  }

  // ------------------------------------------------------- AvailableTypes

  /** The types of every visible column, one entry per column (duplicates weight the choice). */
  function ColumnTypes(cols: seq<Column>): (r: seq<SqlType>)
    ensures |r| == |cols|
  {
    if cols == [] then [] else ColumnTypes(cols[..|cols| - 1]) + [cols[|cols| - 1].typ]
  }

  function AvailableTypesOf(refs: seq<Relation>): seq<SqlType>
  {
    if refs == [] then [] else AvailableTypesOf(refs[..|refs| - 1]) + ColumnTypes(refs[|refs| - 1].Columns())
  }

  /**
   * Scope.AvailableTypes, which Base.AvailableTypes forwards to. Its Go body
   * is not part of this model; it is taken to list the type of every column
   * of every ref, in ref and column order, keeping duplicates.
   */
  function AvailableTypes(s: Scope): seq<SqlType>
  {
    AvailableTypesOf(s.refs)
  }

  lemma {:induction false} ColumnTypesMembers(cols: seq<Column>, t: SqlType)
    ensures t in ColumnTypes(cols) <==> exists c :: c in cols && c.typ == t
  {
    if cols != [] {
      ColumnTypesMembers(cols[..|cols| - 1], t);
      assert cols == cols[..|cols| - 1] + [cols[|cols| - 1]];
      if t in ColumnTypes(cols[..|cols| - 1]) {
        var c :| c in cols[..|cols| - 1] && c.typ == t;
        assert c in cols;
      }
    }
  }

  lemma {:induction false} AvailableTypesMembers(refs: seq<Relation>, t: SqlType)
    ensures t in AvailableTypesOf(refs) <==> exists r, c :: r in refs && c in r.Columns() && c.typ == t
  {
    if refs != [] {
      var init, last := refs[..|refs| - 1], refs[|refs| - 1];
      AvailableTypesMembers(init, t);
      ColumnTypesMembers(last.Columns(), t);
      assert refs == init + [last];
      if t in AvailableTypesOf(init) {
        var r, c :| r in init && c in r.Columns() && c.typ == t;
        assert r in refs;
      }
      if exists r, c :: r in refs && c in r.Columns() && c.typ == t {
        var r, c :| r in refs && c in r.Columns() && c.typ == t;
        if r != last {
          assert r in init;
        }
      }
    }
  }

  /**
   * A type drawn from AvailableTypes always has a matching column: this is
   * why the select list and comparisons, which draw from it, find one.
   * It rests on the body of AvailableTypes assumed above.
   */
  lemma AvailableTypeHasMatch(s: Scope, t: SqlType)
    ensures t in AvailableTypes(s) <==> Matching(s.refs, t) != []
  {
    AvailableTypesMembers(s.refs, t);
    MatchingEmpty(s.refs, t);
  }

  /**
   * NewScope of a parent. Its Go body is not part of this model; it is
   * taken to give the same tables and schema and a copy of the refs. As
   * values, appending to the child's refs leaves the parent's as they were.
   */
  function NewScope(parent: Scope): (s: Scope)
    ensures s.tables == parent.tables && s.schema == parent.schema && s.refs == parent.refs
  {
    Scope(parent.tables, parent.refs, parent.schema)
  }
}
