// The characteristics visitor of the ast package: a traversal of a
// statement that counts its clauses in a map and records the deepest
// nesting level it meets.
module Characteristics {
  import opened Wrappers
  import opened Text
  import opened Scopes
  import opened Ast

  // ------------------------------------------------- what one node does

  /** The join kind a JoinedTable is counted under: its type up to `JOIN`, trimmed. */
  function JoinKind(joinType: string): (k: string)
    ensures k == [] || (!IsSpace(k[0]) && !IsSpace(k[|k| - 1]))
    ensures |k| <= |joinType|
  {
    TrimSpace(BeforeFirst(joinType, "JOIN"))
  }

  /** The SelectStmt case: SELECT, then WHERE, the quantifier, LIMIT, ORDER and OFFSET when set. */
  function SelectKeys(quant: string, hasWhere: bool, limit: string, hasOrder: bool, offset: string): seq<string> {
    ["SELECT"] + (if hasWhere then ["WHERE"] else []) + (if quant != "" then [quant] else [])
    + (if limit != "" then ["LIMIT"] else []) + (if hasOrder then ["ORDER"] else [])
    + (if offset != "" then ["OFFSET"] else [])
  }

  /**
   * The counters the visitor's switch bumps for the node itself, in the
   * order it bumps them. Function calls count their set quantifier and
   * compound statements their operator as keys of their own.
   */
  function OwnKeys(p: Prod): seq<string> {
    match p
    case SelectStmt(_, quant, _, _, w, limit, offset, ob) => SelectKeys(quant, w.Some?, limit, ob.Some?, offset)
    case FromClause(_, _) => ["FROM"]
    case JoinedTable(_, jt, _, _, _, _, _) =>
      ["JOIN"] + (if JoinKind(jt) != "" then [JoinKind(jt) + " JOIN"] else [])
    case InsertStmt(_, _, _) => ["INSERT"]
    case UpdateStmt(_, _, _, _) => ["UPDATE"]
    case DeleteStmt(_, _, _) => ["DELETE"]
    case CTEStmt(_, _, _, _) => ["WITH"]
    case ViewStmt(_, _, _, _, _, _) => ["CREATE VIEW"]
    case ExplainStmt(_, qp, _) => ["EXPLAIN"] + (if qp then ["QUERY PLAN"] else [])
    case AnalyseStmt(_, _) => ["ANALYZE"]
    case VacuumStmt(_, _, _) => ["VACUUM"]
    case CompoundStmt(_, _, _, op, limit, ob) =>
      [op] + (if limit != "" then ["LIMIT"] else []) + (if ob.Some? then ["ORDER"] else [])
    case SavepointStmt(_, _, _, _, _) => ["SAVEPOINT"]
    case TableSubquery(_, _, _, _) => ["SUBQUERY"]
    case SelectClause(_, _, _) => []
    case SetClause(_, _, _) => ["SET"]
    case ColumnReference(_, _, _) => []
    case ConstExpr(_, _, _) => []
    case TruthExpr(_, _) => []
    case SimpleJoinCondition(_, _) => []
    case BinaryExpr(_, _, _, _) => []
    case ExistsExpr(_, _) => ["EXISTS"]
    case NullPredicateExpr(_, _, _) => ["IS NULL"]
    case FunCallExpr(_, _, agg, quant, _, _) =>
      ["FUNCTION"] + (if agg then ["AGGREGATE"] else []) + (if quant != "" then [quant] else [])
    case WindowFunExpr(_, _, _, _, _) => ["WINDOW"]
    case CaseExpr(_, _, _, _, _, _) => ["CASE"]
    case CastExpr(_, _, _) => ["CAST"]
    case CoalesceExpr(_, _, _) => ["COALESCE"]
    case IfNullIfExpr(_, isIfNull, _, _, _) => if isIfNull then ["IFNULL"] else ["NULLIF"]
    case TableOrQueryName(_, _, _) => []
    case ExpressionJoinCondition(_, _, _, _) => []
  }

  /** A nil field is not visited. */
  function Opt(o: Option<Prod>): (r: seq<Prod>)
    ensures forall x :: x in r ==> o.Some? && x == o.value
  {
    if o.Some? then [o.value] else []
  }

  /** CaseExpr's loop: each WHEN followed by the THEN of the same index. */
  function Arms(ws: seq<Prod>, ts: seq<Prod>): (r: seq<Prod>)
    requires |ts| >= |ws|
    ensures |r| == 2 * |ws|
    ensures forall x :: x in r ==> x in ws || x in ts
    decreases |ws|
  {
    if ws == [] then [] else Arms(ws[..|ws| - 1], ts) + [ws[|ws| - 1], ts[|ws| - 1]]
  }

  /** The loop over a CASE's arms reads `Then[i]` for every `When[i]`. */
  predicate KidsDefined(p: Prod) {
    p.CaseExpr? ==> |p.thens| >= |p.whens|
  }

  /** The nodes the switch visits below `p`, in the order it visits them. */
  function Kids(p: Prod): (r: seq<Prod>)
    requires KidsDefined(p)
    ensures forall i :: 0 <= i < |r| ==> r[i] < p
  {
    match p
    case SelectStmt(_, _, sc, fc, w, _, _, _) => [sc, fc] + Opt(w)
    case FromClause(_, refs) => refs
    case JoinedTable(_, _, _, l, r, c, _) => [l, r] + Opt(c)
    case InsertStmt(_, _, exprs) => exprs
    case UpdateStmt(_, _, sc, w) => [sc] + Opt(w)
    case DeleteStmt(_, _, w) => Opt(w)
    case CTEStmt(_, _, wq, q) => wq + [q]
    case ViewStmt(_, _, _, _, cols, q) => cols + [q]
    case ExplainStmt(_, _, s) => [s]
    case AnalyseStmt(_, _) => []
    case VacuumStmt(_, _, _) => []
    case CompoundStmt(_, l, r, _, _, _) => [l, r]
    case SavepointStmt(_, ss, _, _, _) => ss
    case TableSubquery(_, _, q, _) => [q]
    case SelectClause(_, es, _) => es
    case SetClause(_, vals, _) => vals
    case ColumnReference(_, _, _) => []
    case ConstExpr(_, _, _) => []
    case TruthExpr(_, _) => []
    case SimpleJoinCondition(_, _) => []
    case BinaryExpr(_, l, _, r) => [l, r]
    case ExistsExpr(_, q) => [q]
    case NullPredicateExpr(_, _, e) => [e]
    case FunCallExpr(_, _, _, _, ps, _) => ps
    case WindowFunExpr(_, pb, ob, agg, _) => [agg] + pb + ob
    case CaseExpr(_, v, ws, ts, e, _) =>
      var r := Opt(v) + Arms(ws, ts) + Opt(e);
      assert forall i :: 0 <= i < |r| ==> r[i] < p by {
        forall i | 0 <= i < |r| ensures r[i] < p {
          assert r[i] in Opt(v) || r[i] in Arms(ws, ts) || r[i] in Opt(e);
        }
      }
      r
    case CastExpr(_, e, _) => [e]
    case CoalesceExpr(_, es, _) => es
    case IfNullIfExpr(_, _, e1, e2, _) => [e1, e2]
    case TableOrQueryName(_, _, _) => []
    case ExpressionJoinCondition(_, _, _, w) => Opt(w)
  }

  /**
   * The trees Visit walks without a panic: every node it reaches has a
   * Base (Level() dereferences it) and every CASE has a THEN per WHEN.
   */
  predicate Visitable(p: Prod)
    decreases p
  {
    BaseOf(p).Some? && KidsDefined(p) && forall i :: 0 <= i < |Kids(p)| ==> Visitable(Kids(p)[i])
  }

  function Level(p: Prod): int
    requires BaseOf(p).Some?
  {
    BaseOf(p).value.level
  }

  // ------------------------------------------------------- visitor state

  /** The visitor's fields. */
  datatype Stats = Stats(counts: map<string, int>, maxDepth: int)

  /** A Go map read: a missing key reads 0. */
  function Get(m: map<string, int>, k: string): int {
    if k in m then m[k] else 0
  }

  function Max(a: int, b: int): int {
    if a >= b then a else b
  }

  /** `m[k]++` for each key in turn. */
  function Bump(m: map<string, int>, ks: seq<string>): map<string, int>
    decreases |ks|
  {
    if ks == [] then m
    else var prev := Bump(m, ks[..|ks| - 1]); prev[ks[|ks| - 1] := Get(prev, ks[|ks| - 1]) + 1]
  }

  /** The state after the node itself: the depth check, then its own counters. */
  function Own(s: Stats, p: Prod): Stats
    requires BaseOf(p).Some?
  {
    Stats(Bump(s.counts, OwnKeys(p)), Max(s.maxDepth, Level(p)))
  }

  /** The state after visiting `p` from state `s`. */
  function After(s: Stats, p: Prod): Stats
    requires Visitable(p)
    decreases p
  {
    AfterKids(Own(s, p), p, |Kids(p)|)
  }

  /** The state after visiting the first `k` children of `p` from state `s`. */
  function AfterKids(s: Stats, p: Prod, k: nat): Stats
    requires Visitable(p) && k <= |Kids(p)|
    decreases p, k
  {
    if k == 0 then s else After(AfterKids(s, p, k - 1), Kids(p)[k - 1])
  }

  // ------------------------------------------------------------- visitor

  /** CharacteristicsVisitor: the clause counters and the deepest level seen. */
  class Visitor {
    var clauseCounts: map<string, int>
    var maxDepth: int

    /** NewCharacteristicsVisitor: no counts, depth 0. */
    constructor ()
      ensures clauseCounts == map[] && maxDepth == 0
    {
      clauseCounts := map[];
      maxDepth := 0;
    }

    function State(): Stats
      reads this
    {
      Stats(clauseCounts, maxDepth)
    }

    /** Visit: nil changes nothing; otherwise the state after walking the tree. */
    method Visit(node: Option<Prod>)
      requires node.Some? ==> Visitable(node.value)
      modifies this
      ensures node.None? ==> State() == old(State())
      ensures node.Some? ==> State() == After(old(State()), node.value)
    {
      if node.Some? {
        VisitNode(node.value);
      }
    }

    /**
     * One non-nil node: raise the depth to its level, bump the counters of
     * its switch case, then visit its children in the case's order.
     */
    method VisitNode(p: Prod)
      requires Visitable(p)
      modifies this
      ensures State() == After(old(State()), p)
      decreases p
    {
      var depth := Level(p);
      if depth > maxDepth {
        maxDepth := depth;
      }
      BumpAll(OwnKeys(p));
      ghost var s1 := State();
      assert s1 == Own(old(State()), p);
      var kids := Kids(p);
      for i := 0 to |kids|
        invariant State() == AfterKids(s1, p, i)
      {
        VisitNode(kids[i]);
      }
    }

    /** `clauseCounts[k]++` for each key in turn. */
    method BumpAll(ks: seq<string>)
      modifies this
      ensures clauseCounts == Bump(old(clauseCounts), ks)
      ensures maxDepth == old(maxDepth)
    {
      for i := 0 to |ks|
        invariant clauseCounts == Bump(old(clauseCounts), ks[..i])
        invariant maxDepth == old(maxDepth)
      {
        assert ks[..i + 1][..i] == ks[..i];
        clauseCounts := clauseCounts[ks[i] := Get(clauseCounts, ks[i]) + 1];
      }
      assert ks[..|ks|] == ks;
    }
  }

  // ------------------------------------------------------ specification

  /** The nodes Visit reaches, in the order it reaches them (pre-order). */
  function Visited(p: Prod): (r: seq<Prod>)
    requires Visitable(p)
    ensures |r| >= 1 && r[0] == p
    ensures forall i :: 0 <= i < |r| ==> BaseOf(r[i]).Some?
    decreases p
  {
    [p] + VisitedKids(p, |Kids(p)|)
  }

  function VisitedKids(p: Prod, k: nat): (r: seq<Prod>)
    requires Visitable(p) && k <= |Kids(p)|
    ensures forall i :: 0 <= i < |r| ==> BaseOf(r[i]).Some?
    decreases p, k
  {
    if k == 0 then [] else VisitedKids(p, k - 1) + Visited(Kids(p)[k - 1])
  }

  /** The counters bumped for a list of nodes, node by node. */
  function KeysOf(ns: seq<Prod>): seq<string>
    decreases |ns|
  {
    if ns == [] then [] else KeysOf(ns[..|ns| - 1]) + OwnKeys(ns[|ns| - 1])
  }

  /** The largest of `d` and the levels of the nodes. */
  function MaxLevel(d: int, ns: seq<Prod>): (r: int)
    requires forall i :: 0 <= i < |ns| ==> BaseOf(ns[i]).Some?
    ensures r >= d && forall i :: 0 <= i < |ns| ==> r >= Level(ns[i])
    ensures r == d || exists i :: 0 <= i < |ns| && r == Level(ns[i])
    decreases |ns|
  {
    if ns == [] then d else Max(MaxLevel(d, ns[..|ns| - 1]), Level(ns[|ns| - 1]))
  }

  // --------------------------------------------------------------- lemmas

  lemma {:induction false} BumpAppend(m: map<string, int>, a: seq<string>, b: seq<string>)
    ensures Bump(m, a + b) == Bump(Bump(m, a), b)
    decreases |b|
  {
    if b != [] {
      var init := b[..|b| - 1];
      assert (a + b)[..|a + b| - 1] == a + init;
      assert (a + b)[|a + b| - 1] == b[|b| - 1];
      BumpAppend(m, a, init);
    } else {
      assert a + b == a;
    }
  }

  lemma {:induction false} KeysOfAppend(a: seq<Prod>, b: seq<Prod>)
    ensures KeysOf(a + b) == KeysOf(a) + KeysOf(b)
    decreases |b|
  {
    if b != [] {
      var init, last := b[..|b| - 1], b[|b| - 1];
      assert (a + b)[..|a + b| - 1] == a + init;
      assert (a + b)[|a + b| - 1] == last;
      KeysOfAppend(a, init);
      Assoc(KeysOf(a), KeysOf(init), OwnKeys(last));
    } else {
      assert a + b == a;
    }
  }

  lemma {:induction false} MaxLevelAppend(d: int, a: seq<Prod>, b: seq<Prod>)
    requires forall i :: 0 <= i < |a| ==> BaseOf(a[i]).Some?
    requires forall i :: 0 <= i < |b| ==> BaseOf(b[i]).Some?
    ensures MaxLevel(d, a + b) == MaxLevel(MaxLevel(d, a), b)
    decreases |b|
  {
    if b != [] {
      var init := b[..|b| - 1];
      assert (a + b)[..|a + b| - 1] == a + init;
      assert (a + b)[|a + b| - 1] == b[|b| - 1];
      MaxLevelAppend(d, a, init);
    } else {
      assert a + b == a;
    }
  }

  /**
   * The visitor's state after a walk: every counter of every visited node
   * bumped in visiting order, and the depth raised to the deepest level met.
   */
  lemma {:induction false} AfterIsTraversal(s: Stats, p: Prod)
    requires Visitable(p)
    ensures After(s, p) == Stats(Bump(s.counts, KeysOf(Visited(p))), MaxLevel(s.maxDepth, Visited(p)))
    decreases p, 1
  {
    var kids := VisitedKids(p, |Kids(p)|);
    AfterKidsIsTraversal(Own(s, p), p, |Kids(p)|);
    KeysOfAppend([p], kids);
    assert KeysOf([p]) == OwnKeys(p) by {
      assert [p][..0] == [];
    }
    BumpAppend(s.counts, OwnKeys(p), KeysOf(kids));
    MaxLevelAppend(s.maxDepth, [p], kids);
    assert MaxLevel(s.maxDepth, [p]) == Max(s.maxDepth, Level(p)) by {
      assert [p][..0] == [];
    }
  }

  lemma {:induction false} AfterKidsIsTraversal(s: Stats, p: Prod, k: nat)
    requires Visitable(p) && k <= |Kids(p)|
    ensures AfterKids(s, p, k)
            == Stats(Bump(s.counts, KeysOf(VisitedKids(p, k))), MaxLevel(s.maxDepth, VisitedKids(p, k)))
    decreases p, 0, k
  {
    if k > 0 {
      var j: nat := k - 1;
      var c := Kids(p)[j];
      AfterKidsIsTraversal(s, p, j);
      AfterIsTraversal(AfterKids(s, p, j), c);
      KidsStep(s, p, j);
      TraversalCompose(s, AfterKids(s, p, j), AfterKids(s, p, k), VisitedKids(p, j), Visited(c));
    } else {
      assert VisitedKids(p, k) == [] && KeysOf([]) == [];
      assert Bump(s.counts, []) == s.counts && MaxLevel(s.maxDepth, []) == s.maxDepth;
    }
  }

  /** One more child: its walk follows the walks of the children before it. */
  lemma KidsStep(s: Stats, p: Prod, j: nat)
    requires Visitable(p) && j < |Kids(p)|
    ensures AfterKids(s, p, j + 1) == After(AfterKids(s, p, j), Kids(p)[j])
    ensures VisitedKids(p, j + 1) == VisitedKids(p, j) + Visited(Kids(p)[j])
  {
  }

  /** Walking `before` and then `mine` is walking their concatenation. */
  lemma TraversalCompose(s: Stats, mid: Stats, last: Stats, before: seq<Prod>, mine: seq<Prod>)
    requires forall i :: 0 <= i < |before| ==> BaseOf(before[i]).Some?
    requires forall i :: 0 <= i < |mine| ==> BaseOf(mine[i]).Some?
    requires mid == Stats(Bump(s.counts, KeysOf(before)), MaxLevel(s.maxDepth, before))
    requires last == Stats(Bump(mid.counts, KeysOf(mine)), MaxLevel(mid.maxDepth, mine))
    ensures last == Stats(Bump(s.counts, KeysOf(before + mine)), MaxLevel(s.maxDepth, before + mine))
  {
    BumpAppend(s.counts, KeysOf(before), KeysOf(mine));
    MaxLevelAppend(s.maxDepth, before, mine);
    KeysOfAppend(before, mine);
  }

  /** Each bump adds one: a counter grows by the number of times its key is bumped. */
  lemma {:induction false} BumpCounts(m: map<string, int>, ks: seq<string>, k: string)
    ensures Get(Bump(m, ks), k) == Get(m, k) + multiset(ks)[k]
    ensures k in Bump(m, ks) <==> k in m || k in ks
    decreases |ks|
  {
    if ks != [] {
      var init := ks[..|ks| - 1];
      BumpCounts(m, init, k);
      assert ks == init + [ks[|ks| - 1]];
      assert multiset(ks) == multiset(init) + multiset{ks[|ks| - 1]};
    }
  }

  /**
   * After a walk each counter is its old value plus the number of times the
   * visited nodes' switch cases name it, so counters only ever grow and no
   * key disappears; the depth is at least its old value and every visited
   * level, and is one of them.
   */
  lemma VisitEffect(s: Stats, p: Prod, k: string)
    requires Visitable(p)
    ensures Get(After(s, p).counts, k) == Get(s.counts, k) + multiset(KeysOf(Visited(p)))[k]
    ensures Get(After(s, p).counts, k) >= Get(s.counts, k)
    ensures k in s.counts ==> k in After(s, p).counts
    ensures After(s, p).maxDepth >= s.maxDepth
    ensures forall n :: n in Visited(p) ==> After(s, p).maxDepth >= Level(n)
    ensures After(s, p).maxDepth == s.maxDepth || exists n :: n in Visited(p) && After(s, p).maxDepth == Level(n)
  {
    AfterIsTraversal(s, p);
    BumpCounts(s.counts, KeysOf(Visited(p)), k);
  }

  /** A leaf (column, constant, truth value, simple join condition) only raises the depth. */
  lemma LeafOnlyDepth(s: Stats, p: Prod)
    requires Visitable(p)
    requires p.ColumnReference? || p.ConstExpr? || p.TruthExpr? || p.SimpleJoinCondition?
    ensures After(s, p) == Stats(s.counts, Max(s.maxDepth, Level(p)))
  {
    assert Kids(p) == [];
    assert OwnKeys(p) == [];
  }

  /**
   * A SELECT counts itself once, and WHERE, LIMIT, ORDER and OFFSET once
   * each exactly when present (for the quantifiers GenerateSelect writes).
   */
  lemma SelectOwnCounts(p: Prod)
    requires p.SelectStmt?
    requires p.setQuantifier == "" || p.setQuantifier == "DISTINCT" || p.setQuantifier == "ALL"
    ensures multiset(OwnKeys(p))["SELECT"] == 1
    ensures multiset(OwnKeys(p))["WHERE"] == if p.whereClause.Some? then 1 else 0
    ensures multiset(OwnKeys(p))["LIMIT"] == if p.limitClause != "" then 1 else 0
    ensures multiset(OwnKeys(p))["ORDER"] == if p.orderByClause.Some? then 1 else 0
    ensures multiset(OwnKeys(p))["OFFSET"] == if p.offsetClause != "" then 1 else 0
  {
    var q, w, l, o, f := p.setQuantifier, p.whereClause.Some?, p.limitClause, p.orderByClause.Some?, p.offsetClause;
    assert OwnKeys(p) == SelectKeys(q, w, l, o, f);
    SelectKeysSelect(q, w, l, o, f);
    SelectKeysWhere(q, w, l, o, f);
    SelectKeysLimit(q, w, l, o, f);
    SelectKeysOrder(q, w, l, o, f);
    SelectKeysOffset(q, w, l, o, f);
  }

  // One lemma per key: the five counts together are far costlier to prove at once.

  lemma SelectKeysSelect(quant: string, hasWhere: bool, limit: string, hasOrder: bool, offset: string)
    requires quant == "" || quant == "DISTINCT" || quant == "ALL"
    ensures multiset(SelectKeys(quant, hasWhere, limit, hasOrder, offset))["SELECT"] == 1
  {
  }

  lemma SelectKeysWhere(quant: string, hasWhere: bool, limit: string, hasOrder: bool, offset: string)
    requires quant == "" || quant == "DISTINCT" || quant == "ALL"
    ensures multiset(SelectKeys(quant, hasWhere, limit, hasOrder, offset))["WHERE"] == if hasWhere then 1 else 0
  {
  }

  lemma SelectKeysLimit(quant: string, hasWhere: bool, limit: string, hasOrder: bool, offset: string)
    requires quant == "" || quant == "DISTINCT" || quant == "ALL"
    ensures multiset(SelectKeys(quant, hasWhere, limit, hasOrder, offset))["LIMIT"] == if limit != "" then 1 else 0
  {
  }

  lemma SelectKeysOrder(quant: string, hasWhere: bool, limit: string, hasOrder: bool, offset: string)
    requires quant == "" || quant == "DISTINCT" || quant == "ALL"
    ensures multiset(SelectKeys(quant, hasWhere, limit, hasOrder, offset))["ORDER"] == if hasOrder then 1 else 0
  {
  }

  lemma SelectKeysOffset(quant: string, hasWhere: bool, limit: string, hasOrder: bool, offset: string)
    requires quant == "" || quant == "DISTINCT" || quant == "ALL"
    ensures multiset(SelectKeys(quant, hasWhere, limit, hasOrder, offset))["OFFSET"] == if offset != "" then 1 else 0
  {
  }

  /** IFNULL / NULLIF: exactly one of the two counters is bumped. */
  lemma IfNullIfOwnCounts(p: Prod)
    requires p.IfNullIfExpr?
    ensures multiset(OwnKeys(p))["IFNULL"] + multiset(OwnKeys(p))["NULLIF"] == 1
    ensures multiset(OwnKeys(p))["IFNULL"] == 1 <==> p.isIfNull
  {
  }

  /**
   * A join type without `JOIN` in it and without surrounding white space
   * (CROSS, INNER, LEFT, LEFT OUTER) is counted under `<type> JOIN`.
   */
  lemma JoinKindOfPlainType(jt: string)
    requires forall i :: 0 <= i < |jt| ==> !OccursAt(jt, "JOIN", i)
    requires jt == [] || (!IsSpace(jt[0]) && !IsSpace(jt[|jt| - 1]))
    ensures JoinKind(jt) == jt
  {
    var b := BeforeFirst(jt, "JOIN");
    assert b == jt;
    assert TrimLeft(jt) == jt;
    assert TrimRight(jt) == jt;
  }
}
