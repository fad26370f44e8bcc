// The random SQL grammar of the generator package. Every random draw is a
// nondeterministic choice in the range random.go gives it, so each
// postcondition holds for every outcome of the dice. Go panics, the errors
// `retry` retries and running out of the fuel that bounds the unbounded
// `goto` loops are the three kinds of GenError.
module Grammar {
  import opened Wrappers
  import opened Text
  import opened Schema
  import opened Scopes
  import opened Ast
  import C = Characteristics

  /**
   * NoMatch: a Go `error` (the ones retry and the join retry loop retry);
   * Panic: a Go panic with its message; OutOfFuel: the model's bound on a
   * loop or recursion the source does not bound.
   */
  datatype GenError = NoMatch(msg: string) | Panic(msg: string) | OutOfFuel

  type Gen<T> = Result<T, GenError>

  // ------------------------------------------------------------------ dice

  /** dN of random.go: a roll in 1..n. */
  method Roll(n: nat) returns (r: nat)
    requires n >= 1
    ensures 1 <= r <= n
  {
    r :| 1 <= r <= n;
  }

  /** rand.Intn(n): a number in 0..n-1. */
  method Intn(n: nat) returns (r: nat)
    requires n >= 1
    ensures r < n
  {
    r :| r < n;
  }

  /** randomPick: some element of a non-empty list; a panic for an empty one. */
  method Pick<T>(items: seq<T>) returns (r: Gen<T>)
    ensures items == [] ==> r == Err(Panic("No items to pick from"))
    ensures items != [] ==> r.Ok? && r.value in items
  {
    if |items| == 0 {
      return Err(Panic("No items to pick from"));
    }
    var i :| 0 <= i < |items|;
    return Ok(items[i]);
  }

  /** Go's `assert(err == nil, rsn)` after a retry: an error becomes a panic, a panic passes through. */
  function Asserted(e: GenError, rsn: string): (r: GenError)
    ensures e.NoMatch? ==> r == Panic(rsn)
    ensures !e.NoMatch? ==> r == e
  {
    if e.NoMatch? then Panic(rsn) else e
  }

  // --------------------------------------------------------------- context

  /**
   * The Go argument `p ast.Prod` of a generator: the kind of node being
   * built, its Base, and the Scope that Base points to.
   */
  datatype Ctx = Ctx(kind: NodeKind, base: Base, scope: Scope)

  /**
   * Every Base is built by NewBase, which copies its argument's parent
   * link, so starting from nil no Base ever gets a parent.
   */
  predicate Rooted(ctx: Ctx) {
    ctx.base.parent == Nil
  }

  lemma NewBaseRooted(parent: Option<Base>)
    requires parent.None? || parent.value.parent == Nil
    ensures NewBase(parent).parent == Nil
  {
  }

  /** The `types` list of grammar.go: the types a constant draws from when none is asked for. */
  const Types: seq<SqlType> := [INT, REAL, TEXT, BLOB, NUMERIC, BOOL, DATE, TIME, DATETIME, NULL]

  /** What every generated node satisfies: its Out does not panic and the visitor can walk it. */
  predicate Good(p: Prod) {
    Renders(p) && C.Visitable(p)
  }

  /** A generated value expression: good, typed, and of the requested type unless none (INVALID) was asked for. */
  predicate ValueOk(e: Prod, t: SqlType) {
    Good(e) && HasType(e) && (t != INVALID ==> TypeOf(e) == t)
  }

  lemma ConstGood(e: Prod)
    requires e.ConstExpr?
    ensures Good(e) && HasType(e) && TypeOf(e) == e.typ
  {
  }

  lemma ColumnRefGood(e: Prod)
    requires e.ColumnReference?
    ensures Good(e) && HasType(e) && TypeOf(e) == e.typ
  {
  }

  lemma CallGood(b: Base, proc: Routine, ps: seq<Prod>, t: SqlType, req: SqlType)
    requires forall i :: 0 <= i < |ps| ==> ps[i].ConstExpr?
    requires req == INVALID || req == t
    ensures ValueOk(FunCallExpr(b, proc, false, "", ps, t), req)
  {
    var e := FunCallExpr(b, proc, false, "", ps, t);
    forall i | 0 <= i < |ps| ensures Good(ps[i]) {
      ConstGood(ps[i]);
    }
    assert C.Kids(e) == ps;
  }

  // ---------------------------------------------------------- isWindowFunctionAllowed

  /**
   * isWindowFunctionAllowed: a select list directly under a SELECT allows
   * a window function, a window function does not, and a value expression
   * asks its parent; every other node does not.
   */
  function WindowAllowed(kind: NodeKind, parent: Parent): bool
    decreases parent
  {
    if kind == KSelectClause then parent.ParentNode? && parent.kind == KSelectStmt
    else if kind == KWindowFunExpr then false
    else if IsValueExprKind(kind) then
      match parent
      case Nil => false
      case ParentNode(k, b) => WindowAllowed(k, b.parent)
    else false
  }

  /** With no parent, nothing allows a window function: the window branch is never taken. */
  lemma WindowNeverAllowed(ctx: Ctx)
    requires Rooted(ctx)
    ensures !WindowAllowed(ctx.kind, ctx.base.parent)
  {
  }

  // ------------------------------------------------------------- constants

  /** `'%04d-%02d-%02d'`. */
  function DateLiteral(y: nat, m: nat, d: nat): string
    requires y < 10000 && m < 100 && d < 100
  {
    "'" + ZeroPad(y, 4) + ['-'] + ZeroPad(m, 2) + ['-'] + ZeroPad(d, 2) + "'"
  }

  /** `'%02d:%02d:%02d'`. */
  function TimeLiteral(h: nat, mi: nat, s: nat): string
    requires h < 100 && mi < 100 && s < 100
  {
    "'" + ZeroPad(h, 2) + [':'] + ZeroPad(mi, 2) + [':'] + ZeroPad(s, 2) + "'"
  }

  /** `'%04d-%02d-%02d %02d:%02d:%02d'`. */
  function DatetimeLiteral(y: nat, m: nat, d: nat, h: nat, mi: nat, s: nat): string
    requires y < 10000 && m < 100 && d < 100 && h < 100 && mi < 100 && s < 100
  {
    "'" + ZeroPad(y, 4) + "-" + ZeroPad(m, 2) + "-" + ZeroPad(d, 2) + " "
    + ZeroPad(h, 2) + ":" + ZeroPad(mi, 2) + ":" + ZeroPad(s, 2) + "'"
  }

  /** `X'%02x%02x%02x%02x'`. */
  function BlobLiteral(a: nat, b: nat, c: nat, d: nat): string
    requires a < 256 && b < 256 && c < 256 && d < 256
  {
    "X'" + Hex2(a) + Hex2(b) + Hex2(c) + Hex2(d) + "'"
  }

  ghost predicate IsD100Text(v: string) {
    exists k :: 1 <= k <= 100 && v == NatToString(k)
  }

  ghost predicate IsDate(v: string) {
    exists y, m, d :: 2000 <= y <= 2022 && 1 <= m <= 12 && 1 <= d <= 28 && v == DateLiteral(y, m, d)
  }

  ghost predicate IsTime(v: string) {
    exists h, mi, s :: 0 <= h < 24 && 0 <= mi < 60 && 0 <= s < 60 && v == TimeLiteral(h, mi, s)
  }

  ghost predicate IsDatetime(v: string) {
    exists y, m, d, h, mi, s :: 0 <= y < 9999 && 1 <= m <= 12 && 1 <= d <= 28
      && 0 <= h < 24 && 0 <= mi < 60 && 0 <= s < 60 && v == DatetimeLiteral(y, m, d, h, mi, s)
  }

  ghost predicate IsBlob(v: string) {
    exists a, b, c, d :: 0 <= a < 256 && 0 <= b < 256 && 0 <= c < 256 && 0 <= d < 256
      && v == BlobLiteral(a, b, c, d)
  }

  /**
   * The literal texts generateConstantExpression writes for each type. The
   * `%f` text of a float (REAL, and NUMERIC's float case) is not modelled.
   */
  ghost predicate ConstantText(t: SqlType, v: string) {
    match t
    case INT => IsD100Text(v)
    case REAL => true
    case TEXT => |v| >= 6 && v[..5] == "'text" && v[|v| - 1] == '\'' && IsD100Text(v[5..|v| - 1])
    case BLOB => IsBlob(v)
    case NUMERIC => true
    case BOOL => v == "TRUE" || v == "FALSE"
    case DATE => v == "CURRENT_DATE" || IsDate(v)
    case TIME => v == "CURRENT_TIME" || IsTime(v)
    case DATETIME => v == "CURRENT_TIMESTAMP" || IsDatetime(v)
    case _ => v == "NULL"
  }

  /** A text the model does not pin down: the `%f` of a float, a filled-in datetime template. */
  method AnyText() returns (v: string)
  {
    v :| true;
  }

  method D100Text() returns (v: string)
    ensures IsD100Text(v)
  {
    var k := Roll(100);
    v := NatToString(k);
  }

  method TextValue() returns (v: string)
    ensures |v| >= 6 && v[..5] == "'text" && v[|v| - 1] == '\'' && IsD100Text(v[5..|v| - 1])
  {
    var k := D100Text();
    v := "'text" + k + "'";
    assert v[5..|v| - 1] == k;
  }

  method BlobValue() returns (v: string)
    ensures IsBlob(v)
  {
    var a := Intn(256);
    var b := Intn(256);
    var c := Intn(256);
    var d := Intn(256);
    v := BlobLiteral(a, b, c, d);
  }

  method DateValue() returns (v: string)
    ensures v == "CURRENT_DATE" || IsDate(v)
  {
    var r := Roll(6);
    if r < 6 {
      var y := Intn(23);
      var m := Intn(12);
      var d := Intn(28);
      v := DateLiteral(2000 + y, 1 + m, 1 + d);
    } else {
      v := "CURRENT_DATE";
    }
  }

  method TimeValue() returns (v: string)
    ensures v == "CURRENT_TIME" || IsTime(v)
  {
    var r := Roll(6);
    if r < 6 {
      var h := Intn(24);
      var mi := Intn(60);
      var s := Intn(60);
      v := TimeLiteral(h, mi, s);
    } else {
      v := "CURRENT_TIME";
    }
  }

  method DatetimeValue() returns (v: string)
    ensures v == "CURRENT_TIMESTAMP" || IsDatetime(v)
  {
    var r := Roll(6);
    if r < 6 {
      var y := Intn(9999);
      var m := Intn(12);
      var d := Intn(28);
      var h := Intn(24);
      var mi := Intn(60);
      var s := Intn(60);
      v := DatetimeLiteral(y, 1 + m, 1 + d, h, mi, s);
    } else {
      v := "CURRENT_TIMESTAMP";
    }
  }

  /**
   * generateConstantExpression: a literal of type `t`, or of a type drawn
   * from Types when none is asked for, at the caller's Base.
   */
  method GenerateConstant(ctx: Ctx, t: SqlType) returns (e: Prod)
    ensures e.ConstExpr? && e.base == ctx.base
    ensures t != INVALID ==> e.typ == t
    ensures t == INVALID ==> e.typ in Types
    ensures ConstantText(e.typ, e.value)
  {
    var typ := t;
    if typ == INVALID {
      var p := Pick(Types);
      typ := p.value;
    }
    var value: string;
    match typ {
      case INT => value := D100Text();
      case REAL => value := AnyText();
      case TEXT => value := TextValue();
      case BLOB => value := BlobValue();
      case NUMERIC =>
        var r := Roll(6);
        if r > 3 {
          value := D100Text();
        } else {
          value := AnyText();
        }
      case BOOL =>
        var r := Roll(6);
        value := if r > 3 then "TRUE" else "FALSE";
      case DATE => value := DateValue();
      case TIME => value := TimeValue();
      case DATETIME => value := DatetimeValue();
      case _ => value := "NULL";
    }
    e := ConstExpr(ctx.base, value, typ);
  }

  /** Where the three two-separator fields of a quoted literal sit. */
  lemma FieldsAt(a: string, b: string, c: string, s1: char, s2: char)
    requires |b| == 2 && |c| == 2
    ensures var v := "'" + a + [s1] + b + [s2] + c + "'";
      |v| == |a| + 8 && v[0] == '\'' && v[|a| + 1] == s1 && v[|a| + 4] == s2 && v[|a| + 7] == '\''
      && v[1..|a| + 1] == a && v[|a| + 2..|a| + 4] == b && v[|a| + 5..|a| + 7] == c
  {
  }

  /** Three zero-padded numbers between quotes and separators read back as those numbers. */
  lemma PaddedFields(v: string, x: nat, y: nat, z: nat, w: nat, s1: char, s2: char)
    requires x < Pow10(w) && y < 100 && z < 100
    requires v == "'" + ZeroPad(x, w) + [s1] + ZeroPad(y, 2) + [s2] + ZeroPad(z, 2) + "'"
    ensures |v| == w + 8 && v[0] == '\'' && v[w + 1] == s1 && v[w + 4] == s2 && v[w + 7] == '\''
    ensures IsDigits(v[1..w + 1]) && IsDigits(v[w + 2..w + 4]) && IsDigits(v[w + 5..w + 7])
    ensures DigitsValue(v[1..w + 1]) == x && DigitsValue(v[w + 2..w + 4]) == y
      && DigitsValue(v[w + 5..w + 7]) == z
  {
    var sx, sy, sz := ZeroPad(x, w), ZeroPad(y, 2), ZeroPad(z, 2);
    FieldsAt(sx, sy, sz, s1, s2);
    ZeroPadValue(x, w);
    ZeroPadValue(y, 2);
    ZeroPadValue(z, 2);
  }

  /** A DATE literal reads back as the year, month and day it was printed from. */
  lemma DateFields(y: nat, m: nat, d: nat)
    requires 2000 <= y <= 2022 && 1 <= m <= 12 && 1 <= d <= 28
    ensures var v := DateLiteral(y, m, d);
      |v| == 12 && v[0] == '\'' && v[5] == '-' && v[8] == '-' && v[11] == '\''
      && IsDigits(v[1..5]) && IsDigits(v[6..8]) && IsDigits(v[9..11])
      && DigitsValue(v[1..5]) == y && DigitsValue(v[6..8]) == m && DigitsValue(v[9..11]) == d
  {
    PaddedFields(DateLiteral(y, m, d), y, m, d, 4, '-', '-');
  }

  /** A TIME literal reads back as the hour, minute and second it was printed from. */
  lemma TimeFields(h: nat, mi: nat, s: nat)
    requires h < 24 && mi < 60 && s < 60
    ensures var v := TimeLiteral(h, mi, s);
      |v| == 10 && v[0] == '\'' && v[3] == ':' && v[6] == ':' && v[9] == '\''
      && IsDigits(v[1..3]) && IsDigits(v[4..6]) && IsDigits(v[7..9])
      && DigitsValue(v[1..3]) == h && DigitsValue(v[4..6]) == mi && DigitsValue(v[7..9]) == s
  {
    PaddedFields(TimeLiteral(h, mi, s), h, mi, s, 2, ':', ':');
  }

  // --------------------------------------------------------------- unicode

  /**
   * generateUnicode: a one-character text literal. The loop re-draws a
   * surrogate code point; Dafny's `char` has none, so the cast itself checks
   * that no surrogate gets through.
   */
  method GenerateUnicode(ctx: Ctx, fuel: nat) returns (r: Gen<Prod>)
    ensures r.Err? ==> r.error == OutOfFuel
    ensures r.Ok? ==> r.value.ConstExpr? && r.value.base == ctx.base && r.value.typ == TEXT
    ensures r.Ok? ==> |r.value.value| == 3 && r.value.value[0] == '\'' && r.value.value[2] == '\''
    ensures r.Ok? ==> !(0xD800 <= r.value.value[1] as int <= 0xDFFF)
  {
    var f := fuel;
    while f > 0
      decreases f
    {
      f := f - 1;
      var cp := Intn(0x10FFFF + 1);
      if 0xD800 <= cp <= 0xDFFF {
        continue;
      }
      return Ok(ConstExpr(ctx.base, "'" + [cp as char] + "'", TEXT));
    }
    return Err(OutOfFuel);
  }

  // ------------------------------------------------------ function calls

  /** The argument types that produce a value: all but MULTI. */
  function NonMulti(ats: seq<SqlType>): (r: seq<SqlType>)
    ensures |r| <= |ats|
  {
    if ats == [] then []
    else NonMulti(ats[..|ats| - 1]) + (if ats[|ats| - 1] == MULTI then [] else [ats[|ats| - 1]])
  }

  lemma NonMultiSnoc(ats: seq<SqlType>, at: SqlType)
    ensures NonMulti(ats + [at]) == NonMulti(ats) + (if at == MULTI then [] else [at])
  {
    assert (ats + [at])[..|ats|] == ats;
  }

  /** One more argument type read by the loop of generateFunctionArguments. */
  lemma ArgPrefixStep(ats: seq<SqlType>, k: nat)
    requires k < |ats|
    ensures NonMulti(ats[..k + 1]) == NonMulti(ats[..k]) + (if ats[k] == MULTI then [] else [ats[k]])
    ensures TIMEVALUE in ats[..k + 1] <==> TIMEVALUE in ats[..k] || ats[k] == TIMEVALUE
  {
    assert ats[..k + 1] == ats[..k] + [ats[k]];
    NonMultiSnoc(ats[..k], ats[k]);
  }

  /** One value per argument type that is not MULTI, and none of them MULTI. */
  lemma {:induction false} NonMultiCount(ats: seq<SqlType>)
    ensures |NonMulti(ats)| == |ats| - multiset(ats)[MULTI]
    ensures MULTI !in NonMulti(ats)
    decreases |ats|
  {
    if ats != [] {
      var init := ats[..|ats| - 1];
      NonMultiCount(init);
      assert ats == init + [ats[|ats| - 1]];
    }
  }

  /** What generateFunctionArguments produces for one argument type other than MULTI. */
  ghost predicate ArgFits(at: SqlType, e: Prod, ctx: Ctx) {
    e.ConstExpr? && e.base == ctx.base
    && match at
       case TIMEVALUE => e.typ == TEXT
       case TIMEMODIFIER => e.typ == TEXT
       case RUNE => e.typ == TEXT && |e.value| == 3
       case ANY => e.typ in Types && ConstantText(e.typ, e.value)
       case REAL01 => e.typ == REAL
       case _ => (if at == INVALID then e.typ in Types else e.typ == at) && ConstantText(e.typ, e.value)
  }

  /** A modifier with no time value before it breaks ModifierAfterValue. */
  lemma ModifierWithoutValue(ats: seq<SqlType>, k: nat)
    requires k < |ats| && ats[k] == TIMEMODIFIER && TIMEVALUE !in ats[..k]
    ensures !ModifierAfterValue(ats)
  {
  }

  /** Each argument fits the argument type of the same index. */
  ghost predicate ArgsFit(ats: seq<SqlType>, vals: seq<Prod>, ctx: Ctx)
    decreases |ats|
  {
    |vals| == |ats|
    && (ats != [] ==> ArgsFit(ats[..|ats| - 1], vals[..|vals| - 1], ctx) && ArgFits(ats[|ats| - 1], vals[|vals| - 1], ctx))
  }

  lemma FitsSnoc(ats: seq<SqlType>, vals: seq<Prod>, at: SqlType, v: Prod, ctx: Ctx)
    requires ArgsFit(ats, vals, ctx) && ArgFits(at, v, ctx)
    ensures ArgsFit(ats + [at], vals + [v], ctx)
  {
    assert (ats + [at])[..|ats|] == ats;
    assert (vals + [v])[..|vals|] == vals;
  }

  /** ArgsFit, index by index. */
  lemma ArgsFitAt(ats: seq<SqlType>, vals: seq<Prod>, ctx: Ctx)
    requires ArgsFit(ats, vals, ctx)
    ensures forall m :: 0 <= m < |vals| ==> ArgFits(ats[m], vals[m], ctx)
  {
    forall m | 0 <= m < |vals|
      ensures ArgFits(ats[m], vals[m], ctx)
    {
      ArgFitsIndex(ats, vals, ctx, m);
    }
  }

  lemma {:induction false} ArgFitsIndex(ats: seq<SqlType>, vals: seq<Prod>, ctx: Ctx, m: nat)
    requires ArgsFit(ats, vals, ctx) && m < |vals|
    ensures ArgFits(ats[m], vals[m], ctx)
    decreases |ats|
  {
    if m < |vals| - 1 {
      var ats', vals' := ats[..|ats| - 1], vals[..|vals| - 1];
      ArgFitsIndex(ats', vals', ctx, m);
      assert ats'[m] == ats[m] && vals'[m] == vals[m];
    }
  }

  /**
   * The switch of generateFunctionArguments for one argument type other
   * than MULTI. `tValue` is the template of the last time value; a time
   * value replaces it, and a modifier before any time value panics.
   */
  method GenerateArgument(ctx: Ctx, at: SqlType, tValue: string, fuel: nat) returns (r: Gen<Prod>, tValue': string)
    requires at != MULTI
    ensures r.Ok? ==> ArgFits(at, r.value, ctx)
    ensures r.Err? ==> r.error == OutOfFuel || (at == TIMEMODIFIER && tValue == "" && r.error == Panic("expected tValue to be set"))
    ensures at == TIMEVALUE ==> tValue' in DatetimeTimeValues && tValue' != ""
    ensures at != TIMEVALUE ==> tValue' == tValue
  {
    tValue' := tValue;
    if at == TIMEVALUE {
      var idx := Intn(12);
      var val := AnyText();
      tValue' := DatetimeTimeValues[idx];
      return Ok(ConstExpr(ctx.base, val, TEXT)), tValue';
    } else if at == TIMEMODIFIER {
      if tValue == "" {
        return Err(Panic("expected tValue to be set")), tValue';
      }
      var mod := AnyText();
      return Ok(ConstExpr(ctx.base, mod, TEXT)), tValue';
    } else if at == RUNE {
      r := GenerateUnicode(ctx, fuel);
    } else if at == ANY {
      var e := GenerateConstant(ctx, INVALID);
      r := Ok(e);
    } else if at == REAL01 {
      var f := AnyText();
      r := Ok(ConstExpr(ctx.base, f, REAL));
    } else {
      var e := GenerateConstant(ctx, at);
      r := Ok(e);
    }
  }

  /**
   * generateFunctionArguments: `for range i` reads `i` once, so the loop
   * runs once per argument type and MULTI's extra count has no effect; each
   * other type gives one constant, in order.
   */
  method GenerateFunctionArguments(ctx: Ctx, argTypes: seq<SqlType>, fuel: nat) returns (r: Gen<seq<Prod>>)
    ensures r.Ok? ==> |r.value| == |NonMulti(argTypes)| && |r.value| <= |argTypes|
    ensures r.Ok? ==> ArgsFit(NonMulti(argTypes), r.value, ctx)
    ensures r.Err? ==>
      (r.error == OutOfFuel || (r.error == Panic("expected tValue to be set") && !ModifierAfterValue(argTypes)))
  {
    var vals: seq<Prod> := [];
    var tValue := "";
    var i := |argTypes|;
    var j := 0;
    var n := i;
    for k := 0 to n
      invariant j == k && ArgsLoop(argTypes, k, vals, tValue, ctx)
    {
      var at := argTypes[j];
      if at == MULTI {
        var extra := Intn(100);
        i := i + extra;
      }
      var step;
      step, tValue := ArgumentStep(ctx, argTypes, k, vals, tValue, fuel);
      if step.Err? {
        return Err(step.error);
      }
      vals := step.value;
      if j < |argTypes| {
        j := j + 1;
      }
    }
    assert argTypes[..n] == argTypes;
    return Ok(vals);
  }

  /** After `k` argument types: the values fit the non-MULTI ones, and a time value is set once one was read. */
  ghost predicate ArgsLoop(ats: seq<SqlType>, k: nat, vals: seq<Prod>, tValue: string, ctx: Ctx) {
    k <= |ats| && ArgsFit(NonMulti(ats[..k]), vals, ctx) && (tValue != "" <==> TIMEVALUE in ats[..k])
  }

  /** One pass of generateFunctionArguments' loop: nothing for MULTI, else one more argument. */
  method ArgumentStep(ctx: Ctx, ats: seq<SqlType>, k: nat, vals: seq<Prod>, tValue: string, fuel: nat)
    returns (r: Gen<seq<Prod>>, tValue': string)
    requires k < |ats| && ArgsLoop(ats, k, vals, tValue, ctx)
    ensures r.Ok? ==> ArgsLoop(ats, k + 1, r.value, tValue', ctx)
    ensures r.Err? ==>
      (r.error == OutOfFuel || (r.error == Panic("expected tValue to be set") && !ModifierAfterValue(ats)))
  {
    ArgPrefixStep(ats, k);
    var at := ats[k];
    if at == MULTI {
      assert NonMulti(ats[..k + 1]) == NonMulti(ats[..k]) + [];
      assert NonMulti(ats[..k]) + [] == NonMulti(ats[..k]);
      return Ok(vals), tValue;
    }
    var v;
    v, tValue' := GenerateArgument(ctx, at, tValue, fuel);
    if v.Err? {
      if v.error != OutOfFuel {
        ModifierWithoutValue(ats, k);
      }
      return Err(v.error), tValue';
    }
    FitsSnoc(NonMulti(ats[..k]), vals, at, v.value, ctx);
    r := Ok(vals + [v.value]);
  }

  /**
   * generateFunctionCallExpression (not aggregate): a built-in function with
   * generated arguments, or an error when its return type is not the
   * requested one.
   */
  method GenerateFunctionCall(ctx: Ctx, t: SqlType, fuel: nat) returns (r: Gen<Prod>)
    ensures r.Ok? ==> r.value.FunCallExpr? && r.value.base == ctx.base && r.value.proc in BuiltInFunctions
    ensures r.Ok? ==> !r.value.isAggregate && r.value.typ == r.value.proc.retType
    ensures r.Ok? ==> |r.value.params| == |NonMulti(r.value.proc.argTypes)|
    ensures r.Ok? ==> forall k :: 0 <= k < |r.value.params| ==>
      ArgFits(NonMulti(r.value.proc.argTypes)[k], r.value.params[k], ctx)
    ensures r.Ok? ==> ValueOk(r.value, t)
    ensures r.Err? ==> r.error == OutOfFuel || (t != INVALID && r.error == NoMatch("no matching constraint found"))
  {
    var p := Pick(BuiltInFunctions);
    var proc := p.value;
    BuiltInFunctionsWellFormed(proc);
    var args := GenerateFunctionArguments(ctx, proc.argTypes, fuel);
    if args.Err? {
      return Err(args.error);
    }
    if t != INVALID && proc.retType != t {
      return Err(NoMatch("no matching constraint found"));
    }
    ArgsFitAt(NonMulti(proc.argTypes), args.value, ctx);
    CallGood(ctx.base, proc, args.value, proc.retType, t);
    r := Ok(FunCallExpr(ctx.base, proc, false, "", args.value, proc.retType));
  }

  // ----------------------------------------------------- column references

  /** `e` names column `col` of relation `rel`, one of `refs`, as `rel.col` with the column's type. */
  ghost predicate RefersTo(e: Prod, refs: seq<Relation>) {
    e.ColumnReference?
    && exists rc: RelationColumn :: rc.rel in refs && rc.col in rc.rel.Columns()
         && e.reference == rc.rel.Name() + "." + rc.col.name && e.typ == rc.col.typ
  }

  /**
   * generateColumnReference: any column of any reference when no type is
   * asked for (a panic when there is no reference or it has no column);
   * otherwise a column of the requested type, an error when there is none.
   */
  method GenerateColumnReference(ctx: Ctx, t: SqlType) returns (r: Gen<Prod>)
    ensures r.Ok? ==> RefersTo(r.value, ctx.scope.refs) && r.value.base == ctx.base
    ensures r.Ok? ==> ValueOk(r.value, t)
    ensures t == INVALID && r.Err? ==> r.error == Panic("No items to pick from")
    ensures t == INVALID && ctx.scope.refs == [] ==> r.Err?
    ensures t != INVALID ==> (r.Err? <==> Matching(ctx.scope.refs, t) == [])
    ensures t != INVALID && r.Err? ==> r.error == NoMatch("no matching pairs found by type")
  {
    if t == INVALID {
      var rel := Pick(ctx.scope.refs);
      if rel.Err? {
        return Err(rel.error);
      }
      var c := Pick(rel.value.Columns());
      if c.Err? {
        return Err(c.error);
      }
      var e := ColumnReference(ctx.base, rel.value.Name() + "." + c.value.name, c.value.typ);
      assert RefersTo(e, ctx.scope.refs) by {
        var rc := RelationColumn(rel.value, c.value);
        assert rc.rel in ctx.scope.refs && rc.col in rc.rel.Columns();
      }
      ColumnRefGood(e);
      return Ok(e);
    }
    var pairs := RefsOfType(ctx.scope, t);
    if |pairs| == 0 {
      return Err(NoMatch("no matching pairs found by type"));
    }
    var pick := Pick(pairs);
    var rc := pick.value;
    MatchingMembers(ctx.scope.refs, t, rc);
    var e := ColumnReference(ctx.base, rc.rel.Name() + "." + rc.col.name, rc.col.typ);
    ColumnRefGood(e);
    return Ok(e);
  }

  // ----------------------------------------------------- value expressions

  /**
   * generateValueExpression: the window-function branch (never allowed, see
   * WindowNeverAllowed), then a function call when the dice say so, then a
   * column reference when there are references, else a constant.
   */
  method GenerateValueExpression(ctx: Ctx, t: SqlType, fuel: nat) returns (r: Gen<Prod>)
    requires Rooted(ctx)
    ensures r.Ok? ==> ValueOk(r.value, t) && BaseOf(r.value) == Some(ctx.base)
    ensures r.Ok? && r.value.ColumnReference? ==> RefersTo(r.value, ctx.scope.refs)
    ensures r.Err? ==> r.error.NoMatch? || r.error == OutOfFuel || (t == INVALID && r.error.Panic?)
  {
    var w := Roll(20);
    var window := false;
    if w == 1 {
      var d := Roll(6);
      window := ctx.base.level < d && WindowAllowed(ctx.kind, ctx.base.parent);
    }
    WindowNeverAllowed(ctx);
    assert !window;
    var call := false;
    var d := Roll(6);
    if ctx.base.level < d {
      var d' := Roll(6);
      call := d' == 1;
    }
    if call {
      r := GenerateFunctionCall(ctx, t, fuel);
      return;
    }
    var column := false;
    if |ctx.scope.refs| > 0 {
      var d' := Roll(20);
      column := d' > 1;
    }
    if column {
      r := GenerateColumnReference(ctx, t);
      return;
    }
    var e := GenerateConstant(ctx, t);
    ConstGood(e);
    r := Ok(e);
  }

  /**
   * retry around generateValueExpression: at most 101 attempts, each error
   * retried, the first success (or panic) returned; an error only when all
   * 101 attempts failed.
   */
  method RetryValueExpression(ctx: Ctx, t: SqlType, fuel: nat) returns (r: Gen<Prod>, ghost attempts: seq<Gen<Prod>>)
    requires Rooted(ctx)
    ensures 1 <= |attempts| <= 101
    ensures forall i :: 0 <= i < |attempts| - 1 ==> attempts[i].Err? && attempts[i].error.NoMatch?
    ensures !(attempts[|attempts| - 1].Err? && attempts[|attempts| - 1].error.NoMatch?) ==> r == attempts[|attempts| - 1]
    ensures attempts[|attempts| - 1].Err? && attempts[|attempts| - 1].error.NoMatch? ==>
      |attempts| == 101 && r == Err(NoMatch("unable to generated valid value"))
    ensures r.Ok? ==> ValueOk(r.value, t) && BaseOf(r.value) == Some(ctx.base)
    ensures r.Err? ==> r.error.NoMatch? || r.error == OutOfFuel || (t == INVALID && r.error.Panic?)
  {
    attempts := [];
    var cnt := 0;
    while cnt <= 100
      invariant cnt <= 101 && |attempts| == cnt
      invariant forall i :: 0 <= i < cnt ==> attempts[i].Err? && attempts[i].error.NoMatch?
      decreases 101 - cnt
    {
      cnt := cnt + 1;
      var res := GenerateValueExpression(ctx, t, fuel);
      attempts := attempts + [res];
      if !(res.Err? && res.error.NoMatch?) {
        return res, attempts;
      }
    }
    r := Err(NoMatch("unable to generated valid value"));
  }
}
