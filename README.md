# A verified model of a differential SQL fuzzer's core

The fuzzer generates random batches of SQL statements over a freshly
generated schema. It runs each batch against an old and a new SQLite
build, compares what the two report, and keeps the batches that reach
new code, as its coverage bitmap shows. This project models the parts
of it that decide what gets generated and what gets reported:

- **Schema**: SQL types, tables, columns, the built-in function tables
  and their DDL text.
- **Scopes**: what a query can see, the typed column lookup RefsOfType,
  and the per-statement alias counters (`StmtSeq`).
- **Ast**: the statement and expression tree, its SQL text (`Out`), its
  types, and how `Base` links a node to its level.
- **Characteristics**: the visitor that counts clauses and records the
  deepest level of a tree.
- **Grammar**, **Statements** and **TopStatements**: the recursive
  random generator of statements, clauses and expressions.
- **Generator**: the three ways of filling a batch of statements.
- **Batch**: a batch and its two printed forms.
- **Instrument**: the coverage bitmap: novelty, merge and picture.
- **DiffEngine**: the verdict on two engines' outcomes, the result text
  and the database dump.

Randomness is modelled as nondeterminism, so every proved property holds
for every outcome of the dice. Each die (dN, rand.Intn, randomPick) is a
method whose only promise is its range. Go panics are the error values
`Panic(reason)`. The errors that `retry` retries are `NoMatch(reason)`.
The loops and recursions with no static bound carry a `fuel` parameter,
and `OutOfFuel` stands for "this run has not finished yet". So every
`Ok` result the model can return is an outcome the Go code can produce,
with two exceptions, both listed under "## Findings": the model builds the
VACUUM INTO file in its intended form (`TopStatements.VacuumFile`, used by
`TopStatements.GenerateVacuum`), and it gives a comparison the caller's
Base (`Statements.GenerateComparison`).

The Go code often passes the parent node `p ast.Prod` only to reach its
`Base`, its scope and its kind. The model passes a context
`Ctx(kind, base, scope)` instead. `NewBase` copies the parent's *parent*
link rather than pointing to the parent, so every node's parent link is
nil. The model proves this (`Grammar.NewBaseRooted`) and uses it:
`isWindowFunctionAllowed` is always false, so the window-function branch
of generateValueExpression is never taken (`Grammar.WindowNeverAllowed`).

VACUUM is described as a rare statement kind, but the VACUUM branch of
GenerateStatement needs two d1000 rolls that sum to 1, which is
impossible. The model follows the code and never generates it
(`TopStatements.GenerateStatement`).

`Ast.Out` is one function over every node. For the verifier's sake it
dispatches to one function per group of nodes (`StatementOut`,
`OtherStatementOut`, `TableRefOut`, `SimpleExprOut`, `CallExprOut`,
`WindowOut`, `CaseOut`, `ConditionalExprOut`). What each node prints is
stated by the `Ast.*Out*` lemmas in the table, one or more per Out method
of ast.go. `Ast.TypeOf` is stated the same way, by `Ast.StoredTypeOf`,
`Ast.BoolNodesType` and `Ast.CoalesceTypeOf`.

## Model

| member | source | states |
|---|---|---|
| Schema.TypeOutRoundTrip | src/schema/schema.go:44-66 | SqlType.Out (TypeOut) has a DDL spelling exactly for the nine storage types, the others panicking; it and the grammar's type names are inverse, except that TIME has no Out |
| Schema.ColumnOut | src/schema/schema.go:170-172 | a column prints as `name TYPE`, and has no text exactly when its type has none |
| Schema.NewTable | src/schema/schema.go:107-114 | NewTable keeps the name, the columns and the flags, and drops the defaults it is given |
| Schema.TableOut | src/schema/schema.go:116-137 | the loop over the columns yields exactly TableText: `CREATE TABLE name (` then one line per column, separated by commas, then `)`; nothing (a panic) when a column type has no Out |
| Schema.ColumnLineOut | src/schema/schema.go:116-137 | one pass of Table.Out's loop writes a line exactly when the column can be printed, and that line is the column's line |
| Schema.LoopLinesJoin | src/schema/schema.go:116-137 | what the loop has written after i columns is the i column lines joined by `,\n`, with `,\n` after the last one unless it is the last column |
| Schema.PrefixStops | src/schema/schema.go:116-137 | a column the loop cannot print makes the whole table unprintable |
| Schema.TableTextOfLoop | src/schema/schema.go:116-137 | a printable table's text is the header, everything the loop wrote, and `)` |
| Schema.TableTextDefined | src/schema/schema.go:116-137 | a table has DDL text exactly when every column type has an Out and the defaults fit |
| Schema.NewTableIgnoresDefaultsAndFlags | src/schema/schema.go:107-137 | neither the defaults nor the TEMP / IF NOT EXISTS flags given to NewTable reach the DDL |
| Schema.TimeColumnHasNoText | src/schema/schema.go:44-66 | a table with a TIME column has no DDL, because SqlType.Out panics on TIME |
| Schema.SchemaOut | src/schema/schema.go:77-91 | the loop over the tables yields exactly SchemaText: the table statements joined by blank lines, or nothing when one of them cannot be printed |
| Schema.Ident | src/schema/schema.go:206-211 | a routine is named `schema.name` when it has a schema, else by its bare name |
| Schema.BuiltInFunctionsWellFormed | src/schema/schema.go:283-409 | in the built-in function table, every MULTI is followed by another argument type, and every time modifier comes after a time value |
| Schema.BuiltInAggregatesConcrete | src/schema/schema.go:213-234 | every aggregate takes at most two arguments, each INTEGER, REAL or TEXT |
| Schema.RemoveNonDeterministic | src/schema/schema.go:236-267 | the filtering loop yields exactly Deterministic(functions) |
| Schema.DeterministicMembers | src/schema/schema.go:236-267 | a routine survives the filter exactly when it was in the list and its name is not a non-deterministic one |
| Schema.DeterministicAppend | src/schema/schema.go:236-267 | the filter keeps the order of the survivors (it commutes with concatenation) |
| Schema.DeterministicKeepsClean | src/schema/schema.go:236-267 | a list with no listed name comes out unchanged |
| Schema.DeterministicIdempotent | src/schema/schema.go:236-267 | filtering twice is the same as filtering once |
| Schema.DeterministicBuiltInsClean | src/schema/schema.go:236-267 | the filtered built-in table has only built-in routines, and none with a listed name |
| Scopes.StmtSeq.constructor | src/generator/generator.go:48-52 | each statement starts from an empty counter map |
| Scopes.StmtSeq.Incr | src/ast/ast.go:86-88 | IncrStmtUid adds one to the named counter and leaves every other counter as it was |
| Scopes.StmtSeq.Start | src/ast/ast.go:90-92 | StartStmtUid sets the named counter and leaves every other counter as it was |
| Scopes.RefsOfType | src/ast/scope.go:27-37 | the nested loop returns exactly Matching(refs, t) |
| Scopes.ColumnsOfTypeLoop | src/ast/scope.go:29-35 | the inner loop returns the columns of one ref that have type t, in column order |
| Scopes.MatchingMembers | src/ast/scope.go:27-37 | a (relation, column) pair is returned exactly when the relation is a ref, the column is one of its columns, and the column has the requested type |
| Scopes.ColumnsOfTypeMembers | src/ast/scope.go:29-35 | the same, for the columns of one relation |
| Scopes.MatchingAppend | src/ast/scope.go:27-37 | the pairs of earlier refs come before those of later refs |
| Scopes.MatchingSingle | src/ast/scope.go:27-37 | within one relation, the pairs come in column order |
| Scopes.MatchingEmpty | src/ast/scope.go:27-37 | the result is empty exactly when no ref has a column of type t |
| Scopes.ColumnTypesMembers | src/ast/ast.go:78-80 | a type is among the collected column types exactly when some column has it (part of the assumed body of Scope.AvailableTypes, which this forwarder calls) |
| Scopes.AvailableTypesMembers | src/ast/ast.go:78-80 | Base.AvailableTypes forwards to Scope.AvailableTypes, whose body is assumed to list every ref column's type; so a type is available exactly when some ref has a column of it |
| Scopes.AvailableTypeHasMatch | src/ast/ast.go:78-80 | with that assumed body, a type drawn through this forwarder always has a matching column, so RefsOfType on it is never empty |
| Scopes.NewScope | src/ast/ast.go:182 | the scope of a new INSERT (and of UPDATE, DELETE and WITH at lines 238, 309 and 351) comes from NewScope, whose body is assumed: the parent's tables and schema and a copy of its refs |
| Ast.NewBase | src/ast/ast.go:39-48 | a new Base is one level below its parent and copies the parent's own parent link; there is a zero Base for nil |
| Ast.NewSelectScope | src/ast/ast.go:396-420 | a SELECT's local scope has the outer tables and schema, and the outer refs only when it is lateral |
| Ast.InsertOutForm | src/ast/ast.go:191-214 | INSERT prints DEFAULT VALUES exactly when it has no value, and otherwise its values joined by commas |
| Ast.SetClauseOutForm | src/ast/ast.go:268-284 | SET prints the `name = value` pairs of the named columns, joined by commas |
| Ast.CteOutForm | src/ast/ast.go:359-374 | WITH prints the named queries joined by commas, with the main query right after the last `)` |
| Ast.FromClauseOutForm | src/ast/ast.go:454-464 | FROM prints the table references joined by commas |
| Ast.SelectClauseOutForm | src/ast/ast.go:497-508 | the select list prints `expr AS cN` items joined by commas |
| Ast.OrderByOutForm | src/ast/ast.go:514-546 | ORDER BY prints nothing without terms, and otherwise the terms joined by commas |
| Ast.TruthOut | src/ast/ast.go:819-828 | a truth value prints as `true` or `false` |
| Ast.NullPredicateOut | src/ast/ast.go:836-849 | a NULL test prints its operand followed by `IS NULL`, or by `IS NOT NULL` when negated |
| Ast.BoolNodesType | src/ast/ast.go:792-849 | comparisons, EXISTS, truth values and NULL tests all have type BOOLEAN, whatever their parts |
| Ast.FunCallOutForm | src/ast/ast.go:860-880 | a function call prints `(*)` for an aggregate without arguments, the quantifier before a single argument, and otherwise the arguments joined by commas |
| Ast.WindowOutUnfold | src/ast/ast.go:894-914 | a window function prints its aggregate, then PARTITION BY and ORDER BY; both separator loops compare against the PARTITION BY length |
| Ast.WindowOrderBySeparator | src/ast/ast.go:894-914 | with lists of equal length the window is correctly comma-separated; with fewer ORDER BY than PARTITION BY terms, a comma is left before `)` |
| Ast.CaseOutUnfold | src/ast/ast.go:929-954 | CASE prints each WHEN with the THEN of the same index, then ELSE and END |
| Ast.CaseOutForm | src/ast/ast.go:929-954 | the WHEN arms are joined by the node's indent plus five spaces |
| Ast.CoalesceOutForm | src/ast/ast.go:980-991 | COALESCE prints its arguments joined by commas |
| Ast.FirstNonNullSpec | src/ast/ast.go:993-1000 | FirstNonNull, the loop of CoalesceExpr.Type, gives NULL exactly when every type in the list is NULL, and otherwise the first type that is not NULL |
| Ast.ViewOutForm | src/ast/ast.go:125-158 | a view prints its flags, its name, its column list (when it has one) joined by commas, and its query |
| Ast.UpdateOutForm | src/ast/ast.go:247-259 | UPDATE prints the table, its SET clause on the next line, and WHERE on a line of its own |
| Ast.DeleteOutForm | src/ast/ast.go:318-328 | DELETE FROM prints the table, then WHERE on the next line |
| Ast.SelectOutForm | src/ast/ast.go:422-446 | SELECT prints the quantifier only when set, then the select list, FROM and WHERE each on its own line at the node's indent, then ORDER BY and `limit offset` only when present |
| Ast.ExplainOut | src/ast/ast.go:566-574 | EXPLAIN prints QUERY PLAN only when asked, then the explained statement |
| Ast.AnalyseVacuumOut | src/ast/ast.go:595-623 | ANALYZE prints its name; VACUUM prints its name, and ` INTO file` exactly when it has a file |
| Ast.TableNameOut | src/ast/ast.go:472-474 | a named table prints `name AS alias`, where the alias is its first ref |
| Ast.TableSubqueryOut | src/ast/ast.go:711-721 | a subquery prints LATERAL only when lateral, then the query in parentheses and `as` the first ref of its scope |
| Ast.JoinedTableOutForm | src/ast/ast.go:1051-1076 | a join whose right side is not a join prints the left side, `type JOIN` and the right side followed by the indent and a newline, then ` ON (...)` only with a condition |
| Ast.NestedJoinOutForm | src/ast/ast.go:1051-1076 | a join whose right side is a join puts that join in parentheses |
| Ast.SimpleJoinConditionOut | src/ast/ast.go:1085-1087 | a simple join condition prints its text verbatim |
| Ast.ExpressionJoinConditionOut | src/ast/ast.go:1099-1101 | an expression join condition prints its WHERE expression and nothing else |
| Ast.LeafOut | src/ast/ast.go:745-770 | a column reference prints its reference and a constant its value, verbatim |
| Ast.BinaryOut | src/ast/ast.go:788-790 | a binary expression prints `left op right`, whether or not it has a Base |
| Ast.ExistsOut | src/ast/ast.go:801-809 | EXISTS puts its subquery on its own lines, with the closing parenthesis at the node's indent |
| Ast.CastOut | src/ast/ast.go:966-968 | CAST prints its operand and the DDL name of its target type |
| Ast.IfNullIfOut | src/ast/ast.go:1010-1015 | IFNULL or NULLIF, chosen by the flag, over the two operands |
| Ast.StoredTypeOf | src/ast/ast.go:749-1019 | column references, constants, calls, windows, CASE, CAST and IFNULL/NULLIF report the type they store |
| Ast.CoalesceTypeOf | src/ast/ast.go:993-1000 | COALESCE ignores its stored type: its type is NULL exactly when every argument's type is NULL, and otherwise that of the first argument whose type is not NULL |
| Characteristics.Visitor.constructor | src/ast/characteristics.go:10-15 | a new visitor has no counts and depth 0 |
| Characteristics.Visitor.Visit | src/ast/characteristics.go:17-215 | nil changes nothing; otherwise the new state is the state after walking the tree |
| Characteristics.Visitor.VisitNode | src/ast/characteristics.go:22-214 | one node raises the depth to its level, bumps the counters of its case, and then visits its children in the order of that case |
| Characteristics.Visitor.BumpAll | src/ast/characteristics.go:28-208 | each key of a case is incremented once, in turn, and the depth is unchanged |
| Characteristics.Kids | src/ast/characteristics.go:27-214 | every child the switch visits is structurally smaller than its node, so the walk terminates |
| Characteristics.Arms | src/ast/characteristics.go:185-188 | CASE visits exactly two nodes per WHEN, each a WHEN or a THEN |
| Characteristics.Opt | src/ast/characteristics.go:18-20 | a nil field contributes no visited node |
| Characteristics.Visited | src/ast/characteristics.go:17-215 | the walk starts at the node itself, and every node it reaches has a Base |
| Characteristics.AfterIsTraversal | src/ast/characteristics.go:17-215 | after a walk, the counters have been bumped by the keys of every visited node in pre-order, and the depth is the maximum level met |
| Characteristics.VisitEffect | src/ast/characteristics.go:17-215 | each counter grows by the number of times the visited nodes name it, so counters never shrink and no key disappears; the depth is at least every visited level and equals one of them or the old depth |
| Characteristics.BumpCounts | src/ast/characteristics.go:28-208 | `counts[k]++` over a list of keys adds to each counter the number of times its key occurs |
| Characteristics.MaxLevel | src/ast/characteristics.go:22-25 | the recorded depth is the largest of the old depth and the levels met, and is one of them |
| Characteristics.LeafOnlyDepth | src/ast/characteristics.go:143-144 | a column, constant, truth value or simple join condition only raises the depth |
| Characteristics.SelectOwnCounts | src/ast/characteristics.go:28-47 | a SELECT counts itself once, and WHERE, LIMIT, ORDER and OFFSET once each, exactly when they are present |
| Characteristics.IfNullIfOwnCounts | src/ast/characteristics.go:203-208 | IFNULL/NULLIF bumps exactly one of the two counters, IFNULL exactly when the node is an IFNULL |
| Characteristics.JoinKind | src/ast/characteristics.go:58 | the counted join kind is the text before the first `JOIN`, with no leading or trailing white space left |
| Characteristics.JoinKindOfPlainType | src/ast/characteristics.go:55-64 | a join type without `JOIN` in it and without surrounding white space (CROSS, INNER, LEFT, LEFT OUTER) is counted under `<type> JOIN` |
| Grammar.Roll | src/generator/random.go:5-28 | a dN roll lies in 1..N |
| Grammar.Intn | src/generator/grammar.go:28-28 | rand.Intn(n) lies in 0..n-1 |
| Grammar.Pick | src/generator/random.go:29-34 | randomPick returns an element of the list, and panics on an empty one |
| Grammar.Asserted | src/generator/grammar.go:1086-1090 | after an assert, a retried error becomes a panic with the assert's reason, and a panic passes through |
| Grammar.NewBaseRooted | src/ast/ast.go:39-48 | a Base made under a parent whose own parent link is nil has a nil parent link too |
| Grammar.WindowNeverAllowed | src/generator/grammar.go:790-802 | with nil parent links, isWindowFunctionAllowed is never true |
| Grammar.ConstGood | src/ast/ast.go:760-774 | a constant is a well-formed node whose type is its own |
| Grammar.ColumnRefGood | src/ast/ast.go:745-751 | a column reference is a well-formed node whose type is its column's |
| Grammar.CallGood | src/ast/ast.go:860-884 | a function call over constants is a valid value of its return type |
| Grammar.GenerateConstant | src/generator/grammar.go:578-649 | a literal at the caller's level of the requested type (or of a type from the grammar's list when none is asked for), whose text is of that type's form |
| Grammar.TextValue | src/generator/grammar.go:593-594 | a TEXT literal is `'text` and a d100 value, then a closing quote |
| Grammar.BlobValue | src/generator/grammar.go:595-596 | a BLOB literal is X and eight hex digits between quotes |
| Grammar.DateValue | src/generator/grammar.go:610-618 | a DATE constant is CURRENT_DATE or a quoted year-month-day |
| Grammar.TimeValue | src/generator/grammar.go:619-627 | a TIME constant is CURRENT_TIME or a quoted hour:minute:second |
| Grammar.DatetimeValue | src/generator/grammar.go:628-640 | a DATETIME constant is CURRENT_TIMESTAMP or a quoted date and time |
| Grammar.DateFields | src/generator/grammar.go:611-615 | a DATE literal reads back as the year, month and day it was printed from |
| Grammar.TimeFields | src/generator/grammar.go:620-624 | a TIME literal reads back as the hour, minute and second it was printed from |
| Grammar.PaddedFields | src/generator/grammar.go:611-624 | three zero-padded numbers between quotes and separators read back as those numbers |
| Grammar.GenerateUnicode | src/generator/grammar.go:1054-1064 | a quoted one-character TEXT literal whose character is never a surrogate code point |
| Grammar.NonMultiCount | src/generator/grammar.go:864-908 | the arguments produced are one per argument type that is not MULTI, and none of them is MULTI |
| Grammar.ModifierWithoutValue | src/generator/grammar.go:864-908 | a modifier with no time value before it means the argument list is malformed |
| Grammar.ArgsFitAt | src/generator/grammar.go:864-908 | each generated argument fits the argument type at its index |
| Grammar.GenerateArgument | src/generator/grammar.go:870-905 | one argument fits its type; a time value replaces the remembered template; a modifier before any time value panics |
| Grammar.ArgumentStep | src/generator/grammar.go:866-906 | one pass of the loop adds nothing for MULTI and one fitting argument otherwise, and keeps the remembered template exactly when a time value has been read |
| Grammar.GenerateFunctionArguments | src/generator/grammar.go:864-908 | one fitting argument per argument type that is not MULTI, in order; the only panic comes from a modifier with no time value before it |
| Grammar.GenerateFunctionCall | src/generator/grammar.go:806-826 | a non-aggregate call of a built-in function whose arguments fit its signature and whose return type is the one requested; an error when that type does not match |
| Grammar.GenerateColumnReference | src/generator/grammar.go:530-554 | a column of a visible ref; with no type requested, any column (a panic when there is none); otherwise of that type, and an error exactly when no ref has a column of it |
| Grammar.GenerateValueExpression | src/generator/grammar.go:561-574 | a value of the requested type at the caller's level; a column reference refers to a visible ref |
| Grammar.RetryValueExpression | src/generator/grammar.go:1070-1084 | at most 101 attempts, every one but the last a retried error; the first success or panic is returned, and an error is returned only after 101 failures |
| Grammar.NonMulti | src/generator/grammar.go:864-908 | dropping MULTI never lengthens the list |
| Statements.GenerateTruth | src/generator/grammar.go:670-675 | a truth value at the caller's level, a valid boolean |
| Statements.RandomOperatorByType | src/generator/grammar.go:739-751 | any of the six comparisons for an ordered type, else `=` or `<>` |
| Statements.ComparisonAsWritten | src/generator/grammar.go:678-700 | the comparison as built has both operands but no Base |
| Statements.ComparisonAsWrittenNotVisitable | src/generator/grammar.go:695-699 | the visitor, which reads every node's level, cannot walk that comparison |
| Statements.WhereAsWrittenNotVisitable | src/generator/grammar.go:695-699 | nor any SELECT whose WHERE clause is that comparison |
| Statements.GenerateComparison | src/generator/grammar.go:678-700 | a comparison of two values of one available type, with an operator for that type; a panic when no type is available; in its corrected form, the comparison carries the caller's Base |
| Statements.GenerateNullPredicate | src/generator/grammar.go:716-727 | IS [NOT] NULL over a value at the caller's level |
| Statements.GenerateBoolExpr | src/generator/grammar.go:652-667 | a valid boolean expression at the caller's level; the CTE counter is untouched |
| Statements.GenerateBooleanComparison | src/generator/grammar.go:703-714 | AND or OR over two valid booleans |
| Statements.GenerateExists | src/generator/grammar.go:730-737 | EXISTS over a valid SELECT one level down |
| Statements.GenerateSelect | src/generator/grammar.go:255-275 | a valid SELECT: quantifier, FROM with one table reference, select list, WHERE and LIMIT |
| Statements.SelectOkIntro | src/generator/grammar.go:255-275 | the parts GenerateSelect assembles make a valid SELECT |
| Statements.SetQuantifier | src/generator/grammar.go:258-262 | the quantifier is empty, DISTINCT or ALL |
| Statements.LimitClause | src/generator/grammar.go:270-272 | LIMIT is empty or `LIMIT n` |
| Statements.GenerateFromClause | src/generator/grammar.go:278-292 | one valid table reference, whose refs are appended to the enclosing refs in order |
| Statements.AppendRefs | src/generator/grammar.go:284-286 | the copy loop appends the new refs after the old ones |
| Statements.GenerateSelectItem | src/generator/grammar.go:304-318 | one select item of an available type, named `c<k>` after the "c" counter, which goes up by one |
| Statements.GenerateSelectClause | src/generator/grammar.go:296-324 | at least one item, each of an available type and named after successive values of the "c" counter |
| Statements.DerivedNamesDistinct | src/generator/grammar.go:296-324 | the column names of one select list are pairwise distinct |
| Statements.ItemsSelectList | src/generator/grammar.go:296-324 | a non-empty list of such items is a valid select list |
| Statements.GenerateTableRef | src/generator/grammar.go:487-503 | a valid table reference one level down |
| Statements.GenerateTableOrQueryName | src/generator/grammar.go:506-526 | a scope table aliased `t<n>`, n the "table" counter after its increment, with the "c" counter set to the column count; a panic with no table |
| Statements.TableNameRefOk | src/generator/grammar.go:506-526 | such an alias is a valid table reference |
| Statements.GenerateTableSubquery | src/generator/grammar.go:462-480 | a valid SELECT one level down, aliased `subq<n>` after the "subq" counter |
| Statements.SubqueryRefOk | src/generator/grammar.go:462-480 | its derived columns become the subquery's ref |
| Statements.JoinType | src/generator/grammar.go:336-366 | the join type is CROSS, INNER, LEFT or LEFT OUTER JOIN |
| Statements.GenerateJoinedTable | src/generator/grammar.go:327-389 | a join of two valid table references with a condition over them, one level down |
| Statements.ConcatRefs | src/generator/grammar.go:377-386 | the join's refs are the left refs followed by the right refs |
| Statements.JoinedRefOk | src/generator/grammar.go:327-389 | such a join is a valid table reference |
| Statements.GenerateJoinCondition | src/generator/grammar.go:392-397 | a condition that joins the two sides |
| Statements.GenerateSimpleJoinCondition | src/generator/grammar.go:400-434 | a panic unless a left ref has a column; at most 11 attempts; a success is `L.a = R.b` with two columns of one type |
| Statements.JoinText | src/generator/grammar.go:418-424 | the first right column of the left column's type gives `L.a = R.b`; the text stays empty exactly when there is none |
| Statements.SimpleConditionOk | src/generator/grammar.go:400-434 | a column equality over the two sides' refs is a join condition of them |
| Statements.GenerateExpressionJoinCondition | src/generator/grammar.go:437-459 | a boolean over both sides' refs; it never fails with a retried error |
| Statements.AtLeastOneColumn | src/generator/grammar.go:1092-1099 | true exactly when some ref has a column |
| TopStatements.SetPass | src/generator/grammar.go:190-201 | one pass assigns some columns in column order, each a value of its type |
| TopStatements.GenerateSetClause | src/generator/grammar.go:183-208 | a SET over the table's columns with values of their types; a panic when the target is not a table |
| TopStatements.SetNamesDistinct | src/generator/grammar.go:183-208 | a SET clause never assigns one column twice |
| TopStatements.GenerateInsert | src/generator/grammar.go:142-164 | an INSERT into a scope table with one value per column of its type; a panic with no table or with refs |
| TopStatements.VictimScope | src/ast/ast.go:225-245 | the scope of UPDATE and DELETE is the statement's scope with the target table appended to its refs |
| TopStatements.GenerateUpdate | src/generator/grammar.go:167-180 | an UPDATE of a scope table with a valid WHERE and a SET of that table |
| TopStatements.GenerateDelete | src/generator/grammar.go:211-219 | a DELETE from a scope table with a valid WHERE |
| TopStatements.WithQueries | src/generator/grammar.go:226-237 | at least one valid SELECT, named `cte<k>` after successive values of the "cte" counter |
| TopStatements.CteNamesDistinct | src/generator/grammar.go:226-237 | the names of one WITH are pairwise distinct |
| TopStatements.ExtraTables | src/generator/grammar.go:240-246 | at least one extra table, each one of the statement's tables |
| TopStatements.GenerateCTE | src/generator/grammar.go:222-252 | a WITH of at least one named SELECT and a valid main SELECT; the "cte" counter goes up by the number of queries |
| TopStatements.GenerateAnalyse | src/generator/grammar.go:101-114 | ANALYZE of the schema or of one of its tables; a panic exactly when there is no table |
| TopStatements.VacuumFile | src/generator/grammar.go:116-137 | the intended INTO file: the directory name and the milliseconds between two quotes |
| TopStatements.VacuumFileAsWritten | src/generator/grammar.go:119-128 | the INTO file as built ends in a quote |
| TopStatements.VacuumFileAsWrittenUnbalanced | src/generator/grammar.go:121-122 | since the opening quote is overwritten, the file as built does not start with a quote and differs from the intended one |
| TopStatements.GenerateVacuum | src/generator/grammar.go:116-137 | VACUUM of the schema (or `main`), maybe INTO a file, built in the corrected quoted form VacuumFile rather than the form as written; a panic exactly when the directory cannot be made |
| TopStatements.GenerateStatement | src/generator/grammar.go:67-89 | a valid statement of the scope, and never a VACUUM |
| TopStatements.GenerateExplain | src/generator/grammar.go:91-99 | EXPLAIN of a valid statement |
| Generator.GenerateColumns | src/generator/grammar.go:30-48 | n columns `c0..c<n-1>` of grammar types, with one empty default each before any extra defaults |
| Generator.GenerateColumn | src/generator/grammar.go:33-47 | column k is `c<k>` of a grammar type, with at most one default |
| Generator.GenerateTable | src/generator/grammar.go:24-65 | `num` tables `t0, t1, ...` in order |
| Generator.SchemaNamesDistinct | src/generator/grammar.go:24-65 | table names are pairwise distinct, and so are each table's column names |
| Generator.Universe | src/generator/generator.go:20-38 | the deterministic universe is INTEGER, TEXT, BOOLEAN, NULL; the other adds NUMERIC and BLOB |
| Generator.UniverseDeterministicSubset | src/generator/generator.go:22-33 | the deterministic universe is the other one without NUMERIC and BLOB |
| Generator.BatchScope | src/generator/generator.go:48-52 | a statement starts from the schema's tables and no refs |
| Generator.FreshStatement | src/generator/generator.go:47-54 | one statement valid in that scope, with its own counters; an INSERT, UPDATE or DELETE when asked for |
| Generator.Generator.New | src/generator/generator.go:20-38 | the generator keeps the flag and the matching type universe |
| Generator.Generator.NextBatchRandom | src/generator/generator.go:42-57 | n statements, each valid over one generated single-table schema |
| Generator.Generator.NextBatchUID | src/generator/generator.go:59-74 | n statements, each an INSERT, UPDATE or DELETE, valid over one single-table schema |
| Generator.Generator.FillBatch | src/generator/generator.go:43-56 | a fresh array of n slots over one schema, with every slot filled |
| Generator.Generator.FillSlots | src/generator/generator.go:93-100 | slots lo..hi-1 are filled and the other slots are untouched |
| Generator.Generator.NextBatchStructured | src/generator/generator.go:78-103 | a panic unless n exceeds 5; slots 0..3 are INSERT, UPDATE or DELETE; slot 4 is overwritten by a statement of any kind; n+1 statements are generated |
| Batch.NewBatch | src/fuzzer/batch.go:15-21 | the schema text and the statements, with no error |
| Batch.Len | src/fuzzer/batch.go:30-32 | the number of statements |
| Batch.Slice | src/fuzzer/batch.go:23-28 | statements s..e-1 in order under the same schema, with no error |
| Batch.SliceText | src/fuzzer/batch.go:23-41 | cutting a batch in two cuts its statements' text in two |
| Batch.SliceAllText | src/fuzzer/batch.go:23-28 | the whole-batch slice has the batch's schema and statements |
| Batch.StmtsTextAppend | src/fuzzer/batch.go:34-41 | the text of two statement lists one after the other is the concatenation of their texts |
| Batch.String | src/fuzzer/batch.go:34-41 | written into a fresh builder: the schema and a newline, then each statement followed by a newline and `;` |
| Batch.StringEndsInSemicolon | src/fuzzer/batch.go:34-41 | the printed batch ends in `\n;`, with no newline after the last semicolon |
| Batch.CrashString | src/fuzzer/batch.go:43-51 | written into a fresh builder: the error between banner lines, then the schema and each statement followed by `;` and a newline; a panic without an error |
| Instrument.CoveredNotNovel | src/fuzzer/instrument.go:32-44 | a bitmap is novel against another exactly when the other does not cover it; no bitmap is novel against itself |
| Instrument.WordBytes | src/fuzzer/instrument.go:37-41 | the word test on eight packed counters holds exactly when one of the eight byte tests does |
| Instrument.Merge | src/fuzzer/instrument.go:48-57 | the merge has one counter per counter of the input |
| Instrument.MergeUnion | src/fuzzer/instrument.go:48-57 | the merge has a set counter exactly where either bitmap has one |
| Instrument.MergeCoversOld | src/fuzzer/instrument.go:48-57 | the merge covers the old bitmap, so the old one is never novel against it |
| Instrument.NovelAfterMerge | src/fuzzer/instrument.go:32-57 | the new bitmap is still novel against the merge exactly when some counter is set in both and has bits the old one lacks |
| Instrument.Coverage.constructor | src/fuzzer/instrument.go:18-20 | all counters start at 0 |
| Instrument.Coverage.Compare | src/fuzzer/instrument.go:32-44 | true exactly when this bitmap has a bit that the previous one lacks |
| Instrument.Coverage.Copy | src/fuzzer/instrument.go:48-57 | a fresh bitmap equal to the merge, with both inputs unchanged |
| Instrument.Coverage.Visualize | src/fuzzer/instrument.go:63-79 | 1024 lines of 64 cells and a newline; the cell at (row, col) is `+` exactly when counter row*64+col is set |
| Instrument.Coverage.VisualizeRow | src/fuzzer/instrument.go:67-75 | one line: the 64 cells of the row, then a newline |
| Instrument.AppendLine | src/fuzzer/instrument.go:63-79 | appending a line keeps the earlier lines and adds the new one as the next row |
| DiffEngine.Verdict | src/diff_test_engine/diff_test_engine.go:113-138 | a crash report exactly when one side fails alone or both fail with different errors; a mismatch report exactly when neither of those holds and the outputs differ |
| DiffEngine.VerdictSymmetric | src/diff_test_engine/diff_test_engine.go:113-138 | swapping the old and the new engine gives the same reason |
| DiffEngine.VerdictReflexive | src/diff_test_engine/diff_test_engine.go:113-138 | identical outcomes are never reported |
| DiffEngine.VerdictOnFailedEmpty | src/diff_test_engine/diff_test_engine.go:113-138 | with failures giving empty output, a mismatch needs both sides to succeed, and nothing is reported exactly when both behave alike |
| DiffEngine.DbStateVerdict | src/diff_test_engine/diff_test_engine.go:84-109 | the dump comparison reports for the same reasons as the query comparison, under the name DUMP |
| DiffEngine.SqlErrorsVerdict | src/diff_test_engine/diff_test_engine.go:69-80 | the SQL-errors check reports exactly when one side fails alone |
| DiffEngine.SqlErrorsWeaker | src/diff_test_engine/diff_test_engine.go:69-80 | whatever the SQL-errors check reports, the query check reports too |
| DiffEngine.RowTextLines | src/diff_test_engine/diff_test_engine.go:153-168 | a row whose values contain no newline holds exactly one newline |
| DiffEngine.RowsTextLines | src/diff_test_engine/diff_test_engine.go:153-168 | with no newline in any value, the text has one newline per row, so rows can be told apart |
| DiffEngine.ExtractResultToString | src/diff_test_engine/diff_test_engine.go:153-168 | the loop yields RowsText: each value and a `\|`, then a newline, row by row |
| DiffEngine.RowToString | src/diff_test_engine/diff_test_engine.go:162-165 | one row: each value and a `\|`, then a newline |
| DiffEngine.QueryWithResult | src/diff_test_engine/diff_test_engine.go:175-184 | the rows' text and no error, or empty text and the error |
| DiffEngine.DumpDB | src/diff_test_engine/diff_test_engine.go:189-227 | the schema listing, `--`, then each table's rows in listing order; the first error met gives empty text and that error |
| Text.JoinSnoc | src/ast/ast.go:454-464 | joining one more part adds exactly one separator |
| Text.JoinAppend | src/ast/ast.go:454-464 | joining distributes over the concatenation of two non-empty lists |
| Text.SepUnlessIsJoin | src/ast/ast.go:454-464 | the Go loop `if i+1 != n { sep }`, with n the number of parts, is strings.Join |
| Text.SepUnlessPrefix | src/ast/ast.go:894-914 | with n beyond every index, that loop puts a separator after every part |
| Text.SepBeforeIsJoin | src/ast/ast.go:191-214 | the Go loop `if i > 0 { sep }` is strings.Join |
| Text.Spaces | src/ast/ast.go:58-64 | the indent is one space per level, and none for a negative level |
| Text.NatToString | src/generator/grammar.go:589-590 | strconv.Itoa of a natural is decimal with no leading zero |
| Text.NatToStringInjective | src/generator/grammar.go:300-318 | different numbers print differently |
| Text.PrefixedNatInjective | src/generator/grammar.go:506-526 | names of one prefix and a number (`c%d`, `t%d`, `cte%d`) differ for different numbers |
| Text.ZeroPad | src/generator/grammar.go:611-615 | %0wd of a number below 10^w is exactly w digits |
| Text.ZeroPadValue | src/generator/grammar.go:611-615 | reading a zero-padded number back gives the number |
| Text.Hex2 | src/generator/grammar.go:595-596 | %02x of a byte is two characters |
| Text.TrimSpace | src/ast/characteristics.go:58-58 | strings.TrimSpace leaves no white space at either end |
| Text.TrimLeft | src/ast/characteristics.go:58-58 | only leading white space is removed |
| Text.TrimRight | src/ast/characteristics.go:58-58 | only trailing white space is removed |
| Text.BeforeFirst | src/ast/characteristics.go:58-58 | strings.Split(s, sep)[0] is the longest prefix before the first occurrence of sep, or all of s when sep does not occur |

## Left out

- Floating point: REAL values and the float branch of NUMERIC are text inputs, not computed. (`%f` of a random quotient is not modelled.)
- The REAL01 type and the datetime-function value and modifier generators (generateDatetimeValue, generateDatetimeModifier, generateDay) are left out. A TIMEVALUE argument is one of the DatetimeTimeValues templates, and a TIMEMODIFIER is one of the modifier templates; the filled-in text is not modelled.
- generateWindowFunction and generateAggregateCallExpression are not modelled. Their only caller branch is unreachable, because every node's parent link is nil (Grammar.WindowNeverAllowed).
- VACUUM is never generated. GenerateVacuum is still modelled with its temporary directory and clock taken as parameters.
- Every unbounded loop or recursion of the generator (the `goto` restarts, and the recursion of boolean expressions and table references) is cut off by a `fuel` bound. OutOfFuel marks a run that has not finished; it is not a Go outcome.
- The d1000 die used by GenerateStatement is not defined in random.go. It is modelled as a die with values 1..1000.
- GenerateIUD, GenerateRandom and Generator.GenerateTable are not part of this model. They are taken as a nondeterministic choice of GenerateInsert / GenerateUpdate / GenerateDelete, as GenerateStatement, and as the grammar's generateTable respectively.
- CTE Refs are kept as alias names, as Out reads them, rather than as relations.
- Database I/O, the SQLite drivers, logging, writeLogMismatch, CreateLogFile, InitializeDB and verifier.go are not part of this model. Query answers and dumps are inputs (`Answer`, `Db`), and a report is returned rather than written.
- Each row value's `%v` text is an input string.
- Instrument.Coverage.Collect and Reset are left out: they copy and clear the C coverage map, which is foreign memory.
- Instrument.Coverage.Compare: scans bytes rather than 64-bit words. Instrument.WordBytes proves the two scans agree on every word.
- Batch.Slice: requires e <= Len, whereas Go would also accept an e up to the slice's capacity.
- Batch.String and Batch.CrashString: require every statement to render. Go would panic earlier, for example on a TIME column.
- Batch.String and Batch.CrashString: take no builder. Go takes a `strings.Builder` by value, and a builder that was already written to panics on its first write in the copy. The model covers only the zero builder, which is what the one caller (src/diff_test_engine/verifier.go:317) passes.
- Scopes.NewScope and Scopes.AvailableTypes: the Go bodies of Scope's NewScope and AvailableTypes are not part of this model. NewScope is assumed to copy the parent's tables, schema and refs. AvailableTypes is assumed to list the type of every column of every ref, in order, duplicates kept. Several claims rest on these assumptions: GenerateInsert's panic when a scope already has refs (src/generator/grammar.go:146), the refs that TableSubquery and ExpressionJoinCondition see, and Scopes.AvailableTypeHasMatch.
- TopStatements.GenerateSetClause: on a table with no columns, Go loops forever. The model ends in OutOfFuel.
- Ast.TermOuts: the rendering of an ORDER BY term is a definition only. ORDER BY clauses are never generated.
- Grammar.DateFields and Grammar.TimeFields: state the printed fields of a literal. They do not state the IsDate/IsTime predicates, which quantify over all possible values.
- Grammar.GenerateConstant: the DATETIME and REAL literal texts are checked only by their form.

## Findings

| source | as written | input that shows it | evidently intended | confidence | as-written member | corrected member |
|---|---|---|---|---|---|---|
| src/generator/grammar.go:695-699 | generateComparisonOperation returns a BinaryExpr literal with no embedded *Base, and the characteristics visitor calls Level() on it | any SELECT whose WHERE clause is a comparison, visited by CharacteristicsVisitor | the comparison gets the caller's Base, like every other node | not executed | Statements.WhereAsWrittenNotVisitable | Statements.GenerateComparison |
| src/generator/grammar.go:119-128 | GenerateVacuum appends the opening quote to File and then overwrites File with the MkdirTemp result, so only the closing quote remains | a d100 of 1 with MkdirTemp returning `/tmp/sqlite3-1`: the file is `/tmp/sqlite3-1<millis>'` | `'<dir><millis>'` | not executed | TopStatements.VacuumFileAsWrittenUnbalanced | TopStatements.VacuumFile |
