# cypherast: the executor, its rewrites, its scope check and its text formats

cypherast parses Cypher, rewrites the tree, checks it and executes it on an in-memory graph. This project
models those four parts in Dafny and proves that they fit together.

- **Graph and executor.** `GraphStore.Graph` is the mutable store; `Engine.Engine` holds the loops that match
  patterns, walk variable-length relationships, project, group, deduplicate and order rows. Every loop is a method
  whose result equals a function of `Matcher`, `Query` or `Ordering`; those functions are the meaning of a query.
- **Rewrites.** Folding constants, pushing predicates down, turning paths around, stitching and splitting MATCH,
  dropping DISTINCT beside aggregates, and lowering surface Cypher to core. `Rewrites` has them as the passes run them,
  on nodes whose fields are reassigned; `Lowering` has the pass over a generic tree. Each is proved to keep the outcome
  of a clause or a query under `Matcher` and `Query`, or to lose nothing but an error.
- **Scope check.** `Scope` is the undefined-variable check, clause by clause; `ScopeSound` shows that a query it
  accepts does not fail on an unknown variable.
- **Text.** `Lexer.Lexer` and `Parser.Parser` are the scanners and the recursive-descent parser with their cursors;
  `Tokens` and `Grammar` are the functions they equal, `Render` and `PathRender` what the renderer prints. Printing and
  reading are inverse on exactly the trees that need no parentheses.

Rows are maps, tables are sequences of rows, and an evaluation is a value or an error. An integer is unbounded, as
Python's are. `ctx` carries what the model does not define: the graph, the query parameters (`params`), the function
library (`lib`), the order in which a label's nodes come out of a Python set (`scan`), and the text a column without an
alias is named after (`text`).

## Layout

| files | subject |
|---|---|
| Prelude, Ast | results, sequences and loops; values, expressions, patterns, clauses |
| GraphSpec, GraphStore, VarLength | the store, its invariants over every run, the variable-length search |
| Evaluation, Matcher, Ordering, Query, QueryFacts, OrderBy, Bindings, OptionalMatch | the meaning of expressions, patterns and clauses |
| Engine | the executor |
| Hoist, HoistCommutes, HoistClause, Inject, InjectPattern, Pushdown, Canonicalize, FlipClause, Compose, Stitch, Simplify, RewriteQueries, RewriteGaps, Grouping, DropDistinct, KeyMatching, GroupBy | the rewrites, why they are sound, and where they are not |
| Surface | LET, FILTER, FOR and inline predicates, and what they are lowered to |
| Lowering, LoweringFacts, ClauseTrees, SurfaceTrees, Rewrites | the passes |
| Scope, ScopeSound, ScopeGaps | the undefined-variable check |
| Tokens, Keywords, Lexer, Spelling, Grammar, Parser, ParserOutput | from text to trees |
| Render, ExprRoundTrip, ExprText, PathRender, PathRoundTrip, PathText | from trees to text and back |

## Model

| member | source | states |
|---|---|---|
| GraphSpec.RunKeeps | cypherast/executor/graph.py:35-115 | after any sequence of creations, deletions and label changes the adjacency lists and the label index still answer for the live objects, ids are never reused, and no relationship dangles if each was created between live nodes |
| GraphSpec.AdjacencyAnswers | cypherast/executor/graph.py:105-115 | the relationships of a node are, in creation order, those of all live relationships that start (or end) at it and have the type |
| GraphSpec.DetachDeleteKeeps | cypherast/executor/graph.py:78-97 | detach delete removes the node and exactly its incident relationships, and nothing dangles |
| GraphStore.Graph.CreateNode | cypherast/executor/graph.py:46-60 | the new id is the counter and the new state is the specified one |
| GraphStore.Graph.CreateRel | cypherast/executor/graph.py:62-76 | the relationship enters both adjacency lists at the end |
| GraphStore.Graph.DeleteRel | cypherast/executor/graph.py:90-97 | the relationship leaves the store and both lists |
| GraphStore.Graph.DeleteNode | cypherast/executor/graph.py:78-88 | refused, leaving everything as it was, for a node that still has relationships unless they are detached |
| GraphStore.Graph.RemoveLabels | cypherast/executor/engine.py:702-725 | REMOVE takes the labels off the node and the node out of their index |
| VarLength.SearchIsExact | cypherast/executor/engine.py:372-410 | for every graph, direction, type list and bounds the search returns exactly the walks from the start that repeat no relationship and whose length is within the bounds, each once with its end node, shortest first |
| Engine.Engine.VarExpand | cypherast/executor/engine.py:372-410 | the queue loop terminates and returns the walks of that search, in its order |
| Engine.Engine.Expand | cypherast/executor/engine.py:236-291 | the recursive step of path matching gives the rows of the specification, with its errors |
| Engine.Engine.MatchPath | cypherast/executor/engine.py:192-234 | so do path matching from every start node, the path variable and the reserved key |
| Engine.Engine.Match | cypherast/executor/engine.py:162-190 | so do MATCH and OPTIONAL MATCH with WHERE |
| Engine.Engine.Project | cypherast/executor/engine.py:455-499 | so do WITH and RETURN: projection, DISTINCT, WHERE, ORDER BY, SKIP, LIMIT |
| Engine.Engine.AggregateReturn | cypherast/executor/engine.py:518-554 | so does an aggregating projection, including its second projection over the column names |
| Engine.Engine.RunQuery | cypherast/executor/engine.py:99-156 | so does a whole query of MATCH, WITH, UNWIND and RETURN |
| OptionalMatch.OuterJoin | cypherast/executor/engine.py:162-181 | OPTIONAL MATCH fails exactly when MATCH does; otherwise it gives one non-empty block per input row: the rows of MATCH, or the input row padded with nulls |
| OptionalMatch.BlockAgrees | cypherast/executor/engine.py:162-190 | with fresh path variables every row of a block agrees with its input row on all its bindings |
| Ordering.OrderByIsSorted | cypherast/executor/engine.py:859-887 | one stable pass per key, last key first, rearranges the rows into lexicographic order with each key's direction and null placement, ties in input order; lists and tuples compare by their first difference |
| OrderBy.OrderAllIsPasses | cypherast/executor/engine.py:486-489 | the loop over the ORDER BY items is that sequence of passes, over the sort values of the rows |
| OrderBy.OrderAllSucceeds | cypherast/executor/engine.py:859-887 | ORDER BY succeeds exactly when every sort value evaluates and those of one key that are not null can be compared pairwise |
| OrderBy.ProjectIsSorted | cypherast/executor/engine.py:455-499 | what a projection returns is a stretch of its kept rows in sorted order, all of them without SKIP and LIMIT |
| Grouping.GroupsPartition | cypherast/executor/engine.py:518-530 | the groups have distinct keys, hold every input row exactly once, and each holds the rows of its key in input order |
| Simplify.SimplifyKeepsValue | cypherast/optimizer/simplify.py:28-90 | an expression that has a value keeps it when the operands of AND and OR are boolean or null; only errors may disappear |
| Simplify.TrueAndExactly | cypherast/optimizer/simplify.py:28-90 | `true AND x` may become `x`, and `false OR x` may become `x`, exactly when `x` has no value of another kind |
| Simplify.SimplifyKeepsMatch | cypherast/optimizer/simplify.py:28-90 | simplifying the WHERE of a clause that does not fail keeps its rows, with no condition on operands of which only the truth is used |
| Simplify.SimplifyIsIdempotent | cypherast/optimizer/simplify.py:28-90 | simplifying twice is simplifying once |
| Pushdown.PushdownKeepsClause | cypherast/optimizer/pushdown_predicates.py:8-73 | moving `v.key = literal` conjuncts into node property maps keeps the row list of MATCH and OPTIONAL MATCH, order included, whenever the original does not fail |
| RewriteQueries.PushdownKeepsQuery | cypherast/optimizer/pushdown_predicates.py:8-73 | doing so in every MATCH keeps the result of a query that does not fail, rows in order |
| RewriteQueries.SimplifyKeepsQuery | cypherast/optimizer/simplify.py:28-90 | simplifying every WHERE keeps the result of a query that does not fail, when inside the predicates AND and OR join comparisons, tests and negations |
| Canonicalize.FlipKeepsRows | cypherast/optimizer/canonicalize_patterns.py:9-19 | for every graph and input row, when neither reading fails, reading a one-hop path from the other end gives the same multiset of rows |
| Canonicalize.FlipNeverRaises | cypherast/optimizer/canonicalize_patterns.py:9-19 | when its property maps evaluate, neither reading can fail |
| FlipClause.FlipKeepsClause | cypherast/optimizer/canonicalize_patterns.py:9-19 | turning around every such path of a MATCH or OPTIONAL MATCH with any number of paths and a WHERE keeps the multiset of its rows |
| FlipClause.FlipClauseExactly | cypherast/optimizer/canonicalize_patterns.py:9-19 | when the property maps of those paths evaluate by themselves, the clause with its paths turned around fails exactly when the clause as written does |
| Stitch.MergeKeepsQuery | cypherast/optimizer/merge_match_chains.py:18-47 | joining neighbouring MATCH clauses at a shared bare node keeps the result of the whole query, rows in order |
| Compose.SplitKeepsQuery | cypherast/dialects/transforms/split_match.py:11-35 | splitting a required MATCH into one clause per path keeps the result of the whole query, rows in order |
| RewriteGaps.SplitOptionalDiffers | cypherast/dialects/transforms/split_match.py:11-35 | `OPTIONAL MATCH (a), (b:L)` on one node without the label gives other rows once split |
| RewriteGaps.StitchLabelDiffers | cypherast/optimizer/merge_match_chains.py:70-96 | `MATCH (a) MATCH (a:L)` on one node without the label has no row, and has one once merged |
| DropDistinct.DropDistinctKeepsQuery | cypherast/dialects/transforms/distinct_aggregate.py:8-30 | dropping DISTINCT beside aggregates keeps the outcome of the whole query, errors included, when a column name stands for one expression |
| DropDistinct.DistinctExactly | cypherast/executor/engine.py:518-554 | without ORDER BY, SKIP and LIMIT the rows stay the same exactly when no result row has two values for one column name |
| DropDistinct.SharedKeysDiffer | cypherast/executor/engine.py:518-554 | two grouping keys under one column name change the result on any row where they differ |
| DropDistinct.RepeatedColumnsDiffer | cypherast/dialects/transforms/distinct_aggregate.py:8-30 | `RETURN DISTINCT x AS c, count(*) AS c` loses a row that its rewritten form keeps |
| HoistClause.HoistKeepsClause | cypherast/dialects/lower.py:211-245 | a clause whose inline predicates moved to WHERE gives the rows, in order, of a matcher that tests each predicate as its element is bound |
| LoweringFacts.LoweringIsCore | cypherast/dialects/lower.py:21-103 | in a lowered tree no visited node is a FOR, FILTER or LET, has an inline predicate, a `group_by` argument or a bfs or wShortest quantifier, or is an unsupported statement |
| LoweringFacts.FixedPoints | cypherast/dialects/lower.py:21-103 | the trees that lowering accepts and leaves as they are, are exactly those |
| LoweringFacts.LoweringTwice | cypherast/dialects/lower.py:21-43 | lowering a lowered tree succeeds and returns an equal tree |
| LoweringFacts.NoGroupByLeft | cypherast/dialects/lower.py:153-166 | if every GROUP BY hangs off a WITH or RETURN, none is left anywhere |
| Lowering.ExpandLetClauses | cypherast/dialects/lower.py:135-150 | the loop turns each LET into one `WITH *, item` per item, and fails on a LET without items |
| Lowering.FilterPredicates | cypherast/dialects/lower.py:106-126 | the loop collects the FILTER predicates and fails on the first that does not mention its own name |
| ClauseTrees.LoweredMatch | cypherast/dialects/lower.py:46-87 | lowering a MATCH clause hoists its inline predicates, and rejects the clause exactly when one sits on a variable-length relationship |
| ClauseTrees.LoweringKeepsMatch | cypherast/dialects/lower.py:85-87 | an accepted clause, lowered, gives the rows of the clause as written |
| ClauseTrees.LoweredProjection | cypherast/dialects/lower.py:153-202 | a grouped WITH or RETURN loses its keys exactly when letting each key take the first item left that it fits uses up both the keys and the non-aggregate items, and is rejected otherwise |
| SurfaceTrees.LoweredQuery | cypherast/dialects/lower.py:21-150 | lowering the tree of a query with LET, FILTER, FOR and inline predicates gives the tree of its core clauses, and fails exactly for an empty LET, a FILTER item that does not mention its own name, or a predicate on a variable-length relationship |
| Surface.LoweringKeepsQuery | cypherast/dialects/lower.py:77-150 | a query in which LET extends each row name by name, FILTER sifts the rows predicate by predicate, FOR unwinds and inline predicates are tested in place has the result of its core clauses, rows in order |
| GroupBy.GroupByMatches | cypherast/dialects/lower.py:169-202 | the loop that pops a projection for each key answers that question |
| GroupBy.GroupByIsRedundant | cypherast/dialects/lower.py:153-202 | when the keys are cleared, grouping by them in written order gives the same groups in first-seen order over the same rows |
| GroupBy.SameResultRows | cypherast/executor/engine.py:518-539 | and the same result rows, aggregates and keys alike |
| KeyMatching.AcceptsAllExactly | cypherast/dialects/lower.py:187-202 | letting each key take the first projection left that it fits accepts every key list that matches one to one exactly when, of two projections that share an expression or alias, the earlier has none that the later lacks |
| GroupBy.AcceptsEveryMatch | cypherast/dialects/lower.py:169-202 | the same for the whole check, on the items of a projection with an aggregate and without `*` |
| GroupBy.FirstFitMayRefuse | cypherast/dialects/lower.py:187-202 | for `a AS b, b, count(*)`, which does not meet that condition, the check refuses the keys `b, a` although they match one to one |
| Rewrites.QueryNode.SplitMatches | cypherast/dialects/transforms/split_match.py:14-33 | the loop leaves the clause list split path by path, WHERE on the last fragment |
| Rewrites.QueryNode.MergeChains | cypherast/optimizer/merge_match_chains.py:18-47 | the scan joins neighbours from left to right and passes over a joined pair |
| Rewrites.MatchNode.InjectProp | cypherast/optimizer/pushdown_predicates.py:60-73 | the first node of that name gets the entry unless it has the key already; otherwise nothing changes |
| Rewrites.MatchNode.PushDown | cypherast/optimizer/pushdown_predicates.py:8-57 | the pattern and the WHERE become those of the specified fold |
| Rewrites.MatchNode.HoistInline | cypherast/dialects/lower.py:211-245 | the elements lose their predicates, which join the WHERE in order |
| Rewrites.PathNode.Canonicalize | cypherast/optimizer/canonicalize_patterns.py:9-19 | a lone incoming hop is turned around in place, any other path stays |
| Rewrites.ProjectionNode.DropDistinct | cypherast/dialects/transforms/distinct_aggregate.py:11-30 | DISTINCT is cleared exactly beside one of the six named aggregates |
| Scope.CheckQuery | cypherast/dialects/validate/undefined_vars.py:122-263 | the walk over the clauses reports nothing exactly when every reference is in the scope of its clause, and otherwise names one that is not |
| ScopeSound.AcceptedIsSafe | cypherast/dialects/validate/undefined_vars.py:122-263 | executing a query the check accepts, on any graph, never fails on an unknown variable, given what the check takes on trust |
| ScopeGaps.SelfNamedArgument | cypherast/dialects/validate/undefined_vars.py:85-98 | the check accepts `RETURN size(size)`, which fails |
| ScopeGaps.UndefinedInPropertyMap | cypherast/dialects/validate/undefined_vars.py:31-40 | it accepts `MATCH (n {k: y}) RETURN n`, which fails on a graph with a node |
| ScopeGaps.SkipUsesARow | cypherast/executor/engine.py:493-495 | it accepts `UNWIND 1 AS y RETURN y SKIP y`, which fails |
| ScopeGaps.OrderBesideAggregate | cypherast/executor/engine.py:540-553 | it accepts `UNWIND 1 AS y RETURN count(*) AS c ORDER BY y`, which fails |
| Lexer.Lexer.Tokenize | cypherast/lexer.py:218-225 | the cursor loop returns the tokens of the specification, or fails where it does |
| Lexer.Lexer.Advance | cypherast/lexer.py:504-516 | one character is consumed and, by the class invariant, line and column stay those of the cursor |
| Keywords.TableSuffices | cypherast/lexer.py:11-195 | the keyword table holds the words the printer relies on, and not the one it must not |
| Spelling.StringRoundTrip | cypherast/lexer.py:324-351 | a rendered string literal reads back as that string, whatever follows |
| Spelling.IdentifierRoundTrip | cypherast/lexer.py:420-456 | a rendered identifier reads back as that name exactly when it is not a keyword printed plain and the next character does not continue it |
| Parser.Parser.ParseExpression | cypherast/parser.py:863-1134 | the expression methods, with their cursor, depth counter and backtracking, answer as the grammar does |
| Parser.Parser.ParsePathPattern | cypherast/parser.py:486-531 | so do the methods for path patterns |
| ParserOutput.RoundTripExactly | cypherast/parser.py:863-1134 | the tokens of a printed expression parse back to it, up to what follows, exactly when every operand binds at least as tightly as its place requires |
| ExprText.PrintThenParse | cypherast/renderer.py:430-560 | printing, lexing and parsing gives back the expression and stops where the text after it begins, exactly for those expressions |
| PathRoundTrip.PathRoundTripExactly | cypherast/parser.py:486-765 | the tokens of a printed path pattern parse back to it exactly when its hop bounds print in full |
| PathText.PrintThenParsePath | cypherast/renderer.py:309-386 | printing, lexing and parsing gives back the path pattern exactly for those patterns |

## Left out

What the listed results assume, or state less of than one might expect:

- DropDistinct.DropDistinctKeepsQuery: one direction only for whole queries. Whether two differently written
  aggregates under one column name agree (`count(*)` and `count(1)`, or `x` and `max(x)`) depends on the values, so no
  condition on the text of the query is exact; `DistinctExactly` is exact for a given table, and `SharedKeysDiffer` for
  two grouping keys.
- ScopeSound.AcceptedIsSafe: one direction only. Outside the trusted fragment an accepted query fails or not depending
  on the data (a property map is evaluated only if a candidate node exists, a sort key only if there is a row), so no
  condition on the query is exact; `ScopeGaps` has one failing query for each of four conditions. The condition that no
  `*` stands beside an aggregate has none, because the value of `*` as an expression is not modelled.
- HoistClause.HoistKeepsClause: predicates may mention names bound by then or not bound by the pattern, not path names,
  and neither way of evaluating may fail.
- Pushdown.PushdownKeepsClause: the pattern has no inline predicates left, which lowering ensures, and does not use the
  executor's reserved key.
- Stitch.MergeKeepsQuery: both paths are unnamed, the dropped node has no labels or properties, and no clause binds the
  reserved key; where the original fails the merged query fails, perhaps with another error. The pass joins other
  clauses too; `StitchLabelDiffers` shows rows change. Whether they do depends on which nodes of the graph meet what the
  dropped node asks for, so no condition on the query is exact.
- Compose.SplitKeepsQuery: required MATCH only, and no clause binds the reserved key; errors as for merging. The pass
  splits OPTIONAL MATCH too; `SplitOptionalDiffers` shows rows change. Whether they do depends on which paths
  match in the graph, so no condition on the query is exact.
- Canonicalize.FlipKeepsRows: for unnamed fixed-length hops whose property maps do not mention the path's own variables,
  on a consistent graph without dangling relationships, when neither reading fails.
- FlipClause.FlipKeepsClause: the same conditions on every path that is turned around; `FlipClauseExactly` replaces the
  last one by property maps that evaluate without any name.
- RewriteQueries.SimplifyKeepsQuery: WHERE only. The pass simplifies projections too, which can rename a column that has
  no alias and can turn `true AND count(x)` into an aggregate.
- ClauseTrees.LoweringKeepsMatch: the conditions of `HoistKeepsClause`.
- Surface.LoweringKeepsQuery: the conditions of `HoistKeepsClause` on each MATCH, and no LET of an aggregate.
- Engine.Engine.AggregateReturn: `*` beside an aggregate fails, where the executor groups by the bindings as a dict.
- Scope.CheckQuery: only the clauses MATCH, WITH, UNWIND and RETURN of those the check knows.
- OptionalMatch.BlockAgrees: path variables are fresh and the input row does not hold the reserved key.
- Engine.Engine.RunQuery: the rows of the last RETURN are maps from column names, so the order of the columns and
  repeated columns of a RETURN without aggregates are not modelled.
- Lowering.ExpandLetClauses: the tree is rebuilt rather than changed in place, so sharing between the copies is not
  modelled; neither are parent links and the copy the pass starts from.
- Parser.Parser.ParseExpression: parenthesised expressions and patterns, CASE, map literals as expressions,
  comprehensions, quantifiers, EXISTS and COUNT blocks, dotted function names and decimal literals end in the outcome
  `Unmodelled`; the round trips hold without them.
- Parser.Parser.ParsePathPattern: the same outcome for label expressions, inline WHERE, Memgraph quantifiers,
  `shortestPath` and quantified paths.
- ExprText.PrintThenParse: without decimals, negative integer literals, lists that begin like a comprehension, and the
  names `extract`, `filter` and `reduce`; the nesting stays below the parser's limit. Python's own recursion limit is
  not modelled.
- Lexer.Lexer.Tokenize: comments are skipped but not attached to the next token.

What the model does not have:

- dict values: map values and map expressions, map projections, and rows as values
- CASE, comprehensions, quantifiers and pattern predicates in expressions; trees hidden in tuples, which `walk` and
  `transform` do not visit either
- the function library (a parameter), rounding and infinities of floats (reals), and the difference between Python's
  `None` and the executor's `NULL`
- percentile aggregates, whose second argument the executor reads separately
- CREATE, MERGE, SET, DELETE and FOREACH as clauses; the store operations behind CREATE, DELETE and REMOVE are there
- procedures, subqueries, UNION, `shortestPath` and quantified paths in the executor
- `cap_collect_distinct`, `SET n:Label`, the planner and its cost model, dialect gating, schema checks, and all I/O

Where code and documentation differ the code is followed: a WITH filters before it skips and limits although its WHERE
is written last, relationships may repeat between the hops of one MATCH, and stitching compares the last node of the
left path only, although a comment speaks of any node of it.
