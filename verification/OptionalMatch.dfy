/** OPTIONAL MATCH is a left outer join of the required MATCH. */
module OptionalMatch {
  import opened Prelude
  import opened Ast
  import opened Evaluation
  import opened Matcher
  import opened Bindings

  function BlockOf(f: Row -> Result<seq<Row>>): Row -> seq<Row> {
    (row: Row) => if f(row).Ok? then f(row).value else []
  }

  /** A loop's output is its blocks, one per input row, laid end to end. */
  lemma {:induction false} LoopIsBlocks(f: Row -> Result<seq<Row>>, rows: seq<Row>)
    requires FlatMapR(f, rows).Ok?
    ensures FlatMapR(f, rows).value == Flatten(Map(BlockOf(f), rows))
  {
    if rows != [] {
      LoopIsBlocks(f, rows[1..]);
      assert Map(BlockOf(f), rows)[1..] == Map(BlockOf(f), rows[1..]);
    }
  }

  /** What one input row contributes to a left outer join, given what it contributes to the inner one. */
  function OuterBlock(inner: seq<Row>, row: Row, vars: set<string>): (outer: seq<Row>)
    ensures outer != []
  {
    if inner != [] then inner else [NullRow(row, vars)]
  }

  /** The optional clause fails exactly when the required one does. Otherwise its rows are one non-empty
      block per input row: the required rows if there are any, else the input padded with nulls. */
  lemma OuterJoin(ctx: Ctx, pattern: Pattern, w: Option<Expr>, rows: seq<Row>)
    returns (inner: seq<seq<Row>>, outer: seq<seq<Row>>)
    ensures MatchClause(ctx, false, pattern, true, w, rows).Ok? <==>
            MatchClause(ctx, false, pattern, false, w, rows).Ok?
    ensures MatchClause(ctx, false, pattern, true, w, rows).Ok? ==>
              && |inner| == |outer| == |rows|
              && MatchClause(ctx, false, pattern, false, w, rows).value == Flatten(inner)
              && MatchClause(ctx, false, pattern, true, w, rows).value == Flatten(outer)
              && forall i :: 0 <= i < |rows| ==> outer[i] == OuterBlock(inner[i], rows[i], PatternVars(pattern))
  {
    var f, g := BlockFn(ctx, false, pattern, false, w), BlockFn(ctx, false, pattern, true, w);
    FlatMapOk(f, rows);
    FlatMapOk(g, rows);
    assert forall row :: f(row).Ok? <==> g(row).Ok?;
    inner, outer := Map(BlockOf(f), rows), Map(BlockOf(g), rows);
    if FlatMapR(g, rows).Ok? {
      LoopIsBlocks(f, rows);
      LoopIsBlocks(g, rows);
      forall i | 0 <= i < |rows| ensures outer[i] == OuterBlock(inner[i], rows[i], PatternVars(pattern)) {
        assert rows[i] in rows;
      }
    }
  }

  /** The padding keeps the input row and makes every other variable of the pattern null. */
  lemma PaddedRow(row: Row, pattern: Pattern)
    ensures var r := NullRow(row, PatternVars(pattern));
            && Extends(row, r, {})
            && r.Keys == row.Keys + PatternVars(pattern)
            && forall x :: x in PatternVars(pattern) && x !in row ==> r[x] == Null
  {
  }

  /** With fresh path variables, every row of a block agrees with its input row on all its bindings. */
  lemma BlockAgrees(ctx: Ctx, pattern: Pattern, optional: bool, w: Option<Expr>, row: Row)
    requires Block(ctx, false, pattern, optional, w, row).Ok?
    requires PathVars(pattern) !! row.Keys && PATH_ACC !in row
    ensures forall m :: m in Block(ctx, false, pattern, optional, w, row).value ==> Extends(row, m, {})
  {
    MatchPatternGrows(ctx, false, pattern, row);
    var ms := MatchPattern(ctx, false, pattern, row).value;
    var merged := Map(Over(row), ms);
    FilterROk(Passes(ctx, w), HoldsFn(ctx, w), merged);
    forall m | m in merged ensures Extends(row, m, {}) {
      var i :| 0 <= i < |merged| && merged[i] == m;
      assert ms[i] in ms && m == row + ms[i];
    }
    PaddedRow(row, pattern);
  }
}
