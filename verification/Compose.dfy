/** Splitting one MATCH into several and stitching several into one, by composing the matcher with itself. */
module Compose {
  import opened Prelude
  import opened Ast
  import opened Evaluation
  import opened Matcher
  import opened Bindings
  import opened Query
  import opened QueryFacts

  // ---- running several paths row by row ---------------------------------------------------

  function PatternFn(ctx: Ctx, pattern: Pattern): Row -> Result<seq<Row>> {
    (row: Row) => MatchPattern(ctx, false, pattern, row)
  }

  /** Matching the remaining paths of a whole table is matching them for each of its rows. */
  lemma {:induction false} MatchPathsByRow(ctx: Ctx, pattern: Pattern, rows: seq<Row>)
    ensures Agree(MatchPaths(ctx, false, pattern, Ok(rows)), FlatMapR(PatternFn(ctx, pattern), rows))
    decreases pattern
  {
    if pattern == [] {
      SingletonsJoin(PatternFn(ctx, pattern), rows);
    } else {
      var f, g := PathFn(ctx, false, pattern[0]), PatternFn(ctx, pattern[1..]);
      forall row | row in rows ensures Agree(PatternFn(ctx, pattern)(row), Then(f(row), g)) {
        OneRow(f, row);
        if f(row).Ok? {
          MatchPathsByRow(ctx, pattern[1..], f(row).value);
        } else {
          MatchPathsErr(ctx, false, pattern[1..], f(row));
        }
      }
      FlatMapAssoc(f, g, PatternFn(ctx, pattern), rows);
      if FlatMapR(f, rows).Ok? {
        MatchPathsByRow(ctx, pattern[1..], FlatMapR(f, rows).value);
      } else {
        MatchPathsErr(ctx, false, pattern[1..], FlatMapR(f, rows));
      }
    }
  }

  lemma {:induction false} SingletonsJoin(f: Row -> Result<seq<Row>>, rows: seq<Row>)
    requires forall row :: row in rows ==> f(row) == Ok([row])
    ensures FlatMapR(f, rows) == Ok(rows)
  {
    if rows != [] {
      assert rows[0] in rows;
      SingletonsJoin(f, rows[1..]);
      assert [rows[0]] + rows[1..] == rows;
    }
  }

  lemma OneRow(f: Row -> Result<seq<Row>>, row: Row)
    ensures FlatMapR(f, [row]) == f(row)
  {
    assert [row][1..] == [];
    if f(row).Ok? { assert f(row).value + [] == f(row).value; }
  }

  // ---- WHERE as one more step ------------------------------------------------------------------

  function KeepFn(ctx: Ctx, w: Option<Expr>): Row -> Result<seq<Row>> {
    (row: Row) =>
      match TestWhere(ctx, w, row)
      case Err(e) => Err(e)
      case Ok(keep) => Ok(if keep then [row] else [])
  }

  lemma {:induction false} FilterIsStep(ctx: Ctx, w: Option<Expr>, rows: seq<Row>)
    ensures FilterR(Passes(ctx, w), rows) == FlatMapR(KeepFn(ctx, w), rows)
  {
    if rows != [] { FilterIsStep(ctx, w, rows[1..]); }
  }

  /** No variable carries the executor's reserved key. */
  ghost predicate Unreserved(pattern: Pattern) {
    PATH_ACC !in PatternVars(pattern)
  }

  ghost predicate CleanRows(rows: seq<Row>) {
    forall row :: row in rows ==> PATH_ACC !in row
  }

  /** Merging a match over its input row changes nothing. */
  lemma MergeIsIdentity(ctx: Ctx, pattern: Pattern, row: Row)
    requires PATH_ACC !in row
    requires MatchPattern(ctx, false, pattern, row).Ok?
    ensures Map(Over(row), MatchPattern(ctx, false, pattern, row).value) == MatchPattern(ctx, false, pattern, row).value
  {
    MatchPatternGrows(ctx, false, pattern, row);
    var ms := MatchPattern(ctx, false, pattern, row).value;
    forall i | 0 <= i < |ms| ensures row + ms[i] == ms[i] {
      assert ms[i] in ms;
      assert row.Keys - {PATH_ACC} == row.Keys;
    }
  }

  lemma SurvivorsAreSteps(ctx: Ctx, pattern: Pattern, w: Option<Expr>, row: Row)
    requires PATH_ACC !in row
    ensures Survivors(ctx, false, pattern, w, row) == Then(MatchPattern(ctx, false, pattern, row), KeepFn(ctx, w))
    ensures Block(ctx, false, pattern, false, w, row) == Survivors(ctx, false, pattern, w, row)
  {
    if MatchPattern(ctx, false, pattern, row).Ok? {
      MergeIsIdentity(ctx, pattern, row);
      FilterIsStep(ctx, w, MatchPattern(ctx, false, pattern, row).value);
    }
  }

  // ---- rows never carry the reserved key ----------------------------------------------------------

  lemma MatchPathClean(ctx: Ctx, path: Path, row: Row)
    requires PATH_ACC !in row && PATH_ACC !in ElementVars(path.elements) + OptSet(path.variable)
    requires MatchPath(ctx, false, path, row).Ok?
    ensures forall m :: m in MatchPath(ctx, false, path, row).value ==> PATH_ACC !in m
  {
    if path.elements != [] {
      var ns := CandidateNodes(ctx, path.elements[0].node, row).value;
      var f := StartFn(ctx, false, path, row);
      FlatMapOk(f, ns);
      forall m | m in FlatMapR(f, ns).value ensures PATH_ACC !in m {
        var n :| n in ns && m in f(n).value;
        StartStepClean(ctx, path, row, n, m);
      }
    }
  }

  /** A named path drops the reserved key when it ends; an unnamed one never sets it. */
  lemma StartStepClean(ctx: Ctx, path: Path, row: Row, n: nat, m: Row)
    requires path.elements != [] && path.elements[0].NodeEl?
    requires PATH_ACC !in row && PATH_ACC !in ElementVars(path.elements) + OptSet(path.variable)
    requires StartFn(ctx, false, path, row)(n).Ok? && m in StartFn(ctx, false, path, row)(n).value
    ensures PATH_ACC !in m
  {
    var np, named := path.elements[0].node, path.variable.Some?;
    StartRowGrows(ctx, false, np, named, row, n);
    var r := StartRow(ctx, false, np, named, row, n).value.value;
    ExpandGrows(ctx, false, path.elements[1..], r, n, named);
    var ms := Expand(ctx, false, path.elements[1..], r, n, named).value;
    var i :| 0 <= i < |ms| && m == Finish(path.variable)(ms[i]);
    assert ms[i] in ms;
    assert ElementVars(path.elements) == VarOf(path.elements[0]) + ElementVars(path.elements[1..]);
  }

  // ---- splitting -------------------------------------------------------------------------------------

  /** `MATCH p, ps WHERE w` does what `MATCH p MATCH ps WHERE w` does, for every input row. */
  lemma SplitFirst(ctx: Ctx, p: Path, ps: Pattern, w: Option<Expr>, rows: seq<Row>)
    requires CleanRows(rows) && Unreserved([p])
    ensures Agree(MatchClause(ctx, false, [p] + ps, false, w, rows),
                  Then(MatchClause(ctx, false, [p], false, None, rows), BlockFn(ctx, false, ps, false, w)))
    ensures MatchClause(ctx, false, [p], false, None, rows).Ok? ==>
              CleanRows(MatchClause(ctx, false, [p], false, None, rows).value)
  {
    var first, rest := BlockFn(ctx, false, [p], false, None), BlockFn(ctx, false, ps, false, w);
    var whole := BlockFn(ctx, false, [p] + ps, false, w);
    forall row | row in rows
      ensures Agree(whole(row), Then(first(row), rest))
      ensures first(row).Ok? ==> CleanRows(first(row).value)
    {
      SplitRow(ctx, p, ps, w, row);
    }
    FlatMapAssoc(first, rest, whole, rows);
    FlatMapOk(first, rows);
  }

  lemma SplitRow(ctx: Ctx, p: Path, ps: Pattern, w: Option<Expr>, row: Row)
    requires PATH_ACC !in row && Unreserved([p])
    ensures Agree(Block(ctx, false, [p] + ps, false, w, row),
                  Then(Block(ctx, false, [p], false, None, row), BlockFn(ctx, false, ps, false, w)))
    ensures Block(ctx, false, [p], false, None, row).Ok? ==> CleanRows(Block(ctx, false, [p], false, None, row).value)
  {
    assert PatternVars([p]) == OptSet(p.variable) + ElementVars(p.elements);
    var ms := MatchPath(ctx, false, p, row);
    OneRow(PathFn(ctx, false, p), row);
    assert MatchPattern(ctx, false, [p], row) == ms by {
      assert [p][1..] == [] && [p][0] == p;
      assert MatchPaths(ctx, false, [p], Ok([row])) ==
             MatchPaths(ctx, false, [], Then(Ok([row]), PathFn(ctx, false, p)));
    }
    assert MatchPattern(ctx, false, [p] + ps, row) == MatchPaths(ctx, false, ps, ms) by {
      assert ([p] + ps)[1..] == ps;
    }
    SurvivorsAreSteps(ctx, [p] + ps, w, row);
    SurvivorsAreSteps(ctx, [p], None, row);
    if ms.Err? {
      MatchPathsErr(ctx, false, ps, ms);
    } else {
      SingletonsJoin(KeepFn(ctx, None), ms.value);
      MatchPathClean(ctx, p, row);
      MatchPathsByRow(ctx, ps, ms.value);
      forall m | m in ms.value
        ensures Agree(BlockFn(ctx, false, ps, false, w)(m), Then(PatternFn(ctx, ps)(m), KeepFn(ctx, w)))
      {
        SurvivorsAreSteps(ctx, ps, w, m);
      }
      FlatMapAssoc(PatternFn(ctx, ps), KeepFn(ctx, w), BlockFn(ctx, false, ps, false, w), ms.value);
    }
  }

  /** What `split_multi_path_match` makes of one clause: WHERE stays on the last fragment. */
  function SplitMatch(pattern: Pattern, optional: bool, w: Option<Expr>): seq<Clause> {
    if |pattern| <= 1 then [Match(pattern, optional, w)]
    else [Match([pattern[0]], optional, None)] + SplitMatch(pattern[1..], optional, w)
  }

  function SplitClauses(cs: seq<Clause>): seq<Clause> {
    if cs == [] then []
    else
      (if cs[0].Match? then SplitMatch(cs[0].pattern, cs[0].optional, cs[0].where) else [cs[0]])
      + SplitClauses(cs[1..])
  }

  lemma {:induction false} RunConcat(ctx: Ctx, cs: seq<Clause>, ds: seq<Clause>, s: Result<State>)
    ensures RunClauses(ctx, cs + ds, s) == RunClauses(ctx, ds, RunClauses(ctx, cs, s))
    decreases cs
  {
    if cs == [] || s.Err? {
      assert cs == [] ==> cs + ds == ds;
    } else {
      assert (cs + ds)[1..] == cs[1..] + ds;
      RunConcat(ctx, cs[1..], ds, RunClause(ctx, cs[0], s.value));
    }
  }

  lemma {:induction false} RunAgree(ctx: Ctx, cs: seq<Clause>, a: Result<State>, b: Result<State>)
    requires Agree(a, b)
    ensures Agree(RunClauses(ctx, cs, a), RunClauses(ctx, cs, b))
  {
    if a.Err? && cs != [] {
    }
  }

  lemma {:induction false} SplitOneClause(ctx: Ctx, pattern: Pattern, w: Option<Expr>, s: State)
    requires CleanRows(s.rows) && Unreserved(pattern)
    ensures Agree(RunClause(ctx, Match(pattern, false, w), s), RunClauses(ctx, SplitMatch(pattern, false, w), Ok(s)))
    decreases |pattern|
  {
    if |pattern| <= 1 {
      var c := Match(pattern, false, w);
      assert [c][1..] == [];
    } else {
      var p, ps := pattern[0], pattern[1..];
      assert pattern == [p] + ps && PatternVars([p]) <= PatternVars(pattern);
      SplitFirst(ctx, p, ps, w, s.rows);
      var first := RunClause(ctx, Match([p], false, None), s);
      var split := SplitMatch(pattern, false, w);
      assert split[0] == Match([p], false, None) && split[1..] == SplitMatch(ps, false, w);
      if first.Ok? {
        SplitOneClause(ctx, ps, w, first.value);
      }
    }
  }

  // ---- no table of a run carries the reserved key ------------------------------------------------

  lemma {:induction false} MatchPathsClean(ctx: Ctx, pattern: Pattern, rows: seq<Row>)
    requires CleanRows(rows) && Unreserved(pattern)
    requires MatchPaths(ctx, false, pattern, Ok(rows)).Ok?
    ensures CleanRows(MatchPaths(ctx, false, pattern, Ok(rows)).value)
    decreases pattern
  {
    if pattern != [] {
      var f := PathFn(ctx, false, pattern[0]);
      MatchPathsErr(ctx, false, pattern[1..], FlatMapR(f, rows));
      FlatMapOk(f, rows);
      forall m | m in FlatMapR(f, rows).value ensures PATH_ACC !in m {
        var row :| row in rows && m in f(row).value;
        MatchPathClean(ctx, pattern[0], row);
      }
      MatchPathsClean(ctx, pattern[1..], FlatMapR(f, rows).value);
    }
  }

  lemma MatchClauseClean(ctx: Ctx, pattern: Pattern, optional: bool, w: Option<Expr>, rows: seq<Row>)
    requires CleanRows(rows) && Unreserved(pattern)
    requires MatchClause(ctx, false, pattern, optional, w, rows).Ok?
    ensures CleanRows(MatchClause(ctx, false, pattern, optional, w, rows).value)
  {
    var f := BlockFn(ctx, false, pattern, optional, w);
    FlatMapOk(f, rows);
    forall m | m in FlatMapR(f, rows).value ensures PATH_ACC !in m {
      var row :| row in rows && m in f(row).value;
      BlockClean(ctx, pattern, optional, w, row, m);
    }
  }

  lemma BlockClean(ctx: Ctx, pattern: Pattern, optional: bool, w: Option<Expr>, row: Row, m: Row)
    requires PATH_ACC !in row && Unreserved(pattern)
    requires BlockFn(ctx, false, pattern, optional, w)(row).Ok?
             && m in BlockFn(ctx, false, pattern, optional, w)(row).value
    ensures PATH_ACC !in m
  {
    MatchPathsClean(ctx, pattern, [row]);
    MergeIsIdentity(ctx, pattern, row);
    FilterRFrom(Passes(ctx, w), MatchPattern(ctx, false, pattern, row).value);
  }

  /** The clause never binds the executor's reserved name. */
  ghost predicate NoReserved(ctx: Ctx, c: Clause) {
    match c
    case Match(pattern, _, _) => Unreserved(pattern)
    case With(proj, _) => PATH_ACC !in ItemNames(ctx, proj.items)
    case Unwind(_, name) => name != PATH_ACC
    case Return(_) => true
  }

  lemma RunClauseClean(ctx: Ctx, c: Clause, s: State)
    requires CleanRows(s.rows) && NoReserved(ctx, c) && RunClause(ctx, c, s).Ok?
    ensures CleanRows(RunClause(ctx, c, s).value.rows)
  {
    match c
    case Match(pattern, optional, w) => MatchClauseClean(ctx, pattern, optional, w, s.rows);
    case With(proj, w) => WithClean(ctx, proj, w, s.rows);
    case Unwind(e, name) => UnwindClean(ctx, e, name, s.rows);
    case Return(_) =>
  }

  lemma UnwindClean(ctx: Ctx, e: Expr, name: string, rows: seq<Row>)
    requires CleanRows(rows) && name != PATH_ACC
    requires FlatMapR(UnwindFn(ctx, e, name), rows).Ok?
    ensures CleanRows(FlatMapR(UnwindFn(ctx, e, name), rows).value)
  {
    var f := UnwindFn(ctx, e, name);
    FlatMapOk(f, rows);
    forall m | m in FlatMapR(f, rows).value ensures PATH_ACC !in m {
      var row :| row in rows && m in f(row).value;
      UnwoundClean(ctx, e, name, row, m);
    }
  }

  lemma UnwoundClean(ctx: Ctx, e: Expr, name: string, row: Row, m: Row)
    requires PATH_ACC !in row && name != PATH_ACC
    requires UnwindFn(ctx, e, name)(row).Ok? && m in UnwindFn(ctx, e, name)(row).value
    ensures PATH_ACC !in m
  {
  }

  lemma WithClean(ctx: Ctx, proj: Projection, w: Option<Expr>, rows: seq<Row>)
    requires CleanRows(rows) && PATH_ACC !in ItemNames(ctx, proj.items)
    requires ProjectOrAggregate(ctx, proj, w, rows).Ok?
    ensures CleanRows(ProjectOrAggregate(ctx, proj, w, rows).value)
  {
    if HasAgg(proj.items) {
      AggregateKeys(ctx, proj, w, rows);
      ColumnNames(ctx, proj.items);
    } else {
      ProjectFrom(ctx, proj, w, rows);
      forall r | r in Project(ctx, proj, w, rows).value ensures PATH_ACC !in r {
        var row :| row in rows && ProjectRow(ctx, proj.items, row, map[]) == Ok(r);
        ProjectRowKeys(ctx, proj.items, row, map[]);
      }
    }
  }

  // ---- a whole query, split ----------------------------------------------------------------------------

  /** Required MATCH clauses split freely; an OPTIONAL MATCH must have a single path already. */
  ghost predicate SplitSafe(ctx: Ctx, cs: seq<Clause>) {
    forall i :: 0 <= i < |cs| ==>
                  && NoReserved(ctx, cs[i])
                  && (cs[i].Match? && cs[i].optional ==> |cs[i].pattern| <= 1)
  }

  lemma {:induction false} SplitKeepsRun(ctx: Ctx, cs: seq<Clause>, s: Result<State>)
    requires SplitSafe(ctx, cs) && (s.Ok? ==> CleanRows(s.value.rows))
    ensures Agree(RunClauses(ctx, cs, s), RunClauses(ctx, SplitClauses(cs), s))
    decreases cs
  {
    if cs != [] && s.Ok? {
      var c := cs[0];
      var head := if c.Match? then SplitMatch(c.pattern, c.optional, c.where) else [c];
      RunConcat(ctx, head, SplitClauses(cs[1..]), s);
      if c.Match? && !c.optional {
        SplitOneClause(ctx, c.pattern, c.where, s.value);
      } else {
        assert head == [c] && [c][1..] == [];
      }
      assert SplitSafe(ctx, cs[1..]) by { assert forall i :: 0 <= i < |cs[1..]| ==> cs[1..][i] == cs[i + 1]; }
      if RunClause(ctx, c, s.value).Ok? { RunClauseClean(ctx, c, s.value); }
      SplitKeepsRun(ctx, cs[1..], RunClause(ctx, c, s.value));
      RunAgree(ctx, SplitClauses(cs[1..]), RunClause(ctx, c, s.value), RunClauses(ctx, head, s));
    }
  }

  /** Splitting every multi-path MATCH of a query changes neither its rows nor whether it fails. */
  lemma SplitKeepsQuery(ctx: Ctx, cs: seq<Clause>)
    requires SplitSafe(ctx, cs)
    ensures Agree(RunQuery(ctx, cs), RunQuery(ctx, SplitClauses(cs)))
  {
    SplitKeepsRun(ctx, cs, Ok(State([map[]], [])));
  }
}
