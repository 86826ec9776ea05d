/** Lowering a MATCH clause: its rows are those of the matcher that tests inline predicates in place. */
module HoistClause {
  import opened Prelude
  import opened Ast
  import opened Evaluation
  import opened Matcher
  import opened Bindings
  import opened Hoist
  import opened HoistCommutes

  // ---- from one path to the next ---------------------------------------------------------------

  ghost predicate AllSettled(preds: seq<Expr>, bound: set<string>, vars: set<string>, avoid: set<string>) {
    forall i :: 0 <= i < |preds| ==> Settled(preds[i], bound, vars, avoid)
  }

  lemma AllTestsKept(ctx: Ctx, preds: seq<Expr>, r: Row, m: Row, bound: set<string>, vars: set<string>,
          avoid: set<string>)
    requires AllSettled(preds, bound, vars, avoid) && Later(r, m, bound, vars, avoid)
    ensures AllHold(ctx, preds, r) <==> AllHold(ctx, preds, m)
  {
    forall i | 0 <= i < |preds| ensures Holds(ctx, Some(preds[i]), r) <==> Holds(ctx, Some(preds[i]), m) {
      TestKept(ctx, preds[i], r, m, bound, vars, avoid);
    }
  }

  lemma PathLater(ctx: Ctx, p: Path, row: Row, bound: set<string>, vars: set<string>, avoid: set<string>)
    requires MatchPath(ctx, false, p, row).Ok?
    requires ElementVars(p.elements) <= vars && OptSet(p.variable) + {PATH_ACC} <= avoid
    requires forall x :: x in bound && x !in avoid ==> x in row
    ensures forall m :: m in MatchPath(ctx, false, p, row).value ==> Later(row, m, bound, vars, avoid)
  {
    MatchPathGrows(ctx, false, p, row);
  }

  /** A filtered table, matched against the next path, is the matched table filtered by both. */
  lemma {:induction false} FlatMapFilteredSource(
    f: Row -> Result<seq<Row>>, g: Row -> Result<seq<Row>>, q: Row -> bool, p: Row -> bool, rows: seq<Row>)
    requires FlatMapR(f, rows).Ok? && FlatMapR(g, Filter(q, rows)).Ok?
    requires forall r :: r in rows && q(r) && f(r).Ok? && g(r).Ok? ==> g(r).value == Filter(p, f(r).value)
    requires forall r :: r in rows && !q(r) && f(r).Ok? ==> Filter(p, f(r).value) == []
    ensures FlatMapR(g, Filter(q, rows)).value == Filter(p, FlatMapR(f, rows).value)
  {
    if rows != [] {
      assert rows[0] in rows;
      FilterConcat(p, f(rows[0]).value, FlatMapR(f, rows[1..]).value);
      FlatMapFilteredSource(f, g, q, p, rows[1..]);
    }
  }

  lemma PathStep(ctx: Ctx, p: Path, rows: seq<Row>, prev: seq<Expr>, bound: set<string>, vars: set<string>,
          avoid: set<string>)
    requires StartsWithNode(p)
    requires FlatMapR(PathFn(ctx, false, p), rows).Ok?
    requires FlatMapR(PathFn(ctx, true, p), Filter(AllHoldFn(ctx, prev), rows)).Ok?
    requires AllSettled(prev, bound, vars, avoid) && SettledElems(p.elements, bound, vars, avoid)
    requires ElementVars(p.elements) <= vars && OptSet(p.variable) + {PATH_ACC} <= avoid
    requires forall r, x :: r in rows && x in bound && x !in avoid ==> x in r
    ensures FlatMapR(PathFn(ctx, true, p), Filter(AllHoldFn(ctx, prev), rows)).value ==
            Filter(AllHoldFn(ctx, prev + Preds(p.elements)), FlatMapR(PathFn(ctx, false, p), rows).value)
  {
    var f, g := PathFn(ctx, false, p), PathFn(ctx, true, p);
    var q, both := AllHoldFn(ctx, prev), AllHoldFn(ctx, prev + Preds(p.elements));
    FlatMapOk(f, rows);
    FlatMapOk(g, Filter(q, rows));
    forall r | r in rows
      ensures q(r) ==> g(r).value == Filter(both, f(r).value)
      ensures !q(r) ==> Filter(both, f(r).value) == []
    {
      PathLater(ctx, p, r, bound, vars, avoid);
      forall m | m in f(r).value ensures both(m) <==> q(r) && AllHoldFn(ctx, Preds(p.elements))(m) {
        AllTestsKept(ctx, prev, r, m, bound, vars, avoid);
        AllHoldConcat(ctx, prev, Preds(p.elements), m);
      }
      if q(r) {
        assert r in Filter(q, rows);
        PathFilters(ctx, p, r, bound, vars, avoid);
        FilterExt(both, AllHoldFn(ctx, Preds(p.elements)), f(r).value);
      } else {
        FilterNone(both, f(r).value);
      }
    }
    FlatMapFilteredSource(f, g, q, both, rows);
  }

  ghost predicate PatternShape(pattern: Pattern) {
    forall i :: 0 <= i < |pattern| ==> StartsWithNode(pattern[i])
  }

  lemma NextBound(ctx: Ctx, p: Path, rows: seq<Row>, bound: set<string>, avoid: set<string>)
    requires StartsWithNode(p) && PATH_ACC in avoid
    requires FlatMapR(PathFn(ctx, false, p), rows).Ok?
    requires forall r, x :: r in rows && x in bound && x !in avoid ==> x in r
    ensures forall m: Row, x ::
              m in FlatMapR(PathFn(ctx, false, p), rows).value && x in bound + ElementVars(p.elements) && x !in avoid
              ==> x in m
  {
    var f := PathFn(ctx, false, p);
    FlatMapOk(f, rows);
    forall m: Row, x | m in FlatMapR(f, rows).value && x in bound + ElementVars(p.elements)
        && x !in avoid ensures x in m {
      var r :| r in rows && m in f(r).value;
      PathBinds(ctx, false, p, r, x);
    }
  }

  lemma MoreSettled(prev: seq<Expr>, elems: seq<Element>, bound: set<string>, vars: set<string>, avoid: set<string>)
    requires AllSettled(prev, bound, vars, avoid) && SettledElems(elems, bound, vars, avoid)
    ensures AllSettled(prev + Preds(elems), bound + ElementVars(elems), vars, avoid)
  {
    SettledNames(elems, bound, vars, avoid);
  }

  /** Everything the induction over paths needs to hold, for the paths in `pattern` from table `rows` on. */
  ghost predicate FilterReady(
    ctx: Ctx, pattern: Pattern, rows: seq<Row>, prev: seq<Expr>, bound: set<string>, vars: set<string>,
    avoid: set<string>)
  {
    && PatternShape(pattern)
    && MatchPaths(ctx, false, pattern, Ok(rows)).Ok?
    && MatchPaths(ctx, true, pattern, Ok(Filter(AllHoldFn(ctx, prev), rows))).Ok?
    && AllSettled(prev, bound, vars, avoid) && SettledPattern(pattern, bound, vars, avoid)
    && BoundVars(pattern) <= vars && PathVars(pattern) + {PATH_ACC} <= avoid
    && forall r, x :: r in rows && x in bound && x !in avoid ==> x in r
  }

  lemma NextReady(
    ctx: Ctx, pattern: Pattern, rows: seq<Row>, prev: seq<Expr>, bound: set<string>, vars: set<string>,
    avoid: set<string>)
    returns (next: seq<Row>)
    requires pattern != [] && FilterReady(ctx, pattern, rows, prev, bound, vars, avoid)
    ensures FlatMapR(PathFn(ctx, false, pattern[0]), rows) == Ok(next)
    ensures FlatMapR(PathFn(ctx, true, pattern[0]), Filter(AllHoldFn(ctx, prev), rows)) ==
            Ok(Filter(AllHoldFn(ctx, prev + Preds(pattern[0].elements)), next))
    ensures FilterReady(ctx, pattern[1..], next, prev + Preds(pattern[0].elements),
                        bound + ElementVars(pattern[0].elements), vars, avoid)
  {
    var p, kept := pattern[0], Filter(AllHoldFn(ctx, prev), rows);
    MatchPathsErr(ctx, false, pattern[1..], FlatMapR(PathFn(ctx, false, p), rows));
    MatchPathsErr(ctx, true, pattern[1..], FlatMapR(PathFn(ctx, true, p), kept));
    next := FlatMapR(PathFn(ctx, false, p), rows).value;
    PatternTail(pattern, bound, vars, avoid);
    PathStep(ctx, p, rows, prev, bound, vars, avoid);
    NextBound(ctx, p, rows, bound, avoid);
    MoreSettled(prev, p.elements, bound, vars, avoid);
  }

  lemma {:induction false} PathsFilter(
    ctx: Ctx, pattern: Pattern, rows: seq<Row>, prev: seq<Expr>, bound: set<string>, vars: set<string>,
    avoid: set<string>)
    requires FilterReady(ctx, pattern, rows, prev, bound, vars, avoid)
    ensures MatchPaths(ctx, true, pattern, Ok(Filter(AllHoldFn(ctx, prev), rows))).value ==
            Filter(AllHoldFn(ctx, prev + PatternPreds(pattern)), MatchPaths(ctx, false, pattern, Ok(rows)).value)
    decreases |pattern|
  {
    if pattern == [] {
      assert prev + [] == prev;
    } else {
      var next := NextReady(ctx, pattern, rows, prev, bound, vars, avoid);
      var prev' := prev + Preds(pattern[0].elements);
      PathsFilter(ctx, pattern[1..], next, prev', bound + ElementVars(pattern[0].elements), vars, avoid);
      ConcatAssoc(prev, Preds(pattern[0].elements), PatternPreds(pattern[1..]));
    }
  }

  lemma PatternTail(pattern: Pattern, bound: set<string>, vars: set<string>, avoid: set<string>)
    requires PatternShape(pattern) && pattern != []
    requires SettledPattern(pattern, bound, vars, avoid)
    requires BoundVars(pattern) <= vars && PathVars(pattern) + {PATH_ACC} <= avoid
    ensures StartsWithNode(pattern[0]) && PatternShape(pattern[1..])
    ensures SettledElems(pattern[0].elements, bound, vars, avoid)
    ensures SettledPattern(pattern[1..], bound + ElementVars(pattern[0].elements), vars, avoid)
    ensures ElementVars(pattern[0].elements) <= vars && OptSet(pattern[0].variable) + {PATH_ACC} <= avoid
    ensures BoundVars(pattern[1..]) <= vars && PathVars(pattern[1..]) + {PATH_ACC} <= avoid
  {
    assert forall i :: 0 <= i < |pattern[1..]| ==> pattern[1..][i] == pattern[i + 1];
  }

  // ---- the clause ------------------------------------------------------------------------------------

  /** Inline predicates talk about names bound by then, or never bound by the pattern, and not about paths. */
  ghost predicate HoistSafe(pattern: Pattern) {
    PatternShape(pattern) && SettledPattern(pattern, {}, BoundVars(pattern), PathVars(pattern) + {PATH_ACC})
  }

  lemma PatternFilters(ctx: Ctx, pattern: Pattern, row: Row)
    requires HoistSafe(pattern)
    requires MatchPattern(ctx, false, pattern, row).Ok? && MatchPattern(ctx, true, pattern, row).Ok?
    ensures MatchPattern(ctx, true, pattern, row).value ==
            Filter(AllHoldFn(ctx, PatternPreds(pattern)), MatchPattern(ctx, false, pattern, row).value)
  {
    FilterAll(AllHoldFn(ctx, []), [row]);
    PathsFilter(ctx, pattern, [row], [], {}, BoundVars(pattern), PathVars(pattern) + {PATH_ACC});
    assert [] + PatternPreds(pattern) == PatternPreds(pattern);
  }

  lemma {:induction false} PatternPredNames(pattern: Pattern, bound: set<string>, vars: set<string>, avoid: set<string>)
    requires SettledPattern(pattern, bound, vars, avoid)
    ensures forall i :: 0 <= i < |PatternPreds(pattern)| ==> Names(PatternPreds(pattern)[i]) !! avoid
  {
    if pattern != [] {
      SettledNames(pattern[0].elements, bound, vars, avoid);
      PatternPredNames(pattern[1..], bound + ElementVars(pattern[0].elements), vars, avoid);
    }
  }

  /** Merging a match over its row changes at most the reserved key, which predicates avoid. */
  lemma MergedHolds(ctx: Ctx, pattern: Pattern, row: Row, m: Row)
    requires HoistSafe(pattern) && row.Keys - {PATH_ACC} <= m.Keys
    ensures AllHold(ctx, PatternPreds(pattern), row + m) <==> AllHold(ctx, PatternPreds(pattern), m)
  {
    PatternPredNames(pattern, {}, BoundVars(pattern), PathVars(pattern) + {PATH_ACC});
    var preds := PatternPreds(pattern);
    forall i | 0 <= i < |preds| ensures Holds(ctx, Some(preds[i]), row + m) <==> Holds(ctx, Some(preds[i]), m) {
      EvalFrame(ctx, preds[i], ctx.params + (row + m), ctx.params + m);
    }
  }

  lemma SurvivorsHoist(ctx: Ctx, pattern: Pattern, w: Option<Expr>, row: Row)
    requires HoistSafe(pattern)
    requires Survivors(ctx, true, pattern, w, row).Ok?
    requires Survivors(ctx, false, StripPattern(pattern), HoistedWhere(pattern, w), row).Ok?
    ensures Survivors(ctx, true, pattern, w, row) ==
            Survivors(ctx, false, StripPattern(pattern), HoistedWhere(pattern, w), row)
  {
    StripPaths(ctx, pattern, Ok([row]));
    var ms := MatchPattern(ctx, false, pattern, row).value;
    var preds, hoisted := PatternPreds(pattern), HoistedWhere(pattern, w);
    var merged := Map(Over(row), ms);
    PatternFilters(ctx, pattern, row);
    MatchPatternGrows(ctx, false, pattern, row);
    forall m | m in ms ensures AllHoldFn(ctx, preds)(Over(row)(m)) == AllHoldFn(ctx, preds)(m) {
      MergedHolds(ctx, pattern, row, m);
    }
    FilterMap(AllHoldFn(ctx, preds), Over(row), ms);
    FilterROk(Passes(ctx, w), HoldsFn(ctx, w), Filter(AllHoldFn(ctx, preds), merged));
    FilterROk(Passes(ctx, hoisted), HoldsFn(ctx, hoisted), merged);
    forall m | m in merged ensures HoldsFn(ctx, hoisted)(m) == (AllHoldFn(ctx, preds)(m) && HoldsFn(ctx, w)(m)) {
      assert Passes(ctx, hoisted)(m).Ok?;
      WhereHolds(ctx, ListOf(w) + preds, m);
      AllHoldConcat(ctx, ListOf(w), preds, m);
      ListHolds(ctx, w, m);
    }
    FilterFilter(AllHoldFn(ctx, preds), HoldsFn(ctx, w), HoldsFn(ctx, hoisted), merged);
  }

  /** Hoisting keeps the clause's rows and their order, whenever neither way of running it raises. */
  lemma HoistKeepsClause(ctx: Ctx, pattern: Pattern, optional: bool, w: Option<Expr>, rows: seq<Row>)
    requires HoistSafe(pattern)
    requires MatchClause(ctx, true, pattern, optional, w, rows).Ok?
    requires MatchClause(ctx, false, StripPattern(pattern), optional, HoistedWhere(pattern, w), rows).Ok?
    ensures MatchClause(ctx, true, pattern, optional, w, rows) ==
            MatchClause(ctx, false, StripPattern(pattern), optional, HoistedWhere(pattern, w), rows)
  {
    var f := BlockFn(ctx, true, pattern, optional, w);
    var g := BlockFn(ctx, false, StripPattern(pattern), optional, HoistedWhere(pattern, w));
    FlatMapOk(f, rows);
    FlatMapOk(g, rows);
    StripPaths(ctx, pattern, Ok([]));
    forall row | row in rows ensures f(row) == g(row) {
      SurvivorsHoist(ctx, pattern, w, row);
    }
    FlatMapExt(f, g, rows);
  }
}
