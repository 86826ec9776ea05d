/** Property injection over whole paths and patterns. */
module InjectPattern {
  import opened Prelude
  import opened Ast
  import opened Evaluation
  import opened Matcher
  import opened Bindings
  import opened Hoist
  import opened HoistCommutes
  import opened HoistClause
  import opened Inject

  // ---- one path ---------------------------------------------------------------------------------

  lemma InjectStart(ctx: Ctx, p: Path, v: string, key: string, lit: Expr, row: Row)
    requires PlainPath(p) && IsLiteral(lit) && v != PATH_ACC
    requires IsTarget(p.elements[0], v)
    ensures var e := Conjunct(v, key, lit);
            Shrinks(MatchPath(ctx, false, p, row),
                    MatchPath(ctx, false,
                              p.(elements := [NodeEl(AddEntry(p.elements[0].node, key, lit))] + p.elements[1..]), row),
                    MatchPath(ctx, true,
                              p.(elements := [NodeEl(p.elements[0].node.(where := Some(e)))] + p.elements[1..]), row))
  {
    var np, rest := p.elements[0].node, p.elements[1..];
    var np' := np.(where := Some(Conjunct(v, key, lit)));
    var p', pm := p.(elements := [NodeEl(AddEntry(np, key, lit))] + rest), p.(elements := [NodeEl(np')] + rest);
    assert WhereOf(p.elements[0]) == None && np.(where := None) == np && np'.(where := None) == np;
    CandidatesInjected(ctx, np, key, lit, row);
    CandidateNodesStrip(ctx, np', row);
    var ns := CandidateNodes(ctx, np, row);
    if ns.Ok? {
      var f, g, h := StartFn(ctx, false, p, row), StartFn(ctx, false, p', row), StartFn(ctx, true, pm, row);
      forall n | n in ns.value
        ensures LitFn(ctx, key, lit)(n) ==> Shrinks(f(n), g(n), h(n))
        ensures !LitFn(ctx, key, lit)(n) ==> h(n) == Ok([])
      {
        MarkedStart(ctx, np, v, key, lit, p.variable.Some?, row, n);
        var r := StartRow(ctx, false, np, p.variable.Some?, row, n);
        if r.Ok? && r.value.Some? {
          RestPlain(p);
          PlainExpand(ctx, rest, r.value.value, n, p.variable.Some?);
        }
      }
      FilteredStarts(f, g, h, LitFn(ctx, key, lit), ns.value);
    }
  }

  lemma RestPlain(p: Path)
    requires PlainPath(p)
    ensures Plain(p.elements[1..])
  {
    assert forall i :: 0 <= i < |p.elements[1..]| ==> p.elements[1..][i] == p.elements[i + 1];
  }

  lemma InjectLater(ctx: Ctx, p: Path, out: seq<Element>, mark: seq<Element>, v: string, key: string, lit: Expr,
          row: Row)
    requires PlainPath(p) && IsLiteral(lit) && v != PATH_ACC
    requires InjectElems(p.elements[1..], v, key, lit) == Injected(out)
    requires mark == MarkElems(p.elements[1..], v, Conjunct(v, key, lit))
    ensures Shrinks(MatchPath(ctx, false, p, row),
                    MatchPath(ctx, false, p.(elements := [p.elements[0]] + out), row),
                    MatchPath(ctx, true, p.(elements := [p.elements[0]] + mark), row))
  {
    var np, rest, named := p.elements[0].node, p.elements[1..], p.variable.Some?;
    var p', pm := p.(elements := [p.elements[0]] + out), p.(elements := [p.elements[0]] + mark);
    assert WhereOf(p.elements[0]) == None;
    RestPlain(p);
    var ns := CandidateNodes(ctx, np, row);
    if ns.Ok? {
      var f, g, h := StartFn(ctx, false, p, row), StartFn(ctx, false, p', row), StartFn(ctx, true, pm, row);
      forall n | n in ns.value ensures Shrinks(f(n), g(n), h(n)) {
        var r := StartRow(ctx, false, np, named, row, n);
        assert StartRow(ctx, true, np, named, row, n) == r;
        if r.Ok? && r.value.Some? {
          InjectExpand(ctx, rest, v, key, lit, r.value.value, n, named);
          FinishShrinks(p.variable, Expand(ctx, false, rest, r.value.value, n, named),
                        Expand(ctx, false, out, r.value.value, n, named),
                        Expand(ctx, true, mark, r.value.value, n, named));
        }
      }
      FlatMapShrinks(f, g, h, ns.value);
    }
  }

  lemma InjectPath(ctx: Ctx, p: Path, v: string, key: string, lit: Expr, row: Row)
    requires PlainPath(p) && IsLiteral(lit) && v != PATH_ACC
    requires InjectElems(p.elements, v, key, lit).Injected?
    ensures Shrinks(MatchPath(ctx, false, p, row),
                    MatchPath(ctx, false, p.(elements := InjectElems(p.elements, v, key, lit).value), row),
                    MatchPath(ctx, true, p.(elements := MarkElems(p.elements, v, Conjunct(v, key, lit))), row))
  {
    if IsTarget(p.elements[0], v) {
      InjectStart(ctx, p, v, key, lit, row);
    } else {
      InjectLater(ctx, p, InjectElems(p.elements[1..], v, key, lit).value,
                  MarkElems(p.elements[1..], v, Conjunct(v, key, lit)), v, key, lit, row);
    }
  }

  lemma PlainMatchPath(ctx: Ctx, p: Path, row: Row)
    requires PlainPath(p)
    ensures MatchPath(ctx, true, p, row) == MatchPath(ctx, false, p, row)
  {
    var np, rest, named := p.elements[0].node, p.elements[1..], p.variable.Some?;
    assert WhereOf(p.elements[0]) == None;
    RestPlain(p);
    var ns := CandidateNodes(ctx, np, row);
    if ns.Ok? {
      var f, g := StartFn(ctx, true, p, row), StartFn(ctx, false, p, row);
      forall n | n in ns.value ensures f(n) == g(n) {
        var r := StartRow(ctx, false, np, named, row, n);
        assert StartRow(ctx, true, np, named, row, n) == r;
        if r.Ok? && r.value.Some? { PlainExpand(ctx, rest, r.value.value, n, named); }
      }
      FlatMapExt(f, g, ns.value);
    }
  }

  // ---- whole patterns ---------------------------------------------------------------------------------

  ghost predicate PlainPattern(pattern: Pattern) {
    forall i :: 0 <= i < |pattern| ==> PlainPath(pattern[i])
  }

  lemma PlainPatternTail(pattern: Pattern)
    requires PlainPattern(pattern) && pattern != []
    ensures PlainPath(pattern[0]) && PlainPattern(pattern[1..])
  {
    assert forall i :: 0 <= i < |pattern[1..]| ==> pattern[1..][i] == pattern[i + 1];
  }

  lemma {:induction false} PlainPaths(ctx: Ctx, pattern: Pattern, rows: Result<seq<Row>>)
    requires PlainPattern(pattern)
    ensures MatchPaths(ctx, true, pattern, rows) == MatchPaths(ctx, false, pattern, rows)
    decreases |pattern|
  {
    if pattern != [] {
      PlainPatternTail(pattern);
      var f, g := PathFn(ctx, true, pattern[0]), PathFn(ctx, false, pattern[0]);
      if rows.Ok? {
        forall row | row in rows.value ensures f(row) == g(row) { PlainMatchPath(ctx, pattern[0], row); }
        FlatMapExt(f, g, rows.value);
      }
      PlainPaths(ctx, pattern[1..], Then(rows, g));
    }
  }

  /** Fewer rows in, fewer rows out, and no new error. */
  lemma {:induction false} MatchPathsMonotone(ctx: Ctx, pattern: Pattern, rows: seq<Row>, fewer: seq<Row>)
    requires MatchPaths(ctx, false, pattern, Ok(rows)).Ok?
    requires forall r :: r in fewer ==> r in rows
    ensures MatchPaths(ctx, false, pattern, Ok(fewer)).Ok?
    ensures forall m :: m in MatchPaths(ctx, false, pattern, Ok(fewer)).value ==>
                          m in MatchPaths(ctx, false, pattern, Ok(rows)).value
    decreases |pattern|
  {
    if pattern != [] {
      var f := PathFn(ctx, false, pattern[0]);
      MatchPathsErr(ctx, false, pattern[1..], FlatMapR(f, rows));
      FlatMapOk(f, rows);
      FlatMapOk(f, fewer);
      MatchPathsMonotone(ctx, pattern[1..], FlatMapR(f, rows).value, FlatMapR(f, fewer).value);
    }
  }

  lemma ShrinkThen(ctx: Ctx, ps: Pattern, f: Result<seq<Row>>, g: Result<seq<Row>>, h: Result<seq<Row>>)
    requires Shrinks(f, g, h) && PlainPattern(ps)
    ensures Shrinks(MatchPaths(ctx, false, ps, f), MatchPaths(ctx, false, ps, g), MatchPaths(ctx, true, ps, h))
  {
    PlainPaths(ctx, ps, h);
    MatchPathsErr(ctx, false, ps, f);
    if MatchPaths(ctx, false, ps, f).Ok? {
      MatchPathsMonotone(ctx, ps, f.value, g.value);
    }
  }

  lemma {:induction false} InjectPaths(ctx: Ctx, pattern: Pattern, v: string, key: string, lit: Expr, rows: seq<Row>)
    requires PlainPattern(pattern) && IsLiteral(lit) && v != PATH_ACC
    requires InjectProp(pattern, v, key, lit).Injected?
    ensures Shrinks(MatchPaths(ctx, false, pattern, Ok(rows)),
                    MatchPaths(ctx, false, InjectProp(pattern, v, key, lit).value, Ok(rows)),
                    MatchPaths(ctx, true, MarkPattern(pattern, v, key, lit), Ok(rows)))
    decreases |pattern|
  {
    PlainPatternTail(pattern);
    var p, ps := pattern[0], pattern[1..];
    var out, mark := InjectProp(pattern, v, key, lit).value, MarkPattern(pattern, v, key, lit);
    var f, g, h := PathFn(ctx, false, p), PathFn(ctx, false, out[0]), PathFn(ctx, true, mark[0]);
    if InjectElems(p.elements, v, key, lit).NotFound? {
      assert out[0] == mark[0] == p && out[1..] == InjectProp(ps, v, key, lit).value;
      assert mark[1..] == MarkPattern(ps, v, key, lit);
      forall row | row in rows ensures f(row) == h(row) { PlainMatchPath(ctx, p, row); }
      FlatMapExt(f, h, rows);
      if FlatMapR(f, rows).Ok? {
        InjectPaths(ctx, ps, v, key, lit, FlatMapR(f, rows).value);
      } else {
        MatchPathsErr(ctx, false, ps, FlatMapR(f, rows));
        ErrPaths(ctx, out[1..], mark[1..], FlatMapR(f, rows));
      }
    } else {
      assert out[1..] == mark[1..] == ps;
      forall row | row in rows ensures Shrinks(f(row), g(row), h(row)) { InjectPath(ctx, p, v, key, lit, row); }
      FlatMapShrinks(f, g, h, rows);
      ShrinkThen(ctx, ps, FlatMapR(f, rows), FlatMapR(g, rows), FlatMapR(h, rows));
    }
  }

  lemma ErrPaths(ctx: Ctx, a: Pattern, b: Pattern, r: Result<seq<Row>>)
    requires r.Err?
    ensures MatchPaths(ctx, false, a, r) == MatchPaths(ctx, true, b, r) == r
  {
    PathsErr(ctx, false, a, r.error);
    PathsErr(ctx, true, b, r.error);
  }

  // ---- the marked pattern is one the hoisting theorem covers -----------------------------------------------

  lemma {:induction false} NoPreds(elems: seq<Element>)
    requires Plain(elems)
    ensures Preds(elems) == [] && Strip(elems) == elems
  {
    if elems != [] {
      assert WhereOf(elems[0]) == None && StripEl(elems[0]) == elems[0];
      assert forall i :: 0 <= i < |elems[1..]| ==> elems[1..][i] == elems[i + 1];
      NoPreds(elems[1..]);
    }
  }

  lemma {:induction false} MarkedElems(elems: seq<Element>, v: string, key: string, lit: Expr)
    requires Plain(elems) && !InjectElems(elems, v, key, lit).NotFound?
    ensures var mark := MarkElems(elems, v, Conjunct(v, key, lit));
            && |mark| == |elems| && Preds(mark) == [Conjunct(v, key, lit)] && Strip(mark) == elems
            && ElementVars(mark) == ElementVars(elems)
            && forall i :: 0 <= i < |elems| ==> mark[i].NodeEl? == elems[i].NodeEl?
  {
    assert forall i :: 0 <= i < |elems[1..]| ==> elems[1..][i] == elems[i + 1];
    assert WhereOf(elems[0]) == None && StripEl(elems[0]) == elems[0];
    var mark := MarkElems(elems, v, Conjunct(v, key, lit));
    if IsTarget(elems[0], v) {
      NoPreds(elems[1..]);
      assert mark[1..] == elems[1..];
    } else {
      MarkedElems(elems[1..], v, key, lit);
      assert mark[1..] == MarkElems(elems[1..], v, Conjunct(v, key, lit));
    }
  }

  lemma {:induction false} PlainSettled(elems: seq<Element>, bound: set<string>, vars: set<string>, avoid: set<string>)
    requires Plain(elems)
    ensures SettledElems(elems, bound, vars, avoid)
  {
    if elems != [] {
      assert WhereOf(elems[0]) == None;
      assert forall i :: 0 <= i < |elems[1..]| ==> elems[1..][i] == elems[i + 1];
      PlainSettled(elems[1..], bound + VarOf(elems[0]), vars, avoid);
    }
  }

  lemma {:induction false} MarkedSettled(
    elems: seq<Element>, v: string, key: string, lit: Expr, bound: set<string>, vars: set<string>, avoid: set<string>)
    requires Plain(elems) && IsLiteral(lit) && v !in avoid
    ensures SettledElems(MarkElems(elems, v, Conjunct(v, key, lit)), bound, vars, avoid)
  {
    if elems != [] {
      assert WhereOf(elems[0]) == None;
      assert forall i :: 0 <= i < |elems[1..]| ==> elems[1..][i] == elems[i + 1];
      var e := Conjunct(v, key, lit);
      var mark := MarkElems(elems, v, e);
      if IsTarget(elems[0], v) {
        PlainSettled(elems[1..], bound + VarOf(elems[0]), vars, avoid);
        assert mark[1..] == elems[1..];
        ConjunctNames(v, key, lit);
      } else {
        MarkedSettled(elems[1..], v, key, lit, bound + VarOf(elems[0]), vars, avoid);
        assert mark[1..] == MarkElems(elems[1..], v, e);
      }
    }
  }

  lemma {:induction false} PlainPatternSettled(pattern: Pattern, bound: set<string>, vars: set<string>,
          avoid: set<string>)
    requires PlainPattern(pattern)
    ensures SettledPattern(pattern, bound, vars, avoid) && PatternPreds(pattern) == []
            && StripPattern(pattern) == pattern
  {
    if pattern != [] {
      PlainPatternTail(pattern);
      PlainSettled(pattern[0].elements, bound, vars, avoid);
      NoPreds(pattern[0].elements);
      PlainPatternSettled(pattern[1..], bound + ElementVars(pattern[0].elements), vars, avoid);
    }
  }

  ghost predicate GoodMark(mark: Pattern, pattern: Pattern, e: Expr, bound: set<string>, vars: set<string>,
          avoid: set<string>) {
    && PatternShape(mark) && SettledPattern(mark, bound, vars, avoid)
    && PatternPreds(mark) == [e] && StripPattern(mark) == pattern
    && PathVars(mark) == PathVars(pattern) && BoundVars(mark) == BoundVars(pattern)
  }

  lemma MarkedHead(p: Path, ps: Pattern, v: string, key: string, lit: Expr,
                   bound: set<string>, vars: set<string>, avoid: set<string>)
    requires PlainPath(p) && PlainPattern(ps) && IsLiteral(lit) && v !in avoid
    requires !InjectElems(p.elements, v, key, lit).NotFound?
    ensures GoodMark([p.(elements := MarkElems(p.elements, v, Conjunct(v, key, lit)))] + ps, [p] + ps,
                     Conjunct(v, key, lit), bound, vars, avoid)
  {
    PathIsOdd(p);
    MarkedElems(p.elements, v, key, lit);
    MarkedSettled(p.elements, v, key, lit, bound, vars, avoid);
    PlainPatternSettled(ps, bound + ElementVars(p.elements), vars, avoid);
    PlainShape(ps);
    var q := p.(elements := MarkElems(p.elements, v, Conjunct(v, key, lit)));
    assert ([q] + ps)[1..] == ps && ([p] + ps)[1..] == ps;
  }

  lemma MarkedLater(p: Path, ps: Pattern, mark: Pattern, e: Expr, bound: set<string>, vars: set<string>,
          avoid: set<string>)
    requires PlainPath(p) && GoodMark(mark, ps, e, bound + ElementVars(p.elements), vars, avoid)
    ensures GoodMark([p] + mark, [p] + ps, e, bound, vars, avoid)
  {
    PathIsOdd(p);
    PlainSettled(p.elements, bound, vars, avoid);
    NoPreds(p.elements);
    assert ([p] + mark)[1..] == mark && ([p] + ps)[1..] == ps;
  }

  lemma {:induction false} MarkedPattern(
    pattern: Pattern, v: string, key: string, lit: Expr, bound: set<string>, vars: set<string>, avoid: set<string>)
    requires PlainPattern(pattern) && IsLiteral(lit) && v !in avoid
    requires InjectProp(pattern, v, key, lit).Injected?
    ensures GoodMark(MarkPattern(pattern, v, key, lit), pattern, Conjunct(v, key, lit), bound, vars, avoid)
    decreases |pattern|
  {
    PlainPatternTail(pattern);
    var p, ps := pattern[0], pattern[1..];
    assert pattern == [p] + ps;
    if InjectElems(p.elements, v, key, lit).NotFound? {
      MarkedPattern(ps, v, key, lit, bound + ElementVars(p.elements), vars, avoid);
      MarkedLater(p, ps, MarkPattern(ps, v, key, lit), Conjunct(v, key, lit), bound, vars, avoid);
    } else {
      MarkedHead(p, ps, v, key, lit, bound, vars, avoid);
    }
  }

  lemma PathIsOdd(p: Path)
    requires PathShape(p)
    ensures StartsWithNode(p)
  {
    OddHead(p.elements);
  }

  lemma OddHead(elems: seq<Element>)
    requires elems != [] && |elems[1..]| % 2 == 0
    ensures |elems| % 2 == 1
  {
  }

  lemma PlainShape(pattern: Pattern)
    requires PlainPattern(pattern)
    ensures PatternShape(pattern)
  {
    forall i | 0 <= i < |pattern| ensures StartsWithNode(pattern[i]) {
      PathIsOdd(pattern[i]);
    }
  }

  /** Injecting the entry filters the matches by the conjunct, in order, without ever raising. */
  lemma InjectFilters(ctx: Ctx, pattern: Pattern, v: string, key: string, lit: Expr, row: Row)
    requires PlainPattern(pattern) && IsLiteral(lit)
    requires InjectProp(pattern, v, key, lit).Injected?
    requires v !in PathVars(pattern) && v != PATH_ACC
    requires MatchPattern(ctx, false, pattern, row).Ok?
    ensures MatchPattern(ctx, false, InjectProp(pattern, v, key, lit).value, row) ==
            Ok(Filter(HoldsFn(ctx, Some(Conjunct(v, key, lit))), MatchPattern(ctx, false, pattern, row).value))
  {
    var mark, e := MarkPattern(pattern, v, key, lit), Conjunct(v, key, lit);
    InjectPaths(ctx, pattern, v, key, lit, [row]);
    MarkedPattern(pattern, v, key, lit, {}, BoundVars(pattern), PathVars(pattern) + {PATH_ACC});
    StripPaths(ctx, mark, Ok([row]));
    PatternFilters(ctx, mark, row);
    var ms := MatchPattern(ctx, false, pattern, row).value;
    forall m | m in ms ensures AllHoldFn(ctx, [e])(m) == HoldsFn(ctx, Some(e))(m) {
      ListHolds(ctx, Some(e), m);
    }
    FilterExt(AllHoldFn(ctx, [e]), HoldsFn(ctx, Some(e)), ms);
  }
}
