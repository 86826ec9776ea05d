/** Predicate pushdown: `v.key = literal` conjuncts of WHERE move into node property maps. */
module Pushdown {
  import opened Prelude
  import opened Ast
  import opened Evaluation
  import opened Matcher
  import opened Bindings
  import opened Hoist
  import opened HoistCommutes
  import opened Inject
  import opened InjectPattern

  // ---- the rewrite -----------------------------------------------------------------------------

  /** What is left of a predicate, whether anything moved, and the pattern with what moved. */
  datatype Fold = Fold(residual: Option<Expr>, folded: bool, pattern: Pattern)

  function Join(l: Option<Expr>, r: Option<Expr>): Option<Expr> {
    if l == None then r else if r == None then l else Some(Binary(AndOp, l.value, r.value))
  }

  predicate IsFoldable(e: Expr) {
    e.Binary? && e.op == EqOp && e.left.Property? && e.left.obj.Identifier? && IsLiteral(e.right)
  }

  function TryFold(e: Expr, pattern: Pattern): Fold {
    if e.Binary? && e.op == AndOp then
      var l := TryFold(e.left, pattern);
      var r := TryFold(e.right, l.pattern);
      Fold(Join(l.residual, r.residual), l.folded || r.folded, r.pattern)
    else if IsFoldable(e) then
      match InjectProp(pattern, e.left.obj.name, e.left.key, e.right)
      case Injected(p) => Fold(None, true, p)
      case _ => Fold(Some(e), false, pattern)
    else Fold(Some(e), false, pattern)
  }

  function PushPattern(pattern: Pattern, w: Option<Expr>): Pattern {
    if w == None then pattern else TryFold(w.value, pattern).pattern
  }

  function PushWhere(pattern: Pattern, w: Option<Expr>): Option<Expr> {
    if w == None || !TryFold(w.value, pattern).folded then w else TryFold(w.value, pattern).residual
  }

  // ---- a name that stands for a path cannot also be constrained ------------------------------------

  ghost predicate ListAt(row: Row, x: string) {
    x in row && row[x].List?
  }

  lemma {:induction false} ExpandKeepsPath(ctx: Ctx, elems: seq<Element>, row: Row, cur: nat, track: bool)
    requires PATH_ACC !in ElementVars(elems) && ListAt(row, PATH_ACC)
    requires Expand(ctx, false, elems, row, cur, track).Ok?
    ensures forall m: Row :: m in Expand(ctx, false, elems, row, cur, track).value ==> ListAt(m, PATH_ACC)
    decreases |elems|
  {
    if |elems| >= 2 {
      var cands := CandidateRels(ctx, elems[0].rel, cur).value;
      var f := HopFn(ctx, false, elems, row, track);
      FlatMapOk(f, cands);
      ElementVarsPair(elems);
      forall m: Row | m in FlatMapR(f, cands).value ensures ListAt(m, PATH_ACC) {
        var c :| c in cands && m in f(c).value;
        HopKeepsPath(ctx, elems[0].rel, elems[1].node, row, track, c);
        var r := HopRow(ctx, false, elems[0].rel, elems[1].node, row, track, c).value.value;
        ExpandKeepsPath(ctx, elems[2..], r, c.other, track);
      }
    }
  }

  lemma HopKeepsPath(ctx: Ctx, rp: RelPattern, np: NodePattern, row: Row, track: bool, c: Cand)
    requires PATH_ACC !in OptSet(rp.variable) + OptSet(np.variable) && ListAt(row, PATH_ACC)
    ensures var hop := HopRow(ctx, false, rp, np, row, track, c);
            hop.Ok? && hop.value.Some? ==> ListAt(hop.value.value, PATH_ACC)
  {
    var r1 := BindVar(row, rp.variable, c.value);
    if r1.Some? {
      BindVarGrows(row, rp.variable, c.value);
      var r2 := BindVar(r1.value, np.variable, NodeRef(c.other));
      if r2.Some? { BindVarGrows(r1.value, np.variable, NodeRef(c.other)); }
    }
  }

  lemma PathBindsList(ctx: Ctx, p: Path, row: Row)
    requires PathShape(p) && p.variable.Some? && PATH_ACC !in ElementVars(p.elements)
    requires MatchPath(ctx, false, p, row).Ok?
    ensures forall m: Row :: m in MatchPath(ctx, false, p, row).value ==> ListAt(m, p.variable.value)
  {
    var ns := CandidateNodes(ctx, p.elements[0].node, row).value;
    var f := StartFn(ctx, false, p, row);
    FlatMapOk(f, ns);
    forall m: Row | m in FlatMapR(f, ns).value ensures ListAt(m, p.variable.value) {
      var n :| n in ns && m in f(n).value;
      var r, e := StartStepFrom(ctx, false, p, row, n, m);
      assert ElementVars(p.elements) == VarOf(p.elements[0]) + ElementVars(p.elements[1..]);
      ExpandKeepsPath(ctx, p.elements[1..], r, n, true);
    }
  }

  lemma OnePathBindsList(ctx: Ctx, p: Path, rows: seq<Row>, x: string)
    requires PathShape(p) && PATH_ACC !in ElementVars(p.elements) && x != PATH_ACC
    requires FlatMapR(PathFn(ctx, false, p), rows).Ok?
    requires p.variable == Some(x) || forall r :: r in rows ==> ListAt(r, x)
    ensures forall m :: m in FlatMapR(PathFn(ctx, false, p), rows).value ==> ListAt(m, x)
  {
    var f := PathFn(ctx, false, p);
    FlatMapOk(f, rows);
    forall m | m in FlatMapR(f, rows).value ensures ListAt(m, x) {
      var r :| r in rows && m in f(r).value;
      PathKeepsList(ctx, p, r, x, m);
    }
  }

  lemma PathKeepsList(ctx: Ctx, p: Path, r: Row, x: string, m: Row)
    requires PathShape(p) && PATH_ACC !in ElementVars(p.elements) && x != PATH_ACC
    requires MatchPath(ctx, false, p, r).Ok? && m in MatchPath(ctx, false, p, r).value
    requires p.variable == Some(x) || ListAt(r, x)
    ensures ListAt(m, x)
  {
    if p.variable == Some(x) {
      PathBindsList(ctx, p, r);
    } else {
      MatchPathGrows(ctx, false, p, r);
    }
  }

  lemma {:induction false} PathsBindList(ctx: Ctx, pattern: Pattern, rows: seq<Row>, x: string)
    requires PlainPattern(pattern) && PATH_ACC !in PatternVars(pattern) && x != PATH_ACC
    requires MatchPaths(ctx, false, pattern, Ok(rows)).Ok?
    requires x in PathVars(pattern) || forall r :: r in rows ==> ListAt(r, x)
    ensures forall m :: m in MatchPaths(ctx, false, pattern, Ok(rows)).value ==> ListAt(m, x)
    decreases |pattern|
  {
    if pattern != [] {
      PlainPatternTail(pattern);
      var next := FlatMapR(PathFn(ctx, false, pattern[0]), rows);
      MatchPathsErr(ctx, false, pattern[1..], next);
      if pattern[0].variable == Some(x) || forall r :: r in rows ==> ListAt(r, x) {
        OnePathBindsList(ctx, pattern[0], rows, x);
      }
      PathsBindList(ctx, pattern[1..], next.value, x);
    }
  }

  lemma ConjunctOnList(ctx: Ctx, v: string, key: string, lit: Expr, row: Row)
    requires ListAt(row, v)
    ensures TestWhere(ctx, Some(Conjunct(v, key, lit)), row).Err?
  {
    assert Eval(ctx, Identifier(v), ctx.params + row) == Ok(row[v]);
    assert Eval(ctx, Property(Identifier(v), key), ctx.params + row) == Err(BadProperty);
  }

  // ---- one conjunct -------------------------------------------------------------------------------------

  ghost predicate CleanPattern(pattern: Pattern) {
    PlainPattern(pattern) && PATH_ACC !in PatternVars(pattern)
  }

  ghost predicate EvaluatesOn(ctx: Ctx, w: Option<Expr>, rows: seq<Row>) {
    forall m :: m in rows ==> TestWhere(ctx, w, m).Ok?
  }

  /** The rows WHERE is tested on: each match merged over the input row. */
  function Merged(ctx: Ctx, pattern: Pattern, row: Row): seq<Row>
    requires MatchPattern(ctx, false, pattern, row).Ok?
  {
    Map(Over(row), MatchPattern(ctx, false, pattern, row).value)
  }

  lemma {:induction false} InjectedElem(elems: seq<Element>, v: string, key: string, lit: Expr)
    requires !InjectElems(elems, v, key, lit).NotFound?
    ensures v in ElementVars(elems)
  {
    if !IsTarget(elems[0], v) { InjectedElem(elems[1..], v, key, lit); }
  }

  lemma {:induction false} InjectedName(pattern: Pattern, v: string, key: string, lit: Expr)
    requires InjectProp(pattern, v, key, lit).Injected?
    ensures v in PatternVars(pattern)
  {
    if InjectElems(pattern[0].elements, v, key, lit).NotFound? {
      InjectedName(pattern[1..], v, key, lit);
    } else {
      InjectedElem(pattern[0].elements, v, key, lit);
    }
  }

  lemma MergedConjunct(ctx: Ctx, v: string, key: string, lit: Expr, row: Row, m: Row)
    requires IsLiteral(lit) && v != PATH_ACC && row.Keys - {PATH_ACC} <= m.Keys
    ensures HoldsFn(ctx, Some(Conjunct(v, key, lit)))(row + m) == HoldsFn(ctx, Some(Conjunct(v, key, lit)))(m)
  {
    ConjunctNames(v, key, lit);
    EvalFrame(ctx, Conjunct(v, key, lit), ctx.params + (row + m), ctx.params + m);
  }

  /** Where the conjunct reads a path, it can only have evaluated on no rows at all. */
  lemma NoMatches(ctx: Ctx, pattern: Pattern, v: string, key: string, lit: Expr, row: Row)
    requires CleanPattern(pattern) && v in PathVars(pattern) && v != PATH_ACC
    requires MatchPattern(ctx, false, pattern, row).Ok?
    requires EvaluatesOn(ctx, Some(Conjunct(v, key, lit)), Merged(ctx, pattern, row))
    ensures MatchPattern(ctx, false, pattern, row).value == []
  {
    var ms := MatchPattern(ctx, false, pattern, row).value;
    PathsBindList(ctx, pattern, [row], v);
    if ms != [] {
      assert ms[0] in ms && Merged(ctx, pattern, row)[0] == row + ms[0];
      ConjunctOnList(ctx, v, key, lit, row + ms[0]);
      assert false;
    }
  }

  lemma FoldFilter(ctx: Ctx, pattern: Pattern, v: string, key: string, lit: Expr, row: Row)
    requires CleanPattern(pattern) && IsLiteral(lit) && v !in PathVars(pattern) && v != PATH_ACC
    requires InjectProp(pattern, v, key, lit).Injected?
    requires MatchPattern(ctx, false, pattern, row).Ok?
    ensures var p := InjectProp(pattern, v, key, lit).value;
            && MatchPattern(ctx, false, p, row).Ok?
            && Merged(ctx, p, row) == Filter(HoldsFn(ctx, Some(Conjunct(v, key, lit))), Merged(ctx, pattern, row))
  {
    var holds, ms := HoldsFn(ctx, Some(Conjunct(v, key, lit))), MatchPattern(ctx, false, pattern, row).value;
    InjectFilters(ctx, pattern, v, key, lit, row);
    MatchPatternGrows(ctx, false, pattern, row);
    forall m | m in ms ensures holds(Over(row)(m)) == holds(m) {
      MergedConjunct(ctx, v, key, lit, row, m);
    }
    FilterMap(holds, Over(row), ms);
  }

  lemma FoldEmpty(ctx: Ctx, pattern: Pattern, v: string, key: string, lit: Expr, row: Row)
    requires CleanPattern(pattern) && IsLiteral(lit) && v != PATH_ACC
    requires InjectProp(pattern, v, key, lit).Injected?
    requires MatchPattern(ctx, false, pattern, row) == Ok([])
    ensures MatchPattern(ctx, false, InjectProp(pattern, v, key, lit).value, row) == Ok([])
  {
    InjectPaths(ctx, pattern, v, key, lit, [row]);
    ShrinksToNothing(MatchPattern(ctx, false, InjectProp(pattern, v, key, lit).value, row),
                     MatchPaths(ctx, true, MarkPattern(pattern, v, key, lit), Ok([row])));
  }

  lemma HasFirst<T>(xs: seq<T>)
    ensures xs != [] ==> xs[0] in xs
  {
  }

  lemma ShrinksToNothing(injected: Result<seq<Row>>, marked: Result<seq<Row>>)
    requires Shrinks(Ok([]), injected, marked)
    ensures injected == Ok([])
  {
    HasFirst(injected.value);
  }

  lemma FoldConjunct(ctx: Ctx, pattern: Pattern, v: string, key: string, lit: Expr, row: Row)
    requires CleanPattern(pattern) && IsLiteral(lit)
    requires InjectProp(pattern, v, key, lit).Injected?
    requires MatchPattern(ctx, false, pattern, row).Ok?
    requires EvaluatesOn(ctx, Some(Conjunct(v, key, lit)), Merged(ctx, pattern, row))
    ensures var p := InjectProp(pattern, v, key, lit).value;
            && MatchPattern(ctx, false, p, row).Ok?
            && Merged(ctx, p, row) == Filter(HoldsFn(ctx, Some(Conjunct(v, key, lit))), Merged(ctx, pattern, row))
  {
    InjectedName(pattern, v, key, lit);
    if v in PathVars(pattern) {
      NoMatches(ctx, pattern, v, key, lit, row);
      FoldEmpty(ctx, pattern, v, key, lit, row);
    } else {
      FoldFilter(ctx, pattern, v, key, lit, row);
    }
  }

  // ---- the rewritten pattern is still one the argument covers ---------------------------------------------

  lemma {:induction false} InjectedElems(elems: seq<Element>, v: string, key: string, lit: Expr)
    requires InjectElems(elems, v, key, lit).Injected?
    ensures var out := InjectElems(elems, v, key, lit).value;
            && |out| == |elems| && ElementVars(out) == ElementVars(elems)
            && forall i :: 0 <= i < |elems| ==>
                             WhereOf(out[i]) == WhereOf(elems[i]) && out[i].NodeEl? == elems[i].NodeEl?
  {
    var out := InjectElems(elems, v, key, lit).value;
    if IsTarget(elems[0], v) {
      assert out[1..] == elems[1..];
    } else {
      InjectedElems(elems[1..], v, key, lit);
      assert out[1..] == InjectElems(elems[1..], v, key, lit).value;
    }
  }

  lemma InjectedPath(p: Path, v: string, key: string, lit: Expr)
    requires PlainPath(p) && InjectElems(p.elements, v, key, lit).Injected?
    ensures PlainPath(p.(elements := InjectElems(p.elements, v, key, lit).value))
  {
    var out := InjectElems(p.elements, v, key, lit).value;
    InjectedElems(p.elements, v, key, lit);
    assert |out[1..]| == |p.elements[1..]|;
    assert forall i :: 0 <= i < |out[1..]| ==> out[1..][i] == out[i + 1] && p.elements[1..][i] == p.elements[i + 1];
    assert forall i :: 0 <= i < |p.elements| ==> WhereOf(p.elements[i]) == None;
  }

  lemma {:induction false} InjectedPattern(pattern: Pattern, v: string, key: string, lit: Expr)
    requires PlainPattern(pattern) && InjectProp(pattern, v, key, lit).Injected?
    ensures var out := InjectProp(pattern, v, key, lit).value;
            PlainPattern(out) && PatternVars(out) == PatternVars(pattern)
  {
    PlainPatternTail(pattern);
    var p, ps, out := pattern[0], pattern[1..], InjectProp(pattern, v, key, lit).value;
    if InjectElems(p.elements, v, key, lit).Injected? {
      InjectedPath(p, v, key, lit);
      InjectedElems(p.elements, v, key, lit);
      assert out[1..] == ps;
      assert forall i :: 1 <= i < |out| ==> out[i] == ps[i - 1];
    } else {
      InjectedPattern(ps, v, key, lit);
      assert out[1..] == InjectProp(ps, v, key, lit).value;
      assert forall i :: 1 <= i < |out| ==> out[i] == out[1..][i - 1];
    }
  }

  // ---- all conjuncts ------------------------------------------------------------------------------------------

  /** What folding `e` into `pattern` guarantees for one input row. */
  ghost predicate Folded(ctx: Ctx, e: Expr, pattern: Pattern, row: Row)
    requires MatchPattern(ctx, false, pattern, row).Ok?
  {
    var f := TryFold(e, pattern);
    && CleanPattern(f.pattern) && PatternVars(f.pattern) == PatternVars(pattern)
    && MatchPattern(ctx, false, f.pattern, row).Ok?
    && (forall m :: m in Merged(ctx, f.pattern, row) ==> m in Merged(ctx, pattern, row))
    && EvaluatesOn(ctx, f.residual, Merged(ctx, f.pattern, row))
    && Filter(HoldsFn(ctx, f.residual), Merged(ctx, f.pattern, row)) ==
       Filter(HoldsFn(ctx, Some(e)), Merged(ctx, pattern, row))
  }

  lemma JoinHolds(ctx: Ctx, l: Option<Expr>, r: Option<Expr>, m: Row)
    requires TestWhere(ctx, l, m).Ok? && TestWhere(ctx, r, m).Ok?
    ensures TestWhere(ctx, Join(l, r), m).Ok?
    ensures Holds(ctx, Join(l, r), m) <==> Holds(ctx, l, m) && Holds(ctx, r, m)
  {
  }

  lemma AndEvaluates(ctx: Ctx, l: Expr, r: Expr, rows: seq<Row>)
    requires EvaluatesOn(ctx, Some(Binary(AndOp, l, r)), rows)
    ensures EvaluatesOn(ctx, Some(l), rows) && EvaluatesOn(ctx, Some(r), rows)
    ensures forall m :: m in rows ==>
                          (Holds(ctx, Some(Binary(AndOp, l, r)), m) <==>
                              Holds(ctx, Some(l), m) && Holds(ctx, Some(r), m))
  {
    forall m | m in rows
      ensures TestWhere(ctx, Some(l), m).Ok? && TestWhere(ctx, Some(r), m).Ok?
      ensures Holds(ctx, Some(Binary(AndOp, l, r)), m) <==> Holds(ctx, Some(l), m) && Holds(ctx, Some(r), m)
    {
      OneAnd(ctx, l, r, m);
    }
  }

  /** Two filters in either order. */
  lemma FilterSwap(p: Row -> bool, q: Row -> bool, both: Row -> bool, rows: seq<Row>)
    requires forall r :: r in rows ==> both(r) == (p(r) && q(r))
    ensures Filter(q, Filter(p, rows)) == Filter(both, rows) == Filter(p, Filter(q, rows))
  {
    FilterFilter(p, q, both, rows);
    FilterFilter(q, p, both, rows);
  }

  lemma {:induction false} FoldAnd(ctx: Ctx, l: Expr, r: Expr, pattern: Pattern, row: Row)
    requires MatchPattern(ctx, false, pattern, row).Ok?
    requires EvaluatesOn(ctx, Some(Binary(AndOp, l, r)), Merged(ctx, pattern, row))
    requires Folded(ctx, l, pattern, row)
    requires Folded(ctx, r, TryFold(l, pattern).pattern, row)
    ensures Folded(ctx, Binary(AndOp, l, r), pattern, row)
  {
    var e := Binary(AndOp, l, r);
    var a, b := TryFold(l, pattern), TryFold(r, TryFold(l, pattern).pattern);
    var m0, m1, m2 := Merged(ctx, pattern, row), Merged(ctx, a.pattern, row), Merged(ctx, b.pattern, row);
    var hl, hr, ha, hb := HoldsFn(ctx, Some(l)), HoldsFn(ctx, Some(r)), HoldsFn(ctx, a.residual),
        HoldsFn(ctx, b.residual);
    AndEvaluates(ctx, l, r, m0);
    forall m | m in m2 ensures TestWhere(ctx, Join(a.residual, b.residual), m).Ok?
                       ensures HoldsFn(ctx, Join(a.residual, b.residual))(m) == (hb(m) && ha(m)) {
      assert m in m1;
      JoinHolds(ctx, a.residual, b.residual, m);
    }
    FilterSwap(hl, hr, HoldsFn(ctx, Some(e)), m0);
    FilterSwap(hb, ha, HoldsFn(ctx, Join(a.residual, b.residual)), m2);
    FilterSwap(ha, hr, x => ha(x) && hr(x), m1);
  }

  lemma {:induction false} FoldSound(ctx: Ctx, e: Expr, pattern: Pattern, row: Row)
    requires CleanPattern(pattern) && MatchPattern(ctx, false, pattern, row).Ok?
    requires EvaluatesOn(ctx, Some(e), Merged(ctx, pattern, row))
    ensures Folded(ctx, e, pattern, row)
    decreases e
  {
    if e.Binary? && e.op == AndOp {
      AndEvaluates(ctx, e.left, e.right, Merged(ctx, pattern, row));
      FoldSound(ctx, e.left, pattern, row);
      FoldSound(ctx, e.right, TryFold(e.left, pattern).pattern, row);
      FoldAnd(ctx, e.left, e.right, pattern, row);
    } else if IsFoldable(e) && InjectProp(pattern, e.left.obj.name, e.left.key, e.right).Injected? {
      var v, key, lit := e.left.obj.name, e.left.key, e.right;
      assert e == Conjunct(v, key, lit);
      FoldConjunct(ctx, pattern, v, key, lit, row);
      InjectedPattern(pattern, v, key, lit);
      var out := Merged(ctx, InjectProp(pattern, v, key, lit).value, row);
      FilterAll(HoldsFn(ctx, None), out);
    }
  }

  // ---- the clause ------------------------------------------------------------------------------------------------

  /** Nothing folded leaves the predicate and the pattern as they were. */
  lemma {:induction false} NothingFolded(e: Expr, pattern: Pattern)
    requires !TryFold(e, pattern).folded
    ensures TryFold(e, pattern) == Fold(Some(e), false, pattern)
    decreases e
  {
    if e.Binary? && e.op == AndOp {
      NothingFolded(e.left, pattern);
      NothingFolded(e.right, pattern);
    }
  }

  lemma PushSurvivors(ctx: Ctx, pattern: Pattern, w: Expr, row: Row)
    requires CleanPattern(pattern) && Survivors(ctx, false, pattern, Some(w), row).Ok?
    ensures Survivors(ctx, false, TryFold(w, pattern).pattern, TryFold(w, pattern).residual, row) ==
            Survivors(ctx, false, pattern, Some(w), row)
    ensures PatternVars(TryFold(w, pattern).pattern) == PatternVars(pattern)
  {
    var f := TryFold(w, pattern);
    FilterROk(Passes(ctx, Some(w)), HoldsFn(ctx, Some(w)), Merged(ctx, pattern, row));
    forall m | m in Merged(ctx, pattern, row) ensures TestWhere(ctx, Some(w), m).Ok? {
      assert Passes(ctx, Some(w))(m).Ok?;
    }
    FoldSound(ctx, w, pattern, row);
    FilterROk(Passes(ctx, f.residual), HoldsFn(ctx, f.residual), Merged(ctx, f.pattern, row));
  }

  /** Whenever a MATCH or OPTIONAL MATCH runs without error, pushing its predicates down gives the same
      rows in the same order. */
  lemma PushdownKeepsClause(ctx: Ctx, pattern: Pattern, optional: bool, w: Option<Expr>, rows: seq<Row>)
    requires CleanPattern(pattern) && MatchClause(ctx, false, pattern, optional, w, rows).Ok?
    ensures MatchClause(ctx, false, PushPattern(pattern, w), optional, PushWhere(pattern, w), rows) ==
            MatchClause(ctx, false, pattern, optional, w, rows)
  {
    if w.Some? {
      if !TryFold(w.value, pattern).folded { NothingFolded(w.value, pattern); }
      var f := BlockFn(ctx, false, pattern, optional, w);
      var g := BlockFn(ctx, false, PushPattern(pattern, w), optional, PushWhere(pattern, w));
      FlatMapOk(f, rows);
      forall row | row in rows ensures f(row) == g(row) {
        PushSurvivors(ctx, pattern, w.value, row);
      }
      FlatMapExt(f, g, rows);
    }
  }
}
