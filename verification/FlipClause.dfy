/** Canonicalizing a whole MATCH clause: the same rows, perhaps in another order. */
module FlipClause {
  import opened Prelude
  import opened Ast
  import opened Evaluation
  import opened GraphSpec
  import opened Matcher
  import opened Canonicalize

  function FlipAll(pattern: Pattern): Pattern {
    if pattern == [] then [] else [Flip(pattern[0])] + FlipAll(pattern[1..])
  }

  // ---- loops over rearranged rows -------------------------------------------------------------------

  ghost predicate Rearranged<T>(xs: seq<T>, ys: seq<T>) {
    multiset(xs) == multiset(ys)
  }

  lemma TakeOut<T>(xs: seq<T>, ys: seq<T>) returns (i: nat)
    requires xs != [] && Rearranged(xs, ys)
    ensures i < |ys| && ys[i] == xs[0] && Rearranged(xs[1..], ys[..i] + ys[i + 1..])
    ensures ys == ys[..i] + ([ys[i]] + ys[i + 1..])
  {
    assert xs == [xs[0]] + xs[1..];
    assert xs[0] in multiset(ys);
    i :| 0 <= i < |ys| && ys[i] == xs[0];
    assert ys == ys[..i] + ([ys[i]] + ys[i + 1..]);
    assert multiset(ys) == multiset(ys[..i]) + multiset([ys[i]]) + multiset(ys[i + 1..]);
    assert multiset(ys[..i] + ys[i + 1..]) == multiset(ys[..i]) + multiset(ys[i + 1..]) ==
           multiset(ys) - multiset{xs[0]};
    assert multiset(xs[1..]) == multiset(xs) - multiset{xs[0]};
  }

  lemma SameMembers<T>(xs: seq<T>, ys: seq<T>)
    requires Rearranged(xs, ys)
    ensures |xs| == |ys|
    ensures forall x :: x in xs <==> x in ys
  {
    assert |multiset(xs)| == |xs| && |multiset(ys)| == |ys|;
    forall x ensures x in xs <==> x in ys {
      assert x in xs <==> x in multiset(xs);
      assert x in ys <==> x in multiset(ys);
    }
  }

  ghost predicate BlocksRearranged<T(!new), U>(f: T -> Result<seq<U>>, g: T -> Result<seq<U>>, xs: seq<T>) {
    forall x :: x in xs ==> f(x).Ok? && g(x).Ok? && Rearranged(f(x).value, g(x).value)
  }

  /** A loop whose iterations are rearranged, over rows that are rearranged, gives rearranged rows. */
  lemma {:induction false} LoopRearranged<T(!new), U>(
    f: T -> Result<seq<U>>, g: T -> Result<seq<U>>, xs: seq<T>, ys: seq<T>)
    requires Rearranged(xs, ys) && BlocksRearranged(f, g, xs)
    ensures FlatMapR(f, xs).Ok? && FlatMapR(g, ys).Ok? && Rearranged(FlatMapR(f, xs).value, FlatMapR(g, ys).value)
    decreases |xs|
  {
    SameMembers(xs, ys);
    if xs != [] {
      var i := TakeOut(xs, ys);
      assert xs[0] in xs;
      LoopRearranged(f, g, xs[1..], ys[..i] + ys[i + 1..]);
      SplitLoop(g, ys[..i], ys[i], ys[i + 1..]);
    }
  }

  /** Doing one row first changes only the order. */
  lemma SplitLoop<T, U>(g: T -> Result<seq<U>>, a: seq<T>, y: T, b: seq<T>)
    requires g(y).Ok? && FlatMapR(g, a + b).Ok?
    ensures var whole := FlatMapR(g, a + ([y] + b));
            whole.Ok? && multiset(whole.value) == multiset(g(y).value) + multiset(FlatMapR(g, a + b).value)
  {
    FlatMapConcat(g, a, b);
    FlatMapConcat(g, a, [y] + b);
    FlatMapConcat(g, [y], b);
    FlatMapOne(g, y);
  }

  function KeepFn<T>(p: T -> Result<bool>): T -> Result<seq<T>> {
    x => match p(x) case Err(e) => Err(e) case Ok(keep) => Ok(if keep then [x] else [])
  }

  lemma {:induction false} FilterAsLoop<T>(p: T -> Result<bool>, xs: seq<T>)
    ensures FilterR(p, xs) == FlatMapR(KeepFn(p), xs)
  {
    if xs != [] { FilterAsLoop(p, xs[1..]); }
  }

  lemma FilterRearranged<T(!new)>(p: T -> Result<bool>, xs: seq<T>, ys: seq<T>)
    requires Rearranged(xs, ys) && FilterR(p, xs).Ok?
    ensures FilterR(p, ys).Ok? && Rearranged(FilterR(p, xs).value, FilterR(p, ys).value)
  {
    FilterAsLoop(p, xs);
    FilterAsLoop(p, ys);
    FlatMapOk(KeepFn(p), xs);
    LoopRearranged(KeepFn(p), KeepFn(p), xs, ys);
  }

  lemma {:induction false} MapRearranged<T, U>(f: T -> U, xs: seq<T>, ys: seq<T>)
    requires Rearranged(xs, ys)
    ensures Rearranged(Map(f, xs), Map(f, ys))
    decreases |xs|
  {
    SameMembers(xs, ys);
    if xs != [] {
      var i := TakeOut(xs, ys);
      MapRearranged(f, xs[1..], ys[..i] + ys[i + 1..]);
      MapParts(f, ys[..i], ys[i], ys[i + 1..]);
      assert xs == [xs[0]] + xs[1..];
      MapAppend(f, [xs[0]], xs[1..]);
      assert Map(f, [xs[0]]) == [f(xs[0])];
    }
  }

  lemma MapParts<T, U>(f: T -> U, a: seq<T>, y: T, b: seq<T>)
    ensures multiset(Map(f, a + ([y] + b))) == multiset{f(y)} + multiset(Map(f, a + b))
  {
    MapAppend(f, a, [y] + b);
    MapAppend(f, [y], b);
    MapAppend(f, a, b);
    assert Map(f, [y]) == [f(y)];
  }

  // ---- when a pattern may be canonicalized ---------------------------------------------------------------

  ghost predicate Mentions(np: NodePattern, own: set<string>) {
    exists i, z :: 0 <= i < |EntriesOf(np.properties)| && z in Names(EntriesOf(np.properties)[i].1) && z in own
  }

  /** A path that is turned around is unnamed, one fixed-length hop between nodes, and its property maps do
      not mention its own variables. */
  ghost predicate FlipOk(p: Path) {
    Flip(p) != p ==>
      && p.variable == None && p.elements[0].NodeEl? && p.elements[2].NodeEl? && !p.elements[1].rel.variableLength
      && var own := ElementVars(p.elements);
         !Mentions(p.elements[0].node, own) && !Mentions(p.elements[2].node, own)
  }

  ghost predicate FlipOkAll(pattern: Pattern) {
    forall i :: 0 <= i < |pattern| ==> FlipOk(pattern[i])
  }

  lemma ThreeVars(a: Element, b: Element, c: Element)
    ensures ElementVars([a, b, c]) == VarOf(a) + VarOf(b) + VarOf(c)
  {
    assert [a, b, c][1..] == [b, c] && [b, c][1..] == [c] && [c][1..] == [];
    assert ElementVars([c]) == VarOf(c) + ElementVars([]);
  }

  lemma {:induction false} FlipVars(pattern: Pattern)
    ensures PatternVars(FlipAll(pattern)) == PatternVars(pattern)
  {
    if pattern != [] {
      FlipVars(pattern[1..]);
      var p := pattern[0];
      if Flip(p) != p {
        assert p.elements == [p.elements[0], p.elements[1], p.elements[2]];
        ThreeVars(p.elements[0], p.elements[1], p.elements[2]);
        ThreeVars(p.elements[2], Flip(p).elements[1], p.elements[0]);
      }
    }
  }

  lemma PathFlips(ctx: Ctx, p: Path, row: Row)
    requires Consistent(ctx.g) && NoDangling(ctx.g) && ScanOk(ctx) && FlipOk(p)
    requires MatchPath(ctx, false, p, row).Ok? && MatchPath(ctx, false, Flip(p), row).Ok?
    ensures Rearranged(MatchPath(ctx, false, p, row).value, MatchPath(ctx, false, Flip(p), row).value)
  {
    if Flip(p) != p {
      var x, rp, y := p.elements[0].node, p.elements[1].rel, p.elements[2].node;
      assert p == Path(None, [NodeEl(x), RelEl(rp), NodeEl(y)]);
      ThreeVars(NodeEl(x), RelEl(rp), NodeEl(y));
      FlipKeepsRows(ctx, x, rp, y, row);
    }
  }

  lemma {:induction false} PathsFlip(ctx: Ctx, pattern: Pattern, rows: seq<Row>, rows': seq<Row>)
    requires Consistent(ctx.g) && NoDangling(ctx.g) && ScanOk(ctx) && FlipOkAll(pattern)
    requires Rearranged(rows, rows')
    requires MatchPaths(ctx, false, pattern, Ok(rows)).Ok? && MatchPaths(ctx, false, FlipAll(pattern), Ok(rows')).Ok?
    ensures Rearranged(MatchPaths(ctx, false, pattern, Ok(rows)).value,
                       MatchPaths(ctx, false, FlipAll(pattern), Ok(rows')).value)
    decreases pattern
  {
    if pattern != [] {
      var f, g := PathFn(ctx, false, pattern[0]), PathFn(ctx, false, Flip(pattern[0]));
      assert FlipAll(pattern)[1..] == FlipAll(pattern[1..]);
      if FlatMapR(f, rows).Err? { PathsErr(ctx, false, pattern[1..], FlatMapR(f, rows).error); }
      if FlatMapR(g, rows').Err? { PathsErr(ctx, false, FlipAll(pattern[1..]), FlatMapR(g, rows').error); }
      FlatMapOk(f, rows);
      FlatMapOk(g, rows');
      SameMembers(rows, rows');
      assert FlipOk(pattern[0]);
      forall row | row in rows ensures f(row).Ok? && g(row).Ok? && Rearranged(f(row).value, g(row).value) {
        PathFlips(ctx, pattern[0], row);
      }
      LoopRearranged(f, g, rows, rows');
      assert forall i :: 0 <= i < |pattern[1..]| ==> pattern[1..][i] == pattern[i + 1];
      PathsFlip(ctx, pattern[1..], FlatMapR(f, rows).value, FlatMapR(g, rows').value);
    }
  }

  lemma BlockFlips(ctx: Ctx, pattern: Pattern, optional: bool, w: Option<Expr>, row: Row)
    requires Consistent(ctx.g) && NoDangling(ctx.g) && ScanOk(ctx) && FlipOkAll(pattern)
    requires Block(ctx, false, pattern, optional, w, row).Ok?
             && Block(ctx, false, FlipAll(pattern), optional, w, row).Ok?
    ensures Rearranged(Block(ctx, false, pattern, optional, w, row).value,
                       Block(ctx, false, FlipAll(pattern), optional, w, row).value)
  {
    PathsFlip(ctx, pattern, [row], [row]);
    var a, b := MatchPattern(ctx, false, pattern, row).value, MatchPattern(ctx, false, FlipAll(pattern), row).value;
    MapRearranged(Over(row), a, b);
    FilterRearranged(Passes(ctx, w), Map(Over(row), a), Map(Over(row), b));
    SameMembers(Survivors(ctx, false, pattern, w, row).value, Survivors(ctx, false, FlipAll(pattern), w, row).value);
    FlipVars(pattern);
  }

  /** Canonicalizing every path of a MATCH or OPTIONAL MATCH keeps the multiset of its rows. */
  lemma FlipKeepsClause(ctx: Ctx, pattern: Pattern, optional: bool, w: Option<Expr>, rows: seq<Row>)
    requires Consistent(ctx.g) && NoDangling(ctx.g) && ScanOk(ctx) && FlipOkAll(pattern)
    requires MatchClause(ctx, false, pattern, optional, w, rows).Ok?
    requires MatchClause(ctx, false, FlipAll(pattern), optional, w, rows).Ok?
    ensures multiset(MatchClause(ctx, false, pattern, optional, w, rows).value) ==
            multiset(MatchClause(ctx, false, FlipAll(pattern), optional, w, rows).value)
  {
    var f, g := BlockFn(ctx, false, pattern, optional, w), BlockFn(ctx, false, FlipAll(pattern), optional, w);
    FlatMapOk(f, rows);
    FlatMapOk(g, rows);
    forall row | row in rows ensures f(row).Ok? && g(row).Ok? && Rearranged(f(row).value, g(row).value) {
      BlockFlips(ctx, pattern, optional, w, row);
    }
    LoopRearranged(f, g, rows, rows);
  }

  // ---- neither clause fails alone -------------------------------------------------------------------------

  /** Each expression evaluates by itself: it mentions no name at all. */
  ghost predicate ClosedMap(ctx: Ctx, es: Entries) {
    forall i :: 0 <= i < |es| ==> Names(es[i].1) == {} && Eval(ctx, es[i].1, map[]).Ok?
  }

  /** The property maps of a path that is turned around can be evaluated before anything is matched. */
  ghost predicate MapsEvaluate(ctx: Ctx, p: Path) {
    Flip(p) != p ==>
      && p.elements[0].NodeEl? && p.elements[2].NodeEl?
      && ClosedMap(ctx, EntriesOf(p.elements[0].node.properties))
      && ClosedMap(ctx, EntriesOf(p.elements[1].rel.properties))
      && ClosedMap(ctx, EntriesOf(p.elements[2].node.properties))
  }

  ghost predicate AllMapsEvaluate(ctx: Ctx, pattern: Pattern) {
    forall i :: 0 <= i < |pattern| ==> MapsEvaluate(ctx, pattern[i])
  }

  lemma ClosedMapEvaluates(ctx: Ctx, es: Entries, env: Row)
    requires ClosedMap(ctx, es)
    ensures EntriesEvaluate(ctx, es, env)
  {
    forall i | 0 <= i < |es| ensures Eval(ctx, es[i].1, env).Ok? {
      EvalFrame(ctx, es[i].1, map[], env);
    }
  }

  lemma PathNeverRaises(ctx: Ctx, p: Path, row: Row)
    requires Flip(p) != p && FlipOk(p) && MapsEvaluate(ctx, p)
    ensures MatchPath(ctx, false, p, row).Ok? && MatchPath(ctx, false, Flip(p), row).Ok?
  {
    var x, rp, y := p.elements[0].node, p.elements[1].rel, p.elements[2].node;
    assert p == Path(None, [NodeEl(x), RelEl(rp), NodeEl(y)]);
    ThreeVars(NodeEl(x), RelEl(rp), NodeEl(y));
    ClosedMapEvaluates(ctx, EntriesOf(x.properties), ctx.params + row);
    ClosedMapEvaluates(ctx, EntriesOf(y.properties), ctx.params + row);
    ClosedMapEvaluates(ctx, EntriesOf(rp.properties), ctx.params);
    FlipNeverRaises(ctx, x, rp, y, row);
  }

  lemma {:induction false} PathsRaiseTogether(ctx: Ctx, pattern: Pattern, rows: seq<Row>, rows': seq<Row>)
    requires Consistent(ctx.g) && NoDangling(ctx.g) && ScanOk(ctx)
    requires FlipOkAll(pattern) && AllMapsEvaluate(ctx, pattern) && Rearranged(rows, rows')
    ensures MatchPaths(ctx, false, pattern, Ok(rows)).Ok? <==> MatchPaths(ctx, false, FlipAll(pattern), Ok(rows')).Ok?
    decreases pattern
  {
    if pattern != [] {
      var p := pattern[0];
      var f, g := PathFn(ctx, false, p), PathFn(ctx, false, Flip(p));
      assert FlipAll(pattern)[1..] == FlipAll(pattern[1..]);
      assert FlipOk(p) && MapsEvaluate(ctx, p);
      SameMembers(rows, rows');
      forall row: Row | true ensures f(row).Ok? <==> g(row).Ok? {
        if Flip(p) != p { PathNeverRaises(ctx, p, row); }
      }
      FlatMapOk(f, rows);
      FlatMapOk(g, rows');
      if FlatMapR(f, rows).Ok? {
        forall row | row in rows ensures f(row).Ok? && g(row).Ok? && Rearranged(f(row).value, g(row).value) {
          PathFlips(ctx, p, row);
        }
        LoopRearranged(f, g, rows, rows');
        assert forall i :: 0 <= i < |pattern[1..]| ==> pattern[1..][i] == pattern[i + 1];
        PathsRaiseTogether(ctx, pattern[1..], FlatMapR(f, rows).value, FlatMapR(g, rows').value);
      } else {
        PathsErr(ctx, false, pattern[1..], FlatMapR(f, rows).error);
        PathsErr(ctx, false, FlipAll(pattern[1..]), FlatMapR(g, rows').error);
      }
    }
  }

  lemma BlocksRaiseTogether(ctx: Ctx, pattern: Pattern, optional: bool, w: Option<Expr>, row: Row)
    requires Consistent(ctx.g) && NoDangling(ctx.g) && ScanOk(ctx) && FlipOkAll(pattern)
             && AllMapsEvaluate(ctx, pattern)
    ensures Block(ctx, false, pattern, optional, w, row).Ok? <==>
            Block(ctx, false, FlipAll(pattern), optional, w, row).Ok?
  {
    PathsRaiseTogether(ctx, pattern, [row], [row]);
    var a, b := MatchPattern(ctx, false, pattern, row), MatchPattern(ctx, false, FlipAll(pattern), row);
    if a.Ok? {
      PathsFlip(ctx, pattern, [row], [row]);
      var ms, ns := Map(Over(row), a.value), Map(Over(row), b.value);
      MapRearranged(Over(row), a.value, b.value);
      if FilterR(Passes(ctx, w), ms).Ok? { FilterRearranged(Passes(ctx, w), ms, ns); }
      if FilterR(Passes(ctx, w), ns).Ok? { FilterRearranged(Passes(ctx, w), ns, ms); }
    }
  }

  /** When those property maps evaluate, the canonicalized clause fails exactly when the clause as written
      does, and otherwise has the same multiset of rows. */
  lemma FlipClauseExactly(ctx: Ctx, pattern: Pattern, optional: bool, w: Option<Expr>, rows: seq<Row>)
    requires Consistent(ctx.g) && NoDangling(ctx.g) && ScanOk(ctx) && FlipOkAll(pattern)
             && AllMapsEvaluate(ctx, pattern)
    ensures var a, b := MatchClause(ctx, false, pattern, optional, w, rows),
                        MatchClause(ctx, false, FlipAll(pattern), optional, w, rows);
            && (a.Ok? <==> b.Ok?)
            && (a.Ok? ==> multiset(a.value) == multiset(b.value))
  {
    var f, g := BlockFn(ctx, false, pattern, optional, w), BlockFn(ctx, false, FlipAll(pattern), optional, w);
    forall row: Row | true ensures f(row).Ok? <==> g(row).Ok? {
      BlocksRaiseTogether(ctx, pattern, optional, w, row);
    }
    FlatMapOk(f, rows);
    FlatMapOk(g, rows);
    if FlatMapR(f, rows).Ok? { FlipKeepsClause(ctx, pattern, optional, w, rows); }
  }
}
