/** Stitching `MATCH left MATCH right` into one path when `right` starts where `left` ends. */
module Stitch {
  import opened Prelude
  import opened Ast
  import opened Evaluation
  import opened Matcher
  import opened Bindings
  import opened Query
  import opened Compose

  // ---- the rewrite ------------------------------------------------------------------------

  function NodeVar(el: Element): Option<string> {
    if el.NodeEl? then el.node.variable else None
  }

  /** `_stitch_patterns`: the left path keeps its last node, the right one loses its first. */
  function StitchPatterns(p1: Pattern, p2: Pattern): Option<Pattern> {
    if |p1| != 1 || |p2| != 1 || p1[0].elements == [] || p2[0].elements == [] then None
    else
      var left, right := p1[0].elements, p2[0].elements;
      var start := NodeVar(right[0]);
      if start == None || NodeVar(left[|left| - 1]) != start then None
      else Some([Path(p1[0].variable, left + right[1..])])
  }

  predicate Mergeable(a: Clause, b: Clause) {
    && a.Match? && !a.optional && a.where == None
    && b.Match? && !b.optional && b.where == None
    && BoundVars(a.pattern) * BoundVars(b.pattern) != {}
    && StitchPatterns(a.pattern, b.pattern).Some?
  }

  /** One scan over the clauses; a merged pair is not considered again. */
  function MergeClauses(cs: seq<Clause>): seq<Clause> {
    if cs == [] then []
    else if |cs| >= 2 && Mergeable(cs[0], cs[1]) then
      [Match(StitchPatterns(cs[0].pattern, cs[1].pattern).value, false, None)] + MergeClauses(cs[2..])
    else [cs[0]] + MergeClauses(cs[1..])
  }

  // ---- when it is sound -----------------------------------------------------------------------

  ghost predicate Bare(el: Element) {
    el.NodeEl? && el.node.labels == [] && EntriesOf(el.node.properties) == []
  }

  /** Both paths unnamed, and the dropped node asks for nothing beyond its variable. */
  ghost predicate StitchSafe(left: Path, right: Path) {
    && left.variable == None && right.variable == None
    && PathShape(left) && PathShape(right)
    && Bare(right.elements[0])
  }

  // ---- expanding a longer path is expanding twice ------------------------------------------------

  function ContinueFn(ctx: Ctx, rest: seq<Element>, v: string): Row -> Result<seq<Row>> {
    (m: Row) => if v in m && m[v].NodeRef? then Expand(ctx, false, rest, m, m[v].node, false) else Ok([])
  }

  /** `v` is the variable of the node where `elems` ends, starting from `row` at `cur`. */
  ghost predicate EndsAtVar(elems: seq<Element>, row: Row, cur: nat, v: string) {
    && v != PATH_ACC
    && (if elems == [] then v in row && row[v] == NodeRef(cur) else NodeVar(elems[|elems| - 1]) == Some(v))
  }

  lemma HopEnds(ctx: Ctx, elems: seq<Element>, row: Row, v: string, c: Cand)
    requires Hops(elems) && elems != [] && EndsAtVar(elems, row, 0, v)
    requires |elems| >= 2 && elems[0].RelEl? && elems[1].NodeEl?
    requires HopRow(ctx, false, elems[0].rel, elems[1].node, row, false, c).Ok?
    requires HopRow(ctx, false, elems[0].rel, elems[1].node, row, false, c).value.Some?
    ensures EndsAtVar(elems[2..], HopRow(ctx, false, elems[0].rel, elems[1].node, row, false, c).value.value,
            c.other, v)
  {
    HopRowGrows(ctx, false, elems[0].rel, elems[1].node, row, false, c);
    if |elems| > 2 {
      assert elems[2..][|elems[2..]| - 1] == elems[|elems| - 1];
    }
  }

  lemma {:induction false} ExpandEnds(ctx: Ctx, elems: seq<Element>, row: Row, cur: nat, v: string)
    requires Hops(elems) && EndsAtVar(elems, row, cur, v)
    requires Expand(ctx, false, elems, row, cur, false).Ok?
    ensures forall m: Row :: m in Expand(ctx, false, elems, row, cur, false).value ==> v in m && m[v].NodeRef?
    decreases |elems|
  {
    if elems != [] {
      HopsTail(elems);
      var cands := CandidateRels(ctx, elems[0].rel, cur).value;
      var f := HopFn(ctx, false, elems, row, false);
      FlatMapOk(f, cands);
      forall m: Row | m in FlatMapR(f, cands).value ensures v in m && m[v].NodeRef? {
        var c :| c in cands && m in f(c).value;
        HopEnds(ctx, elems, row, v, c);
        ExpandEnds(ctx, elems[2..], HopRow(ctx, false, elems[0].rel, elems[1].node, row, false, c).value.value,
            c.other, v);
      }
    }
  }

  lemma {:induction false} ExpandCompose(
    ctx: Ctx, l: seq<Element>, r: seq<Element>, row: Row, cur: nat, v: string)
    requires Hops(l) && EndsAtVar(l, row, cur, v)
    ensures Agree(Expand(ctx, false, l + r, row, cur, false),
                  Then(Expand(ctx, false, l, row, cur, false), ContinueFn(ctx, r, v)))
    decreases |l|
  {
    var g := ContinueFn(ctx, r, v);
    if l == [] {
      assert l + r == r;
      OneRow(g, row);
    } else {
      HopsTail(l);
      assert (l + r)[0] == l[0] && (l + r)[1] == l[1] && (l + r)[2..] == l[2..] + r;
      if CandidateRels(ctx, l[0].rel, cur).Ok? {
        var cands := CandidateRels(ctx, l[0].rel, cur).value;
        var f, h := HopFn(ctx, false, l, row, false), HopFn(ctx, false, l + r, row, false);
        forall c | c in cands ensures Agree(h(c), Then(f(c), g)) {
          var hop := HopRow(ctx, false, l[0].rel, l[1].node, row, false, c);
          if hop.Ok? && hop.value.Some? {
            HopEnds(ctx, l, row, v, c);
            ExpandCompose(ctx, l[2..], r, hop.value.value, c.other, v);
          }
        }
        FlatMapAssoc(f, g, h, cands);
      }
    }
  }

  // ---- the right path, entered at a bound node ------------------------------------------------------

  lemma FinishUnnamed(rows: Result<seq<Row>>)
    ensures FinishAll(None, rows) == rows
  {
    if rows.Ok? {
      assert Map(Finish(None), rows.value) == rows.value;
    }
  }

  lemma BareStart(ctx: Ctx, right: Path, m: Row, v: string)
    requires right.variable == None && right.elements != [] && Bare(right.elements[0])
    requires NodeVar(right.elements[0]) == Some(v)
    requires v in m && m[v].NodeRef?
    ensures MatchPath(ctx, false, right, m) == Expand(ctx, false, right.elements[1..], m, m[v].node, false)
  {
    var np, n := right.elements[0].node, m[v].node;
    var f := StartFn(ctx, false, right, m);
    assert CandidateNodes(ctx, np, m) == Ok([n]) by {
      assert NodeTest(ctx, np, m)(n) == Ok(true);
      assert [n][1..] == [] && FilterR(NodeTest(ctx, np, m), []) == Ok([]);
      assert [n] + [] == [n];
    }
    assert StartRow(ctx, false, np, false, m, n) == Ok(Some(m)) by {
      assert m[v := NodeRef(n)] == m;
    }
    FinishUnnamed(Expand(ctx, false, right.elements[1..], m, n, false));
    assert [n][1..] == [] && FlatMapR(f, []) == Ok([]);
    if f(n).Ok? { assert f(n).value + [] == f(n).value; }
    assert FlatMapR(f, [n]) == f(n);
  }

  // ---- one pair of clauses -----------------------------------------------------------------------------

  lemma StitchStart(ctx: Ctx, left: Path, right: Path, whole: Path, row: Row, n: nat, v: string)
    requires StitchSafe(left, right) && v != PATH_ACC
    requires NodeVar(left.elements[|left.elements| - 1]) == Some(v) && NodeVar(right.elements[0]) == Some(v)
    requires whole == Path(None, left.elements + right.elements[1..])
    ensures Agree(StartFn(ctx, false, whole, row)(n),
            Then(StartFn(ctx, false, left, row)(n), PathFn(ctx, false, right)))
  {
    var start := StartRow(ctx, false, left.elements[0].node, false, row, n);
    var l, r := left.elements[1..], right.elements[1..];
    assert whole.elements[0] == left.elements[0] && whole.elements[1..] == l + r;
    if start.Ok? && start.value.Some? {
      var r0 := start.value.value;
      StartRowGrows(ctx, false, left.elements[0].node, false, row, n);
      assert EndsAtVar(l, r0, n, v) by {
        if l != [] { assert l[|l| - 1] == left.elements[|left.elements| - 1]; }
      }
      FinishUnnamed(Expand(ctx, false, l + r, r0, n, false));
      FinishUnnamed(Expand(ctx, false, l, r0, n, false));
      ExpandCompose(ctx, l, r, r0, n, v);
      if Expand(ctx, false, l, r0, n, false).Ok? {
        ExpandEnds(ctx, l, r0, n, v);
        var ms := Expand(ctx, false, l, r0, n, false).value;
        forall m | m in ms ensures ContinueFn(ctx, r, v)(m) == PathFn(ctx, false, right)(m) {
          BareStart(ctx, right, m, v);
        }
        FlatMapExt(ContinueFn(ctx, r, v), PathFn(ctx, false, right), ms);
      }
    }
  }

  lemma StitchPath(ctx: Ctx, left: Path, right: Path, row: Row, v: string)
    requires StitchSafe(left, right) && v != PATH_ACC
    requires NodeVar(left.elements[|left.elements| - 1]) == Some(v) && NodeVar(right.elements[0]) == Some(v)
    ensures Agree(MatchPath(ctx, false, Path(None, left.elements + right.elements[1..]), row),
                  Then(MatchPath(ctx, false, left, row), PathFn(ctx, false, right)))
  {
    var whole := Path(None, left.elements + right.elements[1..]);
    assert whole.elements[0] == left.elements[0];
    var ns := CandidateNodes(ctx, left.elements[0].node, row);
    if ns.Ok? {
      forall n | n in ns.value
        ensures Agree(StartFn(ctx, false, whole, row)(n),
                Then(StartFn(ctx, false, left, row)(n), PathFn(ctx, false, right)))
      {
        StitchStart(ctx, left, right, whole, row, n, v);
      }
      FlatMapAssoc(StartFn(ctx, false, left, row), PathFn(ctx, false, right), StartFn(ctx, false, whole, row),
          ns.value);
    }
  }

  lemma OnePath(ctx: Ctx, p: Path, row: Row)
    requires PATH_ACC !in row
    ensures MatchPattern(ctx, false, [p], row) == MatchPath(ctx, false, p, row)
    ensures Block(ctx, false, [p], false, None, row) == MatchPath(ctx, false, p, row)
  {
    OneRow(PathFn(ctx, false, p), row);
    assert [p][1..] == [] && [p][0] == p;
    assert MatchPaths(ctx, false, [p], Ok([row])) == MatchPaths(ctx, false, [], Then(Ok([row]), PathFn(ctx, false, p)));
    SurvivorsAreSteps(ctx, [p], None, row);
    if MatchPath(ctx, false, p, row).Ok? {
      SingletonsJoin(KeepFn(ctx, None), MatchPath(ctx, false, p, row).value);
    }
  }

  lemma StitchRow(ctx: Ctx, left: Path, right: Path, row: Row)
    requires StitchSafe(left, right) && StitchPatterns([left], [right]).Some?
    requires PATH_ACC !in row && Unreserved([left])
    ensures Agree(Block(ctx, false, StitchPatterns([left], [right]).value, false, None, row),
                  Then(Block(ctx, false, [left], false, None, row), BlockFn(ctx, false, [right], false, None)))
  {
    var v := NodeVar(right.elements[0]).value;
    var last := left.elements[|left.elements| - 1];
    var whole := Path(None, left.elements + right.elements[1..]);
    assert PatternVars([left]) == ElementVars(left.elements);
    LastIsVar(left.elements);
    assert v in VarOf(last);
    StitchPath(ctx, left, right, row, v);
    OnePath(ctx, whole, row);
    OnePath(ctx, left, row);
    if MatchPath(ctx, false, left, row).Ok? {
      MatchPathClean(ctx, left, row);
      var ms := MatchPath(ctx, false, left, row).value;
      forall m | m in ms ensures PathFn(ctx, false, right)(m) == BlockFn(ctx, false, [right], false, None)(m) {
        OnePath(ctx, right, m);
      }
      FlatMapExt(PathFn(ctx, false, right), BlockFn(ctx, false, [right], false, None), ms);
    }
  }

  lemma {:induction false} LastIsVar(elems: seq<Element>)
    requires elems != []
    ensures VarOf(elems[|elems| - 1]) <= ElementVars(elems)
  {
    if |elems| > 1 { LastIsVar(elems[1..]); }
  }

  lemma TwoClauses(ctx: Ctx, a: Clause, b: Clause, s: State)
    ensures RunClauses(ctx, [a, b], Ok(s)) ==
            if RunClause(ctx, a, s).Err? then RunClause(ctx, a, s) else RunClause(ctx, b, RunClause(ctx, a, s).value)
  {
    var t := RunClause(ctx, a, s);
    assert [a, b][1..] == [b] && [b][1..] == [];
    assert RunClauses(ctx, [a, b], Ok(s)) == RunClauses(ctx, [b], t);
    if t.Ok? {
      assert RunClauses(ctx, [b], t) == RunClauses(ctx, [], RunClause(ctx, b, t.value));
    }
  }

  /** A stitched pair gives the rows of the two clauses it replaces, in the same order. */
  lemma StitchPair(ctx: Ctx, left: Path, right: Path, s: State)
    requires StitchSafe(left, right) && StitchPatterns([left], [right]).Some?
    requires CleanRows(s.rows) && Unreserved([left])
    ensures Agree(RunClause(ctx, Match(StitchPatterns([left], [right]).value, false, None), s),
                  RunClauses(ctx, [Match([left], false, None), Match([right], false, None)], Ok(s)))
  {
    var whole := StitchPatterns([left], [right]).value;
    var f, g := BlockFn(ctx, false, [left], false, None), BlockFn(ctx, false, [right], false, None);
    var h := BlockFn(ctx, false, whole, false, None);
    forall row | row in s.rows ensures Agree(h(row), Then(f(row), g)) {
      StitchRow(ctx, left, right, row);
    }
    FlatMapAssoc(f, g, h, s.rows);
    TwoClauses(ctx, Match([left], false, None), Match([right], false, None), s);
  }

  // ---- whole queries ---------------------------------------------------------------------------------------

  ghost predicate MergeSafe(ctx: Ctx, cs: seq<Clause>) {
    && (forall i :: 0 <= i < |cs| ==> NoReserved(ctx, cs[i]))
    && (forall i :: 0 <= i < |cs| - 1 && Mergeable(cs[i], cs[i + 1]) ==>
                      StitchSafe(cs[i].pattern[0], cs[i + 1].pattern[0]))
  }

  lemma MergeSafeTail(ctx: Ctx, cs: seq<Clause>, k: nat)
    requires MergeSafe(ctx, cs) && k <= |cs|
    ensures MergeSafe(ctx, cs[k..])
  {
    assert forall i :: 0 <= i < |cs[k..]| ==> cs[k..][i] == cs[i + k];
  }

  lemma {:induction false} MergeKeepsRun(ctx: Ctx, cs: seq<Clause>, s: Result<State>)
    requires MergeSafe(ctx, cs) && (s.Ok? ==> CleanRows(s.value.rows))
    ensures Agree(RunClauses(ctx, cs, s), RunClauses(ctx, MergeClauses(cs), s))
    decreases |cs|
  {
    if cs != [] && s.Ok? {
      if |cs| >= 2 && Mergeable(cs[0], cs[1]) {
        var left, right := cs[0].pattern[0], cs[1].pattern[0];
        assert cs[0].pattern == [left] && cs[1].pattern == [right];
        StitchPair(ctx, left, right, s.value);
        var pair := RunClauses(ctx, cs[..2], s);
        assert cs == cs[..2] + cs[2..] && cs[..2] == [cs[0], cs[1]];
        RunConcat(ctx, cs[..2], cs[2..], s);
        PairClean(ctx, cs[0], cs[1], s.value);
        MergeSafeTail(ctx, cs, 2);
        MergeKeepsRun(ctx, cs[2..], pair);
        var c := Match(StitchPatterns([left], [right]).value, false, None);
        assert ([c] + MergeClauses(cs[2..]))[1..] == MergeClauses(cs[2..]);
        RunAgree(ctx, MergeClauses(cs[2..]), pair, RunClause(ctx, c, s.value));
      } else {
        var next := RunClause(ctx, cs[0], s.value);
        if next.Ok? { RunClauseClean(ctx, cs[0], s.value); }
        MergeSafeTail(ctx, cs, 1);
        MergeKeepsRun(ctx, cs[1..], next);
        assert ([cs[0]] + MergeClauses(cs[1..]))[1..] == MergeClauses(cs[1..]);
      }
    }
  }

  lemma PairClean(ctx: Ctx, a: Clause, b: Clause, s: State)
    requires CleanRows(s.rows) && NoReserved(ctx, a) && NoReserved(ctx, b)
    ensures var t := RunClauses(ctx, [a, b], Ok(s)); t.Ok? ==> CleanRows(t.value.rows)
  {
    TwoClauses(ctx, a, b, s);
    var t := RunClause(ctx, a, s);
    if t.Ok? {
      RunClauseClean(ctx, a, s);
      if RunClause(ctx, b, t.value).Ok? { RunClauseClean(ctx, b, t.value); }
    }
  }

  /** Merging every stitchable pair of a query changes neither its rows nor whether it fails. */
  lemma MergeKeepsQuery(ctx: Ctx, cs: seq<Clause>)
    requires MergeSafe(ctx, cs)
    ensures Agree(RunQuery(ctx, cs), RunQuery(ctx, MergeClauses(cs)))
  {
    MergeKeepsRun(ctx, cs, Ok(State([map[]], [])));
  }
}
