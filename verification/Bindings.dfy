/** Matching only adds bindings: what a result row keeps from its input row, and where new keys come from. */
module Bindings {
  import opened Prelude
  import opened Ast
  import opened Evaluation
  import opened Matcher

  /** `m` keeps every binding of `row`, except possibly those named in `except`. */
  ghost predicate Extends(row: Row, m: Row, except: set<string>) {
    forall x :: x in row && x !in except ==> x in m && m[x] == row[x]
  }

  /** Relationship, node, relationship, node, ... as the parser builds every path after its first node. */
  ghost predicate Hops(elems: seq<Element>) {
    |elems| % 2 == 0 &&
    forall i :: 0 <= i < |elems| ==> if i % 2 == 0 then elems[i].RelEl? else elems[i].NodeEl?
  }

  ghost predicate PathShape(p: Path) {
    p.elements != [] && p.elements[0].NodeEl? && Hops(p.elements[1..])
  }

  /** The shape alone, without the kinds of the elements in between. */
  ghost predicate StartsWithNode(p: Path) {
    p.elements != [] && p.elements[0].NodeEl? && |p.elements| % 2 == 1
  }

  lemma HopsTail(elems: seq<Element>)
    requires Hops(elems) && elems != []
    ensures |elems| >= 2 && elems[0].RelEl? && elems[1].NodeEl? && Hops(elems[2..])
  {
    assert forall i :: 0 <= i < |elems[2..]| ==> elems[2..][i] == elems[i + 2];
  }

  lemma ExtendsTransitive(a: Row, b: Row, c: Row, e1: set<string>, e2: set<string>)
    requires Extends(a, b, e1) && Extends(b, c, e2)
    ensures Extends(a, c, e1 + e2)
  {
  }

  lemma BindVarGrows(row: Row, x: Option<string>, v: Value)
    requires BindVar(row, x, v).Some?
    ensures var r := BindVar(row, x, v).value;
            && (forall y :: y in row ==> y in r && r[y] == row[y])
            && r.Keys == row.Keys + OptSet(x)
            && (x.Some? ==> r[x.value] == v)
  {
  }

  lemma TrackGrows(track: bool, row: Row, vs: seq<Value>)
    ensures var r := Track(track, row, vs);
            r.Keys == row.Keys && forall y :: y in row && y != PATH_ACC ==> r[y] == row[y]
  {
  }

  lemma HopRowGrows(ctx: Ctx, inl: bool, rp: RelPattern, np: NodePattern, row: Row, track: bool, c: Cand)
    requires HopRow(ctx, inl, rp, np, row, track, c).Ok? && HopRow(ctx, inl, rp, np, row, track, c).value.Some?
    ensures var r := HopRow(ctx, inl, rp, np, row, track, c).value.value;
            && Extends(row, r, {PATH_ACC})
            && r.Keys == row.Keys + OptSet(rp.variable) + OptSet(np.variable)
            && (np.variable.Some? && np.variable.value != PATH_ACC ==> r[np.variable.value] == NodeRef(c.other))
  {
    BindVarGrows(row, rp.variable, c.value);
    var r1 := BindVar(row, rp.variable, c.value).value;
    BindVarGrows(r1, np.variable, NodeRef(c.other));
    var r2 := BindVar(r1, np.variable, NodeRef(c.other)).value;
    TrackGrows(track, r2, [c.value, NodeRef(c.other)]);
    assert HopRow(ctx, inl, rp, np, row, track, c).value.value == Track(track, r2, [c.value, NodeRef(c.other)]);
  }

  lemma OddTail(elems: seq<Element>)
    requires |elems| % 2 == 1
    ensures |elems[1..]| % 2 == 0
  {
  }

  lemma EvenTail(elems: seq<Element>)
    requires |elems| >= 2 && |elems| % 2 == 0
    ensures |elems[2..]| % 2 == 0
  {
  }

  lemma ElementVarsPair(elems: seq<Element>)
    requires |elems| >= 2
    ensures ElementVars(elems) == VarOf(elems[0]) + VarOf(elems[1]) + ElementVars(elems[2..])
  {
    assert elems[1..][1..] == elems[2..];
    assert ElementVars(elems[1..]) == VarOf(elems[1]) + ElementVars(elems[2..]);
  }

  lemma {:induction false} ExpandGrows(
    ctx: Ctx, inl: bool, elems: seq<Element>, row: Row, cur: nat, track: bool)
    requires Expand(ctx, inl, elems, row, cur, track).Ok?
    ensures forall m :: m in Expand(ctx, inl, elems, row, cur, track).value ==>
                          Extends(row, m, {PATH_ACC}) && row.Keys <= m.Keys <= row.Keys + ElementVars(elems)
    decreases |elems|
  {
    if |elems| >= 2 {
      var cands := CandidateRels(ctx, elems[0].rel, cur).value;
      var f := HopFn(ctx, inl, elems, row, track);
      FlatMapOk(f, cands);
      ElementVarsPair(elems);
      forall m | m in FlatMapR(f, cands).value
        ensures Extends(row, m, {PATH_ACC}) && row.Keys <= m.Keys <= row.Keys + ElementVars(elems)
      {
        var c :| c in cands && m in f(c).value;
        HopRowGrows(ctx, inl, elems[0].rel, elems[1].node, row, track, c);
        var r := HopRow(ctx, inl, elems[0].rel, elems[1].node, row, track, c).value.value;
        ExpandGrows(ctx, inl, elems[2..], r, c.other, track);
      }
    }
  }

  /** A complete run of hops binds every variable on the way. */
  lemma {:induction false} ExpandBinds(
    ctx: Ctx, inl: bool, elems: seq<Element>, row: Row, cur: nat, track: bool, x: string)
    requires Expand(ctx, inl, elems, row, cur, track).Ok? && |elems| % 2 == 0
    requires x in row || x in ElementVars(elems)
    ensures forall m: Row :: m in Expand(ctx, inl, elems, row, cur, track).value ==> x in m
    decreases |elems|
  {
    if |elems| >= 2 {
      var cands := CandidateRels(ctx, elems[0].rel, cur).value;
      var f := HopFn(ctx, inl, elems, row, track);
      FlatMapOk(f, cands);
      ElementVarsPair(elems);
      EvenTail(elems);
      forall m: Row | m in FlatMapR(f, cands).value ensures x in m {
        var c :| c in cands && m in f(c).value;
        HopRowGrows(ctx, inl, elems[0].rel, elems[1].node, row, track, c);
        var r := HopRow(ctx, inl, elems[0].rel, elems[1].node, row, track, c).value.value;
        ExpandBinds(ctx, inl, elems[2..], r, c.other, track, x);
      }
    }
  }

  lemma StartRowGrows(ctx: Ctx, inl: bool, np: NodePattern, named: bool, row: Row, n: nat)
    requires StartRow(ctx, inl, np, named, row, n).Ok? && StartRow(ctx, inl, np, named, row, n).value.Some?
    ensures var r := StartRow(ctx, inl, np, named, row, n).value.value;
            && Extends(row, r, if named then {PATH_ACC} else {})
            && r.Keys == row.Keys + OptSet(np.variable) + (if named then {PATH_ACC} else {})
            && (np.variable.Some? && np.variable.value != PATH_ACC ==> r[np.variable.value] == NodeRef(n))
  {
  }

  /** Where a row of one start node comes from. */
  lemma StartStepFrom(ctx: Ctx, inl: bool, path: Path, row: Row, n: nat, m: Row) returns (r: Row, e: Row)
    requires path.elements != [] && path.elements[0].NodeEl?
    requires StartFn(ctx, inl, path, row)(n).Ok? && m in StartFn(ctx, inl, path, row)(n).value
    ensures var np, named := path.elements[0].node, path.variable.Some?;
            && StartRow(ctx, inl, np, named, row, n) == Ok(Some(r))
            && Expand(ctx, inl, path.elements[1..], r, n, named).Ok?
            && e in Expand(ctx, inl, path.elements[1..], r, n, named).value
            && m == Finish(path.variable)(e)
  {
    r := StartRow(ctx, inl, path.elements[0].node, path.variable.Some?, row, n).value.value;
    var es := Expand(ctx, inl, path.elements[1..], r, n, path.variable.Some?).value;
    var i :| 0 <= i < |es| && m == Finish(path.variable)(es[i]);
    e := es[i];
  }

  lemma StartStepGrows(ctx: Ctx, inl: bool, path: Path, row: Row, n: nat, m: Row)
    requires path.elements != [] && path.elements[0].NodeEl?
    requires StartFn(ctx, inl, path, row)(n).Ok? && m in StartFn(ctx, inl, path, row)(n).value
    ensures Extends(row, m, OptSet(path.variable) + {PATH_ACC})
    ensures row.Keys - {PATH_ACC} <= m.Keys
    ensures m.Keys <= row.Keys + ElementVars(path.elements) + OptSet(path.variable) + {PATH_ACC}
  {
    var named := path.variable.Some?;
    var r, e := StartStepFrom(ctx, inl, path, row, n, m);
    StartRowGrows(ctx, inl, path.elements[0].node, named, row, n);
    ExpandGrows(ctx, inl, path.elements[1..], r, n, named);
    ExtendsTransitive(row, r, e, if named then {PATH_ACC} else {}, {PATH_ACC});
  }

  lemma StartStepBinds(ctx: Ctx, inl: bool, p: Path, row: Row, n: nat, m: Row, x: string)
    requires StartsWithNode(p) && x != PATH_ACC
    requires x in row || x in ElementVars(p.elements) || p.variable == Some(x)
    requires StartFn(ctx, inl, p, row)(n).Ok? && m in StartFn(ctx, inl, p, row)(n).value
    ensures x in m
  {
    var r, e := StartStepFrom(ctx, inl, p, row, n, m);
    StartRowGrows(ctx, inl, p.elements[0].node, p.variable.Some?, row, n);
    OddTail(p.elements);
    if p.variable != Some(x) { ExpandBinds(ctx, inl, p.elements[1..], r, n, p.variable.Some?, x); }
  }

  /** A complete path binds its name and every variable on the way. */
  lemma PathBinds(ctx: Ctx, inl: bool, p: Path, row: Row, x: string)
    requires StartsWithNode(p) && x != PATH_ACC
    requires MatchPath(ctx, inl, p, row).Ok?
    requires x in row || x in ElementVars(p.elements) || p.variable == Some(x)
    ensures forall m: Row :: m in MatchPath(ctx, inl, p, row).value ==> x in m
  {
    var ns := CandidateNodes(ctx, p.elements[0].node, row).value;
    var f := StartFn(ctx, inl, p, row);
    FlatMapOk(f, ns);
    forall m: Row | m in FlatMapR(f, ns).value ensures x in m {
      var n :| n in ns && m in f(n).value;
      StartStepBinds(ctx, inl, p, row, n, m, x);
    }
  }

  lemma MatchPathGrows(ctx: Ctx, inl: bool, path: Path, row: Row)
    requires MatchPath(ctx, inl, path, row).Ok?
    ensures forall m :: m in MatchPath(ctx, inl, path, row).value ==>
                          && Extends(row, m, OptSet(path.variable) + {PATH_ACC})
                          && row.Keys - {PATH_ACC} <= m.Keys
                          && m.Keys <= row.Keys + ElementVars(path.elements) + OptSet(path.variable) + {PATH_ACC}
  {
    if path.elements != [] {
      var ns := CandidateNodes(ctx, path.elements[0].node, row).value;
      var f := StartFn(ctx, inl, path, row);
      FlatMapOk(f, ns);
      forall m | m in FlatMapR(f, ns).value
        ensures Extends(row, m, OptSet(path.variable) + {PATH_ACC})
        ensures row.Keys - {PATH_ACC} <= m.Keys
        ensures m.Keys <= row.Keys + ElementVars(path.elements) + OptSet(path.variable) + {PATH_ACC}
      {
        var n :| n in ns && m in f(n).value;
        StartStepGrows(ctx, inl, path, row, n, m);
      }
    }
  }

  /** All rows of a table extend `row` and get their keys from it and from `vars`. */
  ghost predicate AllGrow(row: Row, rows: seq<Row>, except: set<string>, vars: set<string>) {
    forall m :: m in rows ==> Extends(row, m, except) && row.Keys - {PATH_ACC} <= m.Keys <= row.Keys + vars + {PATH_ACC}
  }

  lemma OnePathGrows(
    ctx: Ctx, inl: bool, path: Path, row: Row, rows: seq<Row>, except: set<string>, vars: set<string>)
    requires FlatMapR(PathFn(ctx, inl, path), rows).Ok?
    requires AllGrow(row, rows, except, vars) && PATH_ACC in except
    ensures AllGrow(row, FlatMapR(PathFn(ctx, inl, path), rows).value,
                    except + OptSet(path.variable), vars + OptSet(path.variable) + ElementVars(path.elements))
  {
    var f := PathFn(ctx, inl, path);
    FlatMapOk(f, rows);
    forall m | m in FlatMapR(f, rows).value
      ensures Extends(row, m, except + OptSet(path.variable))
      ensures row.Keys - {PATH_ACC} <= m.Keys
      ensures m.Keys <= row.Keys + (vars + OptSet(path.variable) + ElementVars(path.elements)) + {PATH_ACC}
    {
      var r :| r in rows && m in f(r).value;
      MatchPathGrows(ctx, inl, path, r);
      ExtendsTransitive(row, r, m, except, OptSet(path.variable) + {PATH_ACC});
    }
  }

  lemma {:induction false} MatchPathsGrow(
    ctx: Ctx, inl: bool, pattern: Pattern, row: Row, rows: seq<Row>, except: set<string>, vars: set<string>)
    requires MatchPaths(ctx, inl, pattern, Ok(rows)).Ok?
    requires AllGrow(row, rows, except, vars)
    requires PATH_ACC in except
    ensures AllGrow(row, MatchPaths(ctx, inl, pattern, Ok(rows)).value,
                    except + PathVars(pattern), vars + PatternVars(pattern))
    decreases pattern
  {
    if pattern != [] {
      var f := PathFn(ctx, inl, pattern[0]);
      MatchPathsErr(ctx, inl, pattern[1..], FlatMapR(f, rows));
      var next := FlatMapR(f, rows).value;
      var except' := except + OptSet(pattern[0].variable);
      var vars' := vars + OptSet(pattern[0].variable) + ElementVars(pattern[0].elements);
      OnePathGrows(ctx, inl, pattern[0], row, rows, except, vars);
      MatchPathsGrow(ctx, inl, pattern[1..], row, next, except', vars');
    }
  }

  lemma {:induction false} MatchPathsErr(ctx: Ctx, inl: bool, pattern: Pattern, rows: Result<seq<Row>>)
    ensures MatchPaths(ctx, inl, pattern, rows).Ok? ==> rows.Ok?
    decreases pattern
  {
    if pattern != [] {
      MatchPathsErr(ctx, inl, pattern[1..], Then(rows, PathFn(ctx, inl, pattern[0])));
    }
  }

  /** Every match keeps the bindings of its row, apart from names the pattern gives to whole paths. */
  lemma MatchPatternGrows(ctx: Ctx, inl: bool, pattern: Pattern, row: Row)
    requires MatchPattern(ctx, inl, pattern, row).Ok?
    ensures AllGrow(row, MatchPattern(ctx, inl, pattern, row).value,
                    PathVars(pattern) + {PATH_ACC}, PatternVars(pattern))
  {
    MatchPathsGrow(ctx, inl, pattern, row, [row], {PATH_ACC}, {});
    assert {PATH_ACC} + PathVars(pattern) == PathVars(pattern) + {PATH_ACC};
    assert {} + PatternVars(pattern) == PatternVars(pattern);
  }
}
