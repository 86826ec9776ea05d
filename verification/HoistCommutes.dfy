/** Testing inline predicates during the search, or all together at the end, keeps the same rows. */
module HoistCommutes {
  import opened Prelude
  import opened Ast
  import opened Evaluation
  import opened Matcher
  import opened Bindings
  import opened Hoist

  // ---- one hop --------------------------------------------------------------------------------

  /** The rows of a hop that binds: after the relationship, after the node, and with the path extended. */
  ghost predicate HopStages(rp: RelPattern, np: NodePattern, row: Row, track: bool, c: Cand, r1: Row, r2: Row,
          r3: Row) {
    && BindVar(row, rp.variable, c.value) == Some(r1)
    && BindVar(r1, np.variable, NodeRef(c.other)) == Some(r2)
    && r3 == Track(track, r2, [c.value, NodeRef(c.other)])
  }

  lemma HopTests(ctx: Ctx, rp: RelPattern, np: NodePattern, row: Row, track: bool, c: Cand)
    returns (r1: Row, r2: Row, r3: Row)
    requires HopRow(ctx, false, rp, np, row, track, c).Ok? && HopRow(ctx, false, rp, np, row, track, c).value.Some?
    ensures HopStages(rp, np, row, track, c, r1, r2, r3)
    ensures HopRow(ctx, false, rp, np, row, track, c) == Ok(Some(r3))
    ensures HopRow(ctx, true, rp, np, row, track, c) ==
            (var t := TestWhere(ctx, rp.where, r1);
             if t.Err? then Err(t.error)
             else if !t.value then Ok(None)
             else Guard(TestWhere(ctx, np.where, r2), r3))
  {
    r1 := BindVar(row, rp.variable, c.value).value;
    r2 := BindVar(r1, np.variable, NodeRef(c.other)).value;
    r3 := Track(track, r2, [c.value, NodeRef(c.other)]);
  }

  /** Whatever `m` later grows from a hop's last row, it grows from the earlier ones too. */
  lemma StagesLater(rp: RelPattern, np: NodePattern, row: Row, track: bool, c: Cand, r1: Row, r2: Row, r3: Row, m: Row,
                    bound: set<string>, vars: set<string>, avoid: set<string>, rest: set<string>)
    requires HopStages(rp, np, row, track, c, r1, r2, r3)
    requires PATH_ACC in avoid && OptSet(rp.variable) + OptSet(np.variable) + rest <= vars
    requires forall x :: x in bound && x !in avoid ==> x in row
    requires Extends(r3, m, {PATH_ACC}) && m.Keys <= r3.Keys + rest
    ensures Later(r1, m, bound + OptSet(rp.variable), vars, avoid)
    ensures Later(r2, m, bound + OptSet(rp.variable) + OptSet(np.variable), vars, avoid)
  {
    BindVarGrows(row, rp.variable, c.value);
    BindVarGrows(r1, np.variable, NodeRef(c.other));
    TrackGrows(track, r2, [c.value, NodeRef(c.other)]);
    BindLater(r2, r3, m, bound + OptSet(rp.variable) + OptSet(np.variable), vars, avoid, rest);
    BindLater(r1, r3, m, bound + OptSet(rp.variable), vars, avoid, OptSet(np.variable) + rest);
  }

  lemma BindLater(r: Row, r3: Row, m: Row, bound: set<string>, vars: set<string>, avoid: set<string>, rest: set<string>)
    requires PATH_ACC in avoid && rest <= vars
    requires forall x :: x in bound && x !in avoid ==> x in r
    requires forall x :: x in r && x != PATH_ACC ==> x in r3 && r3[x] == r[x]
    requires Extends(r3, m, {PATH_ACC}) && m.Keys <= r.Keys + rest
    ensures Later(r, m, bound, vars, avoid)
  {
  }

  lemma PredsPair(elems: seq<Element>)
    requires |elems| >= 2
    ensures Preds(elems) == ListOf(WhereOf(elems[0])) + ListOf(WhereOf(elems[1])) + Preds(elems[2..])
  {
    assert elems[1..][1..] == elems[2..];
    var a, b, rest := ListOf(WhereOf(elems[0])), ListOf(WhereOf(elems[1])), Preds(elems[2..]);
    assert Preds(elems[1..]) == b + rest;
    ConcatAssoc(a, b, rest);
  }

  lemma SettledPair(elems: seq<Element>, bound: set<string>, vars: set<string>, avoid: set<string>)
    requires |elems| >= 2 && SettledElems(elems, bound, vars, avoid)
    ensures WhereOf(elems[0]).Some? ==> Settled(WhereOf(elems[0]).value, bound + VarOf(elems[0]), vars, avoid)
    ensures WhereOf(elems[1]).Some? ==>
              Settled(WhereOf(elems[1]).value, bound + VarOf(elems[0]) + VarOf(elems[1]), vars, avoid)
    ensures SettledElems(elems[2..], bound + VarOf(elems[0]) + VarOf(elems[1]), vars, avoid)
  {
    assert elems[1..][1..] == elems[2..];
    assert SettledElems(elems[1..], bound + VarOf(elems[0]), vars, avoid);
  }

  lemma ListHolds(ctx: Ctx, w: Option<Expr>, row: Row)
    ensures AllHold(ctx, ListOf(w), row) <==> Holds(ctx, w, row)
  {
    if w.Some? { assert ListOf(w)[0] == w.value; }
  }

  lemma HopHolds(ctx: Ctx, elems: seq<Element>, m: Row)
    requires |elems| >= 2
    ensures AllHold(ctx, Preds(elems), m) <==>
            Holds(ctx, WhereOf(elems[0]), m) && Holds(ctx, WhereOf(elems[1]), m) && AllHold(ctx, Preds(elems[2..]), m)
  {
    PredsPair(elems);
    var a, b := ListOf(WhereOf(elems[0])), ListOf(WhereOf(elems[1]));
    AllHoldConcat(ctx, a + b, Preds(elems[2..]), m);
    AllHoldConcat(ctx, a, b, m);
    ListHolds(ctx, WhereOf(elems[0]), m);
    ListHolds(ctx, WhereOf(elems[1]), m);
  }

  lemma OptTestKept(ctx: Ctx, w: Option<Expr>, r: Row, m: Row, bound: set<string>, vars: set<string>,
          avoid: set<string>)
    requires w.Some? ==> Settled(w.value, bound, vars, avoid)
    requires Later(r, m, bound, vars, avoid)
    ensures TestWhere(ctx, w, r) == TestWhere(ctx, w, m)
  {
    if w.Some? { TestKept(ctx, w.value, r, m, bound, vars, avoid); }
  }

  /** What a grown row says about the predicates of the hop it came through. */
  lemma HopVerdict(ctx: Ctx, elems: seq<Element>, row: Row, track: bool, c: Cand, r1: Row, r2: Row, r3: Row, m: Row,
                   bound: set<string>, vars: set<string>, avoid: set<string>)
    requires |elems| >= 2 && elems[0].RelEl? && elems[1].NodeEl?
    requires HopStages(elems[0].rel, elems[1].node, row, track, c, r1, r2, r3)
    requires SettledElems(elems, bound, vars, avoid) && PATH_ACC in avoid && ElementVars(elems) <= vars
    requires forall x :: x in bound && x !in avoid ==> x in row
    requires Extends(r3, m, {PATH_ACC}) && m.Keys <= r3.Keys + ElementVars(elems[2..])
    ensures AllHold(ctx, Preds(elems), m) <==>
            && TestWhere(ctx, WhereOf(elems[0]), r1) == Ok(true)
            && TestWhere(ctx, WhereOf(elems[1]), r2) == Ok(true)
            && AllHold(ctx, Preds(elems[2..]), m)
  {
    ElementVarsPair(elems);
    SettledPair(elems, bound, vars, avoid);
    StagesLater(elems[0].rel, elems[1].node, row, track, c, r1, r2, r3, m, bound, vars, avoid, ElementVars(elems[2..]));
    OptTestKept(ctx, WhereOf(elems[0]), r1, m, bound + VarOf(elems[0]), vars, avoid);
    OptTestKept(ctx, WhereOf(elems[1]), r2, m, bound + VarOf(elems[0]) + VarOf(elems[1]), vars, avoid);
    HopHolds(ctx, elems, m);
  }

  lemma StagesBind(rp: RelPattern, np: NodePattern, row: Row, track: bool, c: Cand, r1: Row, r2: Row, r3: Row)
    requires HopStages(rp, np, row, track, c, r1, r2, r3)
    ensures r3.Keys == row.Keys + OptSet(rp.variable) + OptSet(np.variable)
  {
    BindVarGrows(row, rp.variable, c.value);
    BindVarGrows(r1, np.variable, NodeRef(c.other));
    TrackGrows(track, r2, [c.value, NodeRef(c.other)]);
  }

  // ---- the rest of a path --------------------------------------------------------------------------

  /** Testing along the way keeps exactly the finished rows on which every predicate holds. */
  lemma {:induction false} ExpandFilters(
    ctx: Ctx, elems: seq<Element>, row: Row, cur: nat, track: bool,
    bound: set<string>, vars: set<string>, avoid: set<string>)
    requires Expand(ctx, false, elems, row, cur, track).Ok? && Expand(ctx, true, elems, row, cur, track).Ok?
    requires SettledElems(elems, bound, vars, avoid) && PATH_ACC in avoid && ElementVars(elems) <= vars
    requires forall x :: x in bound && x !in avoid ==> x in row
    requires |elems| % 2 == 0
    ensures Expand(ctx, true, elems, row, cur, track).value ==
            Filter(AllHoldFn(ctx, Preds(elems)), Expand(ctx, false, elems, row, cur, track).value)
    decreases |elems|
  {
    var p := AllHoldFn(ctx, Preds(elems));
    if |elems| == 0 {
      FilterAll(p, [row]);
    } else {
      EvenTail(elems);
      var cands := CandidateRels(ctx, elems[0].rel, cur).value;
      var f, g := HopFn(ctx, false, elems, row, track), HopFn(ctx, true, elems, row, track);
      FlatMapOk(f, cands);
      FlatMapOk(g, cands);
      forall c | c in cands ensures g(c).value == Filter(p, f(c).value) {
        HopFilters(ctx, elems, row, track, c, bound, vars, avoid);
      }
      FlatMapFilter(f, g, p, cands);
    }
  }

  lemma HopVerdicts(
    ctx: Ctx, elems: seq<Element>, row: Row, track: bool, c: Cand, r1: Row, r2: Row, r3: Row,
    bound: set<string>, vars: set<string>, avoid: set<string>)
    requires |elems| >= 2 && elems[0].RelEl? && elems[1].NodeEl?
    requires HopStages(elems[0].rel, elems[1].node, row, track, c, r1, r2, r3)
    requires SettledElems(elems, bound, vars, avoid) && PATH_ACC in avoid && ElementVars(elems) <= vars
    requires forall x :: x in bound && x !in avoid ==> x in row
    requires Expand(ctx, false, elems[2..], r3, c.other, track).Ok?
    ensures forall m :: m in Expand(ctx, false, elems[2..], r3, c.other, track).value ==>
                          (AllHoldFn(ctx, Preds(elems))(m) <==>
                           && TestWhere(ctx, WhereOf(elems[0]), r1) == Ok(true)
                           && TestWhere(ctx, WhereOf(elems[1]), r2) == Ok(true)
                           && AllHold(ctx, Preds(elems[2..]), m))
  {
    ExpandGrows(ctx, false, elems[2..], r3, c.other, track);
    forall m | m in Expand(ctx, false, elems[2..], r3, c.other, track).value
      ensures AllHoldFn(ctx, Preds(elems))(m) <==>
              && TestWhere(ctx, WhereOf(elems[0]), r1) == Ok(true)
              && TestWhere(ctx, WhereOf(elems[1]), r2) == Ok(true)
              && AllHold(ctx, Preds(elems[2..]), m)
    {
      HopVerdict(ctx, elems, row, track, c, r1, r2, r3, m, bound, vars, avoid);
    }
  }

  /** A hop refused by an inline predicate loses exactly the rows the predicate would drop later. */
  lemma HopOutcome(
    ctx: Ctx, elems: seq<Element>, row: Row, track: bool, c: Cand,
    bound: set<string>, vars: set<string>, avoid: set<string>)
    returns (r: Row)
    requires |elems| >= 2 && elems[0].RelEl? && elems[1].NodeEl?
    requires HopRow(ctx, false, elems[0].rel, elems[1].node, row, track, c).Ok?
    requires HopRow(ctx, false, elems[0].rel, elems[1].node, row, track, c).value.Some?
    requires HopRow(ctx, true, elems[0].rel, elems[1].node, row, track, c).Ok?
    requires SettledElems(elems, bound, vars, avoid) && PATH_ACC in avoid && ElementVars(elems) <= vars
    requires forall x :: x in bound && x !in avoid ==> x in row
    ensures HopRow(ctx, false, elems[0].rel, elems[1].node, row, track, c).value == Some(r)
    ensures r.Keys == row.Keys + VarOf(elems[0]) + VarOf(elems[1])
    ensures HopRow(ctx, true, elems[0].rel, elems[1].node, row, track, c).value in {None, Some(r)}
    ensures Expand(ctx, false, elems[2..], r, c.other, track).Ok? ==>
              Filter(AllHoldFn(ctx, Preds(elems)), Expand(ctx, false, elems[2..], r, c.other, track).value) ==
              if HopRow(ctx, true, elems[0].rel, elems[1].node, row, track, c).value == None then []
              else Filter(AllHoldFn(ctx, Preds(elems[2..])), Expand(ctx, false, elems[2..], r, c.other, track).value)
  {
    var r1, r2, r3 := HopTests(ctx, elems[0].rel, elems[1].node, row, track, c);
    r := r3;
    StagesBind(elems[0].rel, elems[1].node, row, track, c, r1, r2, r3);
    if Expand(ctx, false, elems[2..], r3, c.other, track).Ok? {
      var all := Expand(ctx, false, elems[2..], r3, c.other, track).value;
      HopVerdicts(ctx, elems, row, track, c, r1, r2, r3, bound, vars, avoid);
      if HopRow(ctx, true, elems[0].rel, elems[1].node, row, track, c).value == None {
        FilterNone(AllHoldFn(ctx, Preds(elems)), all);
      } else {
        FilterExt(AllHoldFn(ctx, Preds(elems)), AllHoldFn(ctx, Preds(elems[2..])), all);
      }
    }
  }

  lemma {:induction false} HopFilters(
    ctx: Ctx, elems: seq<Element>, row: Row, track: bool, c: Cand,
    bound: set<string>, vars: set<string>, avoid: set<string>)
    requires |elems| >= 2 && elems[0].RelEl? && elems[1].NodeEl? && |elems| % 2 == 0
    requires HopFn(ctx, false, elems, row, track)(c).Ok? && HopFn(ctx, true, elems, row, track)(c).Ok?
    requires SettledElems(elems, bound, vars, avoid) && PATH_ACC in avoid && ElementVars(elems) <= vars
    requires forall x :: x in bound && x !in avoid ==> x in row
    ensures HopFn(ctx, true, elems, row, track)(c).value ==
            Filter(AllHoldFn(ctx, Preds(elems)), HopFn(ctx, false, elems, row, track)(c).value)
    decreases |elems|, 0
  {
    if HopRow(ctx, false, elems[0].rel, elems[1].node, row, track, c).value.Some? {
      var r := HopOutcome(ctx, elems, row, track, c, bound, vars, avoid);
      if HopRow(ctx, true, elems[0].rel, elems[1].node, row, track, c).value.Some? {
        EvenTail(elems);
        SettledPair(elems, bound, vars, avoid);
        ElementVarsPair(elems);
        ExpandFilters(ctx, elems[2..], r, c.other, track, bound + VarOf(elems[0]) + VarOf(elems[1]), vars, avoid);
      }
    }
  }

  // ---- whole paths ------------------------------------------------------------------------------------

  lemma {:induction false} FilterMap(p: Row -> bool, f: Row -> Row, rows: seq<Row>)
    requires forall r :: r in rows ==> p(f(r)) == p(r)
    ensures Map(f, Filter(p, rows)) == Filter(p, Map(f, rows))
  {
    if rows != [] {
      assert rows[0] in rows;
      FilterMap(p, f, rows[1..]);
      MapCons(f, rows[0], rows[1..]);
      MapCons(f, rows[0], Filter(p, rows[1..]));
      assert rows == [rows[0]] + rows[1..];
      var fx, fs := f(rows[0]), Map(f, rows[1..]);
      assert ([fx] + fs)[0] == fx && ([fx] + fs)[1..] == fs;
    }
  }

  lemma MapCons(f: Row -> Row, r: Row, rows: seq<Row>)
    ensures Map(f, [r] + rows) == [f(r)] + Map(f, rows)
  {
  }

  /** Predicates that avoid the path names do not notice a path being finished. */
  lemma FinishHolds(ctx: Ctx, preds: seq<Expr>, x: Option<string>, m: Row, avoid: set<string>)
    requires OptSet(x) + {PATH_ACC} <= avoid
    requires forall i :: 0 <= i < |preds| ==> Names(preds[i]) !! avoid
    ensures AllHold(ctx, preds, Finish(x)(m)) <==> AllHold(ctx, preds, m)
  {
    forall i | 0 <= i < |preds| ensures Holds(ctx, Some(preds[i]), Finish(x)(m)) <==> Holds(ctx, Some(preds[i]), m) {
      EvalFrame(ctx, preds[i], ctx.params + Finish(x)(m), ctx.params + m);
    }
  }

  lemma {:induction false} SettledNames(elems: seq<Element>, bound: set<string>, vars: set<string>, avoid: set<string>)
    requires SettledElems(elems, bound, vars, avoid)
    ensures forall i :: 0 <= i < |Preds(elems)| ==>
                          Settled(Preds(elems)[i], bound + ElementVars(elems), vars, avoid)
  {
    if elems != [] {
      SettledNames(elems[1..], bound + VarOf(elems[0]), vars, avoid);
    }
  }

  lemma StartVerdict(ctx: Ctx, elems: seq<Element>, r: Row, m: Row, bound: set<string>, vars: set<string>,
          avoid: set<string>)
    requires elems != [] && SettledElems(elems, bound, vars, avoid)
    requires Later(r, m, bound + VarOf(elems[0]), vars, avoid)
    ensures AllHold(ctx, Preds(elems), m) <==>
            TestWhere(ctx, WhereOf(elems[0]), r) == Ok(true) && AllHold(ctx, Preds(elems[1..]), m)
  {
    OptTestKept(ctx, WhereOf(elems[0]), r, m, bound + VarOf(elems[0]), vars, avoid);
    AllHoldConcat(ctx, ListOf(WhereOf(elems[0])), Preds(elems[1..]), m);
    ListHolds(ctx, WhereOf(elems[0]), m);
  }

  lemma StartOutcome(
    ctx: Ctx, elems: seq<Element>, r: Row, all: seq<Row>, bound: set<string>, vars: set<string>, avoid: set<string>)
    requires elems != [] && SettledElems(elems, bound, vars, avoid)
    requires forall m :: m in all ==> Later(r, m, bound + VarOf(elems[0]), vars, avoid)
    ensures Filter(AllHoldFn(ctx, Preds(elems)), all) ==
            if TestWhere(ctx, WhereOf(elems[0]), r) == Ok(true) then Filter(AllHoldFn(ctx, Preds(elems[1..])), all)
            else []
  {
    forall m | m in all
      ensures AllHoldFn(ctx, Preds(elems))(m) <==>
              TestWhere(ctx, WhereOf(elems[0]), r) == Ok(true) && AllHoldFn(ctx, Preds(elems[1..]))(m)
    {
      StartVerdict(ctx, elems, r, m, bound, vars, avoid);
    }
    if TestWhere(ctx, WhereOf(elems[0]), r) == Ok(true) {
      FilterExt(AllHoldFn(ctx, Preds(elems)), AllHoldFn(ctx, Preds(elems[1..])), all);
    } else {
      FilterNone(AllHoldFn(ctx, Preds(elems)), all);
    }
  }

  lemma FinishFilters(
    ctx: Ctx, path: Path, all: seq<Row>, bound: set<string>, vars: set<string>, avoid: set<string>)
    requires SettledElems(path.elements, bound, vars, avoid) && OptSet(path.variable) + {PATH_ACC} <= avoid
    ensures Map(Finish(path.variable), Filter(AllHoldFn(ctx, Preds(path.elements)), all)) ==
            Filter(AllHoldFn(ctx, Preds(path.elements)), Map(Finish(path.variable), all))
  {
    SettledNames(path.elements, bound, vars, avoid);
    forall m | m in all
      ensures AllHoldFn(ctx, Preds(path.elements))(Finish(path.variable)(m)) == AllHoldFn(ctx, Preds(path.elements))(m)
    {
      FinishHolds(ctx, Preds(path.elements), path.variable, m, avoid);
    }
    FilterMap(AllHoldFn(ctx, Preds(path.elements)), Finish(path.variable), all);
  }

  lemma StartBound(ctx: Ctx, path: Path, row: Row, n: nat, r: Row, bound: set<string>, avoid: set<string>)
    requires path.elements != [] && path.elements[0].NodeEl?
    requires StartRow(ctx, false, path.elements[0].node, path.variable.Some?, row, n) == Ok(Some(r))
    requires PATH_ACC in avoid && forall x :: x in bound && x !in avoid ==> x in row
    ensures forall x :: x in bound + VarOf(path.elements[0]) && x !in avoid ==> x in r
  {
    StartRowGrows(ctx, false, path.elements[0].node, path.variable.Some?, row, n);
  }

  lemma StartLater(
    ctx: Ctx, path: Path, r: Row, n: nat, bound: set<string>, vars: set<string>, avoid: set<string>)
    requires path.elements != [] && path.elements[0].NodeEl?
    requires Expand(ctx, false, path.elements[1..], r, n, path.variable.Some?).Ok?
    requires ElementVars(path.elements) <= vars && PATH_ACC in avoid
    requires forall x :: x in bound && x !in avoid ==> x in r
    ensures forall m :: m in Expand(ctx, false, path.elements[1..], r, n, path.variable.Some?).value ==>
                          Later(r, m, bound, vars, avoid)
  {
    ExpandGrows(ctx, false, path.elements[1..], r, n, path.variable.Some?);
  }

  lemma StartFilters(
    ctx: Ctx, path: Path, row: Row, n: nat, bound: set<string>, vars: set<string>, avoid: set<string>)
    requires path.elements != [] && path.elements[0].NodeEl? && |path.elements| % 2 == 1
    requires StartFn(ctx, false, path, row)(n).Ok? && StartFn(ctx, true, path, row)(n).Ok?
    requires SettledElems(path.elements, bound, vars, avoid)
    requires ElementVars(path.elements) <= vars && OptSet(path.variable) + {PATH_ACC} <= avoid
    requires forall x :: x in bound && x !in avoid ==> x in row
    ensures StartFn(ctx, true, path, row)(n).value ==
            Filter(AllHoldFn(ctx, Preds(path.elements)), StartFn(ctx, false, path, row)(n).value)
  {
    var np, named, rest := path.elements[0].node, path.variable.Some?, path.elements[1..];
    var start := StartRow(ctx, false, np, named, row, n);
    if start.value.Some? {
      var r := start.value.value;
      var all := Expand(ctx, false, rest, r, n, named).value;
      OddTail(path.elements);
      StartBound(ctx, path, row, n, r, bound, avoid);
      StartLater(ctx, path, r, n, bound + VarOf(path.elements[0]), vars, avoid);
      StartOutcome(ctx, path.elements, r, all, bound, vars, avoid);
      FinishFilters(ctx, path, all, bound, vars, avoid);
      if TestWhere(ctx, np.where, r) == Ok(true) {
        ExpandFilters(ctx, rest, r, n, named, bound + VarOf(path.elements[0]), vars, avoid);
      }
    }
  }

  lemma PathFilters(ctx: Ctx, path: Path, row: Row, bound: set<string>, vars: set<string>, avoid: set<string>)
    requires path.elements != [] && path.elements[0].NodeEl? && |path.elements| % 2 == 1
    requires MatchPath(ctx, false, path, row).Ok? && MatchPath(ctx, true, path, row).Ok?
    requires SettledElems(path.elements, bound, vars, avoid)
    requires ElementVars(path.elements) <= vars && OptSet(path.variable) + {PATH_ACC} <= avoid
    requires forall x :: x in bound && x !in avoid ==> x in row
    ensures MatchPath(ctx, true, path, row).value ==
            Filter(AllHoldFn(ctx, Preds(path.elements)), MatchPath(ctx, false, path, row).value)
  {
    var ns := CandidateNodes(ctx, path.elements[0].node, row).value;
    var f, g := StartFn(ctx, false, path, row), StartFn(ctx, true, path, row);
    FlatMapOk(f, ns);
    FlatMapOk(g, ns);
    forall n | n in ns ensures g(n).value == Filter(AllHoldFn(ctx, Preds(path.elements)), f(n).value) {
      StartFilters(ctx, path, row, n, bound, vars, avoid);
    }
    FlatMapFilter(f, g, AllHoldFn(ctx, Preds(path.elements)), ns);
  }
}
