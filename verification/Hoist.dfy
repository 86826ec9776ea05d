/** Lowering moves inline pattern predicates to the clause's WHERE. The reference matcher tests each
    predicate as its element is bound; the executor tests them all on the finished row. */
module Hoist {
  import opened Prelude
  import opened Ast
  import opened Evaluation
  import opened Matcher
  import opened Bindings

  // ---- the lowering ------------------------------------------------------------------------

  function Preds(elems: seq<Element>): seq<Expr> {
    if elems == [] then []
    else (if WhereOf(elems[0]).Some? then [WhereOf(elems[0]).value] else []) + Preds(elems[1..])
  }

  function PatternPreds(pattern: Pattern): seq<Expr> {
    if pattern == [] then [] else Preds(pattern[0].elements) + PatternPreds(pattern[1..])
  }

  function StripEl(el: Element): Element {
    match el
    case NodeEl(n) => NodeEl(n.(where := None))
    case RelEl(r) => RelEl(r.(where := None))
  }

  function Strip(elems: seq<Element>): (out: seq<Element>)
    ensures |out| == |elems|
  {
    if elems == [] then [] else [StripEl(elems[0])] + Strip(elems[1..])
  }

  function StripPattern(pattern: Pattern): Pattern {
    if pattern == [] then [] else [pattern[0].(elements := Strip(pattern[0].elements))] + StripPattern(pattern[1..])
  }

  /** `_where_of`: a left-nested AND, or no WHERE at all. */
  function AndOnto(acc: Expr, preds: seq<Expr>): Expr
    decreases |preds|
  {
    if preds == [] then acc else AndOnto(Binary(AndOp, acc, preds[0]), preds[1..])
  }

  function WhereFrom(preds: seq<Expr>): Option<Expr> {
    if preds == [] then None else Some(AndOnto(preds[0], preds[1..]))
  }

  function ListOf(w: Option<Expr>): seq<Expr> {
    if w.Some? then [w.value] else []
  }

  function HoistedWhere(pattern: Pattern, w: Option<Expr>): Option<Expr> {
    WhereFrom(ListOf(w) + PatternPreds(pattern))
  }

  /** A fixed-length relationship, or one without a predicate of its own. */
  predicate Hoistable(el: Element) {
    el.RelEl? && el.rel.where.Some? ==> !el.rel.variableLength && el.rel.minHops.None? && el.rel.maxHops.None?
  }

  predicate AllHoistable(pattern: Pattern) {
    forall i, j :: 0 <= i < |pattern| && 0 <= j < |pattern[i].elements| ==> Hoistable(pattern[i].elements[j])
  }

  // ---- conjunctions ----------------------------------------------------------------------------

  predicate AllHold(ctx: Ctx, preds: seq<Expr>, row: Row) {
    forall i :: 0 <= i < |preds| ==> Holds(ctx, Some(preds[i]), row)
  }

  function AllHoldFn(ctx: Ctx, preds: seq<Expr>): Row -> bool {
    (row: Row) => AllHold(ctx, preds, row)
  }

  lemma AllHoldConcat(ctx: Ctx, ps: seq<Expr>, qs: seq<Expr>, row: Row)
    ensures AllHold(ctx, ps + qs, row) <==> AllHold(ctx, ps, row) && AllHold(ctx, qs, row)
  {
    if AllHold(ctx, ps + qs, row) {
      assert forall i :: 0 <= i < |ps| ==> (ps + qs)[i] == ps[i];
      assert forall i :: 0 <= i < |qs| ==> (ps + qs)[|ps| + i] == qs[i];
    }
  }

  lemma OneAnd(ctx: Ctx, a: Expr, b: Expr, row: Row)
    requires TestWhere(ctx, Some(Binary(AndOp, a, b)), row).Ok?
    ensures TestWhere(ctx, Some(a), row).Ok? && TestWhere(ctx, Some(b), row).Ok?
    ensures Holds(ctx, Some(Binary(AndOp, a, b)), row) <==> Holds(ctx, Some(a), row) && Holds(ctx, Some(b), row)
  {
  }

  /** When a hoisted conjunction evaluates at all, it is true exactly when every conjunct is. */
  lemma {:induction false} AndHolds(ctx: Ctx, acc: Expr, preds: seq<Expr>, row: Row)
    requires TestWhere(ctx, Some(AndOnto(acc, preds)), row).Ok?
    ensures TestWhere(ctx, Some(acc), row).Ok?
    ensures Holds(ctx, Some(AndOnto(acc, preds)), row) <==> Holds(ctx, Some(acc), row) && AllHold(ctx, preds, row)
    decreases |preds|
  {
    if preds != [] {
      var next := Binary(AndOp, acc, preds[0]);
      AndHolds(ctx, next, preds[1..], row);
      OneAnd(ctx, acc, preds[0], row);
      AllHoldConcat(ctx, [preds[0]], preds[1..], row);
      assert preds == [preds[0]] + preds[1..];
      assert AllHold(ctx, [preds[0]], row) <==> Holds(ctx, Some(preds[0]), row);
    }
  }

  lemma WhereHolds(ctx: Ctx, preds: seq<Expr>, row: Row)
    requires TestWhere(ctx, WhereFrom(preds), row).Ok?
    ensures Holds(ctx, WhereFrom(preds), row) <==> AllHold(ctx, preds, row)
  {
    if preds != [] {
      AndHolds(ctx, preds[0], preds[1..], row);
      AllHoldConcat(ctx, [preds[0]], preds[1..], row);
      assert preds == [preds[0]] + preds[1..];
      assert AllHold(ctx, [preds[0]], row) <==> Holds(ctx, Some(preds[0]), row);
    }
  }

  // ---- stripping does not change what is matched -------------------------------------------------

  lemma StripTail(elems: seq<Element>)
    requires |elems| >= 2
    ensures Strip(elems)[0] == StripEl(elems[0]) && Strip(elems)[1] == StripEl(elems[1])
    ensures Strip(elems)[2..] == Strip(elems[2..])
  {
    assert elems[1..][1..] == elems[2..];
    assert Strip(elems)[1..] == Strip(elems[1..]);
    assert Strip(elems[1..])[1..] == Strip(elems[2..]);
  }

  lemma HopStrip(ctx: Ctx, rp: RelPattern, np: NodePattern, row: Row, track: bool, c: Cand, cur: nat)
    ensures HopRow(ctx, false, rp.(where := None), np.(where := None), row, track, c) ==
            HopRow(ctx, false, rp, np, row, track, c)
    ensures CandidateRels(ctx, rp.(where := None), cur) == CandidateRels(ctx, rp, cur)
  {
  }

  lemma {:induction false} StripExpand(ctx: Ctx, elems: seq<Element>, row: Row, cur: nat, track: bool)
    ensures Expand(ctx, false, Strip(elems), row, cur, track) == Expand(ctx, false, elems, row, cur, track)
    decreases |elems|
  {
    if |elems| >= 2 && elems[0].RelEl? && elems[1].NodeEl? {
      StripTail(elems);
      HopStrip(ctx, elems[0].rel, elems[1].node, row, track, Cand(Null, 0), cur);
      var cands := CandidateRels(ctx, elems[0].rel, cur);
      if cands.Ok? {
        var f, g := HopFn(ctx, false, Strip(elems), row, track), HopFn(ctx, false, elems, row, track);
        forall c | c in cands.value ensures f(c) == g(c) {
          var hop := HopRow(ctx, false, elems[0].rel, elems[1].node, row, track, c);
          HopStrip(ctx, elems[0].rel, elems[1].node, row, track, c, cur);
          if hop.Ok? && hop.value.Some? {
            StripExpand(ctx, elems[2..], hop.value.value, c.other, track);
          }
        }
        FlatMapExt(f, g, cands.value);
      }
    } else if |elems| >= 2 {
      StripTail(elems);
    }
  }

  lemma NodeTestStrip(ctx: Ctx, np: NodePattern, row: Row, ns: seq<nat>)
    ensures FilterR(NodeTest(ctx, np.(where := None), row), ns) == FilterR(NodeTest(ctx, np, row), ns)
  {
    if ns != [] { NodeTestStrip(ctx, np, row, ns[1..]); }
  }

  lemma CandidateNodesStrip(ctx: Ctx, np: NodePattern, row: Row)
    ensures CandidateNodes(ctx, np.(where := None), row) == CandidateNodes(ctx, np, row)
  {
    NodeTestStrip(ctx, np, row, Scan(ctx, np.labels));
    if np.variable.Some? && np.variable.value in row && row[np.variable.value].NodeRef? {
      NodeTestStrip(ctx, np, row, [row[np.variable.value].node]);
    }
  }

  lemma StripPath(ctx: Ctx, path: Path, row: Row)
    ensures MatchPath(ctx, false, path.(elements := Strip(path.elements)), row) == MatchPath(ctx, false, path, row)
  {
    if path.elements != [] && path.elements[0].NodeEl? {
      var np := path.elements[0].node;
      CandidateNodesStrip(ctx, np, row);
      var bare := path.(elements := Strip(path.elements));
      assert bare.elements[1..] == Strip(path.elements[1..]);
      var ns := CandidateNodes(ctx, np, row);
      if ns.Ok? {
        var f, g := StartFn(ctx, false, bare, row), StartFn(ctx, false, path, row);
        forall n | n in ns.value ensures f(n) == g(n) {
          var start := StartRow(ctx, false, np, path.variable.Some?, row, n);
          if start.Ok? && start.value.Some? {
            StripExpand(ctx, path.elements[1..], start.value.value, n, path.variable.Some?);
          }
        }
        FlatMapExt(f, g, ns.value);
      }
    }
  }

  lemma {:induction false} StripPaths(ctx: Ctx, pattern: Pattern, rows: Result<seq<Row>>)
    ensures MatchPaths(ctx, false, StripPattern(pattern), rows) == MatchPaths(ctx, false, pattern, rows)
    ensures PatternVars(StripPattern(pattern)) == PatternVars(pattern)
    decreases pattern
  {
    if pattern != [] {
      var p := pattern[0];
      var f, g := PathFn(ctx, false, p.(elements := Strip(p.elements))), PathFn(ctx, false, p);
      if rows.Ok? {
        forall row | row in rows.value ensures f(row) == g(row) { StripPath(ctx, p, row); }
        FlatMapExt(f, g, rows.value);
      }
      StripVars(p.elements);
      StripPaths(ctx, pattern[1..], Then(rows, g));
    }
  }

  lemma {:induction false} StripVars(elems: seq<Element>)
    ensures ElementVars(Strip(elems)) == ElementVars(elems)
  {
    if elems != [] { StripVars(elems[1..]); }
  }

  // ---- predicates about names already bound ---------------------------------------------------------

  /** A predicate's value is settled once its names are: each is bound by now, or by nothing in the
      pattern; and none is a path name. */
  ghost predicate Settled(e: Expr, bound: set<string>, vars: set<string>, avoid: set<string>) {
    Names(e) !! avoid && forall x :: x in Names(e) ==> x in bound || x !in vars
  }

  ghost predicate SettledElems(elems: seq<Element>, bound: set<string>, vars: set<string>, avoid: set<string>) {
    elems == [] ||
    (var now := bound + VarOf(elems[0]);
     && (WhereOf(elems[0]).Some? ==> Settled(WhereOf(elems[0]).value, now, vars, avoid))
     && SettledElems(elems[1..], now, vars, avoid))
  }

  ghost predicate SettledPattern(pattern: Pattern, bound: set<string>, vars: set<string>, avoid: set<string>) {
    pattern == [] ||
    (&& SettledElems(pattern[0].elements, bound, vars, avoid)
     && SettledPattern(pattern[1..], bound + ElementVars(pattern[0].elements), vars, avoid))
  }

  /** `r` has bound everything in `bound`, and `m` grew from it. */
  ghost predicate Later(r: Row, m: Row, bound: set<string>, vars: set<string>, avoid: set<string>) {
    && (forall x :: x in bound && x !in avoid ==> x in r)
    && Extends(r, m, avoid)
    && m.Keys <= r.Keys + vars + avoid
  }

  lemma TestKept(ctx: Ctx, e: Expr, r: Row, m: Row, bound: set<string>, vars: set<string>, avoid: set<string>)
    requires Settled(e, bound, vars, avoid) && Later(r, m, bound, vars, avoid)
    ensures TestWhere(ctx, Some(e), r) == TestWhere(ctx, Some(e), m)
  {
    forall x | x in Names(e)
      ensures (x in ctx.params + r) == (x in ctx.params + m)
      ensures x in ctx.params + r ==> (ctx.params + r)[x] == (ctx.params + m)[x]
    {
      assert x !in avoid;
      if x in r { assert x in m && m[x] == r[x]; }
    }
    EvalFrame(ctx, e, ctx.params + r, ctx.params + m);
  }
}
