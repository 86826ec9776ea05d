/** Adding `key: literal` to a node pattern keeps exactly the matches on which `v.key = literal` holds. */
module Inject {
  import opened Prelude
  import opened Ast
  import opened Evaluation
  import opened Matcher
  import opened Bindings

  // ---- the rewrite ---------------------------------------------------------------------------

  predicate IsLiteral(e: Expr) {
    e.Integer? || e.FloatLit? || e.StringLit? || e.Boolean?
  }

  function LitValue(e: Expr): Value
    requires IsLiteral(e)
  {
    match e
    case Integer(i) => Int(i)
    case FloatLit(r) => Float(r)
    case StringLit(s) => Str(s)
    case Boolean(b) => Bool(b)
  }

  predicate HasKey(entries: Entries, key: string) {
    exists i :: 0 <= i < |entries| && entries[i].0 == key
  }

  datatype Injection<T> = NotFound | Refused | Injected(value: T)

  predicate IsTarget(el: Element, v: string) {
    el.NodeEl? && el.node.variable == Some(v)
  }

  function AddEntry(np: NodePattern, key: string, lit: Expr): NodePattern {
    np.(properties := Some(EntriesOf(np.properties) + [(key, lit)]))
  }

  /** The first node pattern named `v` gets the entry, unless it already constrains that key. */
  function InjectElems(elems: seq<Element>, v: string, key: string, lit: Expr): Injection<seq<Element>> {
    if elems == [] then NotFound
    else if IsTarget(elems[0], v) then
      if HasKey(EntriesOf(elems[0].node.properties), key) then Refused
      else Injected([NodeEl(AddEntry(elems[0].node, key, lit))] + elems[1..])
    else
      match InjectElems(elems[1..], v, key, lit)
      case Injected(rest) => Injected([elems[0]] + rest)
      case other => other
  }

  function InjectProp(pattern: Pattern, v: string, key: string, lit: Expr): Injection<Pattern> {
    if pattern == [] then NotFound
    else
      match InjectElems(pattern[0].elements, v, key, lit)
      case Injected(elems) => Injected([pattern[0].(elements := elems)] + pattern[1..])
      case Refused => Refused
      case NotFound =>
        match InjectProp(pattern[1..], v, key, lit)
        case Injected(rest) => Injected([pattern[0]] + rest)
        case other => other
  }

  /** The conjunct the rewrite removes from WHERE. */
  function Conjunct(v: string, key: string, lit: Expr): Expr {
    Binary(EqOp, Property(Identifier(v), key), lit)
  }

  lemma ConjunctNames(v: string, key: string, lit: Expr)
    requires IsLiteral(lit)
    ensures Names(Conjunct(v, key, lit)) == {v}
  {
    assert Names(Property(Identifier(v), key)) == Names(Identifier(v)) == {v};
    assert Names(lit) == {};
  }

  // ---- the same constraint as an inline predicate -----------------------------------------------

  function MarkElems(elems: seq<Element>, v: string, e: Expr): seq<Element> {
    if elems == [] then []
    else if IsTarget(elems[0], v) then [NodeEl(elems[0].node.(where := Some(e)))] + elems[1..]
    else [elems[0]] + MarkElems(elems[1..], v, e)
  }

  function MarkPattern(pattern: Pattern, v: string, key: string, lit: Expr): Pattern {
    if pattern == [] then []
    else if InjectElems(pattern[0].elements, v, key, lit).NotFound? then
      [pattern[0]] + MarkPattern(pattern[1..], v, key, lit)
    else [pattern[0].(elements := MarkElems(pattern[0].elements, v, Conjunct(v, key, lit)))] + pattern[1..]
  }

  ghost predicate Plain(elems: seq<Element>) {
    forall i :: 0 <= i < |elems| ==> WhereOf(elems[i]) == None
  }

  // ---- one node -----------------------------------------------------------------------------------

  predicate LitMatches(ctx: Ctx, n: nat, key: string, lit: Expr)
    requires IsLiteral(lit)
  {
    NodeProp(ctx.g, n, key) != Null && PyEq(LitValue(lit), NodeProp(ctx.g, n, key))
  }

  lemma {:induction false} PropsAppend(ctx: Ctx, es: Entries, key: string, lit: Expr, n: nat, env: Row)
    requires IsLiteral(lit)
    ensures PropsMatch(ctx, es + [(key, lit)], n, env) ==
            (var p := PropsMatch(ctx, es, n, env);
             if p.Err? then p else Ok(p.value && LitMatches(ctx, n, key, lit)))
  {
    if es == [] {
      assert es + [(key, lit)] == [(key, lit)] && [(key, lit)][1..] == [];
      assert PropsMatch(ctx, [], n, env) == Ok(true);
    } else {
      assert (es + [(key, lit)])[1..] == es[1..] + [(key, lit)];
      PropsAppend(ctx, es[1..], key, lit, n, env);
    }
  }

  lemma NodeMatchesInjected(ctx: Ctx, np: NodePattern, key: string, lit: Expr, n: nat, row: Row)
    requires IsLiteral(lit)
    ensures NodeMatches(ctx, AddEntry(np, key, lit), n, row) ==
            (var p := NodeMatches(ctx, np, n, row);
             if p.Err? then p else Ok(p.value && LitMatches(ctx, n, key, lit)))
  {
    PropsAppend(ctx, EntriesOf(np.properties), key, lit, n, ctx.params + row);
  }

  lemma ConjunctTest(ctx: Ctx, v: string, key: string, lit: Expr, row: Row, n: nat)
    requires IsLiteral(lit) && v in row && row[v] == NodeRef(n)
    ensures TestWhere(ctx, Some(Conjunct(v, key, lit)), row) == Ok(LitMatches(ctx, n, key, lit))
  {
    var env := ctx.params + row;
    assert Eval(ctx, Identifier(v), env) == Ok(NodeRef(n));
    assert Eval(ctx, Property(Identifier(v), key), env) == Ok(NodeProp(ctx.g, n, key));
    assert Eval(ctx, lit, env) == Ok(LitValue(lit));
  }

  /** A hop to the constrained node, either way: refused together, and never refused with an error. */
  lemma HopInjected(ctx: Ctx, rp: RelPattern, np: NodePattern, v: string, key: string, lit: Expr,
                    row: Row, track: bool, c: Cand)
    requires IsLiteral(lit) && np.variable == Some(v) && v != PATH_ACC
    requires rp.where == None
    ensures HopRow(ctx, false, rp, AddEntry(np, key, lit), row, track, c) ==
            HopRow(ctx, true, rp, np.(where := Some(Conjunct(v, key, lit))), row, track, c)
    ensures var hop := HopRow(ctx, false, rp, np, row, track, c);
            hop.Ok? ==> HopRow(ctx, false, rp, AddEntry(np, key, lit), row, track, c) in {hop, Ok(None)}
  {
    NodeMatchesInjected(ctx, np, key, lit, c.other, row);
    var r1 := BindVar(row, rp.variable, c.value);
    if r1.Some? {
      var r2 := BindVar(r1.value, Some(v), NodeRef(c.other));
      if r2.Some? {
        BindVarGrows(r1.value, Some(v), NodeRef(c.other));
        ConjunctTest(ctx, v, key, lit, r2.value, c.other);
      }
    }
  }

  // ---- the rest of a path -----------------------------------------------------------------------------

  lemma {:induction false} PlainExpand(ctx: Ctx, elems: seq<Element>, row: Row, cur: nat, track: bool)
    requires Plain(elems)
    ensures Expand(ctx, true, elems, row, cur, track) == Expand(ctx, false, elems, row, cur, track)
    decreases |elems|
  {
    if |elems| >= 2 && elems[0].RelEl? && elems[1].NodeEl? {
      var cands := CandidateRels(ctx, elems[0].rel, cur);
      if cands.Ok? {
        var f, g := HopFn(ctx, true, elems, row, track), HopFn(ctx, false, elems, row, track);
        forall c | c in cands.value ensures f(c) == g(c) {
          HopPlain(ctx, elems[0].rel, elems[1].node, row, track, c);
          var hop := HopRow(ctx, false, elems[0].rel, elems[1].node, row, track, c);
          if hop.Ok? && hop.value.Some? {
            PlainExpand(ctx, elems[2..], hop.value.value, c.other, track);
          }
        }
        FlatMapExt(f, g, cands.value);
      }
    }
  }

  lemma HopPlain(ctx: Ctx, rp: RelPattern, np: NodePattern, row: Row, track: bool, c: Cand)
    requires rp.where == None && np.where == None
    ensures HopRow(ctx, true, rp, np, row, track, c) == HopRow(ctx, false, rp, np, row, track, c)
  {
  }

  /** What the injection does to the search: it is the marked search, and it only loses rows. */
  ghost predicate Shrinks(original: Result<seq<Row>>, injected: Result<seq<Row>>, marked: Result<seq<Row>>) {
    && injected == marked
    && (original.Ok? ==> injected.Ok? && forall m :: m in injected.value ==> m in original.value)
  }

  lemma {:induction false} FlatMapShrinks<T>(
    f: T -> Result<seq<Row>>, g: T -> Result<seq<Row>>, h: T -> Result<seq<Row>>, xs: seq<T>)
    requires forall x :: x in xs ==> Shrinks(f(x), g(x), h(x))
    ensures Shrinks(FlatMapR(f, xs), FlatMapR(g, xs), FlatMapR(h, xs))
  {
    if xs != [] {
      assert xs[0] in xs;
      FlatMapShrinks(f, g, h, xs[1..]);
    }
  }

  lemma InjectTail(elems: seq<Element>, v: string, key: string, lit: Expr)
    requires |elems| >= 2 && elems[0].RelEl? && InjectElems(elems, v, key, lit).Injected?
    ensures var out, mark := InjectElems(elems, v, key, lit).value, MarkElems(elems, v, Conjunct(v, key, lit));
            && |out| == |mark| == |elems| && out[0] == mark[0] == elems[0]
            && (if IsTarget(elems[1], v) then
                  && out[1] == NodeEl(AddEntry(elems[1].node, key, lit))
                  && mark[1] == NodeEl(elems[1].node.(where := Some(Conjunct(v, key, lit))))
                  && out[2..] == mark[2..] == elems[2..]
                else
                  && out[1] == mark[1] == elems[1]
                  && InjectElems(elems[2..], v, key, lit) == Injected(out[2..])
                  && mark[2..] == MarkElems(elems[2..], v, Conjunct(v, key, lit)))
  {
    InjectLength(elems, v, key, lit);
    assert elems[1..][0] == elems[1] && elems[1..][1..] == elems[2..];
    var rest := InjectElems(elems[1..], v, key, lit);
    var out, mark := InjectElems(elems, v, key, lit).value, MarkElems(elems, v, Conjunct(v, key, lit));
    assert out == [elems[0]] + rest.value && out[1..] == rest.value;
    assert mark[1..] == MarkElems(elems[1..], v, Conjunct(v, key, lit));
    if !IsTarget(elems[1], v) {
      assert out[1..][1..] == out[2..] && mark[1..][1..] == mark[2..];
    }
  }

  lemma {:induction false} InjectLength(elems: seq<Element>, v: string, key: string, lit: Expr)
    ensures InjectElems(elems, v, key, lit).Injected? ==> |InjectElems(elems, v, key, lit).value| == |elems|
    ensures |MarkElems(elems, v, Conjunct(v, key, lit))| == |elems|
  {
    if elems != [] { InjectLength(elems[1..], v, key, lit); }
  }

  lemma PlainTail(elems: seq<Element>)
    requires Plain(elems) && |elems| >= 2
    ensures Plain(elems[2..])
  {
    assert forall i :: 0 <= i < |elems[2..]| ==> elems[2..][i] == elems[i + 2];
  }

  lemma {:induction false} InjectExpand(
    ctx: Ctx, elems: seq<Element>, v: string, key: string, lit: Expr, row: Row, cur: nat, track: bool)
    requires IsLiteral(lit) && v != PATH_ACC && Plain(elems) && Hops(elems)
    requires InjectElems(elems, v, key, lit).Injected?
    ensures Shrinks(Expand(ctx, false, elems, row, cur, track),
                    Expand(ctx, false, InjectElems(elems, v, key, lit).value, row, cur, track),
                    Expand(ctx, true, MarkElems(elems, v, Conjunct(v, key, lit)), row, cur, track))
    decreases |elems|
  {
    HopsTail(elems);
    PlainTail(elems);
    InjectTail(elems, v, key, lit);
    var out, mark := InjectElems(elems, v, key, lit).value, MarkElems(elems, v, Conjunct(v, key, lit));
    var cands := CandidateRels(ctx, elems[0].rel, cur);
    if cands.Ok? {
      var f := HopFn(ctx, false, elems, row, track);
      var g, h := HopFn(ctx, false, out, row, track), HopFn(ctx, true, mark, row, track);
      forall c | c in cands.value ensures Shrinks(f(c), g(c), h(c)) {
        InjectHop(ctx, elems, out, mark, v, key, lit, row, track, c);
      }
      FlatMapShrinks(f, g, h, cands.value);
    }
  }

  /** The hop to the node that takes the literal; nothing after it changes. */
  lemma InjectTarget(
    ctx: Ctx, elems: seq<Element>, out: seq<Element>, mark: seq<Element>, v: string, key: string, lit: Expr,
    row: Row, track: bool, c: Cand)
    requires IsLiteral(lit) && v != PATH_ACC && Plain(elems) && Hops(elems) && |elems| >= 2
    requires elems[0].RelEl? && elems[1].NodeEl? && IsTarget(elems[1], v)
    requires InjectElems(elems, v, key, lit) == Injected(out) && mark == MarkElems(elems, v, Conjunct(v, key, lit))
    requires |out| == |mark| == |elems| && out[0] == mark[0] == elems[0] && out[1].NodeEl? && mark[1].NodeEl?
    ensures Shrinks(HopFn(ctx, false, elems, row, track)(c),
                    HopFn(ctx, false, out, row, track)(c), HopFn(ctx, true, mark, row, track)(c))
  {
    HopsTail(elems);
    PlainTail(elems);
    InjectTail(elems, v, key, lit);
    HopInjected(ctx, elems[0].rel, elems[1].node, v, key, lit, row, track, c);
    var hop := HopRow(ctx, false, elems[0].rel, elems[1].node, row, track, c);
    if hop.Ok? && hop.value.Some? { PlainExpand(ctx, elems[2..], hop.value.value, c.other, track); }
  }

  lemma {:induction false} InjectHop(
    ctx: Ctx, elems: seq<Element>, out: seq<Element>, mark: seq<Element>, v: string, key: string, lit: Expr,
    row: Row, track: bool, c: Cand)
    requires IsLiteral(lit) && v != PATH_ACC && Plain(elems) && Hops(elems) && |elems| >= 2
    requires elems[0].RelEl? && elems[1].NodeEl?
    requires InjectElems(elems, v, key, lit) == Injected(out) && mark == MarkElems(elems, v, Conjunct(v, key, lit))
    requires |out| == |mark| == |elems| && out[0] == mark[0] == elems[0] && out[1].NodeEl? && mark[1].NodeEl?
    ensures Shrinks(HopFn(ctx, false, elems, row, track)(c),
                    HopFn(ctx, false, out, row, track)(c), HopFn(ctx, true, mark, row, track)(c))
    decreases |elems|, 0
  {
    HopsTail(elems);
    PlainTail(elems);
    InjectTail(elems, v, key, lit);
    var hop := HopRow(ctx, false, elems[0].rel, elems[1].node, row, track, c);
    if IsTarget(elems[1], v) {
      InjectTarget(ctx, elems, out, mark, v, key, lit, row, track, c);
    } else {
      HopPlain(ctx, elems[0].rel, elems[1].node, row, track, c);
      if hop.Ok? && hop.value.Some? { InjectExpand(ctx, elems[2..], v, key, lit, hop.value.value, c.other, track); }
    }
  }

  // ---- paths ----------------------------------------------------------------------------------------------

  lemma {:induction false} NodeTestInjected(ctx: Ctx, np: NodePattern, key: string, lit: Expr, row: Row, ns: seq<nat>)
    requires IsLiteral(lit)
    ensures var a, b := FilterR(NodeTest(ctx, np, row), ns), FilterR(NodeTest(ctx, AddEntry(np, key, lit), row), ns);
            && (a.Err? ==> b == a)
            && (a.Ok? ==> b == Ok(Filter(LitFn(ctx, key, lit), a.value)))
  {
    if ns != [] {
      NodeMatchesInjected(ctx, np, key, lit, ns[0], row);
      NodeTestInjected(ctx, np, key, lit, row, ns[1..]);
      var rest := FilterR(NodeTest(ctx, np, row), ns[1..]);
      if rest.Ok? { FilterFirst(LitFn(ctx, key, lit), ns[0], rest.value); }
    }
  }

  lemma FilterFirst<T>(p: T -> bool, x: T, xs: seq<T>)
    ensures Filter(p, [x] + xs) == (if p(x) then [x] else []) + Filter(p, xs)
    ensures [] + xs == xs && [] + Filter(p, xs) == Filter(p, xs)
  {
    assert ([x] + xs)[1..] == xs;
  }

  function LitFn(ctx: Ctx, key: string, lit: Expr): nat -> bool
    requires IsLiteral(lit)
  {
    (n: nat) => LitMatches(ctx, n, key, lit)
  }

  lemma CandidatesInjected(ctx: Ctx, np: NodePattern, key: string, lit: Expr, row: Row)
    requires IsLiteral(lit)
    ensures var a, b := CandidateNodes(ctx, np, row), CandidateNodes(ctx, AddEntry(np, key, lit), row);
            && (a.Err? ==> b == a)
            && (a.Ok? ==> b == Ok(Filter(LitFn(ctx, key, lit), a.value)))
  {
    NodeTestInjected(ctx, np, key, lit, row, Scan(ctx, np.labels));
    if np.variable.Some? && np.variable.value in row && row[np.variable.value].NodeRef? {
      NodeTestInjected(ctx, np, key, lit, row, [row[np.variable.value].node]);
    }
  }

  /** Scanning fewer start nodes, or scanning all and testing each: the same rows. */
  lemma {:induction false} FilteredStarts(
    f: nat -> Result<seq<Row>>, g: nat -> Result<seq<Row>>, h: nat -> Result<seq<Row>>, q: nat -> bool, ns: seq<nat>)
    requires forall n :: n in ns && q(n) ==> Shrinks(f(n), g(n), h(n))
    requires forall n :: n in ns && !q(n) ==> h(n) == Ok([])
    ensures Shrinks(FlatMapR(f, ns), FlatMapR(g, Filter(q, ns)), FlatMapR(h, ns))
  {
    if ns != [] {
      assert ns[0] in ns;
      FilteredStarts(f, g, h, q, ns[1..]);
      if !q(ns[0]) && FlatMapR(h, ns[1..]).Ok? {
        assert [] + FlatMapR(h, ns[1..]).value == FlatMapR(h, ns[1..]).value;
      }
    }
  }

  lemma MarkedStart(ctx: Ctx, np: NodePattern, v: string, key: string, lit: Expr, named: bool, row: Row, n: nat)
    requires IsLiteral(lit) && np.variable == Some(v) && v != PATH_ACC && np.where == None
    ensures StartRow(ctx, true, np.(where := Some(Conjunct(v, key, lit))), named, row, n) ==
            if LitMatches(ctx, n, key, lit) then StartRow(ctx, false, np, named, row, n) else Ok(None)
    ensures StartRow(ctx, false, AddEntry(np, key, lit), named, row, n) == StartRow(ctx, false, np, named, row, n)
  {
    var r := BindVar(row, Some(v), NodeRef(n));
    if r.Some? {
      var r' := if named then r.value[PATH_ACC := List([NodeRef(n)])] else r.value;
      ConjunctTest(ctx, v, key, lit, r', n);
    }
  }

  ghost predicate PlainPath(p: Path) {
    PathShape(p) && Plain(p.elements)
  }

  lemma FinishShrinks(x: Option<string>, f: Result<seq<Row>>, g: Result<seq<Row>>, h: Result<seq<Row>>)
    requires Shrinks(f, g, h)
    ensures Shrinks(FinishAll(x, f), FinishAll(x, g), FinishAll(x, h))
  {
    if f.Ok? {
      forall m | m in Map(Finish(x), g.value) ensures m in Map(Finish(x), f.value) {
        var i :| 0 <= i < |g.value| && m == Finish(x)(g.value[i]);
        assert g.value[i] in f.value;
        var j :| 0 <= j < |f.value| && f.value[j] == g.value[i];
        assert Map(Finish(x), f.value)[j] == m;
      }
    }
  }
}
