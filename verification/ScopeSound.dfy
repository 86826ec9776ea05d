/** A query the undefined-variable check accepts never fails with "Unknown variable". */
module ScopeSound {
  import opened Prelude
  import opened Ast
  import opened Evaluation
  import opened Matcher
  import opened Query
  import opened QueryFacts
  import opened Bindings
  import opened Scope

  /** Whatever else may go wrong, it is not an unknown variable. */
  ghost predicate Quiet<T>(r: Result<T>) {
    r.Err? ==> !r.error.UnknownVariable?
  }

  // ---- the fragment ------------------------------------------------------------------------

  /** No argument is spelled like the function it is passed to. */
  predicate Plain(e: Expr)
    decreases e, 1
  {
    match e
    case Property(o, _) => Plain(o)
    case ListLit(es) => PlainAll(es)
    case Binary(_, l, r) => Plain(l) && Plain(r)
    case Not(a) => Plain(a)
    case Neg(a) => Plain(a)
    case IsNull(a, _) => Plain(a)
    case Subscript(b, i) => Plain(b) && Plain(i)
    case Slice(b, s, n) => Plain(b) && (s.Some? ==> Plain(s.value)) && (n.Some? ==> Plain(n.value))
    case Call(f, _, es) => Identifier(f) !in es && PlainAll(es)
    case Coalesce(es) => PlainAll(es)
    case _ => true
  }

  predicate PlainAll(es: seq<Expr>)
    decreases es, 0
  {
    forall i :: 0 <= i < |es| ==> Plain(es[i])
  }

  predicate PlainOpt(e: Option<Expr>) {
    e.Some? ==> Plain(e.value)
  }

  /** The expressions of a property map are plain and use only `names`. */
  predicate Reads(entries: Entries, names: set<string>) {
    forall i :: 0 <= i < |entries| ==> Plain(entries[i].1) && Refs(entries[i].1) <= names
  }

  /** Node property maps may use earlier bindings; relationship property maps see only parameters. */
  predicate PropsRead(el: Element, names: set<string>) {
    match el
    case NodeEl(n) => Reads(EntriesOf(n.properties), names)
    case RelEl(r) => Reads(EntriesOf(r.properties), {})
  }

  predicate PathReads(p: Path, names: set<string>) {
    forall i :: 0 <= i < |p.elements| ==> PropsRead(p.elements[i], names)
  }

  ghost predicate PatternOk(pattern: Pattern, names: set<string>) {
    && PATH_ACC !in PatternVars(pattern)
    && forall i :: 0 <= i < |pattern| ==> StartsWithNode(pattern[i]) && PathReads(pattern[i], names)
  }

  predicate ItemsPlain(items: seq<Item>) {
    forall i :: 0 <= i < |items| ==> items[i].Item? ==> Plain(items[i].expr)
  }

  predicate PagePlain(p: Projection) {
    && (forall i :: 0 <= i < |p.order| ==> Plain(p.order[i].expr))
    && PlainOpt(p.skip) && PlainOpt(p.limit)
    && RefsOpt(p.skip) == {} && RefsOpt(p.limit) == {}
  }

  /** What the check takes on trust: property maps, SKIP and LIMIT (evaluated with no row), function
      arguments, and ORDER BY beside an aggregate (which sees only the result columns). */
  ghost predicate Trusted(c: Clause, scope: set<string>) {
    match c
    case Match(pattern, _, w) => PatternOk(pattern, scope - {PATH_ACC}) && PlainOpt(w)
    case With(p, w) => ItemsPlain(p.items) && PagePlain(p) && PlainOpt(w) && (HasAgg(p.items) ==> !HasStar(p.items))
    case Unwind(e, _) => Plain(e)
    case Return(p) =>
      ItemsPlain(p.items) && PagePlain(p) &&
      (HasAgg(p.items) ==> !HasStar(p.items) && OrderRefs(p.order) <= AliasNames(p.items))
  }

  ghost predicate TrustedAll(cs: seq<Clause>, scope: set<string>) {
    cs == [] || (Trusted(cs[0], scope) && TrustedAll(cs[1..], ScopeAfter(cs[0], scope)))
  }

  // ---- loops -----------------------------------------------------------------------------------

  lemma {:induction false} FlatMapQuiet<T, U>(f: T -> Result<seq<U>>, xs: seq<T>)
    requires forall x :: x in xs ==> Quiet(f(x))
    ensures Quiet(FlatMapR(f, xs))
  {
    if xs != [] {
      assert xs[0] in xs;
      FlatMapQuiet(f, xs[1..]);
    }
  }

  lemma {:induction false} FilterQuiet<T>(p: T -> Result<bool>, xs: seq<T>)
    requires forall x :: x in xs ==> Quiet(p(x))
    ensures Quiet(FilterR(p, xs))
  {
    if xs != [] {
      assert xs[0] in xs;
      FilterQuiet(p, xs[1..]);
    }
  }

  // ---- expressions ---------------------------------------------------------------------------------

  lemma {:induction false} EvalQuiet(ctx: Ctx, e: Expr, env: Row)
    requires Plain(e) && Refs(e) <= env.Keys
    ensures Quiet(Eval(ctx, e, env))
    decreases e, 1
  {
    match e
    case Property(o, _) => EvalQuiet(ctx, o, env);
    case ListLit(es) => EvalAllQuiet(ctx, es, env);
    case Binary(_, l, r) => EvalQuiet(ctx, l, env); EvalQuiet(ctx, r, env);
    case Not(a) => EvalQuiet(ctx, a, env);
    case Neg(a) => EvalQuiet(ctx, a, env);
    case IsNull(a, _) => EvalQuiet(ctx, a, env);
    case Subscript(b, i) => EvalQuiet(ctx, b, env); EvalQuiet(ctx, i, env);
    case Slice(b, s, n) =>
      EvalQuiet(ctx, b, env);
      if s.Some? { EvalQuiet(ctx, s.value, env); }
      if n.Some? { EvalQuiet(ctx, n.value, env); }
    case Call(f, _, es) => ArgsAreRefs(f, es); EvalAllQuiet(ctx, es, env);
    case Coalesce(es) => EvalAllQuiet(ctx, es, env);
    case _ =>
  }

  lemma {:induction false} ArgsAreRefs(f: string, es: seq<Expr>)
    requires Identifier(f) !in es
    ensures RefsArgs(f, es) == RefsAll(es)
    decreases es, 0
  {
    if es != [] { ArgsAreRefs(f, es[1..]); }
  }

  lemma {:induction false} EvalAllQuiet(ctx: Ctx, es: seq<Expr>, env: Row)
    requires PlainAll(es) && RefsAll(es) <= env.Keys
    ensures Quiet(EvalAll(ctx, es, env)) && Quiet(EvalFirst(ctx, es, env))
    decreases es, 0
  {
    if es != [] {
      EvalQuiet(ctx, es[0], env);
      EvalAllQuiet(ctx, es[1..], env);
    }
  }

  lemma TestQuiet(ctx: Ctx, w: Option<Expr>, row: Row)
    requires PlainOpt(w) && RefsOpt(w) <= row.Keys
    ensures Quiet(TestWhere(ctx, w, row))
  {
    if w.Some? { EvalQuiet(ctx, w.value, ctx.params + row); }
  }

  // ---- matching ------------------------------------------------------------------------------------

  lemma {:induction false} PropsQuiet(ctx: Ctx, entries: Entries, n: nat, env: Row)
    requires Reads(entries, env.Keys)
    ensures Quiet(PropsMatch(ctx, entries, n, env))
  {
    if entries != [] {
      EvalQuiet(ctx, entries[0].1, env);
      PropsQuiet(ctx, entries[1..], n, env);
    }
  }

  lemma {:induction false} RelPropsQuiet(ctx: Ctx, entries: Entries, r: nat)
    requires Reads(entries, {})
    ensures Quiet(RelPropsMatch(ctx, entries, r))
  {
    if entries != [] {
      EvalQuiet(ctx, entries[0].1, ctx.params);
      RelPropsQuiet(ctx, entries[1..], r);
    }
  }

  lemma NodeQuiet(ctx: Ctx, np: NodePattern, n: nat, row: Row, names: set<string>)
    requires Reads(EntriesOf(np.properties), names) && names <= row.Keys
    ensures Quiet(NodeMatches(ctx, np, n, row))
  {
    PropsQuiet(ctx, EntriesOf(np.properties), n, ctx.params + row);
  }

  lemma CandidateNodesQuiet(ctx: Ctx, np: NodePattern, row: Row, names: set<string>)
    requires Reads(EntriesOf(np.properties), names) && names <= row.Keys
    ensures Quiet(CandidateNodes(ctx, np, row))
  {
    var p := NodeTest(ctx, np, row);
    forall n ensures Quiet(p(n)) { NodeQuiet(ctx, np, n, row, names); }
    FilterQuiet(p, Scan(ctx, np.labels));
    if np.variable.Some? && np.variable.value in row && row[np.variable.value].NodeRef? {
      FilterQuiet(p, [row[np.variable.value].node]);
    }
  }

  lemma {:induction false} RelLoopQuiet(
    ctx: Ctx, types: seq<string>, dir: Direction, entries: Entries, pairs: seq<(nat, nat)>, seen: set<nat>)
    requires Reads(entries, {})
    ensures Quiet(RelLoop(ctx, types, dir, entries, pairs, seen))
    decreases pairs
  {
    if pairs != [] {
      RelPropsQuiet(ctx, entries, pairs[0].0);
      RelLoopQuiet(ctx, types, dir, entries, pairs[1..], seen);
      RelLoopQuiet(ctx, types, dir, entries, pairs[1..], seen + {pairs[0].0});
    }
  }

  lemma CandidateRelsQuiet(ctx: Ctx, rp: RelPattern, cur: nat)
    requires Reads(EntriesOf(rp.properties), {})
    ensures Quiet(CandidateRels(ctx, rp, cur))
  {
    RelLoopQuiet(ctx, rp.types, rp.direction, EntriesOf(rp.properties), HopPairs(ctx, rp.types, rp.direction, cur), {});
  }

  lemma {:induction false} ExpandQuiet(
    ctx: Ctx, elems: seq<Element>, row: Row, cur: nat, track: bool, names: set<string>)
    requires forall i :: 0 <= i < |elems| ==> PropsRead(elems[i], names)
    requires names <= row.Keys
    ensures Quiet(Expand(ctx, false, elems, row, cur, track))
    decreases |elems|
  {
    if |elems| >= 2 && elems[0].RelEl? && elems[1].NodeEl? {
      assert PropsRead(elems[0], names) && PropsRead(elems[1], names);
      CandidateRelsQuiet(ctx, elems[0].rel, cur);
      if CandidateRels(ctx, elems[0].rel, cur).Ok? {
        var f := HopFn(ctx, false, elems, row, track);
        forall c | c in CandidateRels(ctx, elems[0].rel, cur).value ensures Quiet(f(c)) {
          NodeQuiet(ctx, elems[1].node, c.other, row, names);
          var hop := HopRow(ctx, false, elems[0].rel, elems[1].node, row, track, c);
          if hop.Ok? && hop.value.Some? {
            HopRowGrows(ctx, false, elems[0].rel, elems[1].node, row, track, c);
            assert forall i :: 0 <= i < |elems[2..]| ==> elems[2..][i] == elems[i + 2];
            ExpandQuiet(ctx, elems[2..], hop.value.value, c.other, track, names);
          }
        }
        FlatMapQuiet(f, CandidateRels(ctx, elems[0].rel, cur).value);
      }
    }
  }

  lemma MatchPathQuiet(ctx: Ctx, path: Path, row: Row, names: set<string>)
    requires PathReads(path, names) && names <= row.Keys
    ensures Quiet(MatchPath(ctx, false, path, row))
  {
    if path.elements != [] && path.elements[0].NodeEl? {
      var np := path.elements[0].node;
      assert PropsRead(path.elements[0], names);
      CandidateNodesQuiet(ctx, np, row, names);
      if CandidateNodes(ctx, np, row).Ok? {
        var f := StartFn(ctx, false, path, row);
        forall n | n in CandidateNodes(ctx, np, row).value ensures Quiet(f(n)) {
          var start := StartRow(ctx, false, np, path.variable.Some?, row, n);
          if start.Ok? && start.value.Some? {
            StartRowGrows(ctx, false, np, path.variable.Some?, row, n);
            assert forall i :: 0 <= i < |path.elements[1..]| ==> path.elements[1..][i] == path.elements[i + 1];
            ExpandQuiet(ctx, path.elements[1..], start.value.value, n, path.variable.Some?, names);
          }
        }
        FlatMapQuiet(f, CandidateNodes(ctx, np, row).value);
      }
    }
  }

  ghost predicate Know(rows: seq<Row>, names: set<string>) {
    forall row :: row in rows ==> names <= row.Keys
  }

  lemma {:induction false} MatchPathsQuiet(ctx: Ctx, pattern: Pattern, rows: seq<Row>, names: set<string>)
    requires PATH_ACC !in names && Know(rows, names)
    requires forall i :: 0 <= i < |pattern| ==> PathReads(pattern[i], names)
    ensures Quiet(MatchPaths(ctx, false, pattern, Ok(rows)))
    decreases pattern
  {
    if pattern != [] {
      var f := PathFn(ctx, false, pattern[0]);
      forall row | row in rows ensures Quiet(f(row)) { MatchPathQuiet(ctx, pattern[0], row, names); }
      FlatMapQuiet(f, rows);
      if FlatMapR(f, rows).Ok? {
        FlatMapOk(f, rows);
        forall m: Row | m in FlatMapR(f, rows).value ensures names <= m.Keys {
          var row :| row in rows && m in f(row).value;
          MatchPathGrows(ctx, false, pattern[0], row);
        }
        MatchPathsQuiet(ctx, pattern[1..], FlatMapR(f, rows).value, names);
      } else {
        PathsErr(ctx, false, pattern[1..], FlatMapR(f, rows).error);
      }
    }
  }

  // ---- a match binds every variable of its pattern -------------------------------------------------

  lemma {:induction false} PathsBind(ctx: Ctx, pattern: Pattern, rows: seq<Row>, x: string)
    requires (forall i :: 0 <= i < |pattern| ==> StartsWithNode(pattern[i])) && x != PATH_ACC
    requires x in PatternVars(pattern) || Know(rows, {x})
    requires MatchPaths(ctx, false, pattern, Ok(rows)).Ok?
    ensures Know(MatchPaths(ctx, false, pattern, Ok(rows)).value, {x})
    decreases pattern
  {
    if pattern != [] {
      var f := PathFn(ctx, false, pattern[0]);
      MatchPathsErr(ctx, false, pattern[1..], FlatMapR(f, rows));
      FlatMapOk(f, rows);
      if x !in PatternVars(pattern[1..]) {
        forall m: Row | m in FlatMapR(f, rows).value ensures x in m {
          var row :| row in rows && m in f(row).value;
          if x in OptSet(pattern[0].variable) + ElementVars(pattern[0].elements) {
            PathBinds(ctx, false, pattern[0], row, x);
          } else {
            MatchPathGrows(ctx, false, pattern[0], row);
          }
        }
      }
      PathsBind(ctx, pattern[1..], FlatMapR(f, rows).value, x);
    }
  }

  lemma PatternBinds(ctx: Ctx, pattern: Pattern, row: Row)
    requires PATH_ACC !in PatternVars(pattern) && forall i :: 0 <= i < |pattern| ==> StartsWithNode(pattern[i])
    requires MatchPattern(ctx, false, pattern, row).Ok?
    ensures Know(MatchPattern(ctx, false, pattern, row).value, PatternVars(pattern))
  {
    forall m, x | m in MatchPattern(ctx, false, pattern, row).value && x in PatternVars(pattern) ensures x in m.Keys {
      PathsBind(ctx, pattern, [row], x);
    }
  }

  /** The rows one input row of a MATCH turns into, all of which know the scope after the clause. */
  lemma BlockQuiet(ctx: Ctx, pattern: Pattern, optional: bool, w: Option<Expr>, scope: set<string>, row: Row)
    requires PatternOk(pattern, scope - {PATH_ACC}) && PlainOpt(w)
    requires RefsOpt(w) <= scope + PatternVars(pattern) && scope <= row.Keys
    ensures var r := Block(ctx, false, pattern, optional, w, row);
            Quiet(r) && (r.Ok? ==> Know(r.value, scope + PatternVars(pattern)))
  {
    MatchPathsQuiet(ctx, pattern, [row], scope - {PATH_ACC});
    var found := MatchPattern(ctx, false, pattern, row);
    if found.Ok? {
      PatternBinds(ctx, pattern, row);
      var merged := Map(Over(row), found.value);
      forall m | m in merged ensures scope + PatternVars(pattern) <= m.Keys && Quiet(TestWhere(ctx, w, m)) {
        var i :| 0 <= i < |found.value| && m == row + found.value[i];
        assert found.value[i] in found.value;
        TestQuiet(ctx, w, m);
      }
      FilterQuiet(Passes(ctx, w), merged);
      FilterRFrom(Passes(ctx, w), merged);
    }
  }

  // ---- projection ----------------------------------------------------------------------------------

  lemma {:induction false} ProjectRowQuiet(ctx: Ctx, items: seq<Item>, row: Row, acc: Row)
    requires ItemsPlain(items) && ItemRefs(items) <= row.Keys
    ensures Quiet(ProjectRow(ctx, items, row, acc))
  {
    if items != [] {
      if items[0].Star? {
        ProjectRowQuiet(ctx, items[1..], row, acc + row);
      } else {
        var e := items[0].expr;
        EvalQuiet(ctx, e, ctx.params + row);
        if Eval(ctx, e, ctx.params + row).Ok? {
          ProjectRowQuiet(ctx, items[1..], row,
              acc[ProjName(ctx, e, items[0].alias) := Eval(ctx, e, ctx.params + row).value]);
        }
      }
    }
  }

  lemma {:induction false} AliasesAreNames(ctx: Ctx, items: seq<Item>)
    ensures AliasNames(items) <= ItemNames(ctx, items)
  {
    if items != [] { AliasesAreNames(ctx, items[1..]); }
  }

  ghost predicate PairKnows(p: Paired, scope: set<string>, next: set<string>) {
    scope <= p.orig.Keys && next <= p.proj.Keys
  }

  lemma {:induction false} SortValuesQuiet(ctx: Ctx, o: Ordered, ps: seq<Paired>, scope: set<string>, next: set<string>)
    requires Plain(o.expr) && Refs(o.expr) <= scope + next
    requires forall p :: p in ps ==> PairKnows(p, scope, next)
    ensures Quiet(SortValuesOk(ctx, o, ps))
  {
    if ps != [] {
      assert PairKnows(ps[0], scope, next);
      EvalQuiet(ctx, o.expr, ctx.params + (ps[0].orig + ps[0].proj));
      SortValuesQuiet(ctx, o, ps[1..], scope, next);
    }
  }

  lemma {:induction false} OrderQuiet(
    ctx: Ctx, os: seq<Ordered>, ps: seq<Paired>, scope: set<string>, next: set<string>)
    requires (forall i :: 0 <= i < |os| ==> Plain(os[i].expr)) && OrderRefs(os) <= scope + next
    requires forall p :: p in ps ==> PairKnows(p, scope, next)
    ensures Quiet(OrderAll(ctx, os, ps))
  {
    if os != [] {
      OrderQuiet(ctx, os[1..], ps, scope, next);
      if OrderAll(ctx, os[1..], ps).Ok? {
        OrderAllFrom(ctx, os[1..], ps);
        SortValuesQuiet(ctx, os[0], OrderAll(ctx, os[1..], ps).value, scope, next);
      }
    }
  }

  lemma CountQuiet(ctx: Ctx, e: Option<Expr>)
    requires PlainOpt(e) && RefsOpt(e) == {}
    ensures e.Some? ==> Quiet(Count(ctx, e.value))
  {
    if e.Some? { EvalQuiet(ctx, e.value, ctx.params); }
  }

  lemma ArrangeQuiet(
    ctx: Ctx, p: Projection, w: Option<Expr>, ps: seq<Paired>, scope: set<string>, next: set<string>)
    requires PagePlain(p) && PlainOpt(w) && RefsOpt(w) <= next && OrderRefs(p.order) <= scope + next
    requires forall q :: q in ps ==> PairKnows(q, scope, next)
    ensures Quiet(Arrange(ctx, p, w, ps))
  {
    var unique := if p.distinct then Dedupe(PairKey(), ps, {}) else ps;
    DedupeFrom(PairKey(), ps, {});
    forall q | q in unique ensures Quiet(ProjPasses(ctx, w)(q)) {
      assert PairKnows(q, scope, next);
      TestQuiet(ctx, w, q.proj);
    }
    FilterQuiet(ProjPasses(ctx, w), unique);
    FilterRFrom(ProjPasses(ctx, w), unique);
    if FilterR(ProjPasses(ctx, w), unique).Ok? {
      OrderQuiet(ctx, p.order, FilterR(ProjPasses(ctx, w), unique).value, scope, next);
      CountQuiet(ctx, p.skip);
      CountQuiet(ctx, p.limit);
    }
  }

  /** A projection over rows that know `scope` raises no unknown variable, and its rows know the aliases. */
  lemma ProjectQuiet(ctx: Ctx, p: Projection, w: Option<Expr>, rows: seq<Row>, scope: set<string>)
    requires ItemsPlain(p.items) && PagePlain(p) && PlainOpt(w) && Know(rows, scope)
    requires ItemRefs(p.items) <= scope && RefsOpt(w) <= Projected(p, scope)
    requires OrderRefs(p.order) <= scope + Projected(p, scope)
    ensures var r := Project(ctx, p, w, rows);
            Quiet(r) && (r.Ok? ==> Know(r.value, Projected(p, scope)))
  {
    var f := PairFn(ctx, p.items);
    AliasesAreNames(ctx, p.items);
    forall row | row in rows
      ensures Quiet(f(row)) && (f(row).Ok? ==> forall q :: q in f(row).value ==>
              PairKnows(q, scope, Projected(p, scope)))
    {
      ProjectRowQuiet(ctx, p.items, row, map[]);
      if f(row).Ok? { ProjectRowKeys(ctx, p.items, row, map[]); }
    }
    FlatMapQuiet(f, rows);
    FlatMapOk(f, rows);
    if FlatMapR(f, rows).Ok? {
      var ps := FlatMapR(f, rows).value;
      ArrangeQuiet(ctx, p, w, ps, scope, Projected(p, scope));
      if Arrange(ctx, p, w, ps).Ok? { ArrangeFrom(ctx, p, w, ps); }
    }
  }

  // ---- aggregation ---------------------------------------------------------------------------------

  lemma {:induction false} KeyRefs(items: seq<Item>)
    requires ItemsPlain(items)
    ensures RefsAll(KeyExprs(items)) <= ItemRefs(items) && PlainAll(KeyExprs(items))
  {
    if items != [] { KeyRefs(items[1..]); }
  }

  ghost predicate GroupsKnow(gs: seq<Group>, scope: set<string>) {
    forall g :: g in gs ==> Know(g.rows, scope)
  }

  lemma {:induction false} AddKnows(gs: seq<Group>, key: seq<Value>, row: Row, scope: set<string>)
    requires GroupsKnow(gs, scope) && scope <= row.Keys
    ensures GroupsKnow(AddToGroup(gs, key, row), scope)
  {
    if gs != [] {
      assert Know(gs[0].rows, scope);
      if NormAll(gs[0].key) != NormAll(key) { AddKnows(gs[1..], key, row, scope); }
    }
  }

  lemma {:induction false} GroupRowsQuiet(ctx: Ctx, keys: seq<Expr>, rows: seq<Row>, gs: seq<Group>, scope: set<string>)
    requires RefsAll(keys) <= scope && PlainAll(keys) && Know(rows, scope) && GroupsKnow(gs, scope)
    ensures var r := GroupRows(ctx, keys, rows, gs); Quiet(r) && (r.Ok? ==> GroupsKnow(r.value, scope))
    decreases rows
  {
    if rows != [] {
      assert rows[0] in rows;
      EvalAllQuiet(ctx, keys, ctx.params + rows[0]);
      var key := GroupKey(ctx, keys, rows[0]);
      if key.Ok? {
        AddKnows(gs, key.value, rows[0], scope);
        GroupRowsQuiet(ctx, keys, rows[1..], AddToGroup(gs, key.value, rows[0]), scope);
      }
    }
  }

  lemma {:induction false} ArgsQuiet(ctx: Ctx, e: Expr, rows: seq<Row>, scope: set<string>)
    requires Plain(e) && Refs(e) <= scope && Know(rows, scope)
    ensures Quiet(ArgValues(ctx, e, rows))
  {
    if rows != [] {
      assert rows[0] in rows;
      EvalQuiet(ctx, e, ctx.params + rows[0]);
      ArgsQuiet(ctx, e, rows[1..], scope);
    }
  }

  lemma AggQuiet(ctx: Ctx, item: Item, rows: seq<Row>, scope: set<string>)
    requires IsAgg(item) && Plain(item.expr) && Refs(item.expr) <= scope && Know(rows, scope)
    ensures Quiet(EvalAgg(ctx, item, rows))
  {
    var args := item.expr.args;
    ArgsAreRefs(item.expr.func, args);
    if args != [] { ArgsQuiet(ctx, args[0], rows, scope); }
  }

  lemma {:induction false} GroupResultQuiet(
    ctx: Ctx, items: seq<Item>, key: seq<Value>, rows: seq<Row>, scope: set<string>)
    requires ItemsPlain(items) && ItemRefs(items) <= scope && Know(rows, scope)
    ensures var r := GroupResult(ctx, items, key, rows); Quiet(r) && (r.Ok? ==> |r.value| == |items|)
    decreases items
  {
    if items != [] {
      if IsAgg(items[0]) {
        AggQuiet(ctx, items[0], rows, scope);
        GroupResultQuiet(ctx, items[1..], key, rows, scope);
      } else if key != [] {
        GroupResultQuiet(ctx, items[1..], key[1..], rows, scope);
      }
    }
  }

  lemma {:induction false} GroupResultsQuiet(ctx: Ctx, items: seq<Item>, gs: seq<Group>, scope: set<string>)
    requires ItemsPlain(items) && ItemRefs(items) <= scope && GroupsKnow(gs, scope)
    ensures var r := GroupResults(ctx, items, gs);
            Quiet(r) && (r.Ok? ==> forall l :: l in r.value ==> |l| == |items|)
    decreases gs
  {
    if gs != [] {
      assert gs[0] in gs;
      GroupResultQuiet(ctx, items, gs[0].key, gs[0].rows, scope);
      GroupResultsQuiet(ctx, items, gs[1..], scope);
    }
  }

  ghost function Named(cols: seq<string>): set<string> {
    set c | c in cols
  }

  lemma {:induction false} ZipKnows(cols: seq<string>, vs: seq<Value>)
    requires |vs| == |cols|
    ensures Named(cols) <= Zip(cols, vs).Keys
  {
    if cols != [] {
      ZipKnows(cols[1..], vs[1..]);
      forall c | c in cols ensures c in Zip(cols, vs) { assert c == cols[0] || c in Named(cols[1..]); }
    }
  }

  lemma {:induction false} AliasesAreColumns(ctx: Ctx, items: seq<Item>)
    requires !HasStar(items)
    ensures AliasNames(items) <= Named(Columns(ctx, items))
  {
    if items != [] {
      HasStarCons(items);
      AliasesAreColumns(ctx, items[1..]);
      assert Named(Columns(ctx, items)) >= Named(Columns(ctx, items[1..]));
    }
  }

  lemma {:induction false} ColumnRefs(cols: seq<string>)
    ensures ItemRefs(ColumnItems(cols)) <= Named(cols) && Named(cols) <= AliasNames(ColumnItems(cols))
    ensures ItemsPlain(ColumnItems(cols))
  {
    if cols != [] {
      assert ColumnItems(cols)[1..] == ColumnItems(cols[1..]);
      ColumnRefs(cols[1..]);
      assert Named(cols) == {cols[0]} + Named(cols[1..]);
    }
  }

  lemma ZippedKnow(cols: seq<string>, lists: seq<seq<Value>>)
    requires forall l :: l in lists ==> |l| == |cols|
    ensures Know(Map(ZipFn(cols), lists), Named(cols))
  {
    forall row | row in Map(ZipFn(cols), lists) ensures Named(cols) <= row.Keys {
      var i :| 0 <= i < |lists| && row == Zip(cols, lists[i]);
      assert lists[i] in lists;
      ZipKnows(cols, lists[i]);
    }
  }

  /** Ordering and paging an aggregated table: only the columns are visible. */
  lemma ColumnsQuiet(ctx: Ctx, p: Projection, cols: seq<string>, lists: seq<seq<Value>>)
    requires PagePlain(p) && OrderRefs(p.order) <= Named(cols)
    requires forall l :: l in lists ==> |l| == |cols|
    ensures Quiet(Project(ctx, p.(items := ColumnItems(cols)), None, Map(ZipFn(cols), lists)))
  {
    ColumnRefs(cols);
    ZippedKnow(cols, lists);
    ProjectQuiet(ctx, p.(items := ColumnItems(cols)), None, Map(ZipFn(cols), lists), Named(cols));
  }

  lemma AggregateQuiet(ctx: Ctx, p: Projection, rows: seq<Row>, scope: set<string>)
    requires ItemsPlain(p.items) && PagePlain(p) && Know(rows, scope) && ItemRefs(p.items) <= scope
    requires !HasStar(p.items) && OrderRefs(p.order) <= AliasNames(p.items)
    ensures var r := AggregateReturn(ctx, p, rows);
            Quiet(r) && (r.Ok? ==> forall l :: l in r.value ==> |l| == |p.items|)
  {
    KeyRefs(p.items);
    GroupRowsQuiet(ctx, KeyExprs(p.items), rows, [], scope);
    var gs := GroupRows(ctx, KeyExprs(p.items), rows, []);
    if gs.Ok? {
      GroupResultsQuiet(ctx, p.items, gs.value, scope);
      var results := GroupResults(ctx, p.items, gs.value);
      if results.Ok? {
        AliasesAreColumns(ctx, p.items);
        ColumnsQuiet(ctx, p, Columns(ctx, p.items), results.value);
      }
    }
  }

  /** Either kind of projection: no unknown variable, and the rows know the projected names. */
  lemma ProjectionQuiet(ctx: Ctx, p: Projection, w: Option<Expr>, rows: seq<Row>, scope: set<string>)
    requires ItemsPlain(p.items) && PagePlain(p) && PlainOpt(w) && Know(rows, scope)
    requires ItemRefs(p.items) <= scope && RefsOpt(w) <= Projected(p, scope)
    requires OrderRefs(p.order) <= scope + Projected(p, scope)
    requires HasAgg(p.items) ==> !HasStar(p.items) && OrderRefs(p.order) <= AliasNames(p.items)
    ensures var r := ProjectOrAggregate(ctx, p, w, rows);
            Quiet(r) && (r.Ok? ==> Know(r.value, Projected(p, scope)))
  {
    if HasAgg(p.items) {
      AggregateQuiet(ctx, p, rows, scope);
      var lists, cols := AggregateReturn(ctx, p, rows), Columns(ctx, p.items);
      if lists.Ok? {
        AliasesAreColumns(ctx, p.items);
        ZippedKnow(cols, lists.value);
        var table := Map(ZipFn(cols), lists.value);
        forall row | row in table ensures Quiet(TestWhere(ctx, w, row)) { TestQuiet(ctx, w, row); }
        FilterQuiet(Passes(ctx, w), table);
        FilterRFrom(Passes(ctx, w), table);
      }
    } else {
      ProjectQuiet(ctx, p, w, rows, scope);
    }
  }

  // ---- queries -------------------------------------------------------------------------------------

  lemma NothingMissing(a: set<string>, b: set<string>)
    ensures a - b == {} <==> a <= b
  {
    if a - b == {} {
      forall x | x in a ensures x in b { assert x !in b ==> x in a - b; }
    }
  }

  lemma MatchQuiet(ctx: Ctx, pattern: Pattern, optional: bool, w: Option<Expr>, rows: seq<Row>, scope: set<string>)
    requires PatternOk(pattern, scope - {PATH_ACC}) && PlainOpt(w) && Know(rows, scope)
    requires RefsOpt(w) <= scope + PatternVars(pattern)
    ensures var r := MatchClause(ctx, false, pattern, optional, w, rows);
            Quiet(r) && (r.Ok? ==> Know(r.value, scope + PatternVars(pattern)))
  {
    var f := BlockFn(ctx, false, pattern, optional, w);
    forall row | row in rows ensures Quiet(f(row))
        && (f(row).Ok? ==> Know(f(row).value, scope + PatternVars(pattern))) {
      BlockQuiet(ctx, pattern, optional, w, scope, row);
    }
    FlatMapQuiet(f, rows);
    FlatMapOk(f, rows);
  }

  lemma UnwindQuiet(ctx: Ctx, e: Expr, name: string, rows: seq<Row>, scope: set<string>)
    requires Plain(e) && Refs(e) <= scope && Know(rows, scope)
    ensures var r := FlatMapR(UnwindFn(ctx, e, name), rows);
            Quiet(r) && (r.Ok? ==> Know(r.value, scope + {name}))
  {
    var f := UnwindFn(ctx, e, name);
    forall row | row in rows ensures Quiet(f(row)) && (f(row).Ok? ==> Know(f(row).value, scope + {name})) {
      EvalQuiet(ctx, e, ctx.params + row);
    }
    FlatMapQuiet(f, rows);
    FlatMapOk(f, rows);
  }

  /** One accepted clause, run on rows that know its scope. */
  lemma ClauseQuiet(ctx: Ctx, c: Clause, s: State, scope: set<string>)
    requires Missing(c, scope) == {} && Trusted(c, scope) && Know(s.rows, scope)
    ensures var r := RunClause(ctx, c, s); Quiet(r) && (r.Ok? ==> Know(r.value.rows, ScopeAfter(c, scope)))
  {
    match c
    case Match(pattern, optional, w) =>
      NothingMissing(RefsOpt(w), scope + PatternVars(pattern));
      MatchQuiet(ctx, pattern, optional, w, s.rows, scope);
    case With(p, w) =>
      NothingMissing(ItemRefs(p.items), scope);
      NothingMissing(RefsOpt(w) + PageRefs(p), Projected(p, scope));
      ProjectionQuiet(ctx, p, w, s.rows, scope);
    case Unwind(e, name) =>
      NothingMissing(Refs(e), scope);
      UnwindQuiet(ctx, e, name, s.rows, scope);
    case Return(p) =>
      NothingMissing(ItemRefs(p.items), scope);
      NothingMissing(PageRefs(p), scope + AliasNames(p.items));
      ProjectionQuiet(ctx, p, None, s.rows, scope);
  }

  lemma {:induction false} ClausesQuiet(ctx: Ctx, cs: seq<Clause>, s: State, scope: set<string>)
    requires Accepts(cs, scope) && TrustedAll(cs, scope) && Know(s.rows, scope)
    ensures Quiet(RunClauses(ctx, cs, Ok(s)))
    decreases cs
  {
    if cs != [] {
      ClauseQuiet(ctx, cs[0], s, scope);
      var r := RunClause(ctx, cs[0], s);
      if r.Ok? { ClausesQuiet(ctx, cs[1..], r.value, ScopeAfter(cs[0], scope)); }
    }
  }

  /** Soundness: on any graph, with any parameters and functions, an accepted query of the fragment never
      stops with an unknown variable. */
  lemma AcceptedIsSafe(ctx: Ctx, cs: seq<Clause>)
    requires Accepts(cs, {}) && TrustedAll(cs, {})
    ensures Quiet(RunQuery(ctx, cs))
  {
    ClausesQuiet(ctx, cs, State([map[]], []), {});
  }
}
