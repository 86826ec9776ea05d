/** Flipping `(a)<-[r]-(b)` to `(b)-[r]->(a)` permutes the result rows and nothing else. */
module Canonicalize {
  import opened Prelude
  import opened Ast
  import opened Evaluation
  import opened GraphSpec
  import opened Matcher
  import opened Bindings

  // ---- the rewrite ------------------------------------------------------------------------

  /** Only a path of exactly one hop whose relationship points left is turned around. */
  function Flip(p: Path): Path {
    if |p.elements| == 3 && p.elements[1].RelEl? && p.elements[1].rel.direction.Incoming? then
      p.(elements := [p.elements[2], RelEl(p.elements[1].rel.(direction := Outgoing)), p.elements[0]])
    else p
  }

  // ---- one directed hop as a scan over all relationships ----------------------------------------

  function Near(g: GraphState, dir: Direction, r: nat): nat {
    if r !in g.rels then 0 else if dir.Incoming? then g.rels[r].end else g.rels[r].start
  }

  function Far(g: GraphState, dir: Direction, r: nat): nat {
    if r !in g.rels then 0 else if dir.Incoming? then g.rels[r].start else g.rels[r].end
  }

  function Chain(row: Row, x: Option<string>, n: nat, rv: Option<string>, r: nat, y: Option<string>,
          m: nat): Option<Row> {
    match BindVar(row, x, NodeRef(n))
    case None => None
    case Some(r0) =>
      match BindVar(r0, rv, RelRef(r))
      case None => None
      case Some(r1) => BindVar(r1, y, NodeRef(m))
  }

  function StartBinding(row: Row, x: Option<string>, n: nat): Row {
    if BindVar(row, x, NodeRef(n)).Some? then BindVar(row, x, NodeRef(n)).value else row
  }

  /** The row relationship `r` gives rise to, if any, when the hop is read from `x` to `y`. */
  function Emitted(ctx: Ctx, x: NodePattern, rp: RelPattern, y: NodePattern, row: Row, r: nat): Option<Row> {
    var n, m := Near(ctx.g, rp.direction, r), Far(ctx.g, rp.direction, r);
    if NodeMatches(ctx, x, n, row) == Ok(true)
       && AddRel(ctx, rp.types, EntriesOf(rp.properties), r, m) == Ok(true)
       && NodeMatches(ctx, y, m, StartBinding(row, x.variable, n)) == Ok(true)
    then Chain(row, x.variable, n, rp.variable, r, y.variable, m)
    else None
  }

  function EmitFn(ctx: Ctx, x: NodePattern, rp: RelPattern, y: NodePattern, row: Row): nat -> Option<Row> {
    (r: nat) => Emitted(ctx, x, rp, y, row, r)
  }

  /** `[f(r) for r in rs if f(r) is not None]`. */
  function Collect(f: nat -> Option<Row>, rs: seq<nat>): seq<Row> {
    if rs == [] then []
    else (if f(rs[0]).Some? then [f(rs[0]).value] else []) + Collect(f, rs[1..])
  }

  function NearIs(g: GraphState, dir: Direction, n: nat): nat -> bool {
    (r: nat) => r in g.rels && Near(g, dir, r) == n
  }

  function NearIn(g: GraphState, dir: Direction, ns: seq<nat>): nat -> bool {
    (r: nat) => r in g.rels && Near(g, dir, r) in ns
  }

  // ---- the fixed-length candidate loop --------------------------------------------------------------

  function PairOf(g: GraphState, dir: Direction): nat -> (nat, nat) {
    (r: nat) => (r, Far(g, dir, r))
  }

  function AddOk(ctx: Ctx, rp: RelPattern): nat -> bool {
    (r: nat) => AddRel(ctx, rp.types, EntriesOf(rp.properties), r, Far(ctx.g, rp.direction, r)) == Ok(true)
  }

  function CandOf(g: GraphState, dir: Direction): nat -> Cand {
    (r: nat) => Cand(RelRef(r), Far(g, dir, r))
  }

  lemma {:induction false} DirectedLoop(ctx: Ctx, rp: RelPattern, rs: seq<nat>, seen: set<nat>)
    requires !rp.direction.Both?
    requires RelLoop(ctx, rp.types, rp.direction, EntriesOf(rp.properties), Map(PairOf(ctx.g, rp.direction), rs),
             seen).Ok?
    ensures RelLoop(ctx, rp.types, rp.direction, EntriesOf(rp.properties), Map(PairOf(ctx.g, rp.direction), rs),
            seen).value
            == Map(CandOf(ctx.g, rp.direction), Filter(AddOk(ctx, rp), rs))
    decreases |rs|
  {
    if rs != [] {
      var pairs := Map(PairOf(ctx.g, rp.direction), rs);
      assert pairs[0] == (rs[0], Far(ctx.g, rp.direction, rs[0]));
      assert pairs[1..] == Map(PairOf(ctx.g, rp.direction), rs[1..]);
      if !TypeOk(ctx.g, rp.types, rs[0]) {
        DirectedLoop(ctx, rp, rs[1..], seen);
      } else {
        DirectedLoop(ctx, rp, rs[1..], seen + {rs[0]});
        CandsCons(ctx.g, rp.direction, rs[0], Filter(AddOk(ctx, rp), rs[1..]));
        EmptyPrefix(Map(CandOf(ctx.g, rp.direction), Filter(AddOk(ctx, rp), rs[1..])));
      }
    }
  }

  lemma CandsCons(g: GraphState, dir: Direction, r: nat, rs: seq<nat>)
    ensures Map(CandOf(g, dir), [r] + rs) == [Cand(RelRef(r), Far(g, dir, r))] + Map(CandOf(g, dir), rs)
  {
    MapAppend(CandOf(g, dir), [r], rs);
    assert Map(CandOf(g, dir), [r]) == [Cand(RelRef(r), Far(g, dir, r))];
  }

  lemma EmptyPrefix<T>(xs: seq<T>)
    ensures [] + xs == xs
  {
  }

  lemma DirectedPairs(ctx: Ctx, rp: RelPattern, n: nat)
    requires !rp.direction.Both?
    ensures HopPairs(ctx, rp.types, rp.direction, n) ==
            Map(PairOf(ctx.g, rp.direction), TypedRels(ctx.g, rp.direction, n, SingleType(rp.types)))
  {
    var rs := TypedRels(ctx.g, rp.direction, n, SingleType(rp.types));
    if rp.direction.Incoming? {
      assert Map(PairOf(ctx.g, rp.direction), rs) == Map(StartOf(ctx.g), rs);
    } else {
      assert Map(PairOf(ctx.g, rp.direction), rs) == Map(EndOf(ctx.g), rs);
    }
  }

  function TypedRels(g: GraphState, dir: Direction, n: nat, typ: string): seq<nat> {
    if dir.Incoming? then InRels(g, n, typ) else OutRels(g, n, typ)
  }

  lemma TypedRelsAreNear(g: GraphState, dir: Direction, n: nat, typ: string)
    requires Consistent(g) && !dir.Both?
    ensures TypedRels(g, dir, n, typ) == Filter(HasType(g, typ), Filter(NearIs(g, dir, n), g.relIds))
  {
    AdjacencyAnswers(g, n, typ);
    if dir.Incoming? {
      FilterExt(NearIs(g, dir, n), EndsAt(g.rels, n), g.relIds);
    } else {
      FilterExt(NearIs(g, dir, n), StartsAt(g.rels, n), g.relIds);
    }
  }

  /** Filtering by the single type first changes nothing: the loop checks types anyway. */
  lemma TypeCheckedAnyway(ctx: Ctx, rp: RelPattern, rs: seq<nat>)
    ensures Filter(AddOk(ctx, rp), Filter(HasType(ctx.g, SingleType(rp.types)), rs)) == Filter(AddOk(ctx, rp), rs)
  {
    forall r | r in rs ensures AddOk(ctx, rp)(r) ==> HasType(ctx.g, SingleType(rp.types))(r) {
      if |rp.types| == 1 && AddOk(ctx, rp)(r) { assert TypeOk(ctx.g, rp.types, r); }
    }
    FilterFilter(HasType(ctx.g, SingleType(rp.types)), AddOk(ctx, rp), AddOk(ctx, rp), rs);
  }

  /** The candidates of a directed hop from `n`: the matching relationships at `n`, in creation order. */
  lemma DirectedCands(ctx: Ctx, rp: RelPattern, n: nat)
    requires Consistent(ctx.g) && !rp.direction.Both? && !rp.variableLength
    requires CandidateRels(ctx, rp, n).Ok?
    ensures CandidateRels(ctx, rp, n).value ==
            Map(CandOf(ctx.g, rp.direction),
                Filter(AddOk(ctx, rp), Filter(NearIs(ctx.g, rp.direction, n), ctx.g.relIds)))
  {
    var typed := TypedRels(ctx.g, rp.direction, n, SingleType(rp.types));
    TypedRelsAreNear(ctx.g, rp.direction, n, SingleType(rp.types));
    DirectedPairs(ctx, rp, n);
    DirectedLoop(ctx, rp, typed, {});
    TypeCheckedAnyway(ctx, rp, Filter(NearIs(ctx.g, rp.direction, n), ctx.g.relIds));
  }

  // ---- one start node ----------------------------------------------------------------------------------

  lemma {:induction false} CollectFilter(f: nat -> Option<Row>, p: nat -> bool, rs: seq<nat>)
    requires forall r :: r in rs && f(r).Some? ==> p(r)
    ensures Collect(f, Filter(p, rs)) == Collect(f, rs)
  {
    if rs != [] {
      assert rs[0] in rs;
      CollectFilter(f, p, rs[1..]);
      assert [] + Collect(f, rs[1..]) == Collect(f, rs[1..]);
    }
  }

  lemma {:induction false} HopsCollect(h: Cand -> Result<seq<Row>>, f: nat -> Option<Row>, k: nat -> Cand, rs: seq<nat>)
    requires FlatMapR(h, Map(k, rs)).Ok?
    requires forall r :: r in rs && h(k(r)).Ok? ==> h(k(r)).value == if f(r).Some? then [f(r).value] else []
    ensures FlatMapR(h, Map(k, rs)).value == Collect(f, rs)
    decreases |rs|
  {
    if rs != [] {
      assert rs[0] in rs;
      assert Map(k, rs)[1..] == Map(k, rs[1..]);
      HopsCollect(h, f, k, rs[1..]);
    }
  }

  ghost predicate OneHop(p: Path, x: NodePattern, rp: RelPattern, y: NodePattern) {
    && p == Path(None, [NodeEl(x), RelEl(rp), NodeEl(y)])
    && !rp.direction.Both? && !rp.variableLength
  }

  lemma StartRows(ctx: Ctx, p: Path, x: NodePattern, rp: RelPattern, y: NodePattern, row: Row, n: nat)
    requires Consistent(ctx.g) && OneHop(p, x, rp, y)
    requires NodeMatches(ctx, x, n, row) == Ok(true)
    requires StartFn(ctx, false, p, row)(n).Ok?
    ensures StartFn(ctx, false, p, row)(n).value ==
            Collect(EmitFn(ctx, x, rp, y, row), Filter(NearIs(ctx.g, rp.direction, n), ctx.g.relIds))
  {
    var near, f := Filter(NearIs(ctx.g, rp.direction, n), ctx.g.relIds), EmitFn(ctx, x, rp, y, row);
    var r0 := BindVar(row, x.variable, NodeRef(n));
    if r0 == None {
      CollectNone(f, near);
    } else {
      var rest := p.elements[1..];
      assert rest == [RelEl(rp), NodeEl(y)];
      var es := Expand(ctx, false, rest, r0.value, n, false);
      assert FinishAll(None, es).Ok? ==> Map(Finish(None), es.value) == es.value;
      DirectedCands(ctx, rp, n);
      var ok := Filter(AddOk(ctx, rp), near);
      CollectFilter(f, AddOk(ctx, rp), near);
      forall r | r in ok && HopFn(ctx, false, rest, r0.value, false)(CandOf(ctx.g, rp.direction)(r)).Ok?
        ensures HopFn(ctx, false, rest, r0.value, false)(CandOf(ctx.g, rp.direction)(r)).value ==
                if f(r).Some? then [f(r).value] else []
      {
        HopEmits(ctx, x, rp, y, row, n, r);
      }
      HopsCollect(HopFn(ctx, false, rest, r0.value, false), f, CandOf(ctx.g, rp.direction), ok);
    }
  }

  lemma {:induction false} CollectNone(f: nat -> Option<Row>, rs: seq<nat>)
    requires forall r :: r in rs ==> f(r) == None
    ensures Collect(f, rs) == []
  {
    if rs != [] {
      assert rs[0] in rs;
      CollectNone(f, rs[1..]);
    }
  }

  lemma HopEmits(ctx: Ctx, x: NodePattern, rp: RelPattern, y: NodePattern, row: Row, n: nat, r: nat)
    requires BindVar(row, x.variable, NodeRef(n)).Some? && NodeMatches(ctx, x, n, row) == Ok(true)
    requires r in ctx.g.rels && Near(ctx.g, rp.direction, r) == n && AddOk(ctx, rp)(r)
    requires var r0 := BindVar(row, x.variable, NodeRef(n)).value;
             HopFn(ctx, false, [RelEl(rp), NodeEl(y)], r0, false)(CandOf(ctx.g, rp.direction)(r)).Ok?
    ensures var r0 := BindVar(row, x.variable, NodeRef(n)).value;
            HopFn(ctx, false, [RelEl(rp), NodeEl(y)], r0, false)(CandOf(ctx.g, rp.direction)(r)).value ==
            if Emitted(ctx, x, rp, y, row, r).Some? then [Emitted(ctx, x, rp, y, row, r).value] else []
  {
    var r0, c := BindVar(row, x.variable, NodeRef(n)).value, CandOf(ctx.g, rp.direction)(r);
    assert c == Cand(RelRef(r), Far(ctx.g, rp.direction, r));
    var hop := HopRow(ctx, false, rp, y, r0, false, c);
    assert hop == Ok(Emitted(ctx, x, rp, y, row, r));
    if hop.value.Some? {
      assert Expand(ctx, false, [RelEl(rp), NodeEl(y)][2..], hop.value.value, c.other, false) == Ok([hop.value.value]);
    }
  }

  // ---- all start nodes: nested scans swap up to order -----------------------------------------------------

  lemma {:induction false} CollectSplit(f: nat -> Option<Row>, p: nat -> bool, q: nat -> bool, both: nat -> bool,
          rs: seq<nat>)
    requires forall r :: r in rs ==> both(r) == (p(r) || q(r)) && !(p(r) && q(r))
    ensures multiset(Collect(f, Filter(both, rs))) ==
            multiset(Collect(f, Filter(p, rs))) + multiset(Collect(f, Filter(q, rs)))
  {
    if rs != [] {
      assert rs[0] in rs;
      CollectSplit(f, p, q, both, rs[1..]);
      CollectCons(f, rs[0], Filter(p, rs[1..]));
      CollectCons(f, rs[0], Filter(q, rs[1..]));
      CollectCons(f, rs[0], Filter(both, rs[1..]));
    }
  }

  lemma CollectCons(f: nat -> Option<Row>, r: nat, rs: seq<nat>)
    ensures multiset(Collect(f, [r] + rs)) ==
            (if f(r).Some? then multiset{f(r).value} else multiset{}) + multiset(Collect(f, rs))
  {
    assert ([r] + rs)[1..] == rs;
  }

  /** Looping over start nodes and then their relationships meets each relationship once. */
  lemma {:induction false} StartsCollect(
    h: nat -> Result<seq<Row>>, f: nat -> Option<Row>, g: GraphState, dir: Direction, ns: seq<nat>)
    requires Distinct(ns) && FlatMapR(h, ns).Ok?
    requires forall n :: n in ns && h(n).Ok? ==> h(n).value == Collect(f, Filter(NearIs(g, dir, n), g.relIds))
    ensures multiset(FlatMapR(h, ns).value) == multiset(Collect(f, Filter(NearIn(g, dir, ns), g.relIds)))
  {
    if ns == [] {
      FilterNone(NearIn(g, dir, ns), g.relIds);
    } else {
      assert ns[0] in ns;
      assert Distinct(ns[1..]);
      StartsCollect(h, f, g, dir, ns[1..]);
      assert ns[0] !in ns[1..];
      assert ns == [ns[0]] + ns[1..];
      CollectSplit(f, NearIs(g, dir, ns[0]), NearIn(g, dir, ns[1..]), NearIn(g, dir, ns), g.relIds);
    }
  }

  // ---- the start nodes themselves -----------------------------------------------------------------------------

  /** The iteration order of a label set is some enumeration of the set. */
  ghost predicate ScanOk(ctx: Ctx) {
    forall l :: Distinct(ctx.scan(l)) && forall n :: n in ctx.scan(l) <==> n in Indexed(ctx.g, l)
  }

  lemma IncreasingDistinct(xs: seq<nat>)
    requires Increasing(xs)
    ensures Distinct(xs)
  {
  }

  lemma {:induction false} FilterDistinct(p: nat -> bool, xs: seq<nat>)
    requires Distinct(xs)
    ensures Distinct(Filter(p, xs))
  {
    if xs != [] {
      assert Distinct(xs[1..]);
      FilterDistinct(p, xs[1..]);
      var ys := Filter(p, xs[1..]);
      forall j | 0 <= j < |ys| ensures xs[0] != ys[j] {
        assert ys[j] in xs[1..];
        var k :| 0 <= k < |xs[1..]| && xs[1..][k] == ys[j];
        assert xs[k + 1] == ys[j];
      }
    }
  }

  function TestOk(ctx: Ctx, x: NodePattern, row: Row): nat -> bool {
    (n: nat) => NodeMatches(ctx, x, n, row) == Ok(true)
  }

  lemma ScanNodes(ctx: Ctx, labels: seq<string>)
    requires Consistent(ctx.g) && ScanOk(ctx)
    ensures Distinct(Scan(ctx, labels))
    ensures forall n :: n in ctx.g.nodeIds && HasLabels(ctx.g, n, labels) ==> n in Scan(ctx, labels)
  {
    if labels == [] {
      IncreasingDistinct(ctx.g.nodeIds);
    } else {
      FilterDistinct(IsLive(ctx.g), ctx.scan(labels[0]));
      FilterDistinct(WithLabels(ctx.g, labels[1..]), Filter(IsLive(ctx.g), ctx.scan(labels[0])));
      forall n | n in ctx.g.nodeIds && HasLabels(ctx.g, n, labels) ensures n in Scan(ctx, labels) {
        assert LabelAt(ctx.g, labels[0], n);
        assert HasLabels(ctx.g, n, labels[1..]) by {
          assert forall i :: 0 <= i < |labels[1..]| ==> labels[1..][i] == labels[i + 1];
        }
      }
    }
  }

  /** A live node that the pattern accepts and its variable allows is a candidate; candidates are accepted. */
  lemma Candidates(ctx: Ctx, x: NodePattern, row: Row)
    requires Consistent(ctx.g) && ScanOk(ctx) && CandidateNodes(ctx, x, row).Ok?
    ensures var ns := CandidateNodes(ctx, x, row).value;
            && Distinct(ns)
            && (forall n :: n in ns ==> NodeMatches(ctx, x, n, row) == Ok(true))
            && (forall n ::
                  n in ctx.g.nodeIds && NodeMatches(ctx, x, n, row) == Ok(true)
                      && BindVar(row, x.variable, NodeRef(n)).Some?
                  ==> n in ns)
  {
    ScanNodes(ctx, x.labels);
    var pool := if x.variable.Some? && x.variable.value in row && row[x.variable.value].NodeRef?
                then [row[x.variable.value].node] else Scan(ctx, x.labels);
    FilterROk(NodeTest(ctx, x, row), TestOk(ctx, x, row), pool);
    FilterDistinct(TestOk(ctx, x, row), pool);
  }

  // ---- one path, one canonical scan --------------------------------------------------------------------------------

  lemma OneHopRows(ctx: Ctx, p: Path, x: NodePattern, rp: RelPattern, y: NodePattern, row: Row)
    requires Consistent(ctx.g) && NoDangling(ctx.g) && ScanOk(ctx)
    requires OneHop(p, x, rp, y) && MatchPath(ctx, false, p, row).Ok?
    ensures multiset(MatchPath(ctx, false, p, row).value) ==
            multiset(Collect(EmitFn(ctx, x, rp, y, row), ctx.g.relIds))
  {
    var f, ns := EmitFn(ctx, x, rp, y, row), CandidateNodes(ctx, x, row).value;
    Candidates(ctx, x, row);
    forall n | n in ns && StartFn(ctx, false, p, row)(n).Ok?
      ensures StartFn(ctx, false, p, row)(n).value == Collect(f, Filter(NearIs(ctx.g, rp.direction, n), ctx.g.relIds))
    {
      StartRows(ctx, p, x, rp, y, row, n);
    }
    StartsCollect(StartFn(ctx, false, p, row), f, ctx.g, rp.direction, ns);
    forall r | r in ctx.g.relIds && f(r).Some? ensures NearIn(ctx.g, rp.direction, ns)(r) {
      assert r in ctx.g.rels && Live(ctx.g, Near(ctx.g, rp.direction, r));
    }
    CollectFilter(f, NearIn(ctx.g, rp.direction, ns), ctx.g.relIds);
  }

  // ---- both readings emit the same rows -------------------------------------------------------------------

  function Two(row: Row, x: Option<string>, v: Value, y: Option<string>, w: Value): Option<Row> {
    match BindVar(row, x, v)
    case None => None
    case Some(r) => BindVar(r, y, w)
  }

  lemma TwoSwap(row: Row, x: Option<string>, v: Value, y: Option<string>, w: Value)
    requires !v.List? && !w.List?
    ensures Two(row, x, v, y, w) == Two(row, y, w, x, v)
  {
    var a, b := Two(row, x, v, y, w), Two(row, y, w, x, v);
    if a.Some? && b.Some? { assert a.value == b.value; }
  }

  /** Three bindings succeed together and give one row, whatever their order. */
  lemma ChainFlips(row: Row, x: Option<string>, n: nat, rv: Option<string>, r: nat, y: Option<string>, m: nat)
    ensures Chain(row, x, n, rv, r, y, m) == Chain(row, y, m, rv, r, x, n)
  {
    TwoSwap(row, x, NodeRef(n), rv, RelRef(r));
    TwoSwap(row, y, NodeRef(m), rv, RelRef(r));
    var bound := BindVar(row, rv, RelRef(r));
    if bound.Some? { TwoSwap(bound.value, x, NodeRef(n), y, NodeRef(m)); }
    FirstTwo(row, x, n, rv, r, y, m);
    FirstTwo(row, y, m, rv, r, x, n);
  }

  /** The first two bindings, read in the other order. */
  lemma FirstTwo(row: Row, x: Option<string>, n: nat, rv: Option<string>, r: nat, y: Option<string>, m: nat)
    requires Two(row, x, NodeRef(n), rv, RelRef(r)) == Two(row, rv, RelRef(r), x, NodeRef(n))
    ensures Chain(row, x, n, rv, r, y, m) ==
            match BindVar(row, rv, RelRef(r)) case None => None case Some(r0) => Two(r0, x, NodeRef(n), y, NodeRef(m))
  {
  }

  /** The properties of a node pattern do not depend on what the pattern itself binds. */
  ghost predicate OwnNamesUnused(np: NodePattern, row: Row, own: set<string>) {
    forall i, z :: 0 <= i < |EntriesOf(np.properties)| && z in Names(EntriesOf(np.properties)[i].1) ==>
                     z in row || z !in own
  }

  lemma {:induction false} PropsFrame(ctx: Ctx, es: Entries, n: nat, env: Row, env': Row)
    requires forall i :: 0 <= i < |es| ==> SameOn(Names(es[i].1), env, env')
    ensures PropsMatch(ctx, es, n, env) == PropsMatch(ctx, es, n, env')
  {
    if es != [] {
      EvalFrame(ctx, es[0].1, env, env');
      assert forall i :: 0 <= i < |es[1..]| ==> es[1..][i] == es[i + 1];
      PropsFrame(ctx, es[1..], n, env, env');
    }
  }

  lemma StartIrrelevant(ctx: Ctx, np: NodePattern, m: nat, row: Row, x: Option<string>, n: nat, own: set<string>)
    requires OwnNamesUnused(np, row, own) && OptSet(x) <= own
    ensures NodeMatches(ctx, np, m, StartBinding(row, x, n)) == NodeMatches(ctx, np, m, row)
  {
    var r0, es := StartBinding(row, x, n), EntriesOf(np.properties);
    if BindVar(row, x, NodeRef(n)).Some? { BindVarGrows(row, x, NodeRef(n)); }
    forall i | 0 <= i < |es| ensures SameOn(Names(es[i].1), ctx.params + r0, ctx.params + row) {
      forall z | z in Names(es[i].1)
        ensures (z in ctx.params + r0) == (z in ctx.params + row)
        ensures z in ctx.params + r0 ==> (ctx.params + r0)[z] == (ctx.params + row)[z]
      {
      }
    }
    PropsFrame(ctx, es, m, ctx.params + r0, ctx.params + row);
  }

  lemma EmittedFlips(ctx: Ctx, x: NodePattern, rp: RelPattern, y: NodePattern, row: Row, r: nat, own: set<string>)
    requires NoDangling(ctx.g) && r in ctx.g.relIds && r in ctx.g.rels
    requires rp.direction.Incoming?
    requires OwnNamesUnused(x, row, own) && OwnNamesUnused(y, row, own)
             && OptSet(x.variable) + OptSet(y.variable) <= own
    ensures Emitted(ctx, x, rp, y, row, r) == Emitted(ctx, y, rp.(direction := Outgoing), x, row, r)
  {
    var n, m := ctx.g.rels[r].end, ctx.g.rels[r].start;
    assert Live(ctx.g, n) && Live(ctx.g, m);
    StartIrrelevant(ctx, y, m, row, x.variable, n, own);
    StartIrrelevant(ctx, x, n, row, y.variable, m, own);
    ChainFlips(row, x.variable, n, rp.variable, r, y.variable, m);
  }

  lemma {:induction false} CollectExt(f: nat -> Option<Row>, g: nat -> Option<Row>, rs: seq<nat>)
    requires forall r :: r in rs ==> f(r) == g(r)
    ensures Collect(f, rs) == Collect(g, rs)
  {
    if rs != [] {
      assert rs[0] in rs;
      CollectExt(f, g, rs[1..]);
    }
  }

  // ---- neither reading raises when the property maps evaluate ---------------------------------------------

  ghost predicate EntriesEvaluate(ctx: Ctx, es: Entries, env: Row) {
    forall i :: 0 <= i < |es| ==> Eval(ctx, es[i].1, env).Ok?
  }

  lemma {:induction false} PropsEvaluate(ctx: Ctx, es: Entries, n: nat, env: Row)
    requires EntriesEvaluate(ctx, es, env)
    ensures PropsMatch(ctx, es, n, env).Ok?
  {
    if es != [] {
      assert Eval(ctx, es[0].1, env).Ok?;
      assert forall i :: 0 <= i < |es[1..]| ==> es[1..][i] == es[i + 1];
      PropsEvaluate(ctx, es[1..], n, env);
    }
  }

  lemma {:induction false} RelPropsEvaluate(ctx: Ctx, es: Entries, r: nat)
    requires EntriesEvaluate(ctx, es, ctx.params)
    ensures RelPropsMatch(ctx, es, r).Ok?
  {
    if es != [] {
      assert Eval(ctx, es[0].1, ctx.params).Ok?;
      assert forall i :: 0 <= i < |es[1..]| ==> es[1..][i] == es[i + 1];
      RelPropsEvaluate(ctx, es[1..], r);
    }
  }

  lemma {:induction false} LoopEvaluates(ctx: Ctx, rp: RelPattern, pairs: seq<(nat, nat)>, seen: set<nat>)
    requires EntriesEvaluate(ctx, EntriesOf(rp.properties), ctx.params)
    ensures RelLoop(ctx, rp.types, rp.direction, EntriesOf(rp.properties), pairs, seen).Ok?
    decreases pairs
  {
    if pairs != [] {
      RelPropsEvaluate(ctx, EntriesOf(rp.properties), pairs[0].0);
      LoopEvaluates(ctx, rp, pairs[1..], seen);
      LoopEvaluates(ctx, rp, pairs[1..], seen + {pairs[0].0});
    }
  }

  /** The property maps of a one-hop path evaluate before anything is matched. */
  ghost predicate HopEvaluates(ctx: Ctx, x: NodePattern, rp: RelPattern, y: NodePattern, row: Row) {
    && EntriesEvaluate(ctx, EntriesOf(x.properties), ctx.params + row)
    && EntriesEvaluate(ctx, EntriesOf(y.properties), ctx.params + row)
    && EntriesEvaluate(ctx, EntriesOf(rp.properties), ctx.params)
  }

  lemma HopNeverRaises(ctx: Ctx, x: NodePattern, rp: RelPattern, y: NodePattern, row: Row, own: set<string>, n: nat,
          c: Cand)
    requires HopEvaluates(ctx, x, rp, y, row) && OwnNamesUnused(y, row, own) && OptSet(x.variable) <= own
    requires BindVar(row, x.variable, NodeRef(n)).Some?
    ensures HopFn(ctx, false, [RelEl(rp), NodeEl(y)], BindVar(row, x.variable, NodeRef(n)).value, false)(c).Ok?
  {
    var r0 := BindVar(row, x.variable, NodeRef(n)).value;
    StartIrrelevant(ctx, y, c.other, row, x.variable, n, own);
    PropsEvaluate(ctx, EntriesOf(y.properties), c.other, ctx.params + row);
    var hop := HopRow(ctx, false, rp, y, r0, false, c);
    if hop.value.Some? {
      assert Expand(ctx, false, [RelEl(rp), NodeEl(y)][2..], hop.value.value, c.other, false) == Ok([hop.value.value]);
    }
  }

  lemma StartEvaluates(ctx: Ctx, p: Path, x: NodePattern, rp: RelPattern, y: NodePattern, row: Row, own: set<string>,
          n: nat)
    requires OneHop(p, x, rp, y) && HopEvaluates(ctx, x, rp, y, row)
    requires OwnNamesUnused(y, row, own) && OptSet(x.variable) <= own
    ensures StartFn(ctx, false, p, row)(n).Ok?
  {
    var r0 := BindVar(row, x.variable, NodeRef(n));
    if r0.Some? {
      var rest := p.elements[1..];
      assert rest == [RelEl(rp), NodeEl(y)];
      LoopEvaluates(ctx, rp, HopPairs(ctx, rp.types, rp.direction, n), {});
      var cands, h := CandidateRels(ctx, rp, n).value, HopFn(ctx, false, rest, r0.value, false);
      forall c | c in cands ensures h(c).Ok? {
        HopNeverRaises(ctx, x, rp, y, row, own, n, c);
      }
      FlatMapOk(h, cands);
    }
  }

  lemma PathEvaluates(ctx: Ctx, p: Path, x: NodePattern, rp: RelPattern, y: NodePattern, row: Row, own: set<string>)
    requires OneHop(p, x, rp, y) && HopEvaluates(ctx, x, rp, y, row)
    requires OwnNamesUnused(y, row, own) && OptSet(x.variable) <= own
    ensures MatchPath(ctx, false, p, row).Ok?
  {
    var pool := if x.variable.Some? && x.variable.value in row && row[x.variable.value].NodeRef?
                then [row[x.variable.value].node] else Scan(ctx, x.labels);
    forall n | n in pool ensures NodeTest(ctx, x, row)(n).Ok? {
      PropsEvaluate(ctx, EntriesOf(x.properties), n, ctx.params + row);
    }
    FilterROk(NodeTest(ctx, x, row), TestOk(ctx, x, row), pool);
    var ns := CandidateNodes(ctx, x, row).value;
    forall n | n in ns ensures StartFn(ctx, false, p, row)(n).Ok? {
      StartEvaluates(ctx, p, x, rp, y, row, own, n);
    }
    FlatMapOk(StartFn(ctx, false, p, row), ns);
  }

  // ---- the theorem ----------------------------------------------------------------------------------------

  ghost predicate FlipSafe(x: NodePattern, rp: RelPattern, y: NodePattern, row: Row) {
    var own := OptSet(x.variable) + OptSet(rp.variable) + OptSet(y.variable);
    && rp.direction.Incoming? && !rp.variableLength
    && OwnNamesUnused(x, row, own) && OwnNamesUnused(y, row, own)
  }

  /** For every graph and every input row, an unnamed fixed-length hop read backwards gives the same rows. */
  lemma FlipKeepsRows(ctx: Ctx, x: NodePattern, rp: RelPattern, y: NodePattern, row: Row)
    requires Consistent(ctx.g) && NoDangling(ctx.g) && ScanOk(ctx) && FlipSafe(x, rp, y, row)
    requires var p := Path(None, [NodeEl(x), RelEl(rp), NodeEl(y)]);
             MatchPath(ctx, false, p, row).Ok? && MatchPath(ctx, false, Flip(p), row).Ok?
    ensures var p := Path(None, [NodeEl(x), RelEl(rp), NodeEl(y)]);
            multiset(MatchPath(ctx, false, p, row).value) == multiset(MatchPath(ctx, false, Flip(p), row).value)
  {
    var p := Path(None, [NodeEl(x), RelEl(rp), NodeEl(y)]);
    var own := OptSet(x.variable) + OptSet(rp.variable) + OptSet(y.variable);
    var rp' := rp.(direction := Outgoing);
    assert Flip(p) == Path(None, [NodeEl(y), RelEl(rp'), NodeEl(x)]);
    OneHopRows(ctx, p, x, rp, y, row);
    OneHopRows(ctx, Flip(p), y, rp', x, row);
    forall r | r in ctx.g.relIds ensures EmitFn(ctx, x, rp, y, row)(r) == EmitFn(ctx, y, rp', x, row)(r) {
      EmittedFlips(ctx, x, rp, y, row, r, own);
    }
    CollectExt(EmitFn(ctx, x, rp, y, row), EmitFn(ctx, y, rp', x, row), ctx.g.relIds);
  }

  /** When the property maps evaluate, neither reading can raise. */
  lemma FlipNeverRaises(ctx: Ctx, x: NodePattern, rp: RelPattern, y: NodePattern, row: Row)
    requires FlipSafe(x, rp, y, row) && HopEvaluates(ctx, x, rp, y, row)
    ensures var p := Path(None, [NodeEl(x), RelEl(rp), NodeEl(y)]);
            MatchPath(ctx, false, p, row).Ok? && MatchPath(ctx, false, Flip(p), row).Ok?
  {
    var own := OptSet(x.variable) + OptSet(rp.variable) + OptSet(y.variable);
    PathEvaluates(ctx, Path(None, [NodeEl(x), RelEl(rp), NodeEl(y)]), x, rp, y, row, own);
    PathEvaluates(ctx, Flip(Path(None, [NodeEl(x), RelEl(rp), NodeEl(y)])), y, rp.(direction := Outgoing), x, row, own);
  }
}
