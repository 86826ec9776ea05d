/** What the executor's pattern matching computes, as functions of the graph, the pattern and the row. */
module Matcher {
  import opened Prelude
  import opened Ast
  import opened Evaluation
  import opened GraphSpec

  /** The reserved row key under which a named path is collected. */
  const PATH_ACC := "__path_acc__"

  // ---- nodes -----------------------------------------------------------------------------

  /** Property maps on nodes: a null on either side never matches. */
  function PropsMatch(ctx: Ctx, entries: Entries, n: nat, env: Row): Result<bool> {
    if entries == [] then Ok(true)
    else
      match Eval(ctx, entries[0].1, env)
      case Err(e) => Err(e)
      case Ok(expected) =>
        var actual := NodeProp(ctx.g, n, entries[0].0);
        if expected == Null || actual == Null || !PyEq(expected, actual) then Ok(false)
        else PropsMatch(ctx, entries[1..], n, env)
  }

  predicate HasLabels(g: GraphState, n: nat, labels: seq<string>) {
    forall i :: 0 <= i < |labels| ==> labels[i] in LabelsOf(g, n)
  }

  function NodeMatches(ctx: Ctx, np: NodePattern, n: nat, row: Row): Result<bool> {
    if !HasLabels(ctx.g, n, np.labels) then Ok(false)
    else PropsMatch(ctx, EntriesOf(np.properties), n, ctx.params + row)
  }

  function NodeTest(ctx: Ctx, np: NodePattern, row: Row): nat -> Result<bool> {
    (n: nat) => NodeMatches(ctx, np, n, row)
  }

  function IsLive(g: GraphState): nat -> bool {
    (n: nat) => n in g.nodeIds
  }

  function WithLabels(g: GraphState, labels: seq<string>): nat -> bool {
    (n: nat) => HasLabels(g, n, labels)
  }

  /** The nodes a pattern is tried on when its variable is not bound to a node. */
  function Scan(ctx: Ctx, labels: seq<string>): seq<nat> {
    if labels == [] then ctx.g.nodeIds
    else Filter(WithLabels(ctx.g, labels[1..]), Filter(IsLive(ctx.g), ctx.scan(labels[0])))
  }

  function CandidateNodes(ctx: Ctx, np: NodePattern, row: Row): Result<seq<nat>> {
    if np.variable.Some? && np.variable.value in row && row[np.variable.value] == Null then Ok([])
    else if np.variable.Some? && np.variable.value in row && row[np.variable.value].NodeRef? then
      FilterR(NodeTest(ctx, np, row), [row[np.variable.value].node])
    else FilterR(NodeTest(ctx, np, row), Scan(ctx, np.labels))
  }

  // ---- relationships ---------------------------------------------------------------------

  datatype Cand = Cand(value: Value, other: nat)

  predicate TypeOk(g: GraphState, types: seq<string>, r: nat) {
    r in g.rels && (types == [] || g.rels[r].typ in types)
  }

  /** Property maps on relationships: evaluated without the row, and null matches a missing property. */
  function RelPropsMatch(ctx: Ctx, entries: Entries, r: nat): Result<bool> {
    if entries == [] then Ok(true)
    else
      match Eval(ctx, entries[0].1, ctx.params)
      case Err(e) => Err(e)
      case Ok(expected) =>
        if !PyEq(RelProp(ctx.g, r, entries[0].0), expected) then Ok(false)
        else RelPropsMatch(ctx, entries[1..], r)
  }

  function AddRel(ctx: Ctx, types: seq<string>, entries: Entries, r: nat, other: nat): Result<bool> {
    if !TypeOk(ctx.g, types, r) || other !in ctx.g.nodeIds then Ok(false)
    else RelPropsMatch(ctx, entries, r)
  }

  /** One pass over (relationship, other end) pairs; `seen` only matters for undirected patterns. */
  function RelLoop(
    ctx: Ctx, types: seq<string>, dir: Direction, entries: Entries, pairs: seq<(nat, nat)>, seen: set<nat>)
    : Result<seq<Cand>>
    decreases pairs
  {
    if pairs == [] then Ok([])
    else
      var (r, other) := pairs[0];
      if !TypeOk(ctx.g, types, r) || (dir.Both? && r in seen) then RelLoop(ctx, types, dir, entries, pairs[1..], seen)
      else
        match AddRel(ctx, types, entries, r, other)
        case Err(e) => Err(e)
        case Ok(keep) =>
          Append(if keep then [Cand(RelRef(r), other)] else [],
                 RelLoop(ctx, types, dir, entries, pairs[1..], seen + {r}))
  }

  function SingleType(types: seq<string>): string {
    if |types| == 1 then types[0] else ""
  }

  function EndOf(g: GraphState): nat -> (nat, nat) {
    r => (r, if r in g.rels then g.rels[r].end else 0)
  }

  function StartOf(g: GraphState): nat -> (nat, nat) {
    r => (r, if r in g.rels then g.rels[r].start else 0)
  }

  function HopPairs(ctx: Ctx, types: seq<string>, dir: Direction, cur: nat): seq<(nat, nat)> {
    (if dir.Incoming? then [] else Map(EndOf(ctx.g), OutRels(ctx.g, cur, SingleType(types)))) +
    (if dir.Outgoing? then [] else Map(StartOf(ctx.g), InRels(ctx.g, cur, SingleType(types))))
  }

  // ---- variable-length relationships -------------------------------------------------------

  datatype Walk = Walk(rels: seq<nat>, end: nat)

  function OtherEnd(g: GraphState, r: nat, n: nat): nat
    requires r in g.rels
  {
    if g.rels[r].start == n then g.rels[r].end else g.rels[r].start
  }

  function StepRels(g: GraphState, dir: Direction, n: nat): seq<nat> {
    (if dir.Incoming? then [] else OutRels(g, n, "")) + (if dir.Outgoing? then [] else InRels(g, n, ""))
  }

  /** The walks one relationship longer than `w`, in the order the queue receives them. */
  function Grow(g: GraphState, types: seq<string>, w: Walk, cands: seq<nat>, seen: set<nat>): seq<Walk> {
    if cands == [] then []
    else
      var r := cands[0];
      if r in w.rels || r in seen || !TypeOk(g, types, r) then Grow(g, types, w, cands[1..], seen)
      else
        (if OtherEnd(g, r, w.end) in g.nodeIds then [Walk(w.rels + [r], OtherEnd(g, r, w.end))] else []) +
        Grow(g, types, w, cands[1..], seen + {r})
  }

  function Children(g: GraphState, types: seq<string>, dir: Direction, w: Walk): seq<Walk> {
    Grow(g, types, w, StepRels(g, dir, w.end), {})
  }

  function NextLevel(g: GraphState, types: seq<string>, dir: Direction, ws: seq<Walk>): seq<Walk> {
    if ws == [] then [] else Children(g, types, dir, ws[0]) + NextLevel(g, types, dir, ws[1..])
  }

  /** All walks of depth `d`, `d + 1`, ... up to `max`, level by level, keeping the levels from `min` on. */
  function Levels(
    g: GraphState, types: seq<string>, dir: Direction, ws: seq<Walk>, d: nat, min: nat, max: nat): seq<Walk>
    decreases max - d
  {
    (if d >= min then ws else []) +
    (if d >= max then [] else Levels(g, types, dir, NextLevel(g, types, dir, ws), d + 1, min, max))
  }

  function MinHops(rp: RelPattern): nat {
    if rp.minHops.Some? then rp.minHops.value else 1
  }

  function MaxHops(rp: RelPattern): nat {
    if rp.maxHops.Some? then rp.maxHops.value else 10
  }

  function VarWalks(g: GraphState, types: seq<string>, dir: Direction, start: nat, min: nat, max: nat): seq<Walk> {
    Levels(g, types, dir, [Walk([], start)], 0, min, max)
  }

  function ToRelRef(): nat -> Value {
    (r: nat) => RelRef(r)
  }

  function WalkCand(w: Walk): Cand {
    Cand(List(Map(ToRelRef(), w.rels)), w.end)
  }

  function CandidateRels(ctx: Ctx, rp: RelPattern, cur: nat): Result<seq<Cand>> {
    if rp.variableLength then
      Ok(Map(WalkCand, VarWalks(ctx.g, rp.types, rp.direction, cur, MinHops(rp), MaxHops(rp))))
    else
      RelLoop(ctx, rp.types, rp.direction, EntriesOf(rp.properties), HopPairs(ctx, rp.types, rp.direction, cur), {})
  }

  // ---- rows ------------------------------------------------------------------------------------

  /** Binds a variable, or fails when it already stands for another object. A list of relationships is
      never identical to an earlier one. */
  function BindVar(row: Row, x: Option<string>, v: Value): Option<Row> {
    if x == None then Some(row)
    else if x.value in row && (v.List? || row[x.value] != v) then None
    else Some(row[x.value := v])
  }

  function Track(track: bool, row: Row, vs: seq<Value>): Row {
    if track && PATH_ACC in row && row[PATH_ACC].List? then row[PATH_ACC := List(row[PATH_ACC].items + vs)] else row
  }

  /** An element's own WHERE, tested where the reference matcher tests it; the executor ignores it. */
  function TestInline(ctx: Ctx, inl: bool, w: Option<Expr>, row: Row): Result<bool> {
    if inl then TestWhere(ctx, w, row) else Ok(true)
  }

  /** Turns a failed test into "skip". */
  function Guard(t: Result<bool>, row: Row): Result<Option<Row>> {
    match t
    case Err(e) => Err(e)
    case Ok(ok) => Ok(if ok then Some(row) else None)
  }

  function StartRow(ctx: Ctx, inl: bool, np: NodePattern, named: bool, row: Row, n: nat): Result<Option<Row>> {
    match BindVar(row, np.variable, NodeRef(n))
    case None => Ok(None)
    case Some(r) =>
      var r' := if named then r[PATH_ACC := List([NodeRef(n)])] else r;
      Guard(TestInline(ctx, inl, np.where, r'), r')
  }

  /** The row after one hop: the relationship is bound first, then the node. */
  function HopRow(ctx: Ctx, inl: bool, rp: RelPattern, np: NodePattern, row: Row, track: bool, c: Cand)
    : Result<Option<Row>>
  {
    match NodeMatches(ctx, np, c.other, row)
    case Err(e) => Err(e)
    case Ok(false) => Ok(None)
    case Ok(true) =>
      match BindVar(row, rp.variable, c.value)
      case None => Ok(None)
      case Some(r1) =>
        match TestInline(ctx, inl, rp.where, r1)
        case Err(e) => Err(e)
        case Ok(false) => Ok(None)
        case Ok(true) =>
          match BindVar(r1, np.variable, NodeRef(c.other))
          case None => Ok(None)
          case Some(r2) =>
            Guard(TestInline(ctx, inl, np.where, r2), Track(track, r2, [c.value, NodeRef(c.other)]))
  }

  // ---- paths -------------------------------------------------------------------------------------

  function Expand(ctx: Ctx, inl: bool, elems: seq<Element>, row: Row, cur: nat, track: bool): Result<seq<Row>>
    decreases |elems|, 1
  {
    if |elems| < 2 then Ok([row])
    else if !elems[0].RelEl? || !elems[1].NodeEl? then Err(BadPath)
    else
      match CandidateRels(ctx, elems[0].rel, cur)
      case Err(e) => Err(e)
      case Ok(cands) => FlatMapR(HopFn(ctx, inl, elems, row, track), cands)
  }

  function HopFn(ctx: Ctx, inl: bool, elems: seq<Element>, row: Row, track: bool): Cand -> Result<seq<Row>>
    requires |elems| >= 2 && elems[0].RelEl? && elems[1].NodeEl?
    decreases |elems|, 0
  {
    (c: Cand) =>
      match HopRow(ctx, inl, elems[0].rel, elems[1].node, row, track, c)
      case Err(e) => Err(e)
      case Ok(None) => Ok([])
      case Ok(Some(r)) => Expand(ctx, inl, elems[2..], r, c.other, track)
  }

  function Finish(x: Option<string>): Row -> Row {
    (row: Row) =>
      if x == None then row
      else (row - {PATH_ACC})[x.value := if PATH_ACC in row then row[PATH_ACC] else List([])]
  }

  function FinishAll(x: Option<string>, rows: Result<seq<Row>>): Result<seq<Row>> {
    match rows
    case Err(e) => Err(e)
    case Ok(rs) => Ok(Map(Finish(x), rs))
  }

  function StartFn(ctx: Ctx, inl: bool, path: Path, row: Row): nat -> Result<seq<Row>>
    requires path.elements != [] && path.elements[0].NodeEl?
  {
    (n: nat) =>
      match StartRow(ctx, inl, path.elements[0].node, path.variable.Some?, row, n)
      case Err(e) => Err(e)
      case Ok(None) => Ok([])
      case Ok(Some(r)) =>
        FinishAll(path.variable, Expand(ctx, inl, path.elements[1..], r, n, path.variable.Some?))
  }

  function MatchPath(ctx: Ctx, inl: bool, path: Path, row: Row): Result<seq<Row>> {
    if path.elements == [] then Ok([row])
    else if !path.elements[0].NodeEl? then Err(BadPath)
    else
      match CandidateNodes(ctx, path.elements[0].node, row)
      case Err(e) => Err(e)
      case Ok(ns) => FlatMapR(StartFn(ctx, inl, path, row), ns)
  }

  function PathFn(ctx: Ctx, inl: bool, path: Path): Row -> Result<seq<Row>> {
    row => MatchPath(ctx, inl, path, row)
  }

  function MatchPaths(ctx: Ctx, inl: bool, pattern: Pattern, rows: Result<seq<Row>>): Result<seq<Row>> {
    if pattern == [] then rows
    else MatchPaths(ctx, inl, pattern[1..], Then(rows, PathFn(ctx, inl, pattern[0])))
  }

  function MatchPattern(ctx: Ctx, inl: bool, pattern: Pattern, row: Row): Result<seq<Row>> {
    MatchPaths(ctx, inl, pattern, Ok([row]))
  }

  /** Once a path has failed, the rest of the pattern cannot undo it. */
  lemma {:induction false} PathsErr(ctx: Ctx, inl: bool, pattern: Pattern, e: Error)
    ensures MatchPaths(ctx, inl, pattern, Err(e)) == Err(e)
  {
    if pattern != [] { PathsErr(ctx, inl, pattern[1..], e); }
  }

  // ---- clauses -------------------------------------------------------------------------------------

  function Over(row: Row): Row -> Row {
    m => row + m
  }

  function NullRow(row: Row, vars: set<string>): Row {
    (map v | v in vars :: Null) + row
  }

  /** The rows of one input row that pass WHERE. */
  function Survivors(ctx: Ctx, inl: bool, pattern: Pattern, w: Option<Expr>, row: Row): Result<seq<Row>> {
    match MatchPattern(ctx, inl, pattern, row)
    case Err(e) => Err(e)
    case Ok(ms) => FilterR(Passes(ctx, w), Map(Over(row), ms))
  }

  function Block(ctx: Ctx, inl: bool, pattern: Pattern, optional: bool, w: Option<Expr>, row: Row): Result<seq<Row>> {
    match Survivors(ctx, inl, pattern, w, row)
    case Err(e) => Err(e)
    case Ok(rs) => Ok(if rs == [] && optional then [NullRow(row, PatternVars(pattern))] else rs)
  }

  function BlockFn(ctx: Ctx, inl: bool, pattern: Pattern, optional: bool, w: Option<Expr>): Row -> Result<seq<Row>> {
    row => Block(ctx, inl, pattern, optional, w, row)
  }

  function MatchClause(
    ctx: Ctx, inl: bool, pattern: Pattern, optional: bool, w: Option<Expr>, rows: seq<Row>): Result<seq<Row>>
  {
    FlatMapR(BlockFn(ctx, inl, pattern, optional, w), rows)
  }
}
