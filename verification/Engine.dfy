/** The executor: its loops, each proved to compute what the matcher and query functions say. */
module Engine {
  import opened Prelude
  import opened Ast
  import opened Evaluation
  import opened GraphStore
  import M = Matcher
  import opened Ordering
  import Q = Query

  /** A queue entry of the variable-length search. */
  datatype Pending = Pending(node: nat, depth: nat, path: seq<nat>, visited: set<nat>)

  function ToWalk(): Pending -> M.Walk {
    (p: Pending) => M.Walk(p.path, p.node)
  }

  class Engine {
    const graph: Graph
    const params: Row
    const lib: (string, seq<Value>) -> Option<Value>
    const scan: string -> seq<nat>
    const text: Expr -> string

    constructor (graph: Graph, params: Row, lib: (string, seq<Value>) -> Option<Value>, scan: string -> seq<nat>,
                 text: Expr -> string)
      ensures this.graph == graph && this.params == params && this.lib == lib && this.scan == scan && this.text == text
    {
      this.graph, this.params, this.lib, this.scan, this.text := graph, params, lib, scan, text;
    }

    function Context(): Ctx
      reads graph
    {
      Ctx(graph.State(), params, lib, scan, text)
    }

    // ---- nodes ---------------------------------------------------------------------------

    method NodeMatches(np: NodePattern, n: nat, row: Row) returns (r: Result<bool>)
      ensures r == M.NodeMatches(Context(), np, n, row)
    {
      if !M.HasLabels(graph.State(), n, np.labels) {
        return Ok(false);
      }
      var es, env := EntriesOf(np.properties), params + row;
      var i := 0;
      while i < |es|
        invariant 0 <= i <= |es|
        invariant M.PropsMatch(Context(), es[i..], n, env) == M.PropsMatch(Context(), es, n, env)
      {
        var expected := Eval(Context(), es[i].1, env);
        if expected.Err? {
          return Err(expected.error);
        }
        var actual := NodeProp(graph.State(), n, es[i].0);
        if expected.value == Null || actual == Null || !PyEq(expected.value, actual) {
          return Ok(false);
        }
        i := i + 1;
      }
      return Ok(true);
    }

    method AcceptedNodes(np: NodePattern, row: Row, pool: seq<nat>) returns (r: Result<seq<nat>>)
      ensures r == FilterR(M.NodeTest(Context(), np, row), pool)
    {
      var out: seq<nat> := [];
      ghost var p := M.NodeTest(Context(), np, row);
      SiftStart(p, pool);
      for i := 0 to |pool|
        invariant Sifting(p, pool, i, out)
      {
        SiftStep(p, pool, i, out);
        var ok := NodeMatches(np, pool[i], row);
        if ok.Err? {
          return Err(ok.error);
        }
        if ok.value {
          out := out + [pool[i]];
        }
      }
      SiftEnd(p, pool, out);
      return Ok(out);
    }

    method CandidateNodes(np: NodePattern, row: Row) returns (r: Result<seq<nat>>)
      ensures r == M.CandidateNodes(Context(), np, row)
    {
      if np.variable.Some? && np.variable.value in row {
        var bound := row[np.variable.value];
        if bound == Null {
          return Ok([]);
        }
        if bound.NodeRef? {
          r := AcceptedNodes(np, row, [bound.node]);
          return;
        }
      }
      r := AcceptedNodes(np, row, M.Scan(Context(), np.labels));
    }

    // ---- relationships ---------------------------------------------------------------------

    method RelAccepted(rp: RelPattern, r: nat, other: nat) returns (ok: Result<bool>)
      ensures ok == M.AddRel(Context(), rp.types, EntriesOf(rp.properties), r, other)
    {
      if !M.TypeOk(graph.State(), rp.types, r) || other !in graph.nodeIds {
        return Ok(false);
      }
      var es := EntriesOf(rp.properties);
      var i := 0;
      while i < |es|
        invariant 0 <= i <= |es|
        invariant M.RelPropsMatch(Context(), es[i..], r) == M.RelPropsMatch(Context(), es, r)
      {
        var expected := Eval(Context(), es[i].1, params);
        if expected.Err? {
          return Err(expected.error);
        }
        if !PyEq(RelProp(graph.State(), r, es[i].0), expected.value) {
          return Ok(false);
        }
        i := i + 1;
      }
      return Ok(true);
    }

    method HopCandidates(rp: RelPattern, pairs: seq<(nat, nat)>) returns (r: Result<seq<M.Cand>>)
      ensures r == M.RelLoop(Context(), rp.types, rp.direction, EntriesOf(rp.properties), pairs, {})
    {
      var out: seq<M.Cand>, seen: set<nat> := [], {};
      ghost var ctx, es := Context(), EntriesOf(rp.properties);
      AppendNothing(out, M.RelLoop(ctx, rp.types, rp.direction, es, pairs, {}));
      var i := 0;
      while i < |pairs|
        invariant 0 <= i <= |pairs|
        invariant Append(out, M.RelLoop(ctx, rp.types, rp.direction, es, pairs[i..], seen)) ==
                  M.RelLoop(ctx, rp.types, rp.direction, es, pairs, {})
      {
        var (rel, other) := pairs[i];
        if M.TypeOk(graph.State(), rp.types, rel) && !(rp.direction.Both? && rel in seen) {
          var ok := RelAccepted(rp, rel, other);
          if ok.Err? {
            return Err(ok.error);
          }
          AppendTwice(out, if ok.value then [M.Cand(RelRef(rel), other)] else [],
                      M.RelLoop(ctx, rp.types, rp.direction, es, pairs[i + 1..], seen + {rel}));
          seen := seen + {rel};
          if ok.value {
            out := out + [M.Cand(RelRef(rel), other)];
          } else {
            assert out + [] == out;
          }
        }
        i := i + 1;
      }
      AppendNothing(out, M.RelLoop(ctx, rp.types, rp.direction, es, [], seen));
      return Ok(out);
    }

    method CandidateRels(rp: RelPattern, cur: nat) returns (r: Result<seq<M.Cand>>)
      ensures r == M.CandidateRels(Context(), rp, cur)
    {
      if rp.variableLength {
        var walks := VarExpand(rp.types, rp.direction, cur, M.MinHops(rp), M.MaxHops(rp));
        return Ok(Map(M.WalkCand, walks));
      }
      r := HopCandidates(rp, M.HopPairs(Context(), rp.types, rp.direction, cur));
    }

    // ---- the variable-length search -----------------------------------------------------------

    method Successors(types: seq<string>, dir: Direction, p: Pending) returns (next: seq<Pending>)
      requires Queued(p, p.depth)
      ensures Map(ToWalk(), next) == M.Children(graph.State(), types, dir, M.Walk(p.path, p.node))
      ensures forall q :: q in next ==> Queued(q, p.depth + 1)
    {
      var g := graph.State();
      var cands := M.StepRels(g, dir, p.node);
      next := [];
      var seen: set<nat> := {};
      ghost var w, goal := M.Walk(p.path, p.node), M.Children(g, types, dir, M.Walk(p.path, p.node));
      GrowStart(g, types, dir, w);
      for i := 0 to |cands|
        invariant Growing(g, types, w, cands, i, seen, next, goal)
        invariant forall q :: q in next ==> Queued(q, p.depth + 1)
      {
        var r := cands[i];
        if r in p.visited || r in seen || !M.TypeOk(g, types, r) {
          GrowSkips(g, types, w, cands, i, seen, next, goal);
        } else {
          var other := M.OtherEnd(g, r, p.node);
          var q := Pending(other, p.depth + 1, p.path + [r], p.visited + {r});
          QueuedStep(p, r, other);
          GrowTakes(g, types, w, cands, i, seen, next, goal, q);
          seen := seen + {r};
          if other in g.nodeIds {
            next := next + [q];
          }
        }
      }
      GrowEnd(g, types, w, cands, seen, next, goal);
    }

    /** What one entry of the queue contributes: its own walk, if long enough, and its successors, if allowed. */
    method Visit(types: seq<string>, dir: Direction, p: Pending, min: nat, max: nat)
      returns (found: seq<M.Walk>, more: seq<Pending>)
      requires Queued(p, p.depth)
      ensures found == Emitted(p, min)
      ensures p.depth < max ==> Map(ToWalk(), more) == M.Children(graph.State(), types, dir, ToWalk()(p))
      ensures p.depth >= max ==> more == []
      ensures AllQueued(more, p.depth + 1)
    {
      found, more := [], [];
      if p.depth >= min {
        if p.depth == 0 && min == 0 {
          found := [M.Walk([], p.node)];
        } else if p.path != [] {
          found := [M.Walk(p.path, p.node)];
        }
      }
      if p.depth < max {
        more := Successors(types, dir, p);
      }
    }

    /** Breadth-first over a queue of partial walks; every entry carries the relationships already used. */
    method VarExpand(types: seq<string>, dir: Direction, start: nat, min: nat, max: nat) returns (results: seq<M.Walk>)
      ensures results == M.VarWalks(graph.State(), types, dir, start, min, max)
    {
      results := [];
      var queue := [Pending(start, 0, [], {})];
      ghost var g, goal := graph.State(), M.VarWalks(graph.State(), types, dir, start, min, max);
      ghost var d: nat, level: seq<Pending>, next: seq<Pending> := 0, queue, [];
      LevelFromStart(g, types, dir, start, min, max);
      while queue != []
        invariant Searching(g, types, dir, min, max, goal, results, queue, level, next, d)
        decreases max - d, |level|
      {
        if level == [] {
          TurnLevel(g, types, dir, min, max, goal, results, queue, next, d);
          d, level, next := d + 1, next, [];
        }
        FirstIsQueued(g, types, dir, min, max, goal, results, queue, level, next, d);
        var found, more := Visit(types, dir, queue[0], min, max);
        if d < max {
          VisitInner(g, types, dir, min, max, goal, results, queue, level, next, d, more);
          next := next + more;
        } else {
          VisitLast(g, types, dir, min, max, goal, results, queue, level, next, d);
          assert queue[1..] + [] == queue[1..];
        }
        results, queue, level := results + found, queue[1..] + more, level[1..];
      }
      NothingLeft(g, types, dir, d, min, max);
      assert results + [] == results;
    }

    // ---- paths and patterns ---------------------------------------------------------------------

    /** One candidate of `_expand`: the row it leads to, or nothing when a variable stands for another object. */
    method Hop(rp: RelPattern, np: NodePattern, row: Row, track: bool, c: M.Cand) returns (r: Result<Option<Row>>)
      ensures r == M.HopRow(Context(), false, rp, np, row, track, c)
    {
      var fits := NodeMatches(np, c.other, row);
      if fits.Err? {
        return Err(fits.error);
      }
      if !fits.value {
        return Ok(None);
      }
      var r1 := row;
      if rp.variable.Some? {
        if rp.variable.value in r1 && (c.value.List? || r1[rp.variable.value] != c.value) {
          return Ok(None);
        }
        r1 := r1[rp.variable.value := c.value];
      }
      if np.variable.Some? {
        if np.variable.value in r1 && r1[np.variable.value] != NodeRef(c.other) {
          return Ok(None);
        }
        r1 := r1[np.variable.value := NodeRef(c.other)];
      }
      if track && M.PATH_ACC in r1 && r1[M.PATH_ACC].List? {
        r1 := r1[M.PATH_ACC := List(r1[M.PATH_ACC].items + [c.value, NodeRef(c.other)])];
      }
      return Ok(Some(r1));
    }

    method Expand(elems: seq<Element>, row: Row, cur: nat, track: bool) returns (r: Result<seq<Row>>)
      ensures r == M.Expand(Context(), false, elems, row, cur, track)
      decreases |elems|
    {
      if |elems| < 2 {
        return Ok([row]);
      }
      if !elems[0].RelEl? || !elems[1].NodeEl? {
        return Err(BadPath);
      }
      var cands := CandidateRels(elems[0].rel, cur);
      if cands.Err? {
        return Err(cands.error);
      }
      var out: seq<Row> := [];
      ghost var f := M.HopFn(Context(), false, elems, row, track);
      LoopStart(f, cands.value);
      for i := 0 to |cands.value|
        invariant Looping(f, cands.value, i, out)
      {
        LoopStep(f, cands.value, i, out);
        var hop := Hop(elems[0].rel, elems[1].node, row, track, cands.value[i]);
        if hop.Err? {
          return Err(hop.error);
        }
        if hop.value.Some? {
          var deeper := Expand(elems[2..], hop.value.value, cands.value[i].other, track);
          if deeper.Err? {
            return Err(deeper.error);
          }
          out := out + deeper.value;
        } else {
          assert out + [] == out;
        }
      }
      LoopEnd(f, cands.value, out);
      return Ok(out);
    }

    method MatchPath(path: Path, row: Row) returns (r: Result<seq<Row>>)
      ensures r == M.MatchPath(Context(), false, path, row)
    {
      if path.elements == [] {
        return Ok([row]);
      }
      if !path.elements[0].NodeEl? {
        return Err(BadPath);
      }
      var first := path.elements[0].node;
      var nodes := CandidateNodes(first, row);
      if nodes.Err? {
        return Err(nodes.error);
      }
      var rows: seq<Row> := [];
      ghost var f := M.StartFn(Context(), false, path, row);
      LoopStart(f, nodes.value);
      for i := 0 to |nodes.value|
        invariant Looping(f, nodes.value, i, rows)
      {
        LoopStep(f, nodes.value, i, rows);
        var node := nodes.value[i];
        if first.variable.Some? && first.variable.value in row && row[first.variable.value] != NodeRef(node) {
          assert rows + [] == rows;
          continue;
        }
        var r0 := row;
        if first.variable.Some? {
          r0 := r0[first.variable.value := NodeRef(node)];
        }
        if path.variable.Some? {
          r0 := r0[M.PATH_ACC := List([NodeRef(node)])];
        }
        var expanded := Expand(path.elements[1..], r0, node, path.variable.Some?);
        if expanded.Err? {
          return Err(expanded.error);
        }
        var finished := FinishRows(path.variable, expanded.value);
        rows := rows + finished;
      }
      LoopEnd(f, nodes.value, rows);
      return Ok(rows);
    }

    /** A named path takes over the objects collected under the reserved key. */
    method FinishRows(x: Option<string>, rows: seq<Row>) returns (out: seq<Row>)
      ensures out == Map(M.Finish(x), rows)
    {
      out := rows;
      if x.Some? {
        for i := 0 to |rows|
          invariant |out| == |rows|
          invariant forall j :: 0 <= j < i ==> out[j] == M.Finish(x)(rows[j])
          invariant forall j :: i <= j < |rows| ==> out[j] == rows[j]
        {
          var acc := if M.PATH_ACC in out[i] then out[i][M.PATH_ACC] else List([]);
          out := out[i := (out[i] - {M.PATH_ACC})[x.value := acc]];
        }
      }
    }

    method MatchPattern(pattern: Pattern, row: Row) returns (r: Result<seq<Row>>)
      ensures r == M.MatchPattern(Context(), false, pattern, row)
    {
      var results: seq<Row> := [row];
      ghost var ctx := Context();
      assert pattern[0..] == pattern;
      for k := 0 to |pattern|
        invariant M.MatchPaths(ctx, false, pattern[k..], Ok(results)) == M.MatchPattern(ctx, false, pattern, row)
      {
        var next: seq<Row> := [];
        ghost var f := M.PathFn(ctx, false, pattern[k]);
        assert pattern[k..][0] == pattern[k] && pattern[k..][1..] == pattern[k + 1..];
        LoopStart(f, results);
        for i := 0 to |results|
          invariant Looping(f, results, i, next)
        {
          LoopStep(f, results, i, next);
          var found := MatchPath(pattern[k], results[i]);
          if found.Err? {
            M.PathsErr(ctx, false, pattern[k + 1..], found.error);
            return Err(found.error);
          }
          next := next + found.value;
        }
        LoopEnd(f, results, next);
        results := next;
      }
      return Ok(results);
    }

    // ---- clauses ---------------------------------------------------------------------------------

    method Keeps(w: Option<Expr>, row: Row) returns (ok: Result<bool>)
      ensures ok == TestWhere(Context(), w, row)
    {
      if w.None? {
        return Ok(true);
      }
      var v := Eval(Context(), w.value, params + row);
      return if v.Err? then Err(v.error) else Ok(Truth(v.value) == Some(true));
    }

    method KeepRows(w: Option<Expr>, rows: seq<Row>) returns (r: Result<seq<Row>>)
      ensures r == FilterR(Passes(Context(), w), rows)
    {
      var out: seq<Row> := [];
      ghost var p := Passes(Context(), w);
      SiftStart(p, rows);
      for i := 0 to |rows|
        invariant Sifting(p, rows, i, out)
      {
        SiftStep(p, rows, i, out);
        var ok := Keeps(w, rows[i]);
        if ok.Err? {
          return Err(ok.error);
        }
        if ok.value {
          out := out + [rows[i]];
        }
      }
      SiftEnd(p, rows, out);
      return Ok(out);
    }

    method Match(pattern: Pattern, optional: bool, w: Option<Expr>, rows: seq<Row>) returns (r: Result<seq<Row>>)
      ensures r == M.MatchClause(Context(), false, pattern, optional, w, rows)
    {
      var out: seq<Row> := [];
      ghost var f := M.BlockFn(Context(), false, pattern, optional, w);
      LoopStart(f, rows);
      for i := 0 to |rows|
        invariant Looping(f, rows, i, out)
      {
        LoopStep(f, rows, i, out);
        var matches := MatchPattern(pattern, rows[i]);
        if matches.Err? {
          return Err(matches.error);
        }
        var survivors := KeepRows(w, Map(M.Over(rows[i]), matches.value));
        if survivors.Err? {
          return Err(survivors.error);
        }
        if survivors.value != [] || !optional {
          out := out + survivors.value;
        } else {
          out := out + [M.NullRow(rows[i], PatternVars(pattern))];
        }
      }
      LoopEnd(f, rows, out);
      return Ok(out);
    }

    method Unwind(e: Expr, name: string, rows: seq<Row>) returns (r: Result<seq<Row>>)
      ensures r == FlatMapR(Q.UnwindFn(Context(), e, name), rows)
    {
      var out: seq<Row> := [];
      ghost var f := Q.UnwindFn(Context(), e, name);
      LoopStart(f, rows);
      for i := 0 to |rows|
        invariant Looping(f, rows, i, out)
      {
        LoopStep(f, rows, i, out);
        var v := Eval(Context(), e, params + rows[i]);
        if v.Err? {
          return Err(v.error);
        }
        if v.value == Null {
          assert out + [] == out;
          continue;
        }
        var more := BindItems(rows[i], name, if v.value.List? then v.value.items else [v.value]);
        out := out + more;
      }
      LoopEnd(f, rows, out);
      return Ok(out);
    }

    method BindItems(row: Row, name: string, items: seq<Value>) returns (out: seq<Row>)
      ensures out == Map(Q.Bind(row, name), items)
      ensures |items| == 1 ==> out == [row[name := items[0]]]
    {
      out := [];
      for j := 0 to |items|
        invariant |out| == j && forall k :: 0 <= k < j ==> out[k] == row[name := items[k]]
      {
        out := out + [row[name := items[j]]];
      }
    }

    // ---- projection --------------------------------------------------------------------------------

    method ProjectRow(items: seq<Item>, row: Row) returns (r: Result<Row>)
      ensures r == Q.ProjectRow(Context(), items, row, map[])
    {
      var acc: Row := map[];
      assert items[0..] == items;
      for i := 0 to |items|
        invariant Q.ProjectRow(Context(), items[i..], row, acc) == Q.ProjectRow(Context(), items, row, map[])
      {
        assert items[i..][0] == items[i] && items[i..][1..] == items[i + 1..];
        if items[i].Star? {
          acc := acc + row;
        } else {
          var v := Eval(Context(), items[i].expr, params + row);
          if v.Err? {
            return Err(v.error);
          }
          acc := acc[Q.ProjName(Context(), items[i].expr, items[i].alias) := v.value];
        }
      }
      return Ok(acc);
    }

    method PairRows(items: seq<Item>, rows: seq<Row>) returns (r: Result<seq<Q.Paired>>)
      ensures r == FlatMapR(Q.PairFn(Context(), items), rows)
    {
      var paired: seq<Q.Paired> := [];
      ghost var f := Q.PairFn(Context(), items);
      LoopStart(f, rows);
      for i := 0 to |rows|
        invariant Looping(f, rows, i, paired)
      {
        LoopStep(f, rows, i, paired);
        var projected := ProjectRow(items, rows[i]);
        if projected.Err? {
          return Err(projected.error);
        }
        paired := paired + [Q.Paired(rows[i], projected.value)];
      }
      LoopEnd(f, rows, paired);
      return Ok(paired);
    }

    /** DISTINCT keeps the first pair of every key. */
    method UniquePairs(paired: seq<Q.Paired>) returns (uniq: seq<Q.Paired>)
      ensures uniq == Q.Dedupe(Q.PairKey(), paired, {})
    {
      var seen: set<Row> := {};
      uniq := [];
      ghost var goal := Q.Dedupe(Q.PairKey(), paired, {});
      assert paired[0..] == paired;
      for i := 0 to |paired|
        invariant uniq + Q.Dedupe(Q.PairKey(), paired[i..], seen) == goal
      {
        assert paired[i..][0] == paired[i] && paired[i..][1..] == paired[i + 1..];
        var key := Q.RowKey(paired[i].proj);
        if key !in seen {
          ConcatAssoc(uniq, [paired[i]], Q.Dedupe(Q.PairKey(), paired[i + 1..], seen + {key}));
          seen := seen + {key};
          uniq := uniq + [paired[i]];
        }
      }
    }

    method KeepPairs(w: Option<Expr>, paired: seq<Q.Paired>) returns (r: Result<seq<Q.Paired>>)
      ensures r == FilterR(Q.ProjPasses(Context(), w), paired)
    {
      var out: seq<Q.Paired> := [];
      ghost var p := Q.ProjPasses(Context(), w);
      SiftStart(p, paired);
      for i := 0 to |paired|
        invariant Sifting(p, paired, i, out)
      {
        SiftStep(p, paired, i, out);
        var ok := Keeps(w, paired[i].proj);
        if ok.Err? {
          return Err(ok.error);
        }
        if ok.value {
          out := out + [paired[i]];
        }
      }
      SiftEnd(p, paired, out);
      return Ok(out);
    }

    /** One ORDER BY pass: rows with a null key are set aside, the others are sorted. */
    method OrderPaired(o: Ordered, paired: seq<Q.Paired>) returns (r: Result<seq<Q.Paired>>)
      ensures r == Q.OrderPaired(Context(), o, paired)
    {
      var nulls: seq<Q.Paired>, rest: seq<Q.Paired> := [], [];
      ghost var ctx, key := Context(), Q.SortKey(Context(), o);
      assert paired[0..] == paired;
      for i := 0 to |paired|
        invariant Parted(key, paired, i, nulls, rest)
        invariant Q.SortValuesOk(ctx, o, paired[i..]) == Q.SortValuesOk(ctx, o, paired)
      {
        assert paired[i..][0] == paired[i] && paired[i..][1..] == paired[i + 1..];
        var v := Eval(Context(), o.expr, params + (paired[i].orig + paired[i].proj));
        if v.Err? {
          return Err(v.error);
        }
        PartedStep(key, paired, i, nulls, rest);
        if v.value == Null {
          nulls := nulls + [paired[i]];
        } else {
          rest := rest + [paired[i]];
        }
      }
      PartedEnd(key, paired, nulls, rest);
      if |rest| >= 2 && !Comparable(Q.SortKey(Context(), o), rest) {
        return Err(RuntimeFailure);
      }
      rest := StableSort(o.desc, Q.SortKey(Context(), o), rest);
      return Ok(if PutNullsFirst(o) then nulls + rest else rest + nulls);
    }

    /** `for ordered in reversed(order)`. */
    method OrderPairs(os: seq<Ordered>, paired: seq<Q.Paired>) returns (r: Result<seq<Q.Paired>>)
      ensures r == Q.OrderAll(Context(), os, paired)
    {
      var sorted := paired;
      var k := |os|;
      while k > 0
        invariant 0 <= k <= |os|
        invariant Q.OrderAll(Context(), os[k..], paired) == Ok(sorted)
      {
        k := k - 1;
        assert os[k..][0] == os[k] && os[k..][1..] == os[k + 1..];
        var pass := OrderPaired(os[k], sorted);
        if pass.Err? {
          OrderStops(Context(), os, k, paired, pass.error);
          return Err(pass.error);
        }
        sorted := pass.value;
      }
      assert os[0..] == os;
      return Ok(sorted);
    }

    method Project(proj: Projection, w: Option<Expr>, rows: seq<Row>) returns (r: Result<seq<Row>>)
      ensures r == Q.Project(Context(), proj, w, rows)
    {
      var pairs := PairRows(proj.items, rows);
      if pairs.Err? {
        return Err(pairs.error);
      }
      var paired := pairs.value;
      if proj.distinct {
        paired := UniquePairs(paired);
      }
      var kept := KeepPairs(w, paired);
      if kept.Err? {
        return Err(kept.error);
      }
      var sorted := OrderPairs(proj.order, kept.value);
      if sorted.Err? {
        return Err(sorted.error);
      }
      var projected := Map(Q.ProjOf(), sorted.value);
      if proj.skip.Some? {
        var n := Q.Count(Context(), proj.skip.value);
        if n.Err? {
          return Err(n.error);
        }
        projected := PySlice(projected, n.value, |projected|);
      }
      if proj.limit.Some? {
        var n := Q.Count(Context(), proj.limit.value);
        if n.Err? {
          return Err(n.error);
        }
        projected := PySlice(projected, 0, n.value);
      }
      return Ok(projected);
    }

    // ---- aggregation -------------------------------------------------------------------------------

    /** The dictionary of groups, in first-seen order of their keys. */
    method GroupRows(keys: seq<Expr>, rows: seq<Row>) returns (r: Result<seq<Q.Group>>)
      ensures r == Q.GroupRows(Context(), keys, rows, [])
    {
      var groups: seq<Q.Group> := [];
      assert rows[0..] == rows;
      for i := 0 to |rows|
        invariant Q.GroupRows(Context(), keys, rows[i..], groups) == Q.GroupRows(Context(), keys, rows, [])
      {
        assert rows[i..][0] == rows[i] && rows[i..][1..] == rows[i + 1..];
        var vs := EvalAll(Context(), keys, params + rows[i]);
        if vs.Err? {
          return Err(vs.error);
        }
        groups := Q.AddToGroup(groups, Q.FreezeAll(vs.value), rows[i]);
      }
      return Ok(groups);
    }

    /** One result row: aggregates of the group, and the parts of its key in turn. */
    method GroupResult(items: seq<Item>, key: seq<Value>, rows: seq<Row>) returns (r: Result<seq<Value>>)
      ensures r == Q.GroupResult(Context(), items, key, rows)
    {
      var out: seq<Value>, k := [], 0;
      ghost var ctx, goal := Context(), Q.GroupResult(Context(), items, key, rows);
      assert items[0..] == items && key[0..] == key;
      AppendNothing([], goal);
      for i := 0 to |items|
        invariant k <= |key|
        invariant Append(out, Q.GroupResult(ctx, items[i..], key[k..], rows)) == goal
      {
        assert items[i..][0] == items[i] && items[i..][1..] == items[i + 1..];
        if Q.IsAgg(items[i]) {
          var v := Q.EvalAgg(Context(), items[i], rows);
          if v.Err? {
            return Err(v.error);
          }
          AppendTwice(out, [v.value], Q.GroupResult(ctx, items[i + 1..], key[k..], rows));
          out := out + [v.value];
        } else if k == |key| {
          return Err(RuntimeFailure);
        } else {
          assert key[k..][0] == key[k] && key[k..][1..] == key[k + 1..];
          AppendTwice(out, [key[k]], Q.GroupResult(ctx, items[i + 1..], key[k + 1..], rows));
          out, k := out + [key[k]], k + 1;
        }
      }
      AppendNothing(out, goal);
      return Ok(out);
    }

    method GroupResults(items: seq<Item>, groups: seq<Q.Group>) returns (r: Result<seq<seq<Value>>>)
      ensures r == Q.GroupResults(Context(), items, groups)
    {
      var out: seq<seq<Value>> := [];
      ghost var ctx, goal := Context(), Q.GroupResults(Context(), items, groups);
      assert groups[0..] == groups;
      AppendNothing([], goal);
      for i := 0 to |groups|
        invariant Append(out, Q.GroupResults(ctx, items, groups[i..])) == goal
      {
        assert groups[i..][0] == groups[i] && groups[i..][1..] == groups[i + 1..];
        var one := GroupResult(items, groups[i].key, groups[i].rows);
        if one.Err? {
          return Err(one.error);
        }
        AppendTwice(out, [one.value], Q.GroupResults(ctx, items, groups[i + 1..]));
        out := out + [one.value];
      }
      AppendNothing(out, goal);
      return Ok(out);
    }

    method AggregateReturn(proj: Projection, rows: seq<Row>) returns (r: Result<seq<seq<Value>>>)
      ensures r == Q.AggregateReturn(Context(), proj, rows)
    {
      var groups := GroupRows(Q.KeyExprs(proj.items), rows);
      if groups.Err? {
        return Err(groups.error);
      }
      var results := GroupResults(proj.items, groups.value);
      if results.Err? || (proj.order == [] && proj.skip == None && proj.limit == None && !proj.distinct) {
        return results;
      }
      var cols := Q.Columns(Context(), proj.items);
      var again := Project(proj.(items := Q.ColumnItems(cols)), None, Map(Q.ZipFn(cols), results.value));
      return if again.Err? then Err(again.error) else Ok(Map(Q.UnzipFn(cols), again.value));
    }

    method ProjectOrAggregate(proj: Projection, w: Option<Expr>, rows: seq<Row>) returns (r: Result<seq<Row>>)
      ensures r == Q.ProjectOrAggregate(Context(), proj, w, rows)
    {
      if Q.HasAgg(proj.items) {
        var results := AggregateReturn(proj, rows);
        if results.Err? {
          return Err(results.error);
        }
        r := KeepRows(w, Map(Q.ZipFn(Q.Columns(Context(), proj.items)), results.value));
      } else {
        r := Project(proj, w, rows);
      }
    }

    // ---- whole queries -------------------------------------------------------------------------------

    method RunQuery(clauses: seq<Clause>) returns (r: Result<seq<Row>>)
      ensures r == Q.RunQuery(Context(), clauses)
    {
      var rows: seq<Row>, result: seq<Row> := [map[]], [];
      ghost var ctx := Context();
      assert clauses[0..] == clauses;
      for i := 0 to |clauses|
        invariant Q.RunClauses(ctx, clauses[i..], Ok(Q.State(rows, result))) ==
                  Q.RunClauses(ctx, clauses, Ok(Q.State([map[]], [])))
      {
        assert clauses[i..][0] == clauses[i] && clauses[i..][1..] == clauses[i + 1..];
        var after := RunClause(clauses[i], rows);
        if after.Err? {
          return Err(after.error);
        }
        if clauses[i].Return? {
          rows, result := [], after.value;
        } else {
          rows := after.value;
        }
      }
      return Ok(result);
    }

    method RunClause(clause: Clause, rows: seq<Row>) returns (r: Result<seq<Row>>)
      ensures forall before ::
                Q.RunClause(Context(), clause, Q.State(rows, before)) == AfterClause(clause, r, before)
    {
      match clause
      case Match(pattern, optional, w) => r := Match(pattern, optional, w, rows);
      case With(proj, w) => r := ProjectOrAggregate(proj, w, rows);
      case Unwind(e, name) => r := Unwind(e, name, rows);
      case Return(proj) => r := ProjectOrAggregate(proj, None, rows);
    }
  }

  /** A queue entry at depth `d`: its path has that many relationships, and they are the visited ones. */
  ghost predicate Queued(p: Pending, d: nat) {
    p.depth == d && |p.path| == d && p.visited == set r | r in p.path
  }

  lemma QueuedStep(p: Pending, r: nat, other: nat)
    requires Queued(p, p.depth)
    ensures Queued(Pending(other, p.depth + 1, p.path + [r], p.visited + {r}), p.depth + 1)
  {
  }

  /** The walks queued so far, then those of the remaining candidates, are the children of `w`. */
  ghost predicate Growing(g: GraphState, types: seq<string>, w: M.Walk, cands: seq<nat>, i: nat, seen: set<nat>,
                          next: seq<Pending>, goal: seq<M.Walk>) {
    i <= |cands| && Map(ToWalk(), next) + M.Grow(g, types, w, cands[i..], seen) == goal
  }

  lemma GrowStart(g: GraphState, types: seq<string>, dir: Direction, w: M.Walk)
    ensures Growing(g, types, w, M.StepRels(g, dir, w.end), 0, {}, [], M.Children(g, types, dir, w))
  {
    var cands := M.StepRels(g, dir, w.end);
    assert cands[0..] == cands;
    assert Map(ToWalk(), []) + M.Grow(g, types, w, cands, {}) == M.Grow(g, types, w, cands, {});
  }

  lemma GrowSkips(g: GraphState, types: seq<string>, w: M.Walk, cands: seq<nat>, i: nat, seen: set<nat>,
                  next: seq<Pending>, goal: seq<M.Walk>)
    requires i < |cands| && Growing(g, types, w, cands, i, seen, next, goal)
    requires cands[i] in w.rels || cands[i] in seen || !M.TypeOk(g, types, cands[i])
    ensures Growing(g, types, w, cands, i + 1, seen, next, goal)
  {
    assert cands[i..][0] == cands[i] && cands[i..][1..] == cands[i + 1..];
  }

  lemma GrowTakes(g: GraphState, types: seq<string>, w: M.Walk, cands: seq<nat>, i: nat, seen: set<nat>,
                  next: seq<Pending>, goal: seq<M.Walk>, q: Pending)
    requires i < |cands| && Growing(g, types, w, cands, i, seen, next, goal)
    requires cands[i] !in w.rels && cands[i] !in seen && M.TypeOk(g, types, cands[i])
    requires ToWalk()(q) == M.Walk(w.rels + [cands[i]], M.OtherEnd(g, cands[i], w.end))
    ensures Growing(g, types, w, cands, i + 1, seen + {cands[i]},
                    if q.node in g.nodeIds then next + [q] else next, goal)
  {
    assert cands[i..][0] == cands[i] && cands[i..][1..] == cands[i + 1..];
    var rest := M.Grow(g, types, w, cands[i + 1..], seen + {cands[i]});
    if q.node in g.nodeIds {
      MapSnoc(next, q);
      ConcatAssoc(Map(ToWalk(), next), [M.Walk(q.path, q.node)], rest);
    } else {
      assert [] + rest == rest;
    }
  }

  lemma GrowEnd(g: GraphState, types: seq<string>, w: M.Walk, cands: seq<nat>, seen: set<nat>,
                next: seq<Pending>, goal: seq<M.Walk>)
    requires Growing(g, types, w, cands, |cands|, seen, next, goal)
    ensures Map(ToWalk(), next) == goal
  {
    assert cands[|cands|..] == [];
    assert Map(ToWalk(), next) + [] == Map(ToWalk(), next);
  }

  /** A RETURN hands out its rows and leaves an empty table; any other clause replaces the table. */
  ghost function AfterClause(clause: Clause, r: Result<seq<Row>>, before: seq<Row>): Result<Q.State> {
    if r.Err? then Err(r.error)
    else Ok(if clause.Return? then Q.State([], r.value) else Q.State(r.value, before))
  }

  /** `nulls` and `rest` are the two parts of the first `i` rows. */
  ghost predicate Parted(
    key: Q.Paired -> Value, ps: seq<Q.Paired>, i: nat, nulls: seq<Q.Paired>, rest: seq<Q.Paired>)
  {
    i <= |ps| && nulls == Filter(NullKey(key), ps[..i]) && rest == Filter(RealKey(key), ps[..i])
  }

  lemma PartedStep(
    key: Q.Paired -> Value, ps: seq<Q.Paired>, i: nat, nulls: seq<Q.Paired>, rest: seq<Q.Paired>)
    requires Parted(key, ps, i, nulls, rest) && i < |ps|
    ensures if key(ps[i]) == Null then Parted(key, ps, i + 1, nulls + [ps[i]], rest)
            else Parted(key, ps, i + 1, nulls, rest + [ps[i]])
  {
    assert ps[..i + 1] == ps[..i] + [ps[i]];
    FilterConcat(NullKey(key), ps[..i], [ps[i]]);
    FilterConcat(RealKey(key), ps[..i], [ps[i]]);
  }

  lemma PartedEnd(key: Q.Paired -> Value, ps: seq<Q.Paired>, nulls: seq<Q.Paired>, rest: seq<Q.Paired>)
    requires Parted(key, ps, |ps|, nulls, rest)
    ensures nulls == Filter(NullKey(key), ps) && rest == Filter(RealKey(key), ps)
  {
    assert ps[..|ps|] == ps;
  }

  /** A pass that fails ends the whole ordering: the earlier keys are never reached. */
  lemma {:induction false} OrderStops(ctx: Ctx, os: seq<Ordered>, k: nat, ps: seq<Q.Paired>, e: Error)
    requires k <= |os| && Q.OrderAll(ctx, os[k..], ps) == Err(e)
    ensures Q.OrderAll(ctx, os, ps) == Err(e)
    decreases k
  {
    if k > 0 {
      assert os[k - 1..][1..] == os[k..];
      OrderStops(ctx, os, k - 1, ps, e);
    } else {
      assert os[0..] == os;
    }
  }

  // ---- what a half-finished level still owes -----------------------------------------------------

  lemma MapSnoc(ps: seq<Pending>, p: Pending)
    ensures Map(ToWalk(), ps + [p]) == Map(ToWalk(), ps) + [M.Walk(p.path, p.node)]
  {
  }

  lemma MapConcat(ps: seq<Pending>, qs: seq<Pending>)
    ensures Map(ToWalk(), ps + qs) == Map(ToWalk(), ps) + Map(ToWalk(), qs)
  {
  }

  /** With `level` still to visit at depth `d` and `next` already queued behind it. */
  ghost function Remaining(
    g: GraphState, types: seq<string>, dir: Direction, level: seq<Pending>, next: seq<Pending>, d: nat, min: nat,
    max: nat)
    : seq<M.Walk>
  {
    Owed(g, types, dir, Map(ToWalk(), level), Map(ToWalk(), next), d, min, max)
  }

  ghost function Owed(
    g: GraphState, types: seq<string>, dir: Direction, level: seq<M.Walk>, next: seq<M.Walk>, d: nat, min: nat,
    max: nat)
    : seq<M.Walk>
  {
    (if d >= min then level else []) +
    (if d >= max then [] else M.Levels(g, types, dir, next + M.NextLevel(g, types, dir, level), d + 1, min, max))
  }

  lemma LevelFromStart(g: GraphState, types: seq<string>, dir: Direction, start: nat, min: nat, max: nat)
    ensures [] + Remaining(g, types, dir, [Pending(start, 0, [], {})], [], 0, min, max) ==
            M.VarWalks(g, types, dir, start, min, max)
  {
    var level := [M.Walk([], start)];
    assert Map(ToWalk(), [Pending(start, 0, [], {})]) == level;
    assert Map(ToWalk(), []) + M.NextLevel(g, types, dir, level) == M.NextLevel(g, types, dir, level);
  }

  lemma NextIsLevel(g: GraphState, types: seq<string>, dir: Direction, next: seq<Pending>, d: nat, min: nat, max: nat)
    requires d < max
    ensures Remaining(g, types, dir, [], next, d, min, max) == Remaining(g, types, dir, next, [], d + 1, min, max)
  {
    var ws := Map(ToWalk(), next);
    assert ws + M.NextLevel(g, types, dir, Map(ToWalk(), [])) == ws;
    assert Map(ToWalk(), []) + M.NextLevel(g, types, dir, ws) == M.NextLevel(g, types, dir, ws);
  }

  lemma OneWalkOwed(
    g: GraphState, types: seq<string>, dir: Direction, w: M.Walk, rest: seq<M.Walk>, next: seq<M.Walk>, d: nat,
    min: nat, max: nat)
    requires d < max
    ensures Owed(g, types, dir, [w] + rest, next, d, min, max) ==
            (if d >= min then [w] else []) + Owed(g, types, dir, rest, next + M.Children(g, types, dir, w), d, min, max)
  {
    assert ([w] + rest)[1..] == rest;
    ConcatAssoc(next, M.Children(g, types, dir, w), M.NextLevel(g, types, dir, rest));
    ConcatAssoc([w], rest, M.Levels(g, types, dir, next + M.NextLevel(g, types, dir, [w] + rest), d + 1, min, max));
  }

  /** Visiting the first entry of the level emits it, if deep enough, and queues its successors. */
  lemma OneWalkDone(
    g: GraphState, types: seq<string>, dir: Direction, level: seq<Pending>, next: seq<Pending>, more: seq<Pending>,
    d: nat, min: nat, max: nat)
    requires d < max && level != []
    requires Map(ToWalk(), more) == M.Children(g, types, dir, ToWalk()(level[0]))
    ensures Remaining(g, types, dir, level, next, d, min, max) ==
            (if d >= min then [ToWalk()(level[0])] else []) +
                Remaining(g, types, dir, level[1..], next + more, d, min, max)
  {
    assert Map(ToWalk(), level) == [ToWalk()(level[0])] + Map(ToWalk(), level[1..]);
    MapConcat(next, more);
    OneWalkOwed(g, types, dir, ToWalk()(level[0]), Map(ToWalk(), level[1..]), Map(ToWalk(), next), d, min, max);
  }

  lemma LastWalkDone(g: GraphState, types: seq<string>, dir: Direction, level: seq<Pending>, d: nat, min: nat)
    requires level != []
    ensures Remaining(g, types, dir, level, [], d, min, d) ==
            (if d >= min then [ToWalk()(level[0])] else []) + Remaining(g, types, dir, level[1..], [], d, min, d)
  {
    assert Map(ToWalk(), level) == [ToWalk()(level[0])] + Map(ToWalk(), level[1..]);
  }

  lemma {:induction false} NoLevels(g: GraphState, types: seq<string>, dir: Direction, d: nat, min: nat, max: nat)
    ensures M.Levels(g, types, dir, [], d, min, max) == []
    decreases max - d
  {
    if d < max { NoLevels(g, types, dir, d + 1, min, max); }
  }

  lemma NothingLeft(g: GraphState, types: seq<string>, dir: Direction, d: nat, min: nat, max: nat)
    ensures Remaining(g, types, dir, [], [], d, min, max) == []
  {
    NoLevels(g, types, dir, d + 1, min, max);
    assert Map(ToWalk(), []) + M.NextLevel(g, types, dir, Map(ToWalk(), [])) == [];
  }

  // ---- the state of the search ---------------------------------------------------------------------

  /** The queue holds the rest of depth `d` and then the start of depth `d + 1`; what was found so far,
      followed by what those entries still lead to, is the answer. */
  ghost predicate Searching(
    g: GraphState, types: seq<string>, dir: Direction, min: nat, max: nat, goal: seq<M.Walk>,
    results: seq<M.Walk>, queue: seq<Pending>, level: seq<Pending>, next: seq<Pending>, d: nat)
  {
    && queue == level + next && d <= max && (next != [] ==> d < max)
    && AllQueued(level, d) && AllQueued(next, d + 1)
    && results + Remaining(g, types, dir, level, next, d, min, max) == goal
  }

  ghost predicate AllQueued(ps: seq<Pending>, d: nat) {
    forall p :: p in ps ==> Queued(p, d)
  }

  ghost function Emitted(p: Pending, min: nat): seq<M.Walk> {
    if p.depth >= min then [M.Walk(p.path, p.node)] else []
  }

  lemma TurnLevel(
    g: GraphState, types: seq<string>, dir: Direction, min: nat, max: nat, goal: seq<M.Walk>,
    results: seq<M.Walk>, queue: seq<Pending>, next: seq<Pending>, d: nat)
    requires queue != [] && Searching(g, types, dir, min, max, goal, results, queue, [], next, d)
    ensures d < max && Searching(g, types, dir, min, max, goal, results, queue, next, [], d + 1)
  {
    assert [] + next == next;
    NextIsLevel(g, types, dir, next, d, min, max);
  }

  lemma FirstIsQueued(
    g: GraphState, types: seq<string>, dir: Direction, min: nat, max: nat, goal: seq<M.Walk>,
    results: seq<M.Walk>, queue: seq<Pending>, level: seq<Pending>, next: seq<Pending>, d: nat)
    requires level != [] && Searching(g, types, dir, min, max, goal, results, queue, level, next, d)
    ensures queue != [] && queue[0] == level[0] && Queued(queue[0], d)
  {
    assert level[0] in level;
  }

  lemma TailQueued(level: seq<Pending>, d: nat)
    requires level != [] && AllQueued(level, d)
    ensures AllQueued(level[1..], d)
  {
    forall p | p in level[1..] ensures Queued(p, d) { assert p in level; }
  }

  /** Visiting an entry above the greatest depth: it is emitted if deep enough, and its successors queue up. */
  lemma VisitInner(
    g: GraphState, types: seq<string>, dir: Direction, min: nat, max: nat, goal: seq<M.Walk>,
    results: seq<M.Walk>, queue: seq<Pending>, level: seq<Pending>, next: seq<Pending>, d: nat, more: seq<Pending>)
    requires level != [] && d < max && Searching(g, types, dir, min, max, goal, results, queue, level, next, d)
    requires Map(ToWalk(), more) == M.Children(g, types, dir, ToWalk()(level[0])) && AllQueued(more, d + 1)
    ensures Searching(g, types, dir, min, max, goal, results + Emitted(level[0], min),
                      queue[1..] + more, level[1..], next + more, d)
  {
    TailQueued(level, d);
    assert level[0] in level;
    assert (level + next)[1..] == level[1..] + next;
    ConcatAssoc(level[1..], next, more);
    OneWalkDone(g, types, dir, level, next, more, d, min, max);
    ConcatAssoc(results, Emitted(level[0], min), Remaining(g, types, dir, level[1..], next + more, d, min, max));
  }

  lemma VisitLast(
    g: GraphState, types: seq<string>, dir: Direction, min: nat, max: nat, goal: seq<M.Walk>,
    results: seq<M.Walk>, queue: seq<Pending>, level: seq<Pending>, next: seq<Pending>, d: nat)
    requires level != [] && d == max && Searching(g, types, dir, min, max, goal, results, queue, level, next, d)
    ensures Searching(g, types, dir, min, max, goal, results + Emitted(level[0], min), queue[1..], level[1..], next, d)
  {
    TailQueued(level, d);
    assert level[0] in level;
    assert (level + next)[1..] == level[1..] + next;
    LastWalkDone(g, types, dir, level, d, min);
    ConcatAssoc(results, Emitted(level[0], min), Remaining(g, types, dir, level[1..], next, d, min, max));
  }
}
