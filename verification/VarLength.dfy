/** The variable-length search returns exactly the edge-distinct walks within its bounds, shortest first. */
module VarLength {
  import opened Prelude
  import opened Ast
  import opened Evaluation
  import opened GraphSpec
  import opened Matcher

  // ---- walks, independently of the search --------------------------------------------------

  /** Relationship `r` can be followed from one node to the other under the pattern's direction and types. */
  ghost predicate Traverses(g: GraphState, types: seq<string>, dir: Direction, r: nat, from: nat, to: nat) {
    && r in g.relIds && TypeOk(g, types, r) && to in g.nodeIds
    && ((!dir.Incoming? && g.rels[r].start == from && g.rels[r].end == to) ||
        (!dir.Outgoing? && g.rels[r].end == from && g.rels[r].start == to))
  }

  /** `rels`, followed one after the other from `start`, lead to `end`. */
  ghost predicate IsWalk(g: GraphState, types: seq<string>, dir: Direction, start: nat, rels: seq<nat>, end: nat)
    decreases |rels|
  {
    if rels == [] then end == start
    else
      var before, last := rels[..|rels| - 1], rels[|rels| - 1];
      exists mid: nat :: IsWalk(g, types, dir, start, before, mid) && Traverses(g, types, dir, last, mid, end)
  }

  ghost predicate Trail(g: GraphState, types: seq<string>, dir: Direction, start: nat, w: Walk) {
    IsWalk(g, types, dir, start, w.rels, w.end) && Distinct(w.rels)
  }

  ghost predicate DistinctWalks(ws: seq<Walk>) {
    forall i, j :: 0 <= i < j < |ws| ==> ws[i].rels != ws[j].rels
  }

  // ---- one step of the search ------------------------------------------------------------------

  lemma StepRelsAnswer(g: GraphState, dir: Direction, n: nat, r: nat)
    requires Consistent(g)
    ensures r in StepRels(g, dir, n) <==>
            && r in g.relIds && r in g.rels
            && ((!dir.Incoming? && g.rels[r].start == n) || (!dir.Outgoing? && g.rels[r].end == n))
  {
    AdjacencyAnswers(g, n, "");
  }

  /** The other end the search computes is the one the walk needs, self-loops included. */
  lemma StepTraverses(g: GraphState, types: seq<string>, dir: Direction, n: nat, r: nat, to: nat)
    requires Consistent(g)
    ensures Traverses(g, types, dir, r, n, to) <==>
            r in StepRels(g, dir, n) && TypeOk(g, types, r) && to == OtherEnd(g, r, n) && to in g.nodeIds
  {
    StepRelsAnswer(g, dir, n, r);
  }

  ghost predicate Grown(g: GraphState, types: seq<string>, w: Walk, cands: seq<nat>, seen: set<nat>, c: Walk) {
    && |c.rels| == |w.rels| + 1 && c.rels[..|w.rels|] == w.rels
    && var r := c.rels[|w.rels|];
    r in cands && r !in w.rels && r !in seen && TypeOk(g, types, r) &&
    c.end == OtherEnd(g, r, w.end) && c.end in g.nodeIds
  }

  lemma {:induction false} GrowAnswers(g: GraphState, types: seq<string>, w: Walk, cands: seq<nat>, seen: set<nat>)
    ensures forall c :: c in Grow(g, types, w, cands, seen) <==> Grown(g, types, w, cands, seen, c)
    ensures DistinctWalks(Grow(g, types, w, cands, seen))
    decreases cands
  {
    if cands != [] {
      var r, rest := cands[0], cands[1..];
      assert cands == [r] + rest;
      if r in w.rels || r in seen || !TypeOk(g, types, r) {
        GrowAnswers(g, types, w, rest, seen);
      } else {
        GrowAnswers(g, types, w, rest, seen + {r});
        var head := Walk(w.rels + [r], OtherEnd(g, r, w.end));
        forall c ensures c in Grow(g, types, w, cands, seen) <==> Grown(g, types, w, cands, seen, c) {
          if Grown(g, types, w, cands, seen, c) && c.rels[|w.rels|] == r {
            assert c.rels == head.rels;
          }
        }
        assert forall c :: c in Grow(g, types, w, rest, seen + {r}) ==> c.rels != head.rels;
      }
    }
  }

  // ---- one level --------------------------------------------------------------------------------

  /** `ws` lists each trail of length `d` from `start` once. */
  ghost predicate ExactLevel(g: GraphState, types: seq<string>, dir: Direction, start: nat, ws: seq<Walk>, d: nat) {
    && DistinctWalks(ws)
    && forall w :: w in ws <==> |w.rels| == d && Trail(g, types, dir, start, w)
  }

  lemma DistinctSnoc(xs: seq<nat>, x: nat)
    ensures Distinct(xs + [x]) <==> Distinct(xs) && x !in xs
  {
    var ys := xs + [x];
    if Distinct(ys) {
      assert forall i :: 0 <= i < |xs| ==> ys[i] == xs[i];
      assert x !in xs by {
        assert forall i :: 0 <= i < |xs| ==> ys[i] != ys[|xs|];
      }
    }
  }

  /** A trail is its prefix, grown by one relationship. */
  lemma TrailGrows(g: GraphState, types: seq<string>, dir: Direction, start: nat, w: Walk, c: Walk)
    requires Consistent(g) && Trail(g, types, dir, start, w)
    requires Grown(g, types, w, StepRels(g, dir, w.end), {}, c)
    ensures Trail(g, types, dir, start, c)
  {
    var r := GrownBy(g, types, dir, w, c);
    TrailSnoc(g, types, dir, start, w, r, c);
  }

  lemma GrownBy(g: GraphState, types: seq<string>, dir: Direction, w: Walk, c: Walk) returns (r: nat)
    requires Consistent(g) && Grown(g, types, w, StepRels(g, dir, w.end), {}, c)
    ensures Traverses(g, types, dir, r, w.end, c.end) && c.rels == w.rels + [r] && r !in w.rels
  {
    r := c.rels[|w.rels|];
    StepTraverses(g, types, dir, w.end, r, c.end);
  }

  lemma TrailSnoc(g: GraphState, types: seq<string>, dir: Direction, start: nat, w: Walk, r: nat, c: Walk)
    requires Trail(g, types, dir, start, w) && Traverses(g, types, dir, r, w.end, c.end)
    requires c.rels == w.rels + [r] && r !in w.rels
    ensures Trail(g, types, dir, start, c)
  {
    DistinctSnoc(w.rels, r);
    assert c.rels[..|c.rels| - 1] == w.rels;
  }

  lemma TrailShrinks(g: GraphState, types: seq<string>, dir: Direction, start: nat, c: Walk) returns (w: Walk)
    requires Consistent(g) && Trail(g, types, dir, start, c) && c.rels != []
    ensures Trail(g, types, dir, start, w) && |w.rels| == |c.rels| - 1
    ensures Grown(g, types, w, StepRels(g, dir, w.end), {}, c)
  {
    var n := |c.rels| - 1;
    var mid: nat :| IsWalk(g, types, dir, start, c.rels[..n], mid) && Traverses(g, types, dir, c.rels[n], mid, c.end);
    w := Walk(c.rels[..n], mid);
    assert c.rels == w.rels + [c.rels[n]];
    DistinctSnoc(w.rels, c.rels[n]);
    StepTraverses(g, types, dir, mid, c.rels[n], c.end);
  }

  /** One of these walks has `c` for a child. */
  ghost predicate ChildOfOne(g: GraphState, types: seq<string>, dir: Direction, ws: seq<Walk>, c: Walk) {
    exists w :: w in ws && Grown(g, types, w, StepRels(g, dir, w.end), {}, c)
  }

  lemma ChildOfCons(g: GraphState, types: seq<string>, dir: Direction, ws: seq<Walk>, c: Walk)
    requires ws != []
    ensures ChildOfOne(g, types, dir, ws, c) <==>
            Grown(g, types, ws[0], StepRels(g, dir, ws[0].end), {}, c) || ChildOfOne(g, types, dir, ws[1..], c)
  {
    assert ws == [ws[0]] + ws[1..];
  }

  /** Every walk of the next level is a child of a walk of this one, and the children stay distinct. */
  lemma {:induction false} NextLevelAnswers(g: GraphState, types: seq<string>, dir: Direction, ws: seq<Walk>)
    ensures forall c :: c in NextLevel(g, types, dir, ws) <==> ChildOfOne(g, types, dir, ws, c)
    decreases ws
  {
    if ws != [] {
      NextLevelAnswers(g, types, dir, ws[1..]);
      GrowAnswers(g, types, ws[0], StepRels(g, dir, ws[0].end), {});
      forall c ensures c in NextLevel(g, types, dir, ws) <==> ChildOfOne(g, types, dir, ws, c) {
        ChildOfCons(g, types, dir, ws, c);
      }
    }
  }

  lemma {:induction false} NextLevelDistinct(g: GraphState, types: seq<string>, dir: Direction, ws: seq<Walk>, d: nat)
    requires DistinctWalks(ws) && forall w :: w in ws ==> |w.rels| == d
    ensures DistinctWalks(NextLevel(g, types, dir, ws))
    decreases ws
  {
    if ws != [] {
      assert DistinctWalks(ws[1..]);
      NextLevelDistinct(g, types, dir, ws[1..], d);
      NextLevelAnswers(g, types, dir, ws[1..]);
      GrowAnswers(g, types, ws[0], StepRels(g, dir, ws[0].end), {});
      var a, b := Children(g, types, dir, ws[0]), NextLevel(g, types, dir, ws[1..]);
      assert ws[0] in ws;
      forall i, j | 0 <= i < |a| && 0 <= j < |b| ensures a[i].rels != b[j].rels {
        assert a[i] in a && b[j] in b;
        var w :| w in ws[1..] && Grown(g, types, w, StepRels(g, dir, w.end), {}, b[j]);
        var k :| 0 <= k < |ws[1..]| && ws[1..][k] == w;
        assert ws[0].rels != ws[k + 1].rels;
        assert a[i].rels[..d] == ws[0].rels && b[j].rels[..d] == w.rels;
      }
    }
  }

  lemma NextLevelExact(g: GraphState, types: seq<string>, dir: Direction, start: nat, ws: seq<Walk>, d: nat)
    requires Consistent(g) && ExactLevel(g, types, dir, start, ws, d)
    ensures ExactLevel(g, types, dir, start, NextLevel(g, types, dir, ws), d + 1)
  {
    var next := NextLevel(g, types, dir, ws);
    NextLevelDistinct(g, types, dir, ws, d);
    NextLevelAnswers(g, types, dir, ws);
    forall c ensures c in next <==> |c.rels| == d + 1 && Trail(g, types, dir, start, c) {
      if c in next {
        var w :| w in ws && Grown(g, types, w, StepRels(g, dir, w.end), {}, c);
        TrailGrows(g, types, dir, start, w, c);
      }
      if |c.rels| == d + 1 && Trail(g, types, dir, start, c) {
        var w := TrailShrinks(g, types, dir, start, c);
        assert w in ws;
      }
    }
  }

  // ---- all levels --------------------------------------------------------------------------------

  ghost predicate ByLength(ws: seq<Walk>) {
    forall i, j :: 0 <= i < j < |ws| ==> |ws[i].rels| <= |ws[j].rels|
  }

  lemma JoinLevels(head: seq<Walk>, tail: seq<Walk>, d: nat)
    requires DistinctWalks(head) && DistinctWalks(tail) && ByLength(tail)
    requires forall w :: w in head ==> |w.rels| == d
    requires forall w :: w in tail ==> d < |w.rels|
    ensures DistinctWalks(head + tail) && ByLength(head + tail)
  {
    assert forall i :: 0 <= i < |head| ==> head[i] in head;
    assert forall i :: 0 <= i < |tail| ==> tail[i] in tail;
  }

  /** `out` lists the trails whose length is at least `d` and within the bounds. */
  ghost predicate ExactRange(
    g: GraphState, types: seq<string>, dir: Direction, start: nat, out: seq<Walk>, d: nat, min: nat, max: nat)
  {
    && DistinctWalks(out) && ByLength(out)
    && forall w :: w in out <==> InRange(w, d, min, max) && Trail(g, types, dir, start, w)
  }

  ghost predicate InRange(w: Walk, d: nat, min: nat, max: nat) {
    d <= |w.rels| && min <= |w.rels| <= max
  }

  lemma LastLevel(g: GraphState, types: seq<string>, dir: Direction, start: nat, ws: seq<Walk>, d: nat, min: nat)
    requires ExactLevel(g, types, dir, start, ws, d)
    ensures ExactRange(g, types, dir, start, if d >= min then ws else [], d, min, d)
  {
    assert forall i :: 0 <= i < |ws| ==> ws[i] in ws;
  }

  lemma OneMoreLevel(
    g: GraphState, types: seq<string>, dir: Direction, start: nat, ws: seq<Walk>, tail: seq<Walk>, d: nat, min: nat,
    max: nat)
    requires ExactLevel(g, types, dir, start, ws, d) && d < max
    requires ExactRange(g, types, dir, start, tail, d + 1, min, max)
    ensures ExactRange(g, types, dir, start, (if d >= min then ws else []) + tail, d, min, max)
  {
    var head := if d >= min then ws else [];
    JoinLevels(head, tail, d);
    forall w ensures w in head + tail <==> InRange(w, d, min, max) && Trail(g, types, dir, start, w) {
      assert w in head + tail <==> w in head || w in tail;
    }
  }

  lemma {:induction false} LevelsAnswer(
    g: GraphState, types: seq<string>, dir: Direction, start: nat, ws: seq<Walk>, d: nat, min: nat, max: nat)
    requires Consistent(g) && ExactLevel(g, types, dir, start, ws, d) && d <= max
    ensures ExactRange(g, types, dir, start, Levels(g, types, dir, ws, d, min, max), d, min, max)
    decreases max - d
  {
    if d < max {
      var next := NextLevel(g, types, dir, ws);
      NextLevelExact(g, types, dir, start, ws, d);
      LevelsAnswer(g, types, dir, start, next, d + 1, min, max);
      OneMoreLevel(g, types, dir, start, ws, Levels(g, types, dir, next, d + 1, min, max), d, min, max);
    } else {
      LastLevel(g, types, dir, start, ws, d, min);
      assert Levels(g, types, dir, ws, d, min, max) == if d >= min then ws else [];
    }
  }

  /** For every graph, direction, type list and bounds: the result lists each edge-distinct walk whose
      length is within the bounds exactly once, with its end node, in order of length. */
  lemma SearchIsExact(g: GraphState, types: seq<string>, dir: Direction, start: nat, min: nat, max: nat)
    requires Consistent(g)
    ensures var out := VarWalks(g, types, dir, start, min, max);
            && (forall w :: w in out <==> min <= |w.rels| <= max && Trail(g, types, dir, start, w))
            && DistinctWalks(out) && ByLength(out)
  {
    var ws := [Walk([], start)];
    assert ExactLevel(g, types, dir, start, ws, 0) by {
      forall w ensures w in ws <==> |w.rels| == 0 && Trail(g, types, dir, start, w) {
        if |w.rels| == 0 { assert w.rels == []; }
      }
    }
    LevelsAnswer(g, types, dir, start, ws, 0, min, max);
    forall w ensures w in VarWalks(g, types, dir, start, min, max) <==>
                     min <= |w.rels| <= max && Trail(g, types, dir, start, w) {
      assert InRange(w, 0, min, max) <==> min <= |w.rels| <= max;
    }
  }
}
