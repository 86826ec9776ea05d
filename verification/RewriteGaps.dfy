/** Where splitting and stitching do not keep the rows: one clause each that the passes rewrite all the same. */
module RewriteGaps {
  import opened Prelude
  import opened Ast
  import opened Evaluation
  import opened Matcher
  import opened Query
  import opened Compose
  import opened Stitch

  function OneNode(x: string, labels: seq<string>): Path {
    Path(None, [NodeEl(NodePattern(Some(x), labels, None, None))])
  }

  lemma FilterOne<T>(p: T -> Result<bool>, x: T)
    requires p(x).Ok?
    ensures FilterR(p, [x]) == Ok(if p(x).value then [x] else [])
  {
    assert [x][1..] == [];
    AppendNothing(if p(x).value then [x] else [], Ok([]));
    assert FilterR(p, [x]) == Append(if p(x).value then [x] else [], FilterR(p, []));
  }

  lemma NodePath(ctx: Ctx, x: string, labels: seq<string>, row: Row, ns: seq<nat>)
    requires CandidateNodes(ctx, NodePattern(Some(x), labels, None, None), row) == Ok(ns)
    ensures ns == [] ==> MatchPath(ctx, false, OneNode(x, labels), row) == Ok([])
    ensures |ns| == 1 && (x !in row || row[x] == NodeRef(ns[0])) ==>
              MatchPath(ctx, false, OneNode(x, labels), row) == Ok([row[x := NodeRef(ns[0])]])
  {
    var path := OneNode(x, labels);
    var f := StartFn(ctx, false, path, row);
    if |ns| == 1 && (x !in row || row[x] == NodeRef(ns[0])) {
      var r := row[x := NodeRef(ns[0])];
      assert path.elements[1..] == [];
      assert Expand(ctx, false, [], r, ns[0], false) == Ok([r]);
      assert Map(Finish(None), [r]) == [r];
      assert StartRow(ctx, false, path.elements[0].node, false, row, ns[0]) == Ok(Some(r));
      assert f(ns[0]) == Ok([r]);
      FlatMapOne(f, ns[0]);
      assert ns == [ns[0]];
    }
  }

  /** The first path, then the rest of the pattern on the one row it gave. */
  lemma TwoPaths(ctx: Ctx, p: Path, q: Path, row: Row, m: Row, ms: seq<Row>)
    requires MatchPath(ctx, false, p, row) == Ok([m]) && MatchPath(ctx, false, q, m) == Ok(ms)
    ensures MatchPattern(ctx, false, [p, q], row) == Ok(ms)
  {
    assert [p, q][1..] == [q] && [q][1..] == [];
    FlatMapOne(PathFn(ctx, false, p), row);
    FlatMapOne(PathFn(ctx, false, q), m);
    assert MatchPaths(ctx, false, [q], Ok([m])) == MatchPaths(ctx, false, [], Ok(ms));
  }

  lemma OnePath(ctx: Ctx, p: Path, row: Row, ms: seq<Row>)
    requires MatchPath(ctx, false, p, row) == Ok(ms)
    ensures MatchPattern(ctx, false, [p], row) == Ok(ms)
  {
    assert [p][1..] == [];
    FlatMapOne(PathFn(ctx, false, p), row);
    assert MatchPaths(ctx, false, [], Ok(ms)) == Ok(ms);
  }

  /** Without WHERE, the block of one row is its matches, merged over it, or the padded row. */
  lemma BlockIs(ctx: Ctx, pattern: Pattern, optional: bool, row: Row, ms: seq<Row>)
    requires MatchPattern(ctx, false, pattern, row) == Ok(ms) && |ms| <= 1
    ensures MatchClause(ctx, false, pattern, optional, None, [row]) ==
            Ok(if ms != [] then [row + ms[0]] else if optional then [NullRow(row, PatternVars(pattern))] else [])
  {
    var f := BlockFn(ctx, false, pattern, optional, None);
    if ms != [] {
      assert ms == [ms[0]];
      assert Map(Over(row), ms) == [row + ms[0]];
      FilterOne(Passes(ctx, None), row + ms[0]);
    } else {
      assert Map(Over(row), ms) == [];
    }
    FlatMapOne(f, row);
  }

  // ---- splitting ----------------------------------------------------------------------------------------

  lemma FreshNode(ctx: Ctx, n: nat)
    requires ctx.g.nodeIds == [n]
    ensures MatchPath(ctx, false, OneNode("a", []), map[]) == Ok([map["a" := NodeRef(n)]])
  {
    var np, row: Row := NodePattern(Some("a"), [], None, None), map[];
    assert NodeTest(ctx, np, row)(n) == Ok(true);
    FilterOne(NodeTest(ctx, np, row), n);
    NodePath(ctx, "a", [], row, [n]);
    assert row["a" := NodeRef(n)] == map["a" := NodeRef(n)];
  }

  lemma NoSuchNode(ctx: Ctx, row: Row)
    requires ctx.scan("L") == [] && "b" !in row
    ensures MatchPath(ctx, false, OneNode("b", ["L"]), row) == Ok([])
  {
    var np := NodePattern(Some("b"), ["L"], None, None);
    assert Scan(ctx, ["L"]) == [];
    NodePath(ctx, "b", ["L"], row, []);
  }

  lemma PairVars()
    ensures PatternVars([OneNode("a", []), OneNode("b", ["L"])]) == {"a", "b"}
    ensures PatternVars([OneNode("b", ["L"])]) == {"b"}
  {
    var p, q := OneNode("a", []), OneNode("b", ["L"]);
    assert [p, q][1..] == [q] && [q][1..] == [];
    assert p.elements[1..] == [] && q.elements[1..] == [];
    assert ElementVars(p.elements) == {"a"} && ElementVars(q.elements) == {"b"};
  }

  lemma TogetherOptional(ctx: Ctx, n: nat)
    requires ctx.g.nodeIds == [n] && ctx.scan("L") == []
    ensures MatchClause(ctx, false, [OneNode("a", []), OneNode("b", ["L"])], true, None, [map[]]) ==
            Ok([map["a" := Null, "b" := Null]])
  {
    var p, q, m: Row := OneNode("a", []), OneNode("b", ["L"]), map["a" := NodeRef(n)];
    FreshNode(ctx, n);
    NoSuchNode(ctx, m);
    TwoPaths(ctx, p, q, map[], m, []);
    PairVars();
    BlockIs(ctx, [p, q], true, map[], []);
    assert NullRow(map[], {"a", "b"}) == map["a" := Null, "b" := Null];
  }

  lemma ApartOptional(ctx: Ctx, n: nat)
    requires ctx.g.nodeIds == [n] && ctx.scan("L") == []
    ensures var m: Row := map["a" := NodeRef(n)];
            && MatchClause(ctx, false, [OneNode("a", [])], true, None, [map[]]) == Ok([m])
            && MatchClause(ctx, false, [OneNode("b", ["L"])], true, None, [m]) ==
               Ok([map["a" := NodeRef(n), "b" := Null]])
  {
    var p, q, m: Row := OneNode("a", []), OneNode("b", ["L"]), map["a" := NodeRef(n)];
    FreshNode(ctx, n);
    OnePath(ctx, p, map[], [m]);
    BlockIs(ctx, [p], true, map[], [m]);
    assert map[] + m == m;
    NoSuchNode(ctx, m);
    OnePath(ctx, q, m, []);
    PairVars();
    BlockIs(ctx, [q], true, m, []);
    assert NullRow(m, {"b"}) == map["a" := NodeRef(n), "b" := Null];
  }

  /** `OPTIONAL MATCH (a), (b:L)` on one node without the label: both names are null, while the split clauses
      bind `a`. */
  lemma SplitOptionalDiffers(ctx: Ctx, n: nat)
    requires ctx.g.nodeIds == [n] && ctx.scan("L") == []
    ensures var pattern, start := [OneNode("a", []), OneNode("b", ["L"])], State([map[]], []);
            && RunClauses(ctx, [Match(pattern, true, None)], Ok(start)) ==
               Ok(State([map["a" := Null, "b" := Null]], []))
            && RunClauses(ctx, SplitMatch(pattern, true, None), Ok(start)) ==
               Ok(State([map["a" := NodeRef(n), "b" := Null]], []))
  {
    var p, q, start := OneNode("a", []), OneNode("b", ["L"]), State([map[]], []);
    TogetherOptional(ctx, n);
    OneClauseRuns(ctx, Match([p, q], true, None), start);
    ApartOptional(ctx, n);
    SplitPair(ctx, p, q, start, State([map["a" := NodeRef(n)]], []));
  }

  lemma OneClauseRuns(ctx: Ctx, c: Clause, s: State)
    ensures RunClauses(ctx, [c], Ok(s)) == RunClause(ctx, c, s)
  {
    assert [c][1..] == [];
    assert RunClauses(ctx, [], RunClause(ctx, c, s)) == RunClause(ctx, c, s);
  }

  lemma SplitPair(ctx: Ctx, p: Path, q: Path, s: State, mid: State)
    requires RunClause(ctx, Match([p], true, None), s) == Ok(mid)
    ensures RunClauses(ctx, SplitMatch([p, q], true, None), Ok(s)) == RunClause(ctx, Match([q], true, None), mid)
  {
    assert [p, q][1..] == [q];
    assert SplitMatch([q], true, None) == [Match([q], true, None)];
    var cs := [Match([p], true, None)] + [Match([q], true, None)];
    assert SplitMatch([p, q], true, None) == cs;
    assert cs[1..] == [Match([q], true, None)];
    OneClauseRuns(ctx, Match([q], true, None), mid);
    assert RunClauses(ctx, cs, Ok(s)) == RunClauses(ctx, cs[1..], Ok(mid));
  }

  // ---- stitching -------------------------------------------------------------------------------------------

  lemma LabelRefused(ctx: Ctx, n: nat, row: Row)
    requires !HasLabels(ctx.g, n, ["L"]) && row == map["a" := NodeRef(n)]
    ensures MatchPath(ctx, false, OneNode("a", ["L"]), row) == Ok([])
  {
    var np := NodePattern(Some("a"), ["L"], None, None);
    assert NodeTest(ctx, np, row)(n) == Ok(false);
    FilterOne(NodeTest(ctx, np, row), n);
    NodePath(ctx, "a", ["L"], row, []);
  }

  lemma StitchedPair()
    ensures var a, b := Match([OneNode("a", [])], false, None), Match([OneNode("a", ["L"])], false, None);
            Mergeable(a, b) && MergeClauses([a, b]) == [a]
  {
    var p, q := OneNode("a", []), OneNode("a", ["L"]);
    var a, b := Match([p], false, None), Match([q], false, None);
    assert p.elements[1..] == [] && q.elements[1..] == [] && [p][1..] == [] && [q][1..] == [];
    assert ElementVars(p.elements) == {"a"} && ElementVars(q.elements) == {"a"};
    assert BoundVars([p]) == {"a"} && BoundVars([q]) == {"a"};
    assert p.elements + [] == p.elements;
    assert StitchPatterns([p], [q]) == Some([p]);
    assert "a" in BoundVars([p]) * BoundVars([q]);
    assert [a, b][2..] == [] && MergeClauses([]) == [];
  }

  /** `MATCH (a) MATCH (a:L)` on one node without the label has no row, while the merged clause has one. */
  lemma StitchLabelDiffers(ctx: Ctx, n: nat)
    requires ctx.g.nodeIds == [n] && !HasLabels(ctx.g, n, ["L"])
    ensures var cs := [Match([OneNode("a", [])], false, None), Match([OneNode("a", ["L"])], false, None)];
            && RunClauses(ctx, cs, Ok(State([map[]], []))) == Ok(State([], []))
            && RunClauses(ctx, MergeClauses(cs), Ok(State([map[]], []))) == Ok(State([map["a" := NodeRef(n)]], []))
  {
    var p, q := OneNode("a", []), OneNode("a", ["L"]);
    var a, b := Match([p], false, None), Match([q], false, None);
    var start, m: Row := State([map[]], []), map["a" := NodeRef(n)];
    FreshNode(ctx, n);
    OnePath(ctx, p, map[], [m]);
    BlockIs(ctx, [p], false, map[], [m]);
    assert map[] + m == m;
    LabelRefused(ctx, n, m);
    OnePath(ctx, q, m, []);
    BlockIs(ctx, [q], false, m, []);
    StitchedPair();
    OneClauseRuns(ctx, a, start);
    OneClauseRuns(ctx, b, State([m], []));
    assert [a, b][1..] == [b];
    assert RunClauses(ctx, [a, b], Ok(start)) == RunClauses(ctx, [b], Ok(State([m], [])));
  }
}
