/** The rewrites as the passes run them: nodes whose fields are reassigned, lists grown in loops. */
module Rewrites {
  import opened Prelude
  import opened Ast
  import C = Canonicalize
  import D = DropDistinct
  import H = Hoist
  import I = Inject
  import P = Pushdown
  import S = Compose
  import T = Stitch

  // ---- clause lists -----------------------------------------------------------------------------

  class QueryNode {
    var clauses: seq<Clause>

    constructor (clauses: seq<Clause>)
      ensures this.clauses == clauses
    {
      this.clauses := clauses;
    }

    /** `split_multi_path_match`: one MATCH for each path, with WHERE on the last. */
    method SplitMatches()
      modifies this
      ensures clauses == S.SplitClauses(old(clauses))
    {
      var out: seq<Clause> := [];
      ghost var goal := S.SplitClauses(clauses);
      assert clauses[0..] == clauses;
      for i := 0 to |clauses|
        invariant clauses == old(clauses) && out + S.SplitClauses(clauses[i..]) == goal
      {
        assert clauses[i..][0] == clauses[i] && clauses[i..][1..] == clauses[i + 1..];
        var parts := [clauses[i]];
        if clauses[i].Match? && |clauses[i].pattern| > 1 {
          parts := Fragments(clauses[i].pattern, clauses[i].optional, clauses[i].where);
        }
        ConcatAssoc(out, parts, S.SplitClauses(clauses[i + 1..]));
        out := out + parts;
      }
      assert out + [] == out;
      clauses := out;
    }

    /** `merge_match_chains`: one scan; a merged pair is passed over. */
    method MergeChains()
      modifies this
      ensures clauses == T.MergeClauses(old(clauses))
    {
      var merged: seq<Clause> := [];
      ghost var goal := T.MergeClauses(clauses);
      var i := 0;
      assert clauses[0..] == clauses;
      while i < |clauses|
        invariant i <= |clauses| && clauses == old(clauses) && merged + T.MergeClauses(clauses[i..]) == goal
      {
        assert clauses[i..][0] == clauses[i] && clauses[i..][1..] == clauses[i + 1..];
        if i + 1 < |clauses| && T.Mergeable(clauses[i], clauses[i + 1]) {
          assert clauses[i..][1] == clauses[i + 1] && clauses[i..][2..] == clauses[i + 2..];
          var chained := Match(T.StitchPatterns(clauses[i].pattern, clauses[i + 1].pattern).value, false, None);
          ConcatAssoc(merged, [chained], T.MergeClauses(clauses[i + 2..]));
          merged := merged + [chained];
          i := i + 2;
        } else {
          ConcatAssoc(merged, [clauses[i]], T.MergeClauses(clauses[i + 1..]));
          merged := merged + [clauses[i]];
          i := i + 1;
        }
      }
      assert merged + [] == merged;
      clauses := merged;
    }
  }

  method Fragments(paths: Pattern, optional: bool, w: Option<Expr>) returns (parts: seq<Clause>)
    requires paths != []
    ensures parts == S.SplitMatch(paths, optional, w)
  {
    parts := [];
    assert paths[0..] == paths;
    for k := 0 to |paths| - 1
      invariant parts + S.SplitMatch(paths[k..], optional, w) == S.SplitMatch(paths, optional, w)
    {
      assert paths[k..][0] == paths[k] && paths[k..][1..] == paths[k + 1..];
      ConcatAssoc(parts, [Match([paths[k]], optional, None)], S.SplitMatch(paths[k + 1..], optional, w));
      parts := parts + [Match([paths[k]], optional, None)];
    }
    parts := parts + [Match(paths[|paths| - 1..], optional, w)];
  }

  // ---- a MATCH clause ------------------------------------------------------------------------------

  /** What follows is put behind the elements already passed. */
  ghost function Behind<T>(passed: seq<T>, r: I.Injection<seq<T>>): I.Injection<seq<T>> {
    match r
    case Injected(rest) => I.Injected(passed + rest)
    case NotFound => I.NotFound
    case Refused => I.Refused
  }

  lemma BehindNone<T>(r: I.Injection<seq<T>>)
    ensures Behind([], r) == r
  {
    if r.Injected? { assert [] + r.value == r.value; }
  }

  lemma BehindOne<T>(passed: seq<T>, x: T, r: I.Injection<seq<T>>)
    ensures Behind(passed + [x], r) == Behind(passed, Behind([x], r))
  {
    if r.Injected? { ConcatAssoc(passed, [x], r.value); }
  }

  /** No element before `j` takes the entry. */
  ghost predicate PassedElems(elems: seq<Element>, j: nat, v: string, key: string, lit: Expr) {
    j <= |elems| && Behind(elems[..j], I.InjectElems(elems[j..], v, key, lit)) == I.InjectElems(elems, v, key, lit)
  }

  lemma PassedNone(elems: seq<Element>, v: string, key: string, lit: Expr)
    ensures PassedElems(elems, 0, v, key, lit)
  {
    assert elems[0..] == elems && elems[..0] == [];
    BehindNone(I.InjectElems(elems, v, key, lit));
  }

  lemma PassOne(elems: seq<Element>, j: nat, v: string, key: string, lit: Expr)
    requires j < |elems| && PassedElems(elems, j, v, key, lit) && !I.IsTarget(elems[j], v)
    ensures PassedElems(elems, j + 1, v, key, lit)
  {
    assert elems[j..][0] == elems[j] && elems[j..][1..] == elems[j + 1..];
    assert elems[..j + 1] == elems[..j] + [elems[j]];
    BehindOne(elems[..j], elems[j], I.InjectElems(elems[j + 1..], v, key, lit));
  }

  lemma HitOne(elems: seq<Element>, j: nat, v: string, key: string, lit: Expr)
    requires j < |elems| && PassedElems(elems, j, v, key, lit) && I.IsTarget(elems[j], v)
    ensures I.InjectElems(elems, v, key, lit) ==
            if I.HasKey(EntriesOf(elems[j].node.properties), key) then I.Refused
            else I.Injected(elems[j := NodeEl(I.AddEntry(elems[j].node, key, lit))])
  {
    assert elems[j..][0] == elems[j] && elems[j..][1..] == elems[j + 1..];
    var entry := NodeEl(I.AddEntry(elems[j].node, key, lit));
    assert elems[j := entry] == elems[..j] + ([entry] + elems[j + 1..]);
  }

  method InjectIntoPath(elems: seq<Element>, v: string, key: string, lit: Expr) returns (r: I.Injection<seq<Element>>)
    ensures r == I.InjectElems(elems, v, key, lit)
  {
    PassedNone(elems, v, key, lit);
    for j := 0 to |elems|
      invariant PassedElems(elems, j, v, key, lit)
    {
      if I.IsTarget(elems[j], v) {
        HitOne(elems, j, v, key, lit);
        if I.HasKey(EntriesOf(elems[j].node.properties), key) {
          return I.Refused;
        }
        return I.Injected(elems[j := NodeEl(I.AddEntry(elems[j].node, key, lit))]);
      }
      PassOne(elems, j, v, key, lit);
    }
    return I.NotFound;
  }

  /** No path before `i` has a node that takes the entry. */
  ghost predicate PassedPaths(pattern: Pattern, i: nat, v: string, key: string, lit: Expr) {
    i <= |pattern| && Behind(pattern[..i], I.InjectProp(pattern[i..], v, key, lit)) ==
        I.InjectProp(pattern, v, key, lit)
  }

  lemma PassedNoPath(pattern: Pattern, v: string, key: string, lit: Expr)
    ensures PassedPaths(pattern, 0, v, key, lit)
  {
    assert pattern[0..] == pattern && pattern[..0] == [];
    BehindNone(I.InjectProp(pattern, v, key, lit));
  }

  lemma TryPath(pattern: Pattern, i: nat, v: string, key: string, lit: Expr)
    requires i < |pattern| && PassedPaths(pattern, i, v, key, lit)
    ensures match I.InjectElems(pattern[i].elements, v, key, lit)
            case Refused => I.InjectProp(pattern, v, key, lit) == I.Refused
            case Injected(es) => I.InjectProp(pattern, v, key, lit) ==
                I.Injected(pattern[i := pattern[i].(elements := es)])
            case NotFound => PassedPaths(pattern, i + 1, v, key, lit)
  {
    assert pattern[i..][0] == pattern[i] && pattern[i..][1..] == pattern[i + 1..];
    match I.InjectElems(pattern[i].elements, v, key, lit)
    case Refused =>
    case Injected(es) =>
      var path := pattern[i].(elements := es);
      assert pattern[i := path] == pattern[..i] + ([path] + pattern[i + 1..]);
    case NotFound =>
      assert pattern[..i + 1] == pattern[..i] + [pattern[i]];
      BehindOne(pattern[..i], pattern[i], I.InjectProp(pattern[i + 1..], v, key, lit));
  }

  /** `_where_of`. */
  method Conjoin(preds: seq<Expr>) returns (w: Option<Expr>)
    ensures w == H.WhereFrom(preds)
  {
    if preds == [] {
      return None;
    }
    var result := preds[0];
    for k := 1 to |preds|
      invariant H.AndOnto(result, preds[k..]) == H.AndOnto(preds[0], preds[1..])
    {
      assert preds[k..][0] == preds[k] && preds[k..][1..] == preds[k + 1..];
      result := Binary(AndOp, result, preds[k]);
    }
    return Some(result);
  }

  /** One path's elements without their predicates, and the predicates. */
  method Strip(elems: seq<Element>) returns (bare: seq<Element>, preds: seq<Expr>)
    ensures bare == H.Strip(elems) && preds == H.Preds(elems)
  {
    bare, preds := [], [];
    assert elems[0..] == elems;
    for j := 0 to |elems|
      invariant bare + H.Strip(elems[j..]) == H.Strip(elems) && preds + H.Preds(elems[j..]) == H.Preds(elems)
    {
      assert elems[j..][0] == elems[j] && elems[j..][1..] == elems[j + 1..];
      ConcatAssoc(bare, [H.StripEl(elems[j])], H.Strip(elems[j + 1..]));
      ConcatAssoc(preds, H.ListOf(WhereOf(elems[j])), H.Preds(elems[j + 1..]));
      if WhereOf(elems[j]).Some? {
        preds := preds + [WhereOf(elems[j]).value];
      }
      bare := bare + [H.StripEl(elems[j])];
    }
    assert bare + [] == bare && preds + [] == preds;
  }

  class MatchNode {
    var pattern: Pattern
    var where: Option<Expr>

    constructor (pattern: Pattern, where: Option<Expr>)
      ensures this.pattern == pattern && this.where == where
    {
      this.pattern, this.where := pattern, where;
    }

    /** `_inject_prop`: the first node of that name gets the entry, unless it already has the key. */
    method InjectProp(v: string, key: string, lit: Expr) returns (done: bool)
      modifies this`pattern
      ensures done == I.InjectProp(old(pattern), v, key, lit).Injected?
      ensures pattern == if done then I.InjectProp(old(pattern), v, key, lit).value else old(pattern)
    {
      PassedNoPath(pattern, v, key, lit);
      for i := 0 to |pattern|
        invariant pattern == old(pattern) && PassedPaths(pattern, i, v, key, lit)
      {
        TryPath(pattern, i, v, key, lit);
        var r := InjectIntoPath(pattern[i].elements, v, key, lit);
        if r.Refused? {
          return false;
        }
        if r.Injected? {
          pattern := pattern[i := pattern[i].(elements := r.value)];
          return true;
        }
      }
      return false;
    }

    /** `_try_fold`: what remains of the predicate, and whether anything was folded. */
    method TryFold(e: Expr) returns (remaining: Option<Expr>, folded: bool)
      modifies this`pattern
      ensures P.Fold(remaining, folded, pattern) == P.TryFold(e, old(pattern))
      decreases e
    {
      if e.Binary? && e.op == AndOp {
        var left, f := TryFold(e.left);
        var right, g := TryFold(e.right);
        remaining := if left == None then right else if right == None then left
            else Some(Binary(AndOp, left.value, right.value));
        folded := f || g;
      } else if P.IsFoldable(e) {
        folded := InjectProp(e.left.obj.name, e.left.key, e.right);
        remaining := if folded then None else Some(e);
      } else {
        remaining, folded := Some(e), false;
      }
    }

    /** `pushdown_predicates` on one MATCH. */
    method PushDown()
      modifies this
      ensures pattern == P.PushPattern(old(pattern), old(where)) && where == P.PushWhere(old(pattern), old(where))
    {
      if where.None? {
        return;
      }
      var remaining, folded := TryFold(where.value);
      if folded {
        where := remaining;
      }
    }

    /** `_hoisted_predicates`: the elements give up their predicates to the clause. */
    method HoistInline()
      modifies this
      ensures pattern == H.StripPattern(old(pattern)) && where == H.HoistedWhere(old(pattern), old(where))
    {
      var preds := H.ListOf(where);
      ghost var own := H.ListOf(where);
      assert pattern[0..] == pattern && pattern[..0] == [];
      for i := 0 to |pattern|
        invariant |pattern| == |old(pattern)| && pattern[i..] == old(pattern)[i..] && where == old(where)
        invariant pattern[..i] + H.StripPattern(old(pattern)[i..]) == H.StripPattern(old(pattern))
        invariant preds + H.PatternPreds(old(pattern)[i..]) == own + H.PatternPreds(old(pattern))
      {
        ghost var rest := old(pattern)[i..];
        assert rest[0] == pattern[i..][0] == pattern[i] && rest[1..] == old(pattern)[i + 1..] == pattern[i + 1..];
        var bare, inline := Strip(pattern[i].elements);
        var path := pattern[i].(elements := bare);
        ConcatAssoc(pattern[..i], [path], H.StripPattern(rest[1..]));
        ConcatAssoc(preds, inline, H.PatternPreds(rest[1..]));
        pattern, preds := pattern[i := path], preds + inline;
        assert pattern[..i + 1] == pattern[..i] + [path];
      }
      assert pattern[..|pattern|] + [] == pattern && preds + [] == preds;
      where := Conjoin(preds);
    }
  }

  // ---- a path, and a projection -------------------------------------------------------------------------

  class PathNode {
    var path: Path

    constructor (path: Path)
      ensures this.path == path
    {
      this.path := path;
    }

    /** `canonicalize_patterns` on one path. */
    method Canonicalize()
      modifies this
      ensures path == C.Flip(old(path))
    {
      var elems := path.elements;
      if |elems| == 3 && elems[1].RelEl? && elems[1].rel.direction.Incoming? {
        path := path.(elements := [elems[2], RelEl(elems[1].rel.(direction := Outgoing)), elems[0]]);
      }
    }
  }

  method HasAggregate(items: seq<Item>) returns (found: bool)
    ensures found == D.HasPlainAgg(items)
  {
    for i := 0 to |items|
      invariant forall k :: 0 <= k < i ==> !D.IsPlainAgg(items[k])
    {
      if D.IsPlainAgg(items[i]) {
        return true;
      }
    }
    return false;
  }

  class ProjectionNode {
    var proj: Projection

    constructor (proj: Projection)
      ensures this.proj == proj
    {
      this.proj := proj;
    }

    /** `drop_distinct_beside_aggregate` on one WITH or RETURN. */
    method DropDistinct()
      modifies this
      ensures proj == D.DropIn(old(proj))
    {
      var found := HasAggregate(proj.items);
      if proj.distinct && found {
        proj := proj.(distinct := false);
      }
    }
  }
}
