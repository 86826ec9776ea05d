/** The undefined-variable check: a scope machine over the clauses of a query. */
module Scope {
  import opened Prelude
  import opened Ast

  // ---- the names an expression refers to ----------------------------------------------------

  /** `_refs`: every identifier, except an argument that is spelled like the function it is passed to. */
  function Refs(e: Expr): set<string>
    decreases e, 1
  {
    match e
    case Identifier(x) => {x}
    case Property(o, _) => Refs(o)
    case ListLit(es) => RefsAll(es)
    case Binary(_, l, r) => Refs(l) + Refs(r)
    case Not(a) => Refs(a)
    case Neg(a) => Refs(a)
    case IsNull(a, _) => Refs(a)
    case Subscript(b, i) => Refs(b) + Refs(i)
    case Slice(b, s, n) =>
      Refs(b) + (if s.Some? then Refs(s.value) else {}) + (if n.Some? then Refs(n.value) else {})
    case Call(f, _, es) => RefsArgs(f, es)
    case Coalesce(es) => RefsAll(es)
    case _ => {}
  }

  function RefsAll(es: seq<Expr>): set<string>
    decreases es, 0
  {
    if es == [] then {} else Refs(es[0]) + RefsAll(es[1..])
  }

  function RefsArgs(f: string, es: seq<Expr>): set<string>
    decreases es, 0
  {
    if es == [] then {}
    else (if es[0] == Identifier(f) then {} else Refs(es[0])) + RefsArgs(f, es[1..])
  }

  function RefsOpt(e: Option<Expr>): set<string> {
    if e.Some? then Refs(e.value) else {}
  }

  function OrderRefs(os: seq<Ordered>): set<string> {
    if os == [] then {} else Refs(os[0].expr) + OrderRefs(os[1..])
  }

  function ItemRefs(items: seq<Item>): set<string> {
    if items == [] then {}
    else (if items[0].Star? then {} else Refs(items[0].expr)) + ItemRefs(items[1..])
  }

  // ---- scopes ----------------------------------------------------------------------------------

  /** `_alias_name`: the name an item certainly defines. */
  function AliasName(item: Item): Option<string> {
    if item.Star? then None
    else if item.alias.Some? then item.alias
    else if item.expr.Identifier? then Some(item.expr.name)
    else None
  }

  function AliasNames(items: seq<Item>): set<string> {
    if items == [] then {} else OptSet(AliasName(items[0])) + AliasNames(items[1..])
  }

  function PageRefs(p: Projection): set<string> {
    OrderRefs(p.order) + RefsOpt(p.skip) + RefsOpt(p.limit)
  }

  function Projected(p: Projection, scope: set<string>): set<string> {
    (if HasStar(p.items) then scope else {}) + AliasNames(p.items)
  }

  /** The names a clause uses outside their scope. */
  function Missing(c: Clause, scope: set<string>): set<string> {
    match c
    case Match(pattern, _, w) => RefsOpt(w) - (scope + PatternVars(pattern))
    case With(p, w) => (ItemRefs(p.items) - scope) + ((RefsOpt(w) + PageRefs(p)) - Projected(p, scope))
    case Unwind(e, _) => Refs(e) - scope
    case Return(p) => (ItemRefs(p.items) - scope) + (PageRefs(p) - (scope + AliasNames(p.items)))
  }

  function ScopeAfter(c: Clause, scope: set<string>): set<string> {
    match c
    case Match(pattern, _, _) => scope + PatternVars(pattern)
    case With(p, _) => Projected(p, scope)
    case Unwind(_, alias) => scope + {alias}
    case Return(_) => scope
  }

  /** No clause uses a name outside its scope. */
  predicate Accepts(cs: seq<Clause>, scope: set<string>) {
    cs == [] || (Missing(cs[0], scope) == {} && Accepts(cs[1..], ScopeAfter(cs[0], scope)))
  }

  /** `name` is undefined in the first clause that goes wrong. */
  predicate Reports(cs: seq<Clause>, scope: set<string>, name: string) {
    cs != [] &&
    if Missing(cs[0], scope) == {} then Reports(cs[1..], ScopeAfter(cs[0], scope), name)
    else name in Missing(cs[0], scope)
  }

  // ---- the check itself ----------------------------------------------------------------------------

  /** `for name in refs: if name not in scope: return name`; sets iterate in some order. */
  method FirstOutside(refs: set<string>, scope: set<string>) returns (issue: Option<string>)
    ensures issue.None? <==> refs - scope == {}
    ensures issue.Some? ==> issue.value in refs - scope
  {
    var todo := refs;
    while todo != {}
      invariant todo <= refs && forall x :: x in refs && x !in todo ==> x in scope
      decreases todo
    {
      var name :| name in todo;
      if name !in scope {
        assert name in refs - scope;
        return Some(name);
      }
      todo := todo - {name};
    }
    return None;
  }

  method AddPatternVars(pattern: Pattern, scope: set<string>) returns (s: set<string>)
    ensures s == scope + PatternVars(pattern)
  {
    s := scope;
    assert pattern[0..] == pattern;
    for k := 0 to |pattern|
      invariant s + PatternVars(pattern[k..]) == scope + PatternVars(pattern)
    {
      assert pattern[k..][0] == pattern[k] && pattern[k..][1..] == pattern[k + 1..];
      var elements := AddElementVars(pattern[k].elements, s + OptSet(pattern[k].variable));
      s := elements;
    }
  }

  method AddElementVars(elems: seq<Element>, scope: set<string>) returns (s: set<string>)
    ensures s == scope + ElementVars(elems)
  {
    s := scope;
    assert elems[0..] == elems;
    for k := 0 to |elems|
      invariant s + ElementVars(elems[k..]) == scope + ElementVars(elems)
    {
      assert elems[k..][0] == elems[k] && elems[k..][1..] == elems[k + 1..];
      s := s + VarOf(elems[k]);
    }
  }

  method CheckItems(items: seq<Item>, scope: set<string>) returns (issue: Option<string>)
    ensures issue.None? <==> ItemRefs(items) - scope == {}
    ensures issue.Some? ==> issue.value in ItemRefs(items) - scope
  {
    assert items[0..] == items;
    for k := 0 to |items|
      invariant ItemRefs(items) - scope == ItemRefs(items[k..]) - scope
    {
      assert items[k..][0] == items[k] && items[k..][1..] == items[k + 1..];
      if !items[k].Star? {
        issue := FirstOutside(Refs(items[k].expr), scope);
        if issue.Some? {
          return;
        }
      }
    }
    return None;
  }

  method ProjectedNames(p: Projection, scope: set<string>) returns (next: set<string>)
    ensures next == Projected(p, scope)
  {
    var hasStar, aliases: set<string> := false, {};
    assert p.items[0..] == p.items;
    for k := 0 to |p.items|
      invariant HasStar(p.items) <==> hasStar || HasStar(p.items[k..])
      invariant aliases + AliasNames(p.items[k..]) == AliasNames(p.items)
    {
      assert p.items[k..][0] == p.items[k] && p.items[k..][1..] == p.items[k + 1..];
      HasStarCons(p.items[k..]);
      hasStar := hasStar || p.items[k].Star?;
      aliases := aliases + OptSet(AliasName(p.items[k]));
    }
    next := (if hasStar then scope else {}) + aliases;
  }

  /** Stops at the first clause that uses a name outside its scope, and says which name. */
  method CheckQuery(clauses: seq<Clause>) returns (issue: Option<string>)
    ensures issue.None? <==> Accepts(clauses, {})
    ensures issue.Some? ==> Reports(clauses, {}, issue.value)
  {
    var scope: set<string> := {};
    assert clauses[0..] == clauses;
    for i := 0 to |clauses|
      invariant Accepts(clauses, {}) <==> Accepts(clauses[i..], scope)
      invariant forall name :: Reports(clauses, {}, name) <==> Reports(clauses[i..], scope, name)
    {
      assert clauses[i..][0] == clauses[i] && clauses[i..][1..] == clauses[i + 1..];
      issue, scope := CheckClause(clauses[i], scope);
      if issue.Some? {
        return;
      }
    }
    return None;
  }

  method CheckClause(clause: Clause, scope: set<string>) returns (issue: Option<string>, next: set<string>)
    ensures issue.None? <==> Missing(clause, scope) == {}
    ensures issue.Some? ==> issue.value in Missing(clause, scope)
    ensures issue.None? ==> next == ScopeAfter(clause, scope)
  {
    next := scope;
    match clause
    case Match(pattern, _, w) =>
      next := AddPatternVars(pattern, scope);
      issue := FirstOutside(RefsOpt(w), next);
    case With(p, w) =>
      issue := CheckItems(p.items, scope);
      if issue.None? {
        next := ProjectedNames(p, scope);
        issue := FirstOutside(RefsOpt(w), next);
        if issue.None? {
          issue := CheckPage(p, next);
        }
      }
    case Unwind(e, alias) =>
      issue := FirstOutside(Refs(e), scope);
      next := scope + {alias};
    case Return(p) =>
      issue := CheckItems(p.items, scope);
      if issue.None? {
        var aliases := ProjectedNames(p, {});
        issue := CheckPage(p, scope + aliases);
      }
  }

  method CheckPage(p: Projection, scope: set<string>) returns (issue: Option<string>)
    ensures issue.None? <==> PageRefs(p) - scope == {}
    ensures issue.Some? ==> issue.value in PageRefs(p) - scope
  {
    issue := FirstOutside(OrderRefs(p.order), scope);
    if issue.None? {
      issue := FirstOutside(RefsOpt(p.skip), scope);
    }
    if issue.None? {
      issue := FirstOutside(RefsOpt(p.limit), scope);
    }
  }
}
