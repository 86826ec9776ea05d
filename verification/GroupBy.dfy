/** Clearing GROUP BY metadata: the written keys group the rows exactly as the core executor does. */
module GroupBy {
  import opened Prelude
  import opened Ast
  import opened Evaluation
  import opened KeyMatching
  import opened Query

  // ---- when the metadata may be cleared ---------------------------------------------------------

  function AliasExpr(alias: Option<string>): Option<Expr> {
    if alias.Some? then Some(Identifier(alias.value)) else None
  }

  function NonAggregates(items: seq<Item>): seq<Grouping<Expr>> {
    if items == [] then []
    else (if IsAgg(items[0]) || items[0].Star? then [] else [Grouping(items[0].expr, AliasExpr(items[0].alias))])
         + NonAggregates(items[1..])
  }

  predicate MatchesProjection(items: seq<Item>, keys: seq<Expr>) {
    !HasStar(items) && HasAgg(items) && KeysMatch(keys, NonAggregates(items))
  }

  method GroupByMatches(items: seq<Item>, keys: seq<Expr>) returns (ok: bool)
    ensures ok == MatchesProjection(items, keys)
  {
    if HasStar(items) || !HasAgg(items) {
      return false;
    }
    var grouping: seq<Grouping<Expr>> := [];
    assert items[0..] == items;
    for i := 0 to |items|
      invariant grouping + NonAggregates(items[i..]) == NonAggregates(items)
    {
      assert items[i..][0] == items[i] && items[i..][1..] == items[i + 1..];
      if !IsAgg(items[i]) {
        grouping := grouping + [Grouping(items[i].expr, AliasExpr(items[i].alias))];
      }
    }
    assert grouping == NonAggregates(items);
    assert keys[0..] == keys;
    for k := 0 to |keys|
      invariant KeysMatch(keys[k..], grouping) == KeysMatch(keys, NonAggregates(items))
    {
      assert keys[k..][0] == keys[k] && keys[k..][1..] == keys[k + 1..];
      var i := FirstFit(keys[k], grouping);
      if i == |grouping| {
        return false;
      }
      grouping := Without(grouping, i);
    }
    return grouping == [];
  }

  // ---- permuted keys group alike ---------------------------------------------------------------------

  ghost function Permuted<T>(perm: seq<nat>, xs: seq<T>): seq<T>
    requires Permutation(perm, |xs|)
  {
    seq(|perm|, j requires 0 <= j < |perm| => xs[perm[j]])
  }

  lemma {:induction false} FreezeAt(vs: seq<Value>)
    ensures forall i :: 0 <= i < |vs| ==> FreezeAll(vs)[i] == Freeze(vs[i])
    ensures forall i :: 0 <= i < |vs| ==> NormAll(vs)[i] == Norm(vs[i])
  {
    if vs != [] { FreezeAt(vs[1..]); }
  }

  lemma KeyPermutes(ctx: Ctx, perm: seq<nat>, es: seq<Expr>, row: Row)
    requires Permutation(perm, |es|) && GroupKey(ctx, es, row).Ok?
    ensures |GroupKey(ctx, es, row).value| == |es|
    ensures GroupKey(ctx, Permuted(perm, es), row) == Ok(Permuted(perm, GroupKey(ctx, es, row).value))
  {
    var env, ws := ctx.params + row, Permuted(perm, es);
    EvalAllAt(ctx, es, env);
    EvalAllAt(ctx, ws, env);
    FreezeAt(EvalAll(ctx, es, env).value);
    FreezeAt(EvalAll(ctx, ws, env).value);
    assert FreezeAll(EvalAll(ctx, ws, env).value) == Permuted(perm, FreezeAll(EvalAll(ctx, es, env).value));
  }

  /** Permuting two keys alike neither makes nor breaks their equality. */
  lemma SameAfterPermuting(perm: seq<nat>, a: seq<Value>, b: seq<Value>)
    requires |a| == |b| && Permutation(perm, |a|)
    ensures NormAll(Permuted(perm, a)) == NormAll(Permuted(perm, b)) <==> NormAll(a) == NormAll(b)
  {
    FreezeAt(a);
    FreezeAt(b);
    FreezeAt(Permuted(perm, a));
    FreezeAt(Permuted(perm, b));
    if NormAll(Permuted(perm, a)) == NormAll(Permuted(perm, b)) {
      forall i | 0 <= i < |a| ensures NormAll(a)[i] == NormAll(b)[i] {
        assert i in perm;
        var j :| 0 <= j < |perm| && perm[j] == i;
        assert NormAll(Permuted(perm, a))[j] == NormAll(Permuted(perm, b))[j];
      }
    }
    if NormAll(a) == NormAll(b) {
      forall j | 0 <= j < |perm| ensures NormAll(Permuted(perm, a))[j] == NormAll(Permuted(perm, b))[j] {
        assert NormAll(a)[perm[j]] == NormAll(b)[perm[j]];
      }
    }
  }

  /** The same groups in the same order with the same rows; only the parts of each key are permuted. */
  ghost predicate SameGroups(perm: seq<nat>, gs: seq<Group>, hs: seq<Group>) {
    |hs| == |gs| && forall i :: 0 <= i < |gs| ==> SameGroup(perm, gs[i], hs[i])
  }

  ghost predicate SameGroup(perm: seq<nat>, g: Group, h: Group) {
    Permutation(perm, |g.key|) && h == Group(Permuted(perm, g.key), g.rows)
  }

  lemma {:induction false} AddAlike(perm: seq<nat>, gs: seq<Group>, hs: seq<Group>, key: seq<Value>, row: Row)
    requires SameGroups(perm, gs, hs) && Permutation(perm, |key|)
    ensures SameGroups(perm, AddToGroup(gs, key, row), AddToGroup(hs, Permuted(perm, key), row))
    decreases gs
  {
    if gs != [] {
      assert SameGroup(perm, gs[0], hs[0]);
      SameAfterPermuting(perm, gs[0].key, key);
      assert SameGroups(perm, gs[1..], hs[1..]);
      if NormAll(gs[0].key) != NormAll(key) { AddAlike(perm, gs[1..], hs[1..], key, row); }
    }
  }

  lemma {:induction false} GroupAlike(
    ctx: Ctx, perm: seq<nat>, es: seq<Expr>, rows: seq<Row>, gs: seq<Group>, hs: seq<Group>)
    requires Permutation(perm, |es|) && SameGroups(perm, gs, hs) && GroupRows(ctx, es, rows, gs).Ok?
    ensures GroupRows(ctx, Permuted(perm, es), rows, hs).Ok?
    ensures SameGroups(perm, GroupRows(ctx, es, rows, gs).value, GroupRows(ctx, Permuted(perm, es), rows, hs).value)
    decreases rows
  {
    if rows != [] {
      KeyPermutes(ctx, perm, es, rows[0]);
      var key := GroupKey(ctx, es, rows[0]).value;
      AddAlike(perm, gs, hs, key, rows[0]);
      GroupAlike(ctx, perm, es, rows[1..], AddToGroup(gs, key, rows[0]), AddToGroup(hs, Permuted(perm, key), rows[0]));
    }
  }

  // ---- the theorem ------------------------------------------------------------------------------------

  function Cores(gs: seq<Grouping<Expr>>): seq<Expr> {
    seq(|gs|, i requires 0 <= i < |gs| => gs[i].core)
  }

  lemma {:induction false} CoresAreKeys(items: seq<Item>)
    requires !HasStar(items)
    ensures Cores(NonAggregates(items)) == KeyExprs(items)
  {
    if items != [] {
      HasStarCons(items);
      CoresAreKeys(items[1..]);
      var gs, hs := NonAggregates(items), NonAggregates(items[1..]);
      if IsAgg(items[0]) {
        assert gs == hs;
      } else {
        assert gs == [Grouping(items[0].expr, AliasExpr(items[0].alias))] + hs;
        assert Cores(gs) == [items[0].expr] + Cores(hs);
      }
    }
  }

  /** When the metadata is cleared, every written key stands for its own non-aggregate projection, by
      expression or by alias, and grouping by the keys in the order written gives the groups of core
      execution: as many, in the same first-seen order, over the same rows. */
  lemma GroupByIsRedundant(ctx: Ctx, items: seq<Item>, keys: seq<Expr>, rows: seq<Row>) returns (perm: seq<nat>)
    requires MatchesProjection(items, keys) && GroupRows(ctx, KeyExprs(items), rows, []).Ok?
    ensures |keys| == |KeyExprs(items)| && Permutation(perm, |keys|)
    ensures var gs := NonAggregates(items);
            |gs| == |keys| && forall j :: 0 <= j < |keys| ==> Fits(keys[j], gs[perm[j]])
    ensures var written := Permuted(perm, KeyExprs(items));
            GroupRows(ctx, written, rows, []).Ok? &&
            SameGroups(perm, GroupRows(ctx, KeyExprs(items), rows, []).value, GroupRows(ctx, written, rows, []).value)
  {
    perm := MatchIsBijection(keys, NonAggregates(items));
    CoresAreKeys(items);
    GroupAlike(ctx, perm, KeyExprs(items), rows, [], []);
  }

  /** The written key that stands for projection `i`. */
  ghost function Slot(perm: seq<nat>, i: nat): (j: nat)
    requires Permutation(perm, |perm|) && i < |perm|
    ensures j < |perm| && perm[j] == i
  {
    assert i in perm;
    var j :| 0 <= j < |perm| && perm[j] == i;
    j
  }

  /** The parts of a key, from written order back to projection order. */
  ghost function PutBack(perm: seq<nat>, key: seq<Value>): seq<Value>
    requires Permutation(perm, |key|)
  {
    seq(|key|, i requires 0 <= i < |key| => key[Slot(perm, i)])
  }

  ghost predicate Keyed(perm: seq<nat>, hs: seq<Group>) {
    forall h :: h in hs ==> Permutation(perm, |h.key|)
  }

  ghost function InOrder(perm: seq<nat>, hs: seq<Group>): seq<Group>
    requires Keyed(perm, hs)
  {
    seq(|hs|, i requires 0 <= i < |hs| => assert hs[i] in hs; Group(PutBack(perm, hs[i].key), hs[i].rows))
  }

  lemma BackInOrder(perm: seq<nat>, gs: seq<Group>, hs: seq<Group>)
    requires SameGroups(perm, gs, hs)
    ensures Keyed(perm, hs) && InOrder(perm, hs) == gs
  {
    forall h | h in hs ensures Permutation(perm, |h.key|) {
      var i :| 0 <= i < |hs| && hs[i] == h;
      assert SameGroup(perm, gs[i], hs[i]);
    }
    forall i | 0 <= i < |gs| ensures InOrder(perm, hs)[i] == gs[i] {
      assert SameGroup(perm, gs[i], hs[i]);
      assert PutBack(perm, hs[i].key) == gs[i].key;
    }
  }

  /** Grouping by the written keys and putting each key's value under its projection gives the result rows
      of core execution, in the same order. */
  lemma SameResultRows(ctx: Ctx, items: seq<Item>, keys: seq<Expr>, rows: seq<Row>) returns (perm: seq<nat>)
    requires MatchesProjection(items, keys) && GroupRows(ctx, KeyExprs(items), rows, []).Ok?
    ensures |keys| == |KeyExprs(items)| && Permutation(perm, |keys|)
    ensures var written := GroupRows(ctx, Permuted(perm, KeyExprs(items)), rows, []);
            && written.Ok? && Keyed(perm, written.value)
            && GroupResults(ctx, items, InOrder(perm, written.value)) ==
               GroupResults(ctx, items, GroupRows(ctx, KeyExprs(items), rows, []).value)
  {
    perm := GroupByIsRedundant(ctx, items, keys, rows);
    BackInOrder(perm, GroupRows(ctx, KeyExprs(items), rows, []).value,
                GroupRows(ctx, Permuted(perm, KeyExprs(items)), rows, []).value);
  }

  // ---- when the check is not too cautious ----------------------------------------------------------------

  /** Every list of keys that stands for the non-aggregate projections one to one is accepted exactly when
      these are covered: of two that share an expression or alias, the later has all the earlier has. */
  lemma AcceptsEveryMatch(items: seq<Item>)
    requires !HasStar(items) && HasAgg(items)
    ensures (forall keys: seq<Expr>, perm: seq<nat> :: OneToOne(keys, perm, NonAggregates(items)) ==>
                                                         MatchesProjection(items, keys)) <==>
            Covered(NonAggregates(items))
  {
    AcceptsAllExactly(NonAggregates(items));
    assert forall keys :: MatchesProjection(items, keys) <==> KeysMatch(keys, NonAggregates(items));
  }

  /** `a AS b, b, count(*)`. */
  const SHADOWED: seq<Item> :=
    [Item(Identifier("a"), Some("b")), Item(Identifier("b"), None), Item(Call("count", false, [StarArg]), None)]

  const SHADOWED_GROUPINGS: seq<Grouping<Expr>> :=
    [Grouping(Identifier("a"), Some(Identifier("b"))), Grouping(Identifier("b"), None)]

  lemma ShadowedGroupings()
    ensures NonAggregates(SHADOWED) == SHADOWED_GROUPINGS && !HasStar(SHADOWED) && HasAgg(SHADOWED)
  {
    var items := SHADOWED;
    assert IsAgg(items[2]) by { assert Lower("count") == "count"; }
    assert items[1..] == [items[1], items[2]] && items[1..][1..] == [items[2]] && [items[2]][1..] == [];
    assert NonAggregates([items[2]]) == [] + NonAggregates([]);
    assert NonAggregates(items[1..]) == [SHADOWED_GROUPINGS[1]];
  }

  lemma ShadowedRefused()
    ensures !KeysMatch([Identifier("b"), Identifier("a")], SHADOWED_GROUPINGS)
  {
    var gs, keys := SHADOWED_GROUPINGS, [Identifier("b"), Identifier("a")];
    assert FirstFit(keys[0], gs) == 0;
    assert Without(gs, 0) == [gs[1]] && keys[1..] == [Identifier("a")];
    assert FirstFit(Identifier("a"), [gs[1]]) == 1;
  }

  /** `... a AS b, b, count(*) GROUP BY b, a` is refused: `b` takes the first item, and `a` is left without one. */
  lemma FirstFitMayRefuse()
    ensures !HasStar(SHADOWED) && HasAgg(SHADOWED)
    ensures OneToOne([Identifier("b"), Identifier("a")], [1, 0], NonAggregates(SHADOWED))
    ensures !MatchesProjection(SHADOWED, [Identifier("b"), Identifier("a")])
  {
    ShadowedGroupings();
    ShadowedRefused();
    assert 0 in [1, 0] && 1 in [1, 0];
  }
}
