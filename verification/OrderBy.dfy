/** ORDER BY as the executor runs it: the rows of a projection are a sorted rearrangement, then a slice. */
module OrderBy {
  import opened Prelude
  import opened Ast
  import opened Evaluation
  import opened Ordering
  import opened Query

  function SortKeys(ctx: Ctx, os: seq<Ordered>): seq<Paired -> Value> {
    seq(|os|, i requires 0 <= i < |os| => SortKey(ctx, os[i]))
  }

  /** The loop over the ORDER BY items is one stable pass per key, from the last key to the first. */
  lemma {:induction false} OrderAllIsPasses(ctx: Ctx, os: seq<Ordered>, ps: seq<Paired>)
    requires OrderAll(ctx, os, ps).Ok?
    ensures OrderPasses(os, SortKeys(ctx, os), ps) == OrderAll(ctx, os, ps)
    decreases os
  {
    if os != [] {
      OrderAllIsPasses(ctx, os[1..], ps);
      assert SortKeys(ctx, os)[1..] == SortKeys(ctx, os[1..]);
    }
  }

  /** No sort value raises, and those of one key that are not null can be compared with each other. */
  ghost predicate Sortable(ctx: Ctx, o: Ordered, ps: seq<Paired>) {
    && (forall j :: 0 <= j < |ps| ==> SortValue(ctx, o, ps[j]).Ok?)
    && Comparable(SortKey(ctx, o), Filter(RealKey(SortKey(ctx, o)), ps))
  }

  /** ORDER BY succeeds exactly when every one of its keys can be sorted by. */
  lemma {:induction false} OrderAllSucceeds(ctx: Ctx, os: seq<Ordered>, ps: seq<Paired>)
    ensures OrderAll(ctx, os, ps).Ok? <==> forall i :: 0 <= i < |os| ==> Sortable(ctx, os[i], ps)
    decreases os
  {
    if os != [] {
      OrderAllSucceeds(ctx, os[1..], ps);
      assert os == [os[0]] + os[1..];
      assert (forall i :: 0 <= i < |os| ==> Sortable(ctx, os[i], ps)) <==>
             Sortable(ctx, os[0], ps) && forall i :: 0 <= i < |os[1..]| ==> Sortable(ctx, os[1..][i], ps);
      if OrderAll(ctx, os[1..], ps).Ok? {
        var qs := OrderAll(ctx, os[1..], ps).value;
        SameRows(ctx, os[1..], ps);
        SortableAlike(ctx, os[0], ps, qs);
        PassSucceeds(ctx, os[0], qs);
      }
    }
  }

  lemma SameRows(ctx: Ctx, os: seq<Ordered>, ps: seq<Paired>)
    requires OrderAll(ctx, os, ps).Ok?
    ensures forall p :: p in ps <==> p in OrderAll(ctx, os, ps).value
  {
    var qs := OrderAll(ctx, os, ps).value;
    var perm := OrderAllIsSorted(ctx, os, ps);
    SameElements(perm, Positions(|ps|));
    forall p | p in ps ensures p in qs {
      var i :| 0 <= i < |ps| && ps[i] == p;
      assert Positions(|ps|)[i] == i;
      assert i in perm;
      var k :| 0 <= k < |perm| && perm[k] == i;
      assert qs[k] == p;
    }
  }

  lemma SortableAlike(ctx: Ctx, o: Ordered, ps: seq<Paired>, qs: seq<Paired>)
    requires forall p :: p in ps <==> p in qs
    ensures Sortable(ctx, o, ps) <==> Sortable(ctx, o, qs)
  {
    if Sortable(ctx, o, ps) {
      StillComparable(SortKey(ctx, o), ps, qs);
      forall j | 0 <= j < |qs| ensures SortValue(ctx, o, qs[j]).Ok? { assert qs[j] in ps; }
    }
    if Sortable(ctx, o, qs) {
      StillComparable(SortKey(ctx, o), qs, ps);
      forall j | 0 <= j < |ps| ensures SortValue(ctx, o, ps[j]).Ok? { assert ps[j] in qs; }
    }
  }

  lemma PassSucceeds(ctx: Ctx, o: Ordered, ps: seq<Paired>)
    ensures OrderPaired(ctx, o, ps).Ok? <==> Sortable(ctx, o, ps)
  {
    var key := SortKey(ctx, o);
    var rest := Filter(RealKey(key), ps);
    AllValuesOk(ctx, o, ps);
    forall i, j | 0 <= i < |rest| && 0 <= j < |rest| && |rest| < 2
      ensures CanCompare(SortVal(key(rest[i])), SortVal(key(rest[j])))
    {
      assert rest[i] in rest && RealKey(key)(rest[i]);
      CanCompareSelf(key(rest[i]));
    }
  }

  lemma CanCompareSelf(v: Value)
    requires v != Null
    ensures CanCompare(SortVal(v), SortVal(v))
  {
    match v
    case List(xs) => SameItems(NormAll(xs));
    case Tup(xs) => SameItems(NormAll(xs));
    case _ =>
  }

  lemma {:induction false} SameItems(xs: seq<Value>)
    ensures CanCompareAll(xs, xs)
  {
    if xs != [] { SameItems(xs[1..]); }
  }

  lemma {:induction false} AllValuesOk(ctx: Ctx, o: Ordered, ps: seq<Paired>)
    ensures SortValuesOk(ctx, o, ps).Ok? <==> forall j :: 0 <= j < |ps| ==> SortValue(ctx, o, ps[j]).Ok?
  {
    if ps != [] {
      AllValuesOk(ctx, o, ps[1..]);
      assert ps == [ps[0]] + ps[1..];
    }
  }

  lemma StillComparable(key: Paired -> Value, ps: seq<Paired>, qs: seq<Paired>)
    requires forall q :: q in qs ==> q in ps
    requires Comparable(key, Filter(RealKey(key), ps))
    ensures Comparable(key, Filter(RealKey(key), qs))
  {
    var xs, ys := Filter(RealKey(key), ps), Filter(RealKey(key), qs);
    forall i, j | 0 <= i < |ys| && 0 <= j < |ys| ensures CanCompare(SortVal(key(ys[i])), SortVal(key(ys[j]))) {
      InFilter(RealKey(key), ps, ys[i]);
      InFilter(RealKey(key), ps, ys[j]);
      var a :| 0 <= a < |xs| && xs[a] == ys[i];
      var b :| 0 <= b < |xs| && xs[b] == ys[j];
    }
  }

  lemma {:induction false} InFilter<T>(p: T -> bool, xs: seq<T>, x: T)
    requires x in xs && p(x)
    ensures x in Filter(p, xs)
  {
    if xs[0] != x { InFilter(p, xs[1..], x); }
  }

  /** ORDER BY rearranges the rows by a permutation of their positions that is lexicographically sorted,
      with ties in input order. */
  lemma OrderAllIsSorted(ctx: Ctx, os: seq<Ordered>, ps: seq<Paired>) returns (perm: seq<nat>)
    requires OrderAll(ctx, os, ps).Ok?
    ensures multiset(perm) == multiset(Positions(|ps|))
    ensures Picks(ps, perm, OrderAll(ctx, os, ps).value)
    ensures SortedBy(os, KeysAt(ps, SortKeys(ctx, os)), perm)
  {
    OrderAllIsPasses(ctx, os, ps);
    perm := OrderByIsSorted(os, SortKeys(ctx, os), ps);
  }

  /** SKIP and LIMIT cut one stretch out of the sorted rows. */
  ghost predicate Window<T>(xs: seq<T>, from: nat, to: nat, ys: seq<T>) {
    from <= to <= |xs| && ys == xs[from..to]
  }

  lemma SliceWindow<T>(xs: seq<T>, a: int, b: int) returns (from: nat, to: nat)
    ensures Window(xs, from, to, PySlice(xs, a, b))
    ensures from <= |xs| && (a == 0 ==> from == 0) && (b == |xs| ==> to == |xs|)
  {
    from, to := Clamp(a, |xs|), Clamp(b, |xs|);
    if from > to { to := from; }
  }

  lemma WindowOfWindow<T>(xs: seq<T>, a: nat, b: nat, ys: seq<T>, c: nat, d: nat, zs: seq<T>)
    requires Window(xs, a, b, ys) && Window(ys, c, d, zs)
    ensures Window(xs, a + c, a + d, zs)
  {
    var ws := xs[a + c..a + d];
    assert |zs| == |ws|;
    forall k | 0 <= k < |zs| ensures zs[k] == ws[k] { assert zs[k] == ys[c + k] == xs[a + (c + k)]; }
  }

  /** The rows a projection keeps after DISTINCT and the WHERE of a WITH, each with the row it comes from. */
  ghost function Kept(ctx: Ctx, proj: Projection, w: Option<Expr>, rows: seq<Row>): Result<seq<Paired>> {
    match FlatMapR(PairFn(ctx, proj.items), rows)
    case Err(e) => Err(e)
    case Ok(ps) => FilterR(ProjPasses(ctx, w), if proj.distinct then Dedupe(PairKey(), ps, {}) else ps)
  }

  /** A projection returns a stretch of its kept rows in sorted order: all of them without SKIP and LIMIT. */
  lemma ProjectIsSorted(ctx: Ctx, proj: Projection, w: Option<Expr>, rows: seq<Row>)
    returns (perm: seq<nat>, from: nat, to: nat)
    requires Project(ctx, proj, w, rows).Ok?
    ensures Kept(ctx, proj, w, rows).Ok?
    ensures var kept, out := Kept(ctx, proj, w, rows).value, Project(ctx, proj, w, rows).value;
            && multiset(perm) == multiset(Positions(|kept|))
            && SortedBy(proj.order, KeysAt(kept, SortKeys(ctx, proj.order)), perm)
            && from <= to <= |perm| && |out| == to - from
            && (forall k :: 0 <= k < |out| ==> perm[from + k] < |kept| && out[k] == kept[perm[from + k]].proj)
            && (proj.skip == None ==> from == 0) && (proj.skip == None && proj.limit == None ==> to == |kept|)
  {
    var kept := Kept(ctx, proj, w, rows).value;
    perm := OrderAllIsSorted(ctx, proj.order, kept);
    var sorted := OrderAll(ctx, proj.order, kept).value;
    var all := Map(ProjOf(), sorted);
    from, to := SkipLimitWindow(ctx, proj, all);
    assert |Positions(|kept|)| == |multiset(Positions(|kept|))| == |multiset(perm)| == |perm|;
    var out := Project(ctx, proj, w, rows).value;
    forall k | 0 <= k < |out| ensures perm[from + k] < |kept| && out[k] == kept[perm[from + k]].proj {
      assert out[k] == all[from + k] == sorted[from + k].proj;
    }
  }

  lemma SkipLimitWindow(ctx: Ctx, proj: Projection, all: seq<Row>) returns (from: nat, to: nat)
    requires SkipRows(ctx, proj.skip, all).Ok?
    requires LimitRows(ctx, proj.limit, SkipRows(ctx, proj.skip, all).value).Ok?
    ensures Window(all, from, to, LimitRows(ctx, proj.limit, SkipRows(ctx, proj.skip, all).value).value)
    ensures proj.skip == None ==> from == 0
    ensures proj.skip == None && proj.limit == None ==> to == |all|
  {
    var a, b := 0, |all|;
    var skipped := SkipRows(ctx, proj.skip, all).value;
    if proj.skip.Some? { a, b := SliceWindow(all, Count(ctx, proj.skip.value).value, |all|); }
    assert all[0..|all|] == all;
    var c, d := 0, |skipped|;
    if proj.limit.Some? { c, d := SliceWindow(skipped, 0, Count(ctx, proj.limit.value).value); }
    assert skipped[0..|skipped|] == skipped;
    WindowOfWindow(all, a, b, skipped, c, d, LimitRows(ctx, proj.limit, skipped).value);
    from, to := a + c, a + d;
  }
}
