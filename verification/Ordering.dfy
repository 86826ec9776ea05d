/** ORDER BY: one stable pass per key, from the last key to the first. */
module Ordering {
  import opened Prelude
  import opened Ast
  import opened Evaluation

  // ---- comparing sort values ------------------------------------------------------------

  /** `_sort_val`: an entity sorts by its id. Numbers that Python calls equal become one number. */
  function SortVal(v: Value): Value {
    match v
    case NodeRef(n) => Float(n as real)
    case RelRef(r) => Float(r as real)
    case _ => Norm(v)
  }

  predicate StrLe(a: string, b: string) {
    a == [] || (b != [] && (a[0] < b[0] || (a[0] == b[0] && StrLe(a[1..], b[1..]))))
  }

  /** Python's `<=` on sort values: numbers, strings, and lists or tuples by their first difference. */
  predicate Le(a: Value, b: Value)
    decreases a
  {
    match a
    case Float(r) => b.Float? && r <= b.r
    case Str(s) => b.Str? && StrLe(s, b.s)
    case List(xs) => b.List? && LeAll(xs, b.items)
    case Tup(xs) => b.Tup? && LeAll(xs, b.elems)
    case _ => false
  }

  predicate LeAll(xs: seq<Value>, ys: seq<Value>)
    decreases xs
  {
    xs == [] || (ys != [] && if xs[0] == ys[0] then LeAll(xs[1..], ys[1..]) else Le(xs[0], ys[0]))
  }

  /** Comparing the two does not raise. */
  predicate CanCompare(a: Value, b: Value)
    decreases a
  {
    match a
    case Float(_) => b.Float?
    case Str(_) => b.Str?
    case List(xs) => b.List? && CanCompareAll(xs, b.items)
    case Tup(xs) => b.Tup? && CanCompareAll(xs, b.elems)
    case _ => false
  }

  predicate CanCompareAll(xs: seq<Value>, ys: seq<Value>)
    decreases xs
  {
    xs == [] || ys == [] || if xs[0] == ys[0] then CanCompareAll(xs[1..], ys[1..]) else CanCompare(xs[0], ys[0])
  }

  /** Sorting raises as soon as some two values cannot be compared. */
  predicate Comparable<T>(key: T -> Value, xs: seq<T>) {
    forall i, j :: 0 <= i < |xs| && 0 <= j < |xs| ==> CanCompare(SortVal(key(xs[i])), SortVal(key(xs[j])))
  }

  lemma {:induction false} StrLeTotal(a: string, b: string)
    ensures StrLe(a, b) || StrLe(b, a)
  {
    if a != [] && b != [] { StrLeTotal(a[1..], b[1..]); }
  }

  lemma {:induction false} StrLeTransitive(a: string, b: string, c: string)
    requires StrLe(a, b) && StrLe(b, c)
    ensures StrLe(a, c)
  {
    if a != [] && a[0] == b[0] && b[0] == c[0] { StrLeTransitive(a[1..], b[1..], c[1..]); }
  }

  lemma {:induction false} StrLeBothWays(a: string, b: string)
    requires StrLe(a, b) && StrLe(b, a)
    ensures a == b
  {
    if a != [] {
      StrLeBothWays(a[1..], b[1..]);
      assert a == [a[0]] + a[1..] && b == [b[0]] + b[1..];
    }
  }

  lemma {:induction false} LeTotal(a: Value, b: Value)
    requires CanCompare(a, b)
    ensures Le(a, b) || Le(b, a)
    decreases a
  {
    match a
    case Str(s) => StrLeTotal(s, b.s);
    case List(xs) => LeAllTotal(xs, b.items);
    case Tup(xs) => LeAllTotal(xs, b.elems);
    case _ =>
  }

  lemma {:induction false} LeAllTotal(xs: seq<Value>, ys: seq<Value>)
    requires CanCompareAll(xs, ys)
    ensures LeAll(xs, ys) || LeAll(ys, xs)
    decreases xs
  {
    if xs != [] && ys != [] {
      if xs[0] == ys[0] { LeAllTotal(xs[1..], ys[1..]); } else { LeTotal(xs[0], ys[0]); }
    }
  }

  lemma {:induction false} LeBothWays(a: Value, b: Value)
    requires Le(a, b) && Le(b, a)
    ensures a == b
    decreases a
  {
    match a
    case Str(s) => StrLeBothWays(s, b.s);
    case List(xs) => LeAllBothWays(xs, b.items);
    case Tup(xs) => LeAllBothWays(xs, b.elems);
    case _ =>
  }

  lemma {:induction false} LeAllBothWays(xs: seq<Value>, ys: seq<Value>)
    requires LeAll(xs, ys) && LeAll(ys, xs)
    ensures xs == ys
    decreases xs
  {
    if xs != [] {
      if xs[0] == ys[0] {
        LeAllBothWays(xs[1..], ys[1..]);
        assert xs == [xs[0]] + xs[1..] && ys == [ys[0]] + ys[1..];
      } else {
        LeBothWays(xs[0], ys[0]);
      }
    }
  }

  lemma {:induction false} LeTransitive(a: Value, b: Value, c: Value)
    requires Le(a, b) && Le(b, c)
    ensures Le(a, c)
    decreases a
  {
    match a
    case Str(s) => StrLeTransitive(s, b.s, c.s);
    case List(xs) => LeAllTransitive(xs, b.items, c.items);
    case Tup(xs) => LeAllTransitive(xs, b.elems, c.elems);
    case _ =>
  }

  lemma {:induction false} LeAllTransitive(xs: seq<Value>, ys: seq<Value>, zs: seq<Value>)
    requires LeAll(xs, ys) && LeAll(ys, zs)
    ensures LeAll(xs, zs)
    decreases xs
  {
    if xs != [] {
      if xs[0] == ys[0] && ys[0] == zs[0] {
        LeAllTransitive(xs[1..], ys[1..], zs[1..]);
      } else if xs[0] != ys[0] && ys[0] != zs[0] {
        if xs[0] == zs[0] { LeBothWays(xs[0], ys[0]); } else { LeTransitive(xs[0], ys[0], zs[0]); }
      }
    }
  }

  // ---- one pass ----------------------------------------------------------------------------

  /** ASC puts nulls last and DESC puts them first unless the clause says otherwise. */
  predicate PutNullsFirst(o: Ordered) {
    o.nulls.NullsFirst? || (o.nulls.DefaultNulls? && o.desc)
  }

  function NullKey<T>(key: T -> Value): T -> bool {
    x => key(x) == Null
  }

  function RealKey<T>(key: T -> Value): T -> bool {
    x => key(x) != Null
  }

  predicate NotAfter(desc: bool, a: Value, b: Value) {
    if desc then Le(SortVal(b), SortVal(a)) else Le(SortVal(a), SortVal(b))
  }

  function Insert<T>(desc: bool, key: T -> Value, x: T, ys: seq<T>): seq<T> {
    if ys == [] || NotAfter(desc, key(x), key(ys[0])) then [x] + ys
    else [ys[0]] + Insert(desc, key, x, ys[1..])
  }

  /** Python's stable `list.sort(key=..., reverse=desc)`. */
  function StableSort<T>(desc: bool, key: T -> Value, xs: seq<T>): seq<T> {
    if xs == [] then [] else Insert(desc, key, xs[0], StableSort(desc, key, xs[1..]))
  }

  /** Sorting two or more incomparable values raises. */
  function OrderPass<T>(o: Ordered, key: T -> Value, xs: seq<T>): Result<seq<T>> {
    var nulls, rest := Filter(NullKey(key), xs), Filter(RealKey(key), xs);
    if |rest| >= 2 && !Comparable(key, rest) then Err(RuntimeFailure)
    else
      var sorted := StableSort(o.desc, key, rest);
      Ok(if PutNullsFirst(o) then nulls + sorted else sorted + nulls)
  }

  /** All passes; the keys are functions because each row's sort values are fixed before the first pass. */
  function OrderPasses<T>(os: seq<Ordered>, keys: seq<T -> Value>, xs: seq<T>): Result<seq<T>>
    requires |keys| == |os|
  {
    if os == [] then Ok(xs)
    else
      match OrderPasses(os[1..], keys[1..], xs)
      case Err(e) => Err(e)
      case Ok(ys) => OrderPass(os[0], keys[0], ys)
  }

  // ---- what the order means --------------------------------------------------------------------

  /** openCypher 9 orderability for one key: `a` may stand before `b`. */
  ghost predicate MayPrecede(o: Ordered, a: Value, b: Value) {
    if a == Null then b == Null || PutNullsFirst(o)
    else if b == Null then !PutNullsFirst(o)
    else NotAfter(o.desc, a, b)
  }

  /** Lexicographic over the keys; rows that tie on all of them keep their input order. */
  ghost predicate Ordered_(os: seq<Ordered>, keys: seq<nat -> Value>, i: nat, j: nat)
    requires |keys| == |os|
  {
    if os == [] then i < j
    else
      MayPrecede(os[0], keys[0](i), keys[0](j)) &&
      (MayPrecede(os[0], keys[0](j), keys[0](i)) ==> Ordered_(os[1..], keys[1..], i, j))
  }

  ghost predicate SortedBy(os: seq<Ordered>, keys: seq<nat -> Value>, s: seq<nat>)
    requires |keys| == |os|
  {
    forall a, b :: 0 <= a < b < |s| ==> Ordered_(os, keys, s[a], s[b])
  }

  lemma {:induction false} SortedFilter(os: seq<Ordered>, keys: seq<nat -> Value>, p: nat -> bool, s: seq<nat>)
    requires |keys| == |os| && SortedBy(os, keys, s)
    ensures SortedBy(os, keys, Filter(p, s))
  {
    if s != [] {
      SortedFilter(os, keys, p, s[1..]);
      var t := Filter(p, s[1..]);
      forall b | 0 <= b < |t| ensures Ordered_(os, keys, s[0], t[b]) {
        assert t[b] in s[1..];
      }
    }
  }

  lemma NotAfterTotal(desc: bool, key: nat -> Value, s: seq<nat>, x: nat, y: nat)
    requires Comparable(key, s) && x in s && y in s
    ensures NotAfter(desc, key(x), key(y)) || NotAfter(desc, key(y), key(x))
  {
    LeTotal(SortVal(key(x)), SortVal(key(y)));
  }

  lemma NotAfterTransitive(desc: bool, a: Value, b: Value, c: Value)
    requires NotAfter(desc, a, b) && NotAfter(desc, b, c)
    ensures NotAfter(desc, a, c)
  {
    if desc {
      LeTransitive(SortVal(c), SortVal(b), SortVal(a));
    } else {
      LeTransitive(SortVal(a), SortVal(b), SortVal(c));
    }
  }

  lemma {:induction false} InsertContents<T>(desc: bool, key: T -> Value, x: T, ys: seq<T>)
    ensures multiset(Insert(desc, key, x, ys)) == multiset(ys) + multiset{x}
  {
    if ys != [] && !NotAfter(desc, key(x), key(ys[0])) {
      InsertContents(desc, key, x, ys[1..]);
      assert ys == [ys[0]] + ys[1..];
    }
  }

  lemma {:induction false} SortContents<T>(desc: bool, key: T -> Value, xs: seq<T>)
    ensures multiset(StableSort(desc, key, xs)) == multiset(xs)
  {
    if xs != [] {
      SortContents(desc, key, xs[1..]);
      InsertContents(desc, key, xs[0], StableSort(desc, key, xs[1..]));
      assert xs == [xs[0]] + xs[1..];
    }
  }

  lemma SameElements<T>(xs: seq<T>, ys: seq<T>)
    requires multiset(xs) == multiset(ys)
    ensures |xs| == |ys|
    ensures forall x :: x in xs ==> x in ys
    ensures forall y :: y in ys ==> y in xs
  {
    assert |multiset(xs)| == |xs|;
    forall x | x in xs ensures x in ys { assert x in multiset(xs); assert x in multiset(ys); }
    forall y | y in ys ensures y in xs { assert y in multiset(ys); assert y in multiset(xs); }
  }

  /** Inserting in front of the rows it ties with: `x` precedes them on the remaining keys. */
  lemma {:induction false} InsertSorted(o: Ordered, os: seq<Ordered>, key: nat -> Value, keys: seq<nat -> Value>,
                                        all: seq<nat>, x: nat, ys: seq<nat>)
    requires |keys| == |os|
    requires Comparable(key, all)
    requires x in all && (forall y :: y in ys ==> y in all && Ordered_(os, keys, x, y))
    requires forall y :: y in all ==> key(y) != Null
    requires SortedBy([o] + os, [key] + keys, ys)
    ensures SortedBy([o] + os, [key] + keys, Insert(o.desc, key, x, ys))
  {
    assert ([o] + os)[1..] == os && ([key] + keys)[1..] == keys;
    if ys == [] {
    } else if NotAfter(o.desc, key(x), key(ys[0])) {
      forall b | 0 <= b < |ys| ensures Ordered_([o] + os, [key] + keys, x, ys[b]) {
        assert ys[b] in ys;
        if b > 0 {
          assert Ordered_([o] + os, [key] + keys, ys[0], ys[b]);
          NotAfterTransitive(o.desc, key(x), key(ys[0]), key(ys[b]));
        }
      }
    } else {
      assert forall y :: y in ys[1..] ==> y in ys;
      InsertSorted(o, os, key, keys, all, x, ys[1..]);
      var t := Insert(o.desc, key, x, ys[1..]);
      InsertContents(o.desc, key, x, ys[1..]);
      assert ys[0] in ys;
      NotAfterTotal(o.desc, key, all, x, ys[0]);
      forall b | 0 <= b < |t| ensures Ordered_([o] + os, [key] + keys, ys[0], t[b]) {
        assert t[b] in multiset(t);
        if t[b] != x {
          assert t[b] in ys[1..];
          var c :| 0 <= c < |ys[1..]| && ys[1..][c] == t[b];
          assert Ordered_([o] + os, [key] + keys, ys[0], ys[c + 1]);
        }
      }
    }
  }

  lemma {:induction false} SortSorted(o: Ordered, os: seq<Ordered>, key: nat -> Value, keys: seq<nat -> Value>,
                                      all: seq<nat>, xs: seq<nat>)
    requires |keys| == |os|
    requires Comparable(key, all)
    requires forall y :: y in all ==> key(y) != Null
    requires forall x :: x in xs ==> x in all
    requires SortedBy(os, keys, xs)
    ensures SortedBy([o] + os, [key] + keys, StableSort(o.desc, key, xs))
  {
    if xs != [] {
      var ys := StableSort(o.desc, key, xs[1..]);
      assert forall x :: x in xs[1..] ==> x in xs;
      SortSorted(o, os, key, keys, all, xs[1..]);
      SortContents(o.desc, key, xs[1..]);
      SameElements(ys, xs[1..]);
      forall y | y in ys ensures y in all && Ordered_(os, keys, xs[0], y) {
        var c :| 0 <= c < |xs[1..]| && xs[1..][c] == y;
        assert Ordered_(os, keys, xs[0], xs[c + 1]);
      }
      assert xs[0] in xs;
      InsertSorted(o, os, key, keys, all, xs[0], ys);
    }
  }

  lemma {:induction false} FilterSplits<T>(p: T -> bool, q: T -> bool, xs: seq<T>)
    requires forall x :: x in xs ==> p(x) != q(x)
    ensures multiset(Filter(p, xs)) + multiset(Filter(q, xs)) == multiset(xs)
  {
    if xs != [] {
      assert xs[0] in xs;
      FilterSplits(p, q, xs[1..]);
      assert xs == [xs[0]] + xs[1..];
    }
  }

  /** The two parts of a pass, each sorted, hold the rows between them. */
  lemma PartsSorted(o: Ordered, os: seq<Ordered>, key: nat -> Value, keys: seq<nat -> Value>, s: seq<nat>)
    requires |keys| == |os|
    requires SortedBy(os, keys, s)
    requires OrderPass(o, key, s).Ok?
    ensures var nulls, sorted := Filter(NullKey<nat>(key), s), StableSort(o.desc, key, Filter(RealKey<nat>(key), s));
            && SortedBy(os, keys, nulls) && SortedBy([o] + os, [key] + keys, sorted)
            && (forall x :: x in sorted ==> key(x) != Null)
            && multiset(nulls) + multiset(sorted) == multiset(s)
  {
    var rest := Filter(RealKey<nat>(key), s);
    FilterSplits(NullKey<nat>(key), RealKey<nat>(key), s);
    SortedFilter(os, keys, NullKey<nat>(key), s);
    SortedFilter(os, keys, RealKey<nat>(key), s);
    SortContents(o.desc, key, rest);
    SameElements(StableSort(o.desc, key, rest), rest);
    if |rest| >= 2 { SortSorted(o, os, key, keys, rest, rest); }
  }

  /** One pass refines the order by one more significant key. */
  lemma PassSorted(o: Ordered, os: seq<Ordered>, key: nat -> Value, keys: seq<nat -> Value>, s: seq<nat>)
    requires |keys| == |os|
    requires SortedBy(os, keys, s)
    requires OrderPass(o, key, s).Ok?
    ensures SortedBy([o] + os, [key] + keys, OrderPass(o, key, s).value)
    ensures multiset(OrderPass(o, key, s).value) == multiset(s)
  {
    var nulls, sorted := Filter(NullKey<nat>(key), s), StableSort(o.desc, key, Filter(RealKey<nat>(key), s));
    PartsSorted(o, os, key, keys, s);
    assert forall x :: x in nulls ==> key(x) == Null;
    var out := OrderPass(o, key, s).value;
    forall a, b | 0 <= a < b < |out| ensures Ordered_([o] + os, [key] + keys, out[a], out[b]) {
      JoinOrdered(o, os, key, keys, nulls, sorted, a, b);
    }
  }

  lemma JoinOrdered(o: Ordered, os: seq<Ordered>, key: nat -> Value, keys: seq<nat -> Value>,
                    nulls: seq<nat>, sorted: seq<nat>, a: nat, b: nat)
    requires |keys| == |os|
    requires forall x :: x in sorted ==> key(x) != Null
    requires forall x :: x in nulls ==> key(x) == Null
    requires SortedBy(os, keys, nulls) && SortedBy([o] + os, [key] + keys, sorted)
    requires a < b < |nulls| + |sorted|
    ensures var out := if PutNullsFirst(o) then nulls + sorted else sorted + nulls;
            Ordered_([o] + os, [key] + keys, out[a], out[b])
  {
    assert ([o] + os)[1..] == os && ([key] + keys)[1..] == keys;
    if PutNullsFirst(o) {
      if b < |nulls| {
        assert nulls[a] in nulls && nulls[b] in nulls;
      } else if a >= |nulls| {
        assert Ordered_([o] + os, [key] + keys, sorted[a - |nulls|], sorted[b - |nulls|]);
      } else {
        assert nulls[a] in nulls && sorted[b - |nulls|] in sorted;
      }
    } else {
      if b < |sorted| {
        assert Ordered_([o] + os, [key] + keys, sorted[a], sorted[b]);
      } else if a >= |sorted| {
        assert nulls[a - |sorted|] in nulls && nulls[b - |sorted|] in nulls;
      } else {
        assert sorted[a] in sorted && nulls[b - |sorted|] in nulls;
      }
    }
  }

  lemma {:induction false} PassesSorted(os: seq<Ordered>, keys: seq<nat -> Value>, s: seq<nat>)
    requires |keys| == |os|
    requires forall a, b :: 0 <= a < b < |s| ==> s[a] < s[b]
    requires OrderPasses(os, keys, s).Ok?
    ensures SortedBy(os, keys, OrderPasses(os, keys, s).value)
    ensures multiset(OrderPasses(os, keys, s).value) == multiset(s)
    decreases os
  {
    if os != [] {
      PassesSorted(os[1..], keys[1..], s);
      PassSorted(os[0], os[1..], keys[0], keys[1..], OrderPasses(os[1..], keys[1..], s).value);
      assert [os[0]] + os[1..] == os && [keys[0]] + keys[1..] == keys;
    }
  }

  // ---- from positions to rows ---------------------------------------------------------------------

  function At<T>(xs: seq<T>): nat -> Option<T> {
    (i: nat) => if i < |xs| then Some(xs[i]) else None
  }

  function KeyAt<T>(xs: seq<T>, key: T -> Value): nat -> Value {
    (i: nat) => if i < |xs| then key(xs[i]) else Null
  }

  function KeysAt<T>(xs: seq<T>, keys: seq<T -> Value>): seq<nat -> Value> {
    seq(|keys|, i requires 0 <= i < |keys| => KeyAt(xs, keys[i]))
  }

  /** `ys` lists the elements of `xs` found at the positions `s`. */
  ghost predicate Picks<T>(xs: seq<T>, s: seq<nat>, ys: seq<T>) {
    |ys| == |s| && forall i :: 0 <= i < |s| ==> s[i] < |xs| && ys[i] == xs[s[i]]
  }

  lemma PicksTail<T>(xs: seq<T>, s: seq<nat>, ys: seq<T>)
    requires Picks(xs, s, ys) && s != []
    ensures Picks(xs, s[1..], ys[1..]) && s[0] < |xs| && ys[0] == xs[s[0]]
  {
    assert forall i :: 0 <= i < |s[1..]| ==> s[1..][i] == s[i + 1] && ys[1..][i] == ys[i + 1];
  }

  lemma PicksCons<T>(xs: seq<T>, i: nat, s: seq<nat>, ys: seq<T>)
    requires Picks(xs, s, ys) && i < |xs|
    ensures Picks(xs, [i] + s, [xs[i]] + ys)
  {
  }

  lemma {:induction false} FilterPicks<T>(xs: seq<T>, s: seq<nat>, ys: seq<T>, p: T -> bool, q: nat -> bool)
    requires Picks(xs, s, ys)
    requires forall i :: i in s && i < |xs| ==> q(i) == p(xs[i])
    ensures Picks(xs, Filter(q, s), Filter(p, ys))
  {
    if s != [] {
      assert s[0] in s;
      PicksTail(xs, s, ys);
      FilterPicks(xs, s[1..], ys[1..], p, q);
      if q(s[0]) { PicksCons(xs, s[0], Filter(q, s[1..]), Filter(p, ys[1..])); }
    }
  }

  lemma {:induction false} InsertPicks<T>(desc: bool, xs: seq<T>, key: T -> Value, x: nat, s: seq<nat>, ys: seq<T>)
    requires Picks(xs, s, ys) && x < |xs|
    ensures Picks(xs, Insert(desc, KeyAt(xs, key), x, s), Insert(desc, key, xs[x], ys))
  {
    if s != [] && !NotAfter(desc, key(xs[x]), key(ys[0])) {
      PicksTail(xs, s, ys);
      InsertPicks(desc, xs, key, x, s[1..], ys[1..]);
      PicksCons(xs, s[0], Insert(desc, KeyAt(xs, key), x, s[1..]), Insert(desc, key, xs[x], ys[1..]));
    }
  }

  lemma {:induction false} SortPicks<T>(desc: bool, xs: seq<T>, key: T -> Value, s: seq<nat>, ys: seq<T>)
    requires Picks(xs, s, ys)
    ensures Picks(xs, StableSort(desc, KeyAt(xs, key), s), StableSort(desc, key, ys))
  {
    if s != [] {
      PicksTail(xs, s, ys);
      SortPicks(desc, xs, key, s[1..], ys[1..]);
      InsertPicks(desc, xs, key, s[0], StableSort(desc, KeyAt(xs, key), s[1..]), StableSort(desc, key, ys[1..]));
    }
  }

  lemma PartsPick<T>(xs: seq<T>, key: T -> Value, s: seq<nat>, ys: seq<T>)
    requires Picks(xs, s, ys)
    ensures Picks(xs, Filter(NullKey<nat>(KeyAt(xs, key)), s), Filter(NullKey(key), ys))
    ensures Picks(xs, Filter(RealKey<nat>(KeyAt(xs, key)), s), Filter(RealKey(key), ys))
  {
    FilterPicks(xs, s, ys, NullKey(key), NullKey<nat>(KeyAt(xs, key)));
    FilterPicks(xs, s, ys, RealKey(key), RealKey<nat>(KeyAt(xs, key)));
  }

  lemma PicksConcat<T>(xs: seq<T>, s: seq<nat>, ys: seq<T>, t: seq<nat>, zs: seq<T>)
    requires Picks(xs, s, ys) && Picks(xs, t, zs)
    ensures Picks(xs, s + t, ys + zs) && Picks(xs, t + s, zs + ys)
  {
  }

  lemma PassPicks<T>(o: Ordered, xs: seq<T>, key: T -> Value, s: seq<nat>, ys: seq<T>)
    requires Picks(xs, s, ys)
    ensures OrderPass(o, key, ys).Ok? <==> OrderPass(o, KeyAt(xs, key), s).Ok?
    ensures OrderPass(o, key, ys).Ok? ==> Picks(xs, OrderPass(o, KeyAt(xs, key), s).value, OrderPass(o, key, ys).value)
  {
    PartsPick(xs, key, s, ys);
    var r, t := Filter(RealKey<nat>(KeyAt(xs, key)), s), Filter(RealKey(key), ys);
    SortPicks(o.desc, xs, key, r, t);
    ComparablePick(xs, key, r, t);
    PicksConcat(xs, Filter(NullKey<nat>(KeyAt(xs, key)), s), Filter(NullKey(key), ys),
                StableSort(o.desc, KeyAt(xs, key), r), StableSort(o.desc, key, t));
  }

  lemma ComparablePick<T>(xs: seq<T>, key: T -> Value, s: seq<nat>, ys: seq<T>)
    requires Picks(xs, s, ys)
    ensures Comparable(key, ys) <==> Comparable(KeyAt(xs, key), s)
  {
    assert forall i :: 0 <= i < |s| ==> KeyAt(xs, key)(s[i]) == key(ys[i]);
  }

  lemma {:induction false} PassesPick<T>(os: seq<Ordered>, keys: seq<T -> Value>, xs: seq<T>, s: seq<nat>)
    requires |keys| == |os| && Picks(xs, s, xs)
    ensures OrderPasses(os, keys, xs).Ok? <==> OrderPasses(os, KeysAt(xs, keys), s).Ok?
    ensures OrderPasses(os, keys, xs).Ok? ==>
              Picks(xs, OrderPasses(os, KeysAt(xs, keys), s).value, OrderPasses(os, keys, xs).value)
    decreases os
  {
    if os != [] {
      assert KeysAt(xs, keys)[1..] == KeysAt(xs, keys[1..]);
      PassesPick(os[1..], keys[1..], xs, s);
      if OrderPasses(os[1..], keys[1..], xs).Ok? {
        PassPicks(os[0], xs, keys[0], OrderPasses(os[1..], KeysAt(xs, keys[1..]), s).value,
                  OrderPasses(os[1..], keys[1..], xs).value);
      }
    }
  }

  function Positions(n: nat): seq<nat> {
    seq(n, i => i)
  }

  /** The result of ORDER BY is a rearrangement of the input by some permutation of positions that is
      lexicographically sorted, with ties in input order. */
  lemma OrderByIsSorted<T>(os: seq<Ordered>, keys: seq<T -> Value>, xs: seq<T>) returns (perm: seq<nat>)
    requires |keys| == |os|
    requires OrderPasses(os, keys, xs).Ok?
    ensures multiset(perm) == multiset(Positions(|xs|))
    ensures Picks(xs, perm, OrderPasses(os, keys, xs).value)
    ensures SortedBy(os, KeysAt(xs, keys), perm)
  {
    PassesPick(os, keys, xs, Positions(|xs|));
    PassesSorted(os, KeysAt(xs, keys), Positions(|xs|));
    perm := OrderPasses(os, KeysAt(xs, keys), Positions(|xs|)).value;
  }
}
