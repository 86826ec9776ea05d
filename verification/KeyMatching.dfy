/** Matching GROUP BY keys to projections: each key takes the first one left that it fits. */
module KeyMatching {
  import opened Prelude

  /** A projection that is not an aggregate: what it computes, and the name it may be referred to by. */
  datatype Grouping<E> = Grouping(core: E, alias: Option<E>)

  predicate Fits<E(==)>(key: E, g: Grouping<E>) {
    key == g.core || g.alias == Some(key)
  }

  /** The first projection a key fits, or the length of the list. */
  function FirstFit<E(==)>(key: E, gs: seq<Grouping<E>>): (i: nat)
    ensures i <= |gs| && (i < |gs| ==> Fits(key, gs[i]))
    ensures forall j :: 0 <= j < i ==> !Fits(key, gs[j])
  {
    if gs == [] || Fits(key, gs[0]) then 0 else 1 + FirstFit(key, gs[1..])
  }

  function Without<E>(gs: seq<Grouping<E>>, i: nat): seq<Grouping<E>>
    requires i < |gs|
  {
    gs[..i] + gs[i + 1..]
  }

  /** Each key takes the first projection left that it fits; nothing may remain. */
  predicate KeysMatch<E(==)>(keys: seq<E>, gs: seq<Grouping<E>>) {
    if keys == [] then gs == []
    else
      var i := FirstFit(keys[0], gs);
      i < |gs| && KeysMatch(keys[1..], Without(gs, i))
  }

  // ---- a match is a bijection ----------------------------------------------------------------------

  /** `perm` lists the positions below `n`, each once. */
  ghost predicate Permutation(perm: seq<nat>, n: nat) {
    && |perm| == n && Distinct(perm) && (forall j :: 0 <= j < n ==> perm[j] < n)
    && forall p :: 0 <= p < n ==> p in perm
  }

  ghost function Skip(i: nat, p: nat): nat {
    if p < i then p else p + 1
  }

  ghost function SkipAll(i: nat, perm: seq<nat>): seq<nat> {
    [i] + seq(|perm|, j requires 0 <= j < |perm| => Skip(i, perm[j]))
  }

  lemma SkipReaches(i: nat, perm: seq<nat>, n: nat, p: nat)
    requires Permutation(perm, n) && i <= n && p < n + 1
    ensures p in SkipAll(i, perm)
  {
    var out := SkipAll(i, perm);
    if p == i {
      assert out[0] == p;
    } else {
      var q := if p < i then p else p - 1;
      assert q in perm;
      var j :| 0 <= j < |perm| && perm[j] == q;
      assert out[j + 1] == Skip(i, perm[j]) == p;
    }
  }

  lemma SkipApart(i: nat, perm: seq<nat>, n: nat, a: nat, b: nat)
    requires Permutation(perm, n) && i <= n && a < b < n + 1
    ensures SkipAll(i, perm)[a] != SkipAll(i, perm)[b]
  {
    assert SkipAll(i, perm)[b] == Skip(i, perm[b - 1]);
    if a > 0 { assert SkipAll(i, perm)[a] == Skip(i, perm[a - 1]) && perm[a - 1] != perm[b - 1]; }
  }

  lemma SkipPermutes(i: nat, perm: seq<nat>, n: nat)
    requires Permutation(perm, n) && i <= n
    ensures Permutation(SkipAll(i, perm), n + 1)
  {
    var out := SkipAll(i, perm);
    forall j | 0 <= j < n + 1 ensures out[j] < n + 1 {
      if j > 0 { assert out[j] == Skip(i, perm[j - 1]); }
    }
    forall p | 0 <= p < n + 1 ensures p in out { SkipReaches(i, perm, n, p); }
    forall a, b | 0 <= a < b < |out| ensures out[a] != out[b] { SkipApart(i, perm, n, a, b); }
  }

  /** The written keys name the non-aggregate projections one to one. */
  lemma {:induction false} MatchIsBijection<E>(keys: seq<E>, gs: seq<Grouping<E>>) returns (perm: seq<nat>)
    requires KeysMatch(keys, gs)
    ensures |keys| == |gs| && Permutation(perm, |gs|)
    ensures forall j :: 0 <= j < |keys| ==> Fits(keys[j], gs[perm[j]])
    decreases keys
  {
    if keys == [] {
      perm := [];
    } else {
      var i := FirstFit(keys[0], gs);
      var rest := MatchIsBijection(keys[1..], Without(gs, i));
      perm := SkipAll(i, rest);
      SkipPermutes(i, rest, |gs| - 1);
      forall j | 0 <= j < |keys| ensures Fits(keys[j], gs[perm[j]]) {
        if j > 0 {
          assert Fits(keys[1..][j - 1], Without(gs, i)[rest[j - 1]]);
          assert Without(gs, i)[rest[j - 1]] == gs[Skip(i, rest[j - 1])];
        }
      }
    }
  }

  // ---- when taking the first fit loses nothing --------------------------------------------------------

  /** What a projection may be referred to by. */
  function Labels<E(==)>(g: Grouping<E>): set<E> {
    {g.core} + if g.alias.Some? then {g.alias.value} else {}
  }

  /** Of two projections that share a label, the earlier has no label the later lacks. */
  predicate Covered<E(==)>(gs: seq<Grouping<E>>) {
    forall i, j :: 0 <= i < j < |gs| && Labels(gs[i]) * Labels(gs[j]) != {} ==> Labels(gs[i]) <= Labels(gs[j])
  }

  /** `perm` pairs each key with a projection it fits, and leaves none over. */
  ghost predicate OneToOne<E>(keys: seq<E>, perm: seq<nat>, gs: seq<Grouping<E>>) {
    |keys| == |gs| && Permutation(perm, |gs|) && forall j :: 0 <= j < |keys| ==> Fits(keys[j], gs[perm[j]])
  }

  ghost predicate AcceptsAll<E(!new)>(gs: seq<Grouping<E>>) {
    forall keys: seq<E>, perm: seq<nat> :: OneToOne(keys, perm, gs) ==> KeysMatch(keys, gs)
  }

  lemma FitsIsLabel<E>(key: E, g: Grouping<E>)
    ensures Fits(key, g) <==> key in Labels(g)
  {
  }

  // ---- sufficient: exchange, then remove ----------------------------------------------------------------

  /** Two keys trade projections. */
  lemma TradePermutes(perm: seq<nat>, n: nat, a: nat, b: nat)
    requires Permutation(perm, n) && a < n && b < n
    ensures Permutation(perm[a := perm[b]][b := perm[a]], n)
  {
    var out := perm[a := perm[b]][b := perm[a]];
    forall p | 0 <= p < n ensures p in out {
      assert p in perm;
      var j :| 0 <= j < |perm| && perm[j] == p;
      assert out[if j == a then b else if j == b then a else j] == p;
    }
  }

  ghost function Unskip(i: nat, p: nat): nat {
    if p > i then p - 1 else p
  }

  /** The positions that remain once the first key has taken its own. */
  ghost function Rest(perm: seq<nat>): seq<nat>
    requires perm != []
  {
    seq(|perm| - 1, j requires 0 <= j < |perm| - 1 => Unskip(perm[0], perm[j + 1]))
  }

  lemma RestAt(perm: seq<nat>, n: nat, j: nat)
    requires Permutation(perm, n) && j + 1 < n
    ensures Rest(perm)[j] < n - 1 && Skip(perm[0], Rest(perm)[j]) == perm[j + 1]
  {
    assert perm[0] != perm[j + 1];
  }

  lemma RestPermutes(perm: seq<nat>, n: nat)
    requires Permutation(perm, n) && n > 0
    ensures Permutation(Rest(perm), n - 1)
  {
    var rest := Rest(perm);
    forall j | 0 <= j < n - 1 ensures rest[j] < n - 1 { RestAt(perm, n, j); }
    forall p | 0 <= p < n - 1 ensures p in rest {
      assert Skip(perm[0], p) in perm;
      var j :| 0 <= j < |perm| && perm[j] == Skip(perm[0], p);
      RestAt(perm, n, j - 1);
      assert rest[j - 1] == p;
    }
    forall a, b | 0 <= a < b < |rest| ensures rest[a] != rest[b] {
      RestAt(perm, n, a);
      RestAt(perm, n, b);
      assert perm[a + 1] != perm[b + 1];
    }
  }

  lemma WithoutAt<E>(gs: seq<Grouping<E>>, i: nat, p: nat)
    requires i < |gs| && p < |gs| - 1
    ensures Without(gs, i)[p] == gs[Skip(i, p)]
  {
  }

  lemma CoveredWithout<E>(gs: seq<Grouping<E>>, i: nat)
    requires Covered(gs) && i < |gs|
    ensures Covered(Without(gs, i))
  {
    var hs := Without(gs, i);
    forall a, b | 0 <= a < b < |hs| && Labels(hs[a]) * Labels(hs[b]) != {} ensures Labels(hs[a]) <= Labels(hs[b]) {
      WithoutAt(gs, i, a);
      WithoutAt(gs, i, b);
      assert Skip(i, a) < Skip(i, b);
    }
  }

  lemma RestFits<E>(keys: seq<E>, perm: seq<nat>, gs: seq<Grouping<E>>)
    requires OneToOne(keys, perm, gs) && keys != []
    ensures OneToOne(keys[1..], Rest(perm), Without(gs, perm[0]))
  {
    RestPermutes(perm, |gs|);
    forall j | 0 <= j < |keys| - 1 ensures Fits(keys[1..][j], Without(gs, perm[0])[Rest(perm)[j]]) {
      RestAt(perm, |gs|, j);
      WithoutAt(gs, perm[0], Rest(perm)[j]);
      assert Fits(keys[j + 1], gs[perm[j + 1]]);
    }
  }

  /** The first key may as well take the first projection it fits. */
  lemma TakeFirst<E>(keys: seq<E>, perm: seq<nat>, gs: seq<Grouping<E>>) returns (perm': seq<nat>)
    requires OneToOne(keys, perm, gs) && keys != [] && Covered(gs)
    ensures FirstFit(keys[0], gs) < |gs| && OneToOne(keys, perm', gs) && perm'[0] == FirstFit(keys[0], gs)
  {
    var i := FirstFit(keys[0], gs);
    assert Fits(keys[0], gs[perm[0]]);
    perm' := perm;
    if i != perm[0] {
      assert i in perm;
      var j :| 0 <= j < |perm| && perm[j] == i;
      perm' := perm[0 := perm[j]][j := perm[0]];
      TradePermutes(perm, |gs|, 0, j);
      assert keys[0] in Labels(gs[i]) * Labels(gs[perm[0]]);
      assert Fits(keys[j], gs[i]);
      FitsIsLabel(keys[j], gs[i]);
      FitsIsLabel(keys[j], gs[perm[0]]);
    }
  }

  lemma {:induction false} CoveredAccepts<E>(keys: seq<E>, perm: seq<nat>, gs: seq<Grouping<E>>)
    requires OneToOne(keys, perm, gs) && Covered(gs)
    ensures KeysMatch(keys, gs)
    decreases |keys|
  {
    if keys != [] {
      var better := TakeFirst(keys, perm, gs);
      RestFits(keys, better, gs);
      CoveredWithout(gs, better[0]);
      CoveredAccepts(keys[1..], Rest(better), Without(gs, better[0]));
    }
  }

  // ---- necessary: one key too many --------------------------------------------------------------------------

  function CountKeys<E(==)>(w: E, keys: seq<E>): nat {
    if keys == [] then 0 else (if keys[0] == w then 1 else 0) + CountKeys(w, keys[1..])
  }

  function CountFits<E(==)>(w: E, gs: seq<Grouping<E>>): nat {
    if gs == [] then 0 else (if Fits(w, gs[0]) then 1 else 0) + CountFits(w, gs[1..])
  }

  lemma {:induction false} CountWithout<E>(w: E, gs: seq<Grouping<E>>, i: nat)
    requires i < |gs|
    ensures CountFits(w, gs) == CountFits(w, Without(gs, i)) + if Fits(w, gs[i]) then 1 else 0
    decreases i
  {
    if i == 0 {
      assert Without(gs, 0) == gs[1..];
    } else {
      CountWithout(w, gs[1..], i - 1);
      assert Without(gs, i)[1..] == Without(gs[1..], i - 1);
    }
  }

  lemma {:induction false} EnoughFits<E>(w: E, keys: seq<E>, gs: seq<Grouping<E>>)
    requires KeysMatch(keys, gs)
    ensures CountKeys(w, keys) <= CountFits(w, gs)
    decreases keys
  {
    if keys != [] {
      var i := FirstFit(keys[0], gs);
      CountWithout(w, gs, i);
      EnoughFits(w, keys[1..], Without(gs, i));
    }
  }

  /** A key for each projection: `w` where it fits. */
  function KeysFor<E(==)>(w: E, gs: seq<Grouping<E>>): (keys: seq<E>)
    ensures |keys| == |gs| && forall k :: 0 <= k < |gs| ==> Fits(keys[k], gs[k])
  {
    if gs == [] then [] else [if Fits(w, gs[0]) then w else gs[0].core] + KeysFor(w, gs[1..])
  }

  lemma {:induction false} KeysForCount<E>(w: E, gs: seq<Grouping<E>>)
    ensures CountKeys(w, KeysFor(w, gs)) >= CountFits(w, gs)
  {
    if gs != [] { KeysForCount(w, gs[1..]); }
  }

  ghost function Identity(n: nat): seq<nat> {
    seq(n, i => i)
  }

  lemma IdentityPermutes(n: nat)
    ensures Permutation(Identity(n), n)
  {
    forall p | 0 <= p < n ensures p in Identity(n) { assert Identity(n)[p] == p; }
  }

  /** The first projection shares `v` with a later one that lacks its label `w`: then `v`, which the first
      takes, leaves one projection too few for `w`. */
  lemma FirstRobs<E>(gs: seq<Grouping<E>>, j: nat, v: E, w: E) returns (keys: seq<E>, perm: seq<nat>)
    requires 0 < j < |gs| && Fits(v, gs[0]) && Fits(v, gs[j]) && Fits(w, gs[0]) && !Fits(w, gs[j])
    ensures OneToOne(keys, perm, gs) && !KeysMatch(keys, gs)
  {
    var others := Without(gs, j);
    keys, perm := [v] + KeysFor(w, others), SkipAll(j, Identity(|gs| - 1));
    IdentityPermutes(|gs| - 1);
    SkipPermutes(j, Identity(|gs| - 1), |gs| - 1);
    forall k | 0 <= k < |keys| ensures Fits(keys[k], gs[perm[k]]) {
      if k > 0 { assert keys[k] == KeysFor(w, others)[k - 1] && others[k - 1] == gs[Skip(j, k - 1)]; }
    }
    assert FirstFit(v, gs) == 0 && keys[1..] == KeysFor(w, others);
    TooMany(gs, j, w);
  }

  lemma TooMany<E>(gs: seq<Grouping<E>>, j: nat, w: E)
    requires 0 < j < |gs| && Fits(w, gs[0]) && !Fits(w, gs[j])
    ensures !KeysMatch(KeysFor(w, Without(gs, j)), Without(gs, 0))
  {
    KeysForCount(w, Without(gs, j));
    CountWithout(w, gs, 0);
    CountWithout(w, gs, j);
    if KeysMatch(KeysFor(w, Without(gs, j)), Without(gs, 0)) {
      EnoughFits(w, KeysFor(w, Without(gs, j)), Without(gs, 0));
    }
  }

  /** Giving the first projection its own key in front changes nothing for the others. */
  lemma PutInFront<E>(keys: seq<E>, perm: seq<nat>, gs: seq<Grouping<E>>)
    requires gs != [] && OneToOne(keys, perm, gs[1..])
    ensures OneToOne([gs[0].core] + keys, SkipAll(0, perm), gs)
    ensures KeysMatch([gs[0].core] + keys, gs) <==> KeysMatch(keys, gs[1..])
  {
    SkipPermutes(0, perm, |gs| - 1);
    var more := [gs[0].core] + keys;
    forall k | 0 <= k < |more| ensures Fits(more[k], gs[SkipAll(0, perm)[k]]) {
      if k > 0 { assert Fits(keys[k - 1], gs[1..][perm[k - 1]]); }
    }
    assert FirstFit(more[0], gs) == 0 && more[1..] == keys && Without(gs, 0) == gs[1..];
  }

  lemma {:induction false} UncoveredRefuses<E>(gs: seq<Grouping<E>>) returns (keys: seq<E>, perm: seq<nat>)
    requires !Covered(gs)
    ensures OneToOne(keys, perm, gs) && !KeysMatch(keys, gs)
    decreases gs
  {
    var i, j :| 0 <= i < j < |gs| && Labels(gs[i]) * Labels(gs[j]) != {} && !(Labels(gs[i]) <= Labels(gs[j]));
    if i == 0 {
      var v :| v in Labels(gs[0]) * Labels(gs[j]);
      var w :| w in Labels(gs[0]) && w !in Labels(gs[j]);
      keys, perm := FirstRobs(gs, j, v, w);
    } else {
      assert gs[1..][i - 1] == gs[i] && gs[1..][j - 1] == gs[j];
      keys, perm := UncoveredRefuses(gs[1..]);
      PutInFront(keys, perm, gs);
      keys, perm := [gs[0].core] + keys, SkipAll(0, perm);
    }
  }

  /** Taking the first fit accepts every key list that matches one to one exactly when each projection is
      covered by the later ones it shares a label with. */
  lemma AcceptsAllExactly<E(!new)>(gs: seq<Grouping<E>>)
    ensures AcceptsAll(gs) <==> Covered(gs)
  {
    if Covered(gs) {
      forall keys: seq<E>, perm: seq<nat> | OneToOne(keys, perm, gs) ensures KeysMatch(keys, gs) {
        CoveredAccepts(keys, perm, gs);
      }
    } else {
      var keys, perm := UncoveredRefuses(gs);
      assert OneToOne(keys, perm, gs);
    }
  }
}
