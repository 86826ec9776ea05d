/** Options, results, and the list combinators that every engine loop follows. */
module Prelude {

  datatype Option<+T> = None | Some(value: T)

  /** How an evaluation can fail. Only `UnknownVariable` is singled out by a theorem. */
  datatype Error =
    | UnknownVariable(name: string)
    | MissingParameter(param: string)
    | BadProperty
    | BadPath
    | Unsupported
    | RuntimeFailure

  datatype Result<+T> = Ok(value: T) | Err(error: Error)

  /** Two runs agree: both give the same value, or both raise (perhaps different errors). */
  ghost predicate Agree<T>(a: Result<T>, b: Result<T>) {
    if a.Ok? then b == a else b.Err?
  }

  function Append<T>(xs: seq<T>, r: Result<seq<T>>): Result<seq<T>> {
    match r
    case Ok(ys) => Ok(xs + ys)
    case Err(e) => Err(e)
  }

  /** `out = []; for x in xs: out.extend(f(x))`, stopping at the first error. */
  function FlatMapR<T, U>(f: T -> Result<seq<U>>, xs: seq<T>): Result<seq<U>> {
    if xs == [] then Ok([])
    else
      match f(xs[0])
      case Err(e) => Err(e)
      case Ok(ys) => Append(ys, FlatMapR(f, xs[1..]))
  }

  /** Feeds every row of one loop to the next one. */
  function Then<T, U>(r: Result<seq<T>>, f: T -> Result<seq<U>>): Result<seq<U>> {
    match r
    case Err(e) => Err(e)
    case Ok(xs) => FlatMapR(f, xs)
  }

  /** `[x for x in xs if p(x)]`, stopping at the first error. */
  function FilterR<T>(p: T -> Result<bool>, xs: seq<T>): Result<seq<T>> {
    if xs == [] then Ok([])
    else
      match p(xs[0])
      case Err(e) => Err(e)
      case Ok(keep) => Append(if keep then [xs[0]] else [], FilterR(p, xs[1..]))
  }

  /** `[x for x in xs if p(x)]` for a test that cannot fail. */
  function Filter<T>(p: T -> bool, xs: seq<T>): (ys: seq<T>)
    ensures forall y :: y in ys ==> y in xs && p(y)
    ensures forall y :: y in xs && p(y) ==> y in ys
  {
    if xs == [] then []
    else if p(xs[0]) then [xs[0]] + Filter(p, xs[1..])
    else Filter(p, xs[1..])
  }

  function Map<T, U>(f: T -> U, xs: seq<T>): (ys: seq<U>)
    ensures |ys| == |xs|
    ensures forall i :: 0 <= i < |xs| ==> ys[i] == f(xs[i])
  {
    seq(|xs|, i requires 0 <= i < |xs| => f(xs[i]))
  }

  function Flatten<T>(xss: seq<seq<T>>): seq<T> {
    if xss == [] then [] else xss[0] + Flatten(xss[1..])
  }

  ghost predicate Distinct<T>(xs: seq<T>) {
    forall i, j :: 0 <= i < j < |xs| ==> xs[i] != xs[j]
  }

  lemma ConcatAssoc<T>(a: seq<T>, b: seq<T>, c: seq<T>)
    ensures a + b + c == a + (b + c)
  {
  }

  lemma AppendTwice<T>(xs: seq<T>, ys: seq<T>, r: Result<seq<T>>)
    ensures Append(xs, Append(ys, r)) == Append(xs + ys, r)
  {
    if r.Ok? { ConcatAssoc(xs, ys, r.value); }
  }

  lemma AppendNothing<T>(xs: seq<T>, r: Result<seq<T>>)
    ensures Append(xs, Ok([])) == Ok(xs)
    ensures Append([], r) == r
  {
    assert xs + [] == xs;
    if r.Ok? { assert [] + r.value == r.value; }
  }

  // ---- FlatMapR ------------------------------------------------------------

  lemma {:induction false} FlatMapConcat<T, U>(f: T -> Result<seq<U>>, xs: seq<T>, ys: seq<T>)
    ensures FlatMapR(f, xs + ys) ==
            match FlatMapR(f, xs)
            case Err(e) => Err(e)
            case Ok(us) => Append(us, FlatMapR(f, ys))
  {
    if xs == [] {
      assert xs + ys == ys;
      assert FlatMapR(f, ys).Ok? ==> [] + FlatMapR(f, ys).value == FlatMapR(f, ys).value;
    } else {
      assert (xs + ys)[1..] == xs[1..] + ys;
      FlatMapConcat(f, xs[1..], ys);
      if f(xs[0]).Ok? && FlatMapR(f, xs[1..]).Ok? && FlatMapR(f, ys).Ok? {
        assert f(xs[0]).value + (FlatMapR(f, xs[1..]).value + FlatMapR(f, ys).value)
            == (f(xs[0]).value + FlatMapR(f, xs[1..]).value) + FlatMapR(f, ys).value;
      }
    }
  }

  lemma FlatMapOne<T, U>(f: T -> Result<seq<U>>, x: T)
    ensures FlatMapR(f, [x]) == f(x)
  {
    assert [x][1..] == [];
    if f(x).Ok? { AppendNothing(f(x).value, Ok([])); }
  }

  lemma {:induction false} FlatMapExt<T, U>(f: T -> Result<seq<U>>, g: T -> Result<seq<U>>, xs: seq<T>)
    requires forall x :: x in xs ==> f(x) == g(x)
    ensures FlatMapR(f, xs) == FlatMapR(g, xs)
  {
    if xs != [] {
      assert f(xs[0]) == g(xs[0]);
      FlatMapExt(f, g, xs[1..]);
    }
  }

  /** A successful run ran every step successfully, and its elements come from the steps. */
  lemma {:induction false} FlatMapOk<T, U>(f: T -> Result<seq<U>>, xs: seq<T>)
    ensures FlatMapR(f, xs).Ok? <==> forall x :: x in xs ==> f(x).Ok?
    ensures FlatMapR(f, xs).Ok? ==>
              forall u :: u in FlatMapR(f, xs).value <==> exists x :: x in xs && u in f(x).value
  {
    if xs != [] {
      FlatMapOk(f, xs[1..]);
      assert xs == [xs[0]] + xs[1..];
      if FlatMapR(f, xs).Ok? {
        forall u ensures u in FlatMapR(f, xs).value <==> exists x :: x in xs && u in f(x).value {
        }
      }
    }
  }

  /** Two nested loops in one pass, or one after the other: same list, or both raise. */
  lemma {:induction false} FlatMapAssoc<T, U, V>(
    f: T -> Result<seq<U>>, g: U -> Result<seq<V>>, h: T -> Result<seq<V>>, xs: seq<T>)
    requires forall x :: x in xs ==>
                           Agree(h(x), Then(f(x), g))
    ensures Agree(FlatMapR(h, xs), Then(FlatMapR(f, xs), g))
  {
    if xs != [] {
      FlatMapAssoc(f, g, h, xs[1..]);
      assert xs[0] in xs;
      if f(xs[0]).Ok? && FlatMapR(f, xs[1..]).Ok? {
        FlatMapConcat(g, f(xs[0]).value, FlatMapR(f, xs[1..]).value);
      }
    }
  }

  lemma MapAppend<T, U>(f: T -> U, xs: seq<T>, ys: seq<T>)
    ensures Map(f, xs + ys) == Map(f, xs) + Map(f, ys)
  {
    var all, parts := Map(f, xs + ys), Map(f, xs) + Map(f, ys);
    forall i | 0 <= i < |all| ensures all[i] == parts[i] {
      assert all[i] == f((xs + ys)[i]);
    }
  }

  // ---- Filter --------------------------------------------------------------

  lemma {:induction false} FilterConcat<T>(p: T -> bool, xs: seq<T>, ys: seq<T>)
    ensures Filter(p, xs + ys) == Filter(p, xs) + Filter(p, ys)
  {
    if xs == [] {
      assert xs + ys == ys;
    } else {
      assert (xs + ys)[1..] == xs[1..] + ys;
      FilterConcat(p, xs[1..], ys);
    }
  }

  lemma {:induction false} FilterExt<T>(p: T -> bool, q: T -> bool, xs: seq<T>)
    requires forall x :: x in xs ==> p(x) == q(x)
    ensures Filter(p, xs) == Filter(q, xs)
  {
    if xs != [] {
      assert xs[0] in xs;
      FilterExt(p, q, xs[1..]);
    }
  }

  lemma {:induction false} FilterAll<T>(p: T -> bool, xs: seq<T>)
    requires forall x :: x in xs ==> p(x)
    ensures Filter(p, xs) == xs
  {
    if xs != [] {
      assert xs[0] in xs;
      FilterAll(p, xs[1..]);
    }
  }

  lemma {:induction false} FilterNone<T>(p: T -> bool, xs: seq<T>)
    requires forall x :: x in xs ==> !p(x)
    ensures Filter(p, xs) == []
  {
    if xs != [] {
      assert xs[0] in xs;
      FilterNone(p, xs[1..]);
    }
  }

  lemma {:induction false} FilterFilter<T>(p: T -> bool, q: T -> bool, r: T -> bool, xs: seq<T>)
    requires forall x :: x in xs ==> r(x) == (p(x) && q(x))
    ensures Filter(q, Filter(p, xs)) == Filter(r, xs)
  {
    if xs != [] {
      assert xs[0] in xs;
      FilterFilter(p, q, r, xs[1..]);
    }
  }

  /** Filtering each block filters the whole. */
  lemma {:induction false} FlatMapFilter<T, U>(
    f: T -> Result<seq<U>>, g: T -> Result<seq<U>>, p: U -> bool, xs: seq<T>)
    requires FlatMapR(f, xs).Ok? && FlatMapR(g, xs).Ok?
    requires forall x :: x in xs && f(x).Ok? && g(x).Ok? ==> g(x).value == Filter(p, f(x).value)
    ensures FlatMapR(g, xs).value == Filter(p, FlatMapR(f, xs).value)
  {
    if xs != [] {
      assert xs[0] in xs;
      FlatMapFilter(f, g, p, xs[1..]);
      FilterConcat(p, f(xs[0]).value, FlatMapR(f, xs[1..]).value);
    }
  }

  lemma {:induction false} FilterROk<T>(p: T -> Result<bool>, q: T -> bool, xs: seq<T>)
    requires forall x :: x in xs && p(x).Ok? ==> p(x).value == q(x)
    ensures FilterR(p, xs).Ok? <==> forall x :: x in xs ==> p(x).Ok?
    ensures FilterR(p, xs).Ok? ==> FilterR(p, xs).value == Filter(q, xs)
  {
    if xs != [] {
      assert xs == [xs[0]] + xs[1..];
      FilterROk(p, q, xs[1..]);
    }
  }

  // ---- multisets -------------------------------------------------------------

  lemma {:induction false} FlattenConcat<T>(xss: seq<seq<T>>, yss: seq<seq<T>>)
    ensures Flatten(xss + yss) == Flatten(xss) + Flatten(yss)
  {
    if xss == [] {
      assert xss + yss == yss;
    } else {
      assert (xss + yss)[1..] == xss[1..] + yss;
      FlattenConcat(xss[1..], yss);
    }
  }

  // ---- loops --------------------------------------------------------------------

  /** A loop that has extended `out` with the results for `xs[..i]`. */
  ghost predicate Looping<T, U>(f: T -> Result<seq<U>>, xs: seq<T>, i: nat, out: seq<U>) {
    i <= |xs| && FlatMapR(f, xs) == Append(out, FlatMapR(f, xs[i..]))
  }

  lemma LoopStart<T, U>(f: T -> Result<seq<U>>, xs: seq<T>)
    ensures Looping(f, xs, 0, [])
  {
    assert xs[0..] == xs;
    AppendNothing([], FlatMapR(f, xs));
  }

  lemma LoopStep<T, U>(f: T -> Result<seq<U>>, xs: seq<T>, i: nat, out: seq<U>)
    requires Looping(f, xs, i, out) && i < |xs|
    ensures f(xs[i]).Ok? ==> Looping(f, xs, i + 1, out + f(xs[i]).value)
    ensures f(xs[i]).Err? ==> FlatMapR(f, xs) == Err(f(xs[i]).error)
  {
    assert xs[i..][0] == xs[i] && xs[i..][1..] == xs[i + 1..];
    if f(xs[i]).Ok? { AppendTwice(out, f(xs[i]).value, FlatMapR(f, xs[i + 1..])); }
  }

  lemma LoopEnd<T, U>(f: T -> Result<seq<U>>, xs: seq<T>, out: seq<U>)
    requires Looping(f, xs, |xs|, out)
    ensures FlatMapR(f, xs) == Ok(out)
  {
    AppendNothing(out, FlatMapR(f, xs[|xs|..]));
  }

  /** A loop that has kept the elements of `xs[..i]` that pass. */
  ghost predicate Sifting<T>(p: T -> Result<bool>, xs: seq<T>, i: nat, out: seq<T>) {
    i <= |xs| && FilterR(p, xs) == Append(out, FilterR(p, xs[i..]))
  }

  lemma SiftStart<T>(p: T -> Result<bool>, xs: seq<T>)
    ensures Sifting(p, xs, 0, [])
  {
    assert xs[0..] == xs;
    AppendNothing([], FilterR(p, xs));
  }

  lemma SiftStep<T>(p: T -> Result<bool>, xs: seq<T>, i: nat, out: seq<T>)
    requires Sifting(p, xs, i, out) && i < |xs|
    ensures p(xs[i]).Ok? ==> Sifting(p, xs, i + 1, if p(xs[i]).value then out + [xs[i]] else out)
    ensures p(xs[i]).Err? ==> FilterR(p, xs) == Err(p(xs[i]).error)
  {
    assert xs[i..][0] == xs[i] && xs[i..][1..] == xs[i + 1..];
    if p(xs[i]).Ok? {
      AppendTwice(out, if p(xs[i]).value then [xs[i]] else [], FilterR(p, xs[i + 1..]));
      assert out + [] == out;
    }
  }

  lemma SiftEnd<T>(p: T -> Result<bool>, xs: seq<T>, out: seq<T>)
    requires Sifting(p, xs, |xs|, out)
    ensures FilterR(p, xs) == Ok(out)
  {
    AppendNothing(out, FilterR(p, xs[|xs|..]));
  }
}
