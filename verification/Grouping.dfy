/** Aggregation groups partition the rows, in first-seen order of their keys. */
module Grouping {
  import opened Prelude
  import opened Ast
  import opened Evaluation
  import opened Query

  /** The key a row is grouped under. */
  function KeyOf(ctx: Ctx, keys: seq<Expr>): Row -> seq<Value> {
    (row: Row) => if GroupKey(ctx, keys, row).Ok? then GroupKey(ctx, keys, row).value else []
  }

  /** Rows whose key equals `key`, as Python compares the tuples. */
  function SameKey(k: Row -> seq<Value>, key: seq<Value>): Row -> bool {
    (row: Row) => NormAll(k(row)) == NormAll(key)
  }

  /** Each value once, where it first occurs. */
  ghost function FirstSeen<T(!new)>(xs: seq<T>): seq<T> {
    if xs == [] then []
    else
      var before, last := FirstSeen(xs[..|xs| - 1]), xs[|xs| - 1];
      if last in before then before else before + [last]
  }

  ghost function GroupKeys(gs: seq<Group>): seq<seq<Value>> {
    seq(|gs|, i requires 0 <= i < |gs| => NormAll(gs[i].key))
  }

  ghost function RowKeys(k: Row -> seq<Value>, rows: seq<Row>): seq<seq<Value>> {
    seq(|rows|, i requires 0 <= i < |rows| => NormAll(k(rows[i])))
  }

  /** One group: the rows with its key, in their order; it is never empty and spells its key as its first row does. */
  ghost predicate IsGroup(k: Row -> seq<Value>, rows: seq<Row>, g: Group) {
    g.rows == Filter(SameKey(k, g.key), rows) && g.rows != [] && g.key == k(g.rows[0])
  }

  /** `gs` are the groups of `rows`: one for each key, in first-seen order. */
  ghost predicate Grouped(k: Row -> seq<Value>, rows: seq<Row>, gs: seq<Group>) {
    && GroupKeys(gs) == FirstSeen(RowKeys(k, rows))
    && Distinct(GroupKeys(gs))
    && forall i :: 0 <= i < |gs| ==> IsGroup(k, rows, gs[i])
  }

  // ---- one row more ----------------------------------------------------------------------------

  lemma {:induction false} FirstSeenHasAll<T(!new)>(xs: seq<T>)
    ensures Distinct(FirstSeen(xs)) && forall x :: x in xs <==> x in FirstSeen(xs)
  {
    if xs != [] {
      FirstSeenHasAll(xs[..|xs| - 1]);
      assert xs == xs[..|xs| - 1] + [xs[|xs| - 1]];
    }
  }

  lemma FirstSeenSnoc<T(!new)>(xs: seq<T>, x: T)
    ensures FirstSeen(xs + [x]) == if x in FirstSeen(xs) then FirstSeen(xs) else FirstSeen(xs) + [x]
  {
    assert (xs + [x])[..|xs + [x]| - 1] == xs;
  }

  /** Where `AddToGroup` puts a row: into the group that has its key, or into a new last one. */
  lemma {:induction false} AddToGroupAt(gs: seq<Group>, key: seq<Value>, row: Row) returns (i: nat)
    ensures i <= |gs| && forall j :: 0 <= j < i ==> GroupKeys(gs)[j] != NormAll(key)
    ensures if i < |gs| then
              GroupKeys(gs)[i] == NormAll(key)
                  && AddToGroup(gs, key, row) == gs[i := gs[i].(rows := gs[i].rows + [row])]
            else AddToGroup(gs, key, row) == gs + [Group(key, [row])]
  {
    if gs == [] || NormAll(gs[0].key) == NormAll(key) {
      i := 0;
    } else {
      var k := AddToGroupAt(gs[1..], key, row);
      i := k + 1;
      forall j | 0 <= j < i ensures GroupKeys(gs)[j] != NormAll(key) {
        if j > 0 { assert GroupKeys(gs[1..])[j - 1] == GroupKeys(gs)[j]; }
      }
      assert gs == [gs[0]] + gs[1..];
    }
  }

  lemma FilterSnoc<T>(p: T -> bool, xs: seq<T>, x: T)
    ensures Filter(p, xs + [x]) == if p(x) then Filter(p, xs) + [x] else Filter(p, xs)
  {
    FilterConcat(p, xs, [x]);
    assert Filter(p, xs) + [] == Filter(p, xs);
  }

  lemma NoneBefore(k: Row -> seq<Value>, rows: seq<Row>, key: seq<Value>)
    requires NormAll(key) !in RowKeys(k, rows)
    ensures Filter(SameKey(k, key), rows) == []
  {
    forall row | row in rows ensures !SameKey(k, key)(row) {
      var i :| 0 <= i < |rows| && rows[i] == row;
      assert RowKeys(k, rows)[i] == NormAll(k(row));
    }
    FilterNone(SameKey(k, key), rows);
  }

  lemma GroupsGrow(k: Row -> seq<Value>, rows: seq<Row>, row: Row, g: Group)
    requires IsGroup(k, rows, g)
    ensures IsGroup(k, rows + [row], if NormAll(g.key) == NormAll(k(row)) then g.(rows := g.rows + [row]) else g)
  {
    FilterSnoc(SameKey(k, g.key), rows, row);
  }

  lemma KeysSnoc(k: Row -> seq<Value>, rows: seq<Row>, row: Row, gs: seq<Group>)
    requires GroupKeys(gs) == FirstSeen(RowKeys(k, rows))
    ensures NormAll(k(row)) in GroupKeys(gs) ==> FirstSeen(RowKeys(k, rows + [row])) == GroupKeys(gs)
    ensures NormAll(k(row)) !in GroupKeys(gs) ==>
              FirstSeen(RowKeys(k, rows + [row])) == GroupKeys(gs) + [NormAll(k(row))]
                  && NormAll(k(row)) !in RowKeys(k, rows)
    ensures Distinct(FirstSeen(RowKeys(k, rows + [row])))
  {
    assert RowKeys(k, rows + [row]) == RowKeys(k, rows) + [NormAll(k(row))];
    FirstSeenSnoc(RowKeys(k, rows), NormAll(k(row)));
    FirstSeenHasAll(RowKeys(k, rows));
    FirstSeenHasAll(RowKeys(k, rows + [row]));
  }

  lemma OldGroup(k: Row -> seq<Value>, rows: seq<Row>, row: Row, gs: seq<Group>, i: nat)
    requires Grouped(k, rows, gs) && i < |gs| && GroupKeys(gs)[i] == NormAll(k(row))
    ensures Grouped(k, rows + [row], gs[i := gs[i].(rows := gs[i].rows + [row])])
  {
    var hs := gs[i := gs[i].(rows := gs[i].rows + [row])];
    KeysSnoc(k, rows, row, gs);
    assert GroupKeys(hs) == GroupKeys(gs);
    forall j | 0 <= j < |hs| ensures IsGroup(k, rows + [row], hs[j]) {
      GroupsGrow(k, rows, row, gs[j]);
      if j != i { assert GroupKeys(gs)[j] != GroupKeys(gs)[i]; }
    }
  }

  lemma NewGroup(k: Row -> seq<Value>, rows: seq<Row>, row: Row, gs: seq<Group>)
    requires Grouped(k, rows, gs) && NormAll(k(row)) !in GroupKeys(gs)
    ensures Grouped(k, rows + [row], gs + [Group(k(row), [row])])
  {
    var hs := gs + [Group(k(row), [row])];
    KeysSnoc(k, rows, row, gs);
    assert GroupKeys(hs) == GroupKeys(gs) + [NormAll(k(row))];
    NoneBefore(k, rows, k(row));
    FilterSnoc(SameKey(k, k(row)), rows, row);
    assert [] + [row] == [row];
    forall j | 0 <= j < |gs| ensures IsGroup(k, rows + [row], hs[j]) {
      GroupsGrow(k, rows, row, gs[j]);
      assert GroupKeys(gs)[j] in GroupKeys(gs);
    }
  }

  /** Adding one row keeps the groups the groups. */
  lemma AddKeepsGrouped(k: Row -> seq<Value>, rows: seq<Row>, row: Row, gs: seq<Group>)
    requires Grouped(k, rows, gs)
    ensures Grouped(k, rows + [row], AddToGroup(gs, k(row), row))
  {
    var i := AddToGroupAt(gs, k(row), row);
    if i < |gs| {
      OldGroup(k, rows, row, gs, i);
    } else {
      NewGroup(k, rows, row, gs);
    }
  }

  lemma MoveOne<T>(done: seq<T>, rest: seq<T>)
    requires rest != []
    ensures done + [rest[0]] + rest[1..] == done + rest
  {
  }

  lemma {:induction false} GroupRowsFrom(ctx: Ctx, keys: seq<Expr>, done: seq<Row>, rows: seq<Row>, gs: seq<Group>)
    requires Grouped(KeyOf(ctx, keys), done, gs)
    ensures GroupRows(ctx, keys, rows, gs).Ok? ==>
              Grouped(KeyOf(ctx, keys), done + rows, GroupRows(ctx, keys, rows, gs).value)
    decreases rows
  {
    if rows == [] {
      assert done + rows == done;
    } else if GroupKey(ctx, keys, rows[0]).Ok? {
      var key := GroupKey(ctx, keys, rows[0]).value;
      assert KeyOf(ctx, keys)(rows[0]) == key;
      AddKeepsGrouped(KeyOf(ctx, keys), done, rows[0], gs);
      GroupRowsFrom(ctx, keys, done + [rows[0]], rows[1..], AddToGroup(gs, key, rows[0]));
      MoveOne(done, rows);
    }
  }

  /** The dictionary loop of an aggregation computes the groups of its rows. */
  lemma GroupRowsGroups(ctx: Ctx, keys: seq<Expr>, rows: seq<Row>)
    requires GroupRows(ctx, keys, rows, []).Ok?
    ensures Grouped(KeyOf(ctx, keys), rows, GroupRows(ctx, keys, rows, []).value)
  {
    assert RowKeys(KeyOf(ctx, keys), []) == [];
    GroupRowsFrom(ctx, keys, [], rows, []);
    assert [] + rows == rows;
  }

  // ---- a partition -------------------------------------------------------------------------------

  function GroupedRows(gs: seq<Group>): seq<seq<Row>> {
    seq(|gs|, i requires 0 <= i < |gs| => gs[i].rows)
  }

  /** The rows with one of the first `n` keys. */
  function HasKeyBefore(k: Row -> seq<Value>, gs: seq<Group>, n: nat): Row -> bool
    requires n <= |gs|
  {
    (row: Row) => exists i :: 0 <= i < n && SameKey(k, gs[i].key)(row)
  }

  lemma {:induction false} SplitRows(k: Row -> seq<Value>, p: Row -> bool, q: Row -> bool, r: Row -> bool,
          rows: seq<Row>)
    requires forall row :: row in rows ==> (r(row) <==> p(row) || q(row)) && !(p(row) && q(row))
    ensures multiset(Filter(r, rows)) == multiset(Filter(p, rows)) + multiset(Filter(q, rows))
  {
    if rows != [] {
      assert rows[0] in rows;
      SplitRows(k, p, q, r, rows[1..]);
    }
  }

  lemma OneMoreKey(k: Row -> seq<Value>, gs: seq<Group>, n: nat, row: Row)
    requires Distinct(GroupKeys(gs)) && 0 < n <= |gs|
    ensures HasKeyBefore(k, gs, n)(row) <==> HasKeyBefore(k, gs, n - 1)(row) || SameKey(k, gs[n - 1].key)(row)
    ensures !(HasKeyBefore(k, gs, n - 1)(row) && SameKey(k, gs[n - 1].key)(row))
  {
    forall i | 0 <= i < n - 1 ensures !(SameKey(k, gs[n - 1].key)(row) && SameKey(k, gs[i].key)(row)) {
      assert GroupKeys(gs)[i] != GroupKeys(gs)[n - 1];
    }
  }

  lemma FlattenSnoc<T>(xss: seq<seq<T>>, n: nat)
    requires 0 < n <= |xss|
    ensures Flatten(xss[..n]) == Flatten(xss[..n - 1]) + xss[n - 1]
  {
    assert xss[..n] == xss[..n - 1] + [xss[n - 1]];
    FlattenConcat(xss[..n - 1], [xss[n - 1]]);
    assert xss[n - 1] + [] == xss[n - 1];
  }

  lemma SplitGroup(k: Row -> seq<Value>, rows: seq<Row>, gs: seq<Group>, n: nat)
    requires Distinct(GroupKeys(gs)) && 0 < n <= |gs|
    ensures multiset(Filter(HasKeyBefore(k, gs, n), rows)) ==
            multiset(Filter(HasKeyBefore(k, gs, n - 1), rows)) + multiset(Filter(SameKey(k, gs[n - 1].key), rows))
  {
    var p, q, r := HasKeyBefore(k, gs, n - 1), SameKey(k, gs[n - 1].key), HasKeyBefore(k, gs, n);
    forall row | row in rows ensures (r(row) <==> p(row) || q(row))
        && !(p(row) && q(row)) { OneMoreKey(k, gs, n, row); }
    SplitRows(k, p, q, r, rows);
  }

  lemma {:induction false} FirstGroups(k: Row -> seq<Value>, rows: seq<Row>, gs: seq<Group>, n: nat)
    requires Grouped(k, rows, gs) && n <= |gs|
    ensures multiset(Flatten(GroupedRows(gs)[..n])) == multiset(Filter(HasKeyBefore(k, gs, n), rows))
  {
    if n == 0 {
      FilterNone(HasKeyBefore(k, gs, 0), rows);
    } else {
      FirstGroups(k, rows, gs, n - 1);
      FlattenSnoc(GroupedRows(gs), n);
      assert IsGroup(k, rows, gs[n - 1]);
      SplitGroup(k, rows, gs, n);
    }
  }

  lemma EveryRowHasKey(k: Row -> seq<Value>, rows: seq<Row>, gs: seq<Group>)
    requires GroupKeys(gs) == FirstSeen(RowKeys(k, rows))
    ensures forall row :: row in rows ==> HasKeyBefore(k, gs, |gs|)(row)
  {
    FirstSeenHasAll(RowKeys(k, rows));
    forall row | row in rows ensures HasKeyBefore(k, gs, |gs|)(row) {
      var i :| 0 <= i < |rows| && rows[i] == row;
      assert RowKeys(k, rows)[i] in RowKeys(k, rows);
      var j :| 0 <= j < |GroupKeys(gs)| && GroupKeys(gs)[j] == RowKeys(k, rows)[i];
      assert SameKey(k, gs[j].key)(row);
    }
  }

  /** Every row lies in exactly one group: the groups together hold exactly the rows, and no two share a key. */
  lemma GroupsPartition(ctx: Ctx, keys: seq<Expr>, rows: seq<Row>)
    requires GroupRows(ctx, keys, rows, []).Ok?
    ensures var gs := GroupRows(ctx, keys, rows, []).value;
            && Distinct(GroupKeys(gs))
            && multiset(Flatten(GroupedRows(gs))) == multiset(rows)
            && forall i :: 0 <= i < |gs| ==> gs[i].rows == Filter(SameKey(KeyOf(ctx, keys), gs[i].key), rows)
  {
    var gs, k := GroupRows(ctx, keys, rows, []).value, KeyOf(ctx, keys);
    GroupRowsGroups(ctx, keys, rows);
    FirstGroups(k, rows, gs, |gs|);
    assert GroupedRows(gs)[..|gs|] == GroupedRows(gs);
    assert forall i :: 0 <= i < |gs| ==> IsGroup(k, rows, gs[i]);
    EveryRowHasKey(k, rows, gs);
    FilterAll(HasKeyBefore(k, gs, |gs|), rows);
  }
}
