/** The mutable property graph: what each operation does to the store, and what every run keeps. */
module GraphSpec {
  import opened Prelude
  import opened Ast
  import opened Evaluation

  const EMPTY := GraphState([], map[], [], map[], map[], map[], map[], 1)

  // ---- the operations as state changes ---------------------------------------------------

  function Adj(m: map<nat, seq<nat>>, n: nat): seq<nat> {
    if n in m then m[n] else []
  }

  function Indexed(s: GraphState, lab: string): set<nat> {
    if lab in s.byLabel then s.byLabel[lab] else {}
  }

  /** `list.remove(x)`: drops the first occurrence. */
  function RemoveFirst(xs: seq<nat>, x: nat): seq<nat> {
    if xs == [] then [] else if xs[0] == x then xs[1..] else [xs[0]] + RemoveFirst(xs[1..], x)
  }

  function IsNot(x: nat): nat -> bool {
    y => y != x
  }

  function AddToIndex(m: map<string, set<nat>>, labels: set<string>, n: nat): map<string, set<nat>> {
    map l | l in m.Keys + labels :: if l !in labels then m[l] else if l in m then m[l] + {n} else {n}
  }

  function DropFromIndex(m: map<string, set<nat>>, labels: set<string>, n: nat): map<string, set<nat>> {
    map l | l in m :: if l in labels then m[l] - {n} else m[l]
  }

  function AddLabel(m: map<string, set<nat>>, l: string, n: nat): map<string, set<nat>> {
    m[l := if l in m then m[l] + {n} else {n}]
  }

  lemma AddOneLabel(m: map<string, set<nat>>, done: set<string>, l: string, n: nat)
    requires l !in done
    ensures AddLabel(AddToIndex(m, done, n), l, n) == AddToIndex(m, done + {l}, n)
  {
    assert AddLabel(AddToIndex(m, done, n), l, n).Keys == AddToIndex(m, done + {l}, n).Keys;
  }

  lemma IndexUnchanged(m: map<string, set<nat>>, n: nat)
    ensures AddToIndex(m, {}, n) == m
    ensures DropFromIndex(m, {}, n) == m
  {
    assert AddToIndex(m, {}, n).Keys == m.Keys;
  }

  lemma DropOneLabel(m: map<string, set<nat>>, done: set<string>, l: string, n: nat)
    requires l !in done
    ensures var k := DropFromIndex(m, done, n);
            (if l in k then k[l := k[l] - {n}] else k) == DropFromIndex(m, done + {l}, n)
  {
  }

  function CreateNode(s: GraphState, labels: set<string>, props: Row): GraphState {
    var n := s.next;
    s.(nodeIds := s.nodeIds + [n],
    nodes := s.nodes[n := NodeRec(labels, props)],
    byLabel := AddToIndex(s.byLabel, labels, n),
    outAdj := s.outAdj[n := Adj(s.outAdj, n)],
    inAdj := s.inAdj[n := Adj(s.inAdj, n)],
    next := n + 1)
  }

  function CreateRel(s: GraphState, start: nat, end: nat, typ: string, props: Row): GraphState {
    var r := s.next;
    s.(relIds := s.relIds + [r],
    rels := s.rels[r := RelRec(typ, start, end, props)],
    outAdj := s.outAdj[start := Adj(s.outAdj, start) + [r]],
    inAdj := s.inAdj[end := Adj(s.inAdj, end) + [r]],
    next := r + 1)
  }

  function Unlink(m: map<nat, seq<nat>>, n: nat, r: nat): map<nat, seq<nat>> {
    if r in Adj(m, n) then m[n := RemoveFirst(Adj(m, n), r)] else m
  }

  function DeleteRel(s: GraphState, r: nat): GraphState {
    if r !in s.relIds || r !in s.rels then s
    else
      s.(relIds := Filter(IsNot(r), s.relIds),
      outAdj := Unlink(s.outAdj, s.rels[r].start, r),
      inAdj := Unlink(s.inAdj, s.rels[r].end, r))
  }

  function DeleteRels(s: GraphState, rs: seq<nat>): GraphState
    decreases |rs|
  {
    if rs == [] then s else DeleteRels(DeleteRel(s, rs[0]), rs[1..])
  }

  function DropNode(s: GraphState, n: nat): GraphState {
    s.(nodeIds := Filter(IsNot(n), s.nodeIds), byLabel := DropFromIndex(s.byLabel, LabelsOf(s, n), n))
  }

  /** `None` is the "has relationships" error. */
  function DeleteNode(s: GraphState, n: nat, detach: bool): Option<GraphState> {
    if n !in s.nodeIds then Some(s)
    else if detach then Some(DropNode(DeleteRels(s, Adj(s.outAdj, n) + Adj(s.inAdj, n)), n))
    else if Adj(s.outAdj, n) != [] || Adj(s.inAdj, n) != [] then None
    else Some(DropNode(s, n))
  }

  /** `REMOVE n:label` on a node object, which may no longer be in the graph. */
  function RemoveLabel(s: GraphState, n: nat, lab: string): GraphState {
    if n !in s.nodes then s
    else
      s.(nodes := s.nodes[n := s.nodes[n].(labels := s.nodes[n].labels - {lab})],
      byLabel := DropFromIndex(s.byLabel, {lab}, n))
  }

  function Known(s: GraphState): nat -> bool {
    r => r in s.relIds && r in s.rels
  }

  function HasType(s: GraphState, typ: string): nat -> bool {
    r => r in s.rels && (typ == "" || s.rels[r].typ == typ)
  }

  function OutRels(s: GraphState, n: nat, typ: string): seq<nat> {
    Filter(HasType(s, typ), Filter(Known(s), Adj(s.outAdj, n)))
  }

  function InRels(s: GraphState, n: nat, typ: string): seq<nat> {
    Filter(HasType(s, typ), Filter(Known(s), Adj(s.inAdj, n)))
  }

  // ---- the invariant -----------------------------------------------------------------------

  function StartsAt(rels: map<nat, RelRec>, n: nat): nat -> bool {
    r => r in rels && rels[r].start == n
  }

  function EndsAt(rels: map<nat, RelRec>, n: nat): nat -> bool {
    r => r in rels && rels[r].end == n
  }

  ghost predicate Increasing(xs: seq<nat>) {
    forall i, j :: 0 <= i < j < |xs| ==> xs[i] < xs[j]
  }

  ghost predicate IdsOk(s: GraphState) {
    && Increasing(s.nodeIds)
    && Increasing(s.relIds)
    && (forall n :: n in s.nodeIds ==> n in s.nodes)
    && (forall r :: r in s.relIds ==> r in s.rels)
    && (forall n :: n in s.nodes ==> n < s.next)
    && (forall r :: r in s.rels ==> r < s.next)
    && s.nodes.Keys !! s.rels.Keys
  }

  /** Adjacency lists are the relationships with that endpoint, in creation order. */
  ghost predicate AdjacencyOk(s: GraphState) {
    forall n: nat :: AdjacentAt(s, n)
  }

  ghost predicate AdjacentAt(s: GraphState, n: nat) {
    && Adj(s.outAdj, n) == Filter(StartsAt(s.rels, n), s.relIds)
    && Adj(s.inAdj, n) == Filter(EndsAt(s.rels, n), s.relIds)
  }

  /** The label index answers exactly the live nodes that carry the label. */
  ghost predicate LabelsOk(s: GraphState) {
    forall l, n :: LabelAt(s, l, n)
  }

  ghost predicate Consistent(s: GraphState) {
    IdsOk(s) && AdjacencyOk(s) && LabelsOk(s)
  }

  ghost predicate Live(s: GraphState, n: nat) {
    n in s.nodeIds
  }

  ghost predicate NoDangling(s: GraphState) {
    forall r :: r in s.relIds && r in s.rels ==> Live(s, s.rels[r].start) && Live(s, s.rels[r].end)
  }

  // ---- list facts -----------------------------------------------------------------------------

  lemma {:induction false} FilterIncreasing(p: nat -> bool, xs: seq<nat>)
    requires Increasing(xs)
    ensures Increasing(Filter(p, xs))
  {
    if xs != [] {
      FilterIncreasing(p, xs[1..]);
      var ys := Filter(p, xs[1..]);
      forall j | 0 <= j < |ys| ensures xs[0] < ys[j] {
        assert ys[j] in ys;
      }
    }
  }

  lemma {:induction false} RemoveFirstIsFilter(xs: seq<nat>, x: nat)
    requires Increasing(xs)
    ensures RemoveFirst(xs, x) == Filter(IsNot(x), xs)
  {
    if xs != [] {
      if xs[0] == x {
        FilterAll(IsNot(x), xs[1..]);
      } else {
        RemoveFirstIsFilter(xs[1..], x);
      }
    }
  }

  lemma FilterCommute(p: nat -> bool, q: nat -> bool, xs: seq<nat>)
    ensures Filter(p, Filter(q, xs)) == Filter(q, Filter(p, xs))
  {
    FilterFilter(q, p, x => p(x) && q(x), xs);
    FilterFilter(p, q, x => p(x) && q(x), xs);
  }

  // ---- each operation keeps the invariant ------------------------------------------------------

  /** Same relationships, same adjacency: the adjacency part of the invariant carries over. */
  lemma AdjacencySame(s: GraphState, t: GraphState)
    requires AdjacencyOk(s) && t.rels == s.rels && t.relIds == s.relIds
    requires forall n: nat :: Adj(t.outAdj, n) == Adj(s.outAdj, n) && Adj(t.inAdj, n) == Adj(s.inAdj, n)
    ensures AdjacencyOk(t)
  {
    forall n: nat ensures AdjacentAt(t, n) {
      assert AdjacentAt(s, n);
    }
  }

  ghost predicate LabelAt(s: GraphState, l: string, n: nat) {
    n in Indexed(s, l) <==> n in s.nodeIds && l in LabelsOf(s, n)
  }

  lemma IncreasingAppend(xs: seq<nat>, x: nat)
    requires Increasing(xs) && forall y :: y in xs ==> y < x
    ensures Increasing(xs + [x])
  {
    forall i, j | 0 <= i < j < |xs + [x]| ensures (xs + [x])[i] < (xs + [x])[j] {
      assert xs[i] in xs;
    }
  }

  lemma CreateNodeLabels(s: GraphState, labels: set<string>, props: Row)
    requires IdsOk(s) && LabelsOk(s)
    ensures LabelsOk(CreateNode(s, labels, props))
  {
    var t := CreateNode(s, labels, props);
    assert s.next !in s.nodeIds;
    forall l, n ensures LabelAt(t, l, n) {
      assert LabelAt(s, l, n);
    }
  }

  lemma CreateNodeKeeps(s: GraphState, labels: set<string>, props: Row)
    requires Consistent(s)
    ensures Consistent(CreateNode(s, labels, props))
    ensures NoDangling(s) ==> NoDangling(CreateNode(s, labels, props))
  {
    IncreasingAppend(s.nodeIds, s.next);
    CreateNodeLabels(s, labels, props);
    AdjacencySame(s, CreateNode(s, labels, props));
  }

  lemma FilterMoreRels(p: nat -> bool, q: nat -> bool, r: nat, xs: seq<nat>)
    requires forall x :: x in xs ==> q(x) == p(x)
    ensures Filter(q, xs + [r]) == Filter(p, xs) + if q(r) then [r] else []
  {
    FilterExt(q, p, xs);
    FilterConcat(q, xs, [r]);
    assert [r][1..] == [];
  }

  lemma AppendAdjacent(m: map<nat, seq<nat>>, home: nat, n: nat, r: nat, p: nat -> bool, q: nat -> bool, ids: seq<nat>)
    requires Adj(m, n) == Filter(p, ids)
    requires forall x :: x in ids ==> q(x) == p(x)
    requires q(r) <==> n == home
    ensures Adj(m[home := Adj(m, home) + [r]], n) == Filter(q, ids + [r])
  {
    FilterMoreRels(p, q, r, ids);
  }

  lemma CreateRelAdjacency(s: GraphState, start: nat, end: nat, typ: string, props: Row)
    requires IdsOk(s) && AdjacencyOk(s)
    ensures AdjacencyOk(CreateRel(s, start, end, typ, props))
  {
    var t := CreateRel(s, start, end, typ, props);
    assert s.next !in s.relIds;
    forall n: nat ensures AdjacentAt(t, n) {
      assert AdjacentAt(s, n);
      AppendAdjacent(s.outAdj, start, n, s.next, StartsAt(s.rels, n), StartsAt(t.rels, n), s.relIds);
      AppendAdjacent(s.inAdj, end, n, s.next, EndsAt(s.rels, n), EndsAt(t.rels, n), s.relIds);
    }
  }

  lemma LabelsSame(s: GraphState, t: GraphState)
    requires LabelsOk(s) && t.nodes == s.nodes && t.nodeIds == s.nodeIds && t.byLabel == s.byLabel
    ensures LabelsOk(t)
  {
    forall l, n ensures LabelAt(t, l, n) {
      assert LabelAt(s, l, n);
    }
  }

  lemma CreateRelDangling(s: GraphState, start: nat, end: nat, typ: string, props: Row)
    requires IdsOk(s)
    ensures NoDangling(CreateRel(s, start, end, typ, props)) <==> NoDangling(s) && Live(s, start) && Live(s, end)
  {
    var t := CreateRel(s, start, end, typ, props);
    assert t.relIds[|s.relIds|] == s.next && t.rels[s.next] == RelRec(typ, start, end, props);
    assert forall x :: x in s.relIds ==> x in t.relIds && t.rels[x] == s.rels[x];
    assert forall x :: x in t.relIds ==> x == s.next || x in s.relIds;
    if NoDangling(t) {
      assert s.next in t.relIds;
      forall x | x in s.relIds && x in s.rels ensures Live(s, s.rels[x].start) && Live(s, s.rels[x].end) {
        assert x in t.relIds;
      }
    }
  }

  /** The store accepts any endpoints; only live ones keep it free of dangling relationships. */
  lemma CreateRelKeeps(s: GraphState, start: nat, end: nat, typ: string, props: Row)
    requires Consistent(s)
    ensures Consistent(CreateRel(s, start, end, typ, props))
    ensures NoDangling(CreateRel(s, start, end, typ, props)) <==> NoDangling(s) && Live(s, start) && Live(s, end)
  {
    IncreasingAppend(s.relIds, s.next);
    CreateRelAdjacency(s, start, end, typ, props);
    LabelsSame(s, CreateRel(s, start, end, typ, props));
    CreateRelDangling(s, start, end, typ, props);
  }

  /** Deleting relationships touches nothing but their list and the adjacency. */
  ghost predicate OnlyRelsDiffer(s: GraphState, t: GraphState) {
    t == s.(relIds := t.relIds, outAdj := t.outAdj, inAdj := t.inAdj)
  }

  lemma DeleteRelKeeps(s: GraphState, r: nat)
    requires Consistent(s)
    ensures Consistent(DeleteRel(s, r)) && OnlyRelsDiffer(s, DeleteRel(s, r))
    ensures NoDangling(s) ==> NoDangling(DeleteRel(s, r))
    ensures DeleteRel(s, r).relIds == Filter(IsNot(r), s.relIds)
  {
    var t := DeleteRel(s, r);
    if r in s.relIds {
      FilterIncreasing(IsNot(r), s.relIds);
      LabelsSame(s, t);
      forall n: nat ensures AdjacentAt(t, n) {
        assert AdjacentAt(s, n);
        UnlinkIsFilter(s.outAdj, StartsAt(s.rels, n), s.relIds, s.rels[r].start, n, r);
        UnlinkIsFilter(s.inAdj, EndsAt(s.rels, n), s.relIds, s.rels[r].end, n, r);
      }
    } else {
      FilterAll(IsNot(r), s.relIds);
    }
  }

  lemma UnlinkIsFilter(m: map<nat, seq<nat>>, p: nat -> bool, ids: seq<nat>, home: nat, n: nat, r: nat)
    requires Increasing(ids) && r in ids
    requires Adj(m, n) == Filter(p, ids)
    requires p(r) <==> n == home
    ensures Adj(Unlink(m, home, r), n) == Filter(p, Filter(IsNot(r), ids))
  {
    FilterCommute(p, IsNot(r), ids);
    FilterIncreasing(p, ids);
    if n == home {
      RemoveFirstIsFilter(Filter(p, ids), r);
    } else {
      FilterAll(IsNot(r), Filter(p, ids));
    }
  }

  function NotIn(rs: seq<nat>): nat -> bool {
    x => x !in rs
  }

  lemma {:induction false} DeleteRelsKeeps(s: GraphState, rs: seq<nat>)
    requires Consistent(s)
    ensures Consistent(DeleteRels(s, rs)) && OnlyRelsDiffer(s, DeleteRels(s, rs))
    ensures NoDangling(s) ==> NoDangling(DeleteRels(s, rs))
    ensures DeleteRels(s, rs).relIds == Filter(NotIn(rs), s.relIds)
    decreases |rs|
  {
    if rs == [] {
      FilterAll(NotIn(rs), s.relIds);
    } else {
      var t := DeleteRel(s, rs[0]);
      DeleteRelKeeps(s, rs[0]);
      DeleteRelsKeeps(t, rs[1..]);
      NotInRest(rs, s.relIds);
    }
  }

  lemma NotInRest(rs: seq<nat>, xs: seq<nat>)
    requires rs != []
    ensures Filter(NotIn(rs[1..]), Filter(IsNot(rs[0]), xs)) == Filter(NotIn(rs), xs)
  {
    assert rs == [rs[0]] + rs[1..];
    FilterFilter(IsNot(rs[0]), NotIn(rs[1..]), NotIn(rs), xs);
  }

  lemma DropNodeKeeps(s: GraphState, n: nat)
    requires Consistent(s) && n in s.nodeIds
    ensures Consistent(DropNode(s, n))
  {
    var t := DropNode(s, n);
    FilterIncreasing(IsNot(n), s.nodeIds);
    AdjacencySame(s, t);
    forall l, m ensures LabelAt(t, l, m) {
      assert LabelAt(s, l, m);
    }
  }

  function Incident(s: GraphState, n: nat): nat -> bool {
    r => r in s.rels && (s.rels[r].start == n || s.rels[r].end == n)
  }

  function NotIncident(s: GraphState, n: nat): nat -> bool {
    (r: nat) => !Incident(s, n)(r)
  }

  lemma IncidentAnswers(s: GraphState, n: nat)
    requires Consistent(s)
    ensures forall r: nat :: r in s.relIds ==> (r in Adj(s.outAdj, n) + Adj(s.inAdj, n) <==> Incident(s, n)(r))
    ensures forall r: nat :: r in Adj(s.outAdj, n) + Adj(s.inAdj, n) ==> r in s.relIds && Incident(s, n)(r)
  {
    assert AdjacentAt(s, n);
  }

  lemma DetachDeleteKeeps(s: GraphState, n: nat)
    requires Consistent(s) && n in s.nodeIds
    ensures var t := DeleteNode(s, n, true).value;
            && Consistent(t)
            && (NoDangling(s) ==> NoDangling(t))
            && t.nodeIds == Filter(IsNot(n), s.nodeIds)
            && t.relIds == Filter(NotIncident(s, n), s.relIds)
            && t.nodes == s.nodes && t.rels == s.rels && t.next == s.next
  {
    var doomed := Adj(s.outAdj, n) + Adj(s.inAdj, n);
    var t := DeleteRels(s, doomed);
    IncidentAnswers(s, n);
    DeleteRelsKeeps(s, doomed);
    FilterExt(NotIn(doomed), NotIncident(s, n), s.relIds);
    DropNodeKeeps(t, n);
    assert forall r :: r in t.relIds ==> NotIncident(s, n)(r);
    if NoDangling(t) { DropNodeDangling(t, n); }
  }

  lemma PlainDeleteKeeps(s: GraphState, n: nat)
    requires Consistent(s) && n in s.nodeIds
    ensures DeleteNode(s, n, false) == None <==> exists r :: r in s.relIds && Incident(s, n)(r)
    ensures DeleteNode(s, n, false).Some? ==>
              var t := DeleteNode(s, n, false).value;
              && Consistent(t)
              && (NoDangling(s) ==> NoDangling(t))
              && t == DropNode(s, n)
              && s.relIds == Filter(NotIncident(s, n), s.relIds)
  {
    var near := Adj(s.outAdj, n) + Adj(s.inAdj, n);
    IncidentAnswers(s, n);
    if near != [] {
      assert near[0] in near;
    } else {
      assert forall r :: r in s.relIds ==> r !in near;
      FilterAll(NotIncident(s, n), s.relIds);
      DropNodeKeeps(s, n);
      if NoDangling(s) { DropNodeDangling(s, n); }
    }
  }

  lemma DropNodeDangling(s: GraphState, n: nat)
    requires NoDangling(s) && forall r :: r in s.relIds ==> !Incident(s, n)(r)
    ensures NoDangling(DropNode(s, n))
  {
  }

  /** Detach delete removes the node and exactly its incident relationships; plain delete refuses iff
      there are any, and otherwise removes the node alone. */
  lemma DeleteNodeKeeps(s: GraphState, n: nat, detach: bool)
    requires Consistent(s)
    ensures DeleteNode(s, n, detach) == None <==>
            !detach && n in s.nodeIds && exists r :: r in s.relIds && Incident(s, n)(r)
    ensures DeleteNode(s, n, detach).Some? ==>
              var t := DeleteNode(s, n, detach).value;
              && Consistent(t)
              && (NoDangling(s) ==> NoDangling(t))
              && t.nodeIds == Filter(IsNot(n), s.nodeIds)
              && t.relIds == (if n in s.nodeIds then Filter(NotIncident(s, n), s.relIds) else s.relIds)
              && t.nodes == s.nodes && t.rels == s.rels && t.next == s.next
  {
    if n !in s.nodeIds {
      FilterAll(IsNot(n), s.nodeIds);
    } else if detach {
      DetachDeleteKeeps(s, n);
    } else {
      PlainDeleteKeeps(s, n);
    }
  }

  lemma RemoveLabelKeeps(s: GraphState, n: nat, lab: string)
    requires Consistent(s)
    ensures Consistent(RemoveLabel(s, n, lab))
    ensures NoDangling(s) ==> NoDangling(RemoveLabel(s, n, lab))
    ensures Indexed(RemoveLabel(s, n, lab), lab) == Indexed(s, lab) - {n}
    ensures LabelsOf(RemoveLabel(s, n, lab), n) == LabelsOf(s, n) - {lab}
  {
    var t := RemoveLabel(s, n, lab);
    AdjacencySame(s, t);
    forall l, m ensures LabelAt(t, l, m) {
      assert LabelAt(s, l, m);
    }
    assert LabelAt(s, lab, n);
  }

  /** What a caller of `out_rels`/`in_rels` sees: a filter of all relationships, in creation order. */
  lemma AdjacencyAnswers(s: GraphState, n: nat, typ: string)
    requires Consistent(s)
    ensures OutRels(s, n, typ) == Filter(HasType(s, typ), Filter(StartsAt(s.rels, n), s.relIds))
    ensures InRels(s, n, typ) == Filter(HasType(s, typ), Filter(EndsAt(s.rels, n), s.relIds))
    ensures Increasing(OutRels(s, n, typ)) && Increasing(InRels(s, n, typ))
  {
    assert AdjacentAt(s, n);
    assert Adj(s.inAdj, n) == Filter(EndsAt(s.rels, n), s.relIds);
    FilterAll(Known(s), Adj(s.outAdj, n));
    FilterAll(Known(s), Adj(s.inAdj, n));
    FilterIncreasing(StartsAt(s.rels, n), s.relIds);
    FilterIncreasing(EndsAt(s.rels, n), s.relIds);
    FilterIncreasing(HasType(s, typ), Adj(s.outAdj, n));
    FilterIncreasing(HasType(s, typ), Adj(s.inAdj, n));
  }

  // ---- runs -------------------------------------------------------------------------------------

  datatype Op =
    | OpCreateNode(labels: set<string>, props: Row)
    | OpCreateRel(start: nat, end: nat, typ: string, props: Row)
    | OpDeleteRel(rel: nat)
    | OpDeleteNode(node: nat, detach: bool)
    | OpRemoveLabel(node: nat, lab: string)

  /** A refused deletion raises before it changes anything. */
  function Step(s: GraphState, op: Op): GraphState {
    match op
    case OpCreateNode(labels, props) => CreateNode(s, labels, props)
    case OpCreateRel(a, b, typ, props) => CreateRel(s, a, b, typ, props)
    case OpDeleteRel(r) => DeleteRel(s, r)
    case OpDeleteNode(n, detach) => if DeleteNode(s, n, detach).Some? then DeleteNode(s, n, detach).value else s
    case OpRemoveLabel(n, l) => RemoveLabel(s, n, l)
  }

  function Run(s: GraphState, ops: seq<Op>): GraphState
    decreases |ops|
  {
    if ops == [] then s else Run(Step(s, ops[0]), ops[1..])
  }

  ghost predicate EndpointsLive(s: GraphState, ops: seq<Op>)
    decreases |ops|
  {
    ops == [] ||
    (&& (ops[0].OpCreateRel? ==> Live(s, ops[0].start) && Live(s, ops[0].end))
     && EndpointsLive(Step(s, ops[0]), ops[1..]))
  }

  function AllIds(s: GraphState): set<nat> {
    s.nodes.Keys + s.rels.Keys
  }

  /** Objects are never forgotten, and an id first seen in `t` was not issued before `s`. */
  ghost predicate NewIdsOnly(s: GraphState, t: GraphState) {
    && s.next <= t.next
    && s.nodes.Keys <= t.nodes.Keys
    && s.rels.Keys <= t.rels.Keys
    && forall x :: x in AllIds(t) && x !in AllIds(s) ==> s.next <= x
  }

  lemma StepKeeps(s: GraphState, op: Op)
    requires Consistent(s)
    ensures Consistent(Step(s, op))
    ensures NoDangling(s) && (op.OpCreateRel? ==> Live(s, op.start) && Live(s, op.end)) ==> NoDangling(Step(s, op))
    ensures NewIdsOnly(s, Step(s, op))
  {
    match op
    case OpCreateNode(labels, props) => CreateNodeKeeps(s, labels, props);
    case OpCreateRel(a, b, typ, props) => CreateRelKeeps(s, a, b, typ, props);
    case OpDeleteRel(r) => DeleteRelKeeps(s, r);
    case OpDeleteNode(n, detach) => DeleteNodeKeeps(s, n, detach);
    case OpRemoveLabel(n, l) => RemoveLabelKeeps(s, n, l);
  }

  /** Every run keeps the indexes exact and never hands out an id twice; with live endpoints nothing dangles. */
  lemma {:induction false} RunKeeps(s: GraphState, ops: seq<Op>)
    requires Consistent(s)
    ensures Consistent(Run(s, ops))
    ensures NoDangling(s) && EndpointsLive(s, ops) ==> NoDangling(Run(s, ops))
    ensures NewIdsOnly(s, Run(s, ops))
    decreases |ops|
  {
    if ops != [] {
      StepKeeps(s, ops[0]);
      RunKeeps(Step(s, ops[0]), ops[1..]);
    }
  }

  lemma RunFromEmpty(ops: seq<Op>)
    ensures Consistent(Run(EMPTY, ops))
    ensures EndpointsLive(EMPTY, ops) ==> NoDangling(Run(EMPTY, ops))
  {
    RunKeeps(EMPTY, ops);
  }
}
