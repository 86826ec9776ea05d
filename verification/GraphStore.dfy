/** The mutable graph object: each method carries out the corresponding state change in place. */
module GraphStore {
  import opened Prelude
  import opened Ast
  import opened Evaluation
  import opened GraphSpec

  class Graph {
    var nodeIds: seq<nat>
    var nodes: map<nat, NodeRec>
    var relIds: seq<nat>
    var rels: map<nat, RelRec>
    var outAdj: map<nat, seq<nat>>
    var inAdj: map<nat, seq<nat>>
    var byLabel: map<string, set<nat>>
    var next: nat

    function State(): GraphState
      reads this
    {
      GraphState(nodeIds, nodes, relIds, rels, outAdj, inAdj, byLabel, next)
    }

    constructor ()
      ensures State() == EMPTY
    {
      nodeIds, nodes, relIds, rels := [], map[], [], map[];
      outAdj, inAdj, byLabel, next := map[], map[], map[], 1;
    }

    method CreateNode(labels: set<string>, props: Row) returns (n: nat)
      modifies this
      ensures n == old(next)
      ensures State() == GraphSpec.CreateNode(old(State()), labels, props)
    {
      n := next;
      next := next + 1;
      nodes := nodes[n := NodeRec(labels, props)];
      nodeIds := nodeIds + [n];
      AddLabels(n, labels);
      outAdj := outAdj[n := if n in outAdj then outAdj[n] else []];
      inAdj := inAdj[n := if n in inAdj then inAdj[n] else []];
    }

    /** `for l in labels: by_label.setdefault(l, set()).add(n)`. */
    method AddLabels(n: nat, labels: set<string>)
      modifies this`byLabel
      ensures byLabel == AddToIndex(old(byLabel), labels, n)
    {
      var todo := labels;
      ghost var done := {};
      ghost var index := byLabel;
      IndexUnchanged(index, n);
      while todo != {}
        invariant done + todo == labels && done !! todo
        invariant byLabel == AddToIndex(index, done, n)
        decreases todo
      {
        var l :| l in todo;
        AddOneLabel(index, done, l, n);
        byLabel := AddLabel(byLabel, l, n);
        todo, done := todo - {l}, done + {l};
      }
      assert done == labels;
    }

    method CreateRel(start: nat, end: nat, typ: string, props: Row) returns (r: nat)
      modifies this
      ensures r == old(next)
      ensures State() == GraphSpec.CreateRel(old(State()), start, end, typ, props)
    {
      r := next;
      next := next + 1;
      rels := rels[r := RelRec(typ, start, end, props)];
      relIds := relIds + [r];
      outAdj := outAdj[start := (if start in outAdj then outAdj[start] else []) + [r]];
      inAdj := inAdj[end := (if end in inAdj then inAdj[end] else []) + [r]];
    }

    method DeleteRel(r: nat)
      modifies this
      ensures State() == GraphSpec.DeleteRel(old(State()), r)
    {
      if r !in relIds || r !in rels {
        return;
      }
      var rec := rels[r];
      relIds := Filter(IsNot(r), relIds);
      if rec.start in outAdj && r in outAdj[rec.start] {
        outAdj := outAdj[rec.start := RemoveFirst(outAdj[rec.start], r)];
      }
      if rec.end in inAdj && r in inAdj[rec.end] {
        inAdj := inAdj[rec.end := RemoveFirst(inAdj[rec.end], r)];
      }
    }

    method DeleteNode(n: nat, detach: bool) returns (ok: bool)
      modifies this
      ensures ok <==> GraphSpec.DeleteNode(old(State()), n, detach).Some?
      ensures State() == if ok then GraphSpec.DeleteNode(old(State()), n, detach).value else old(State())
    {
      if n !in nodeIds {
        return true;
      }
      if detach {
        var todo := Adj(outAdj, n) + Adj(inAdj, n);
        var i := 0;
        while i < |todo|
          invariant 0 <= i <= |todo|
          invariant DeleteRels(State(), todo[i..]) == DeleteRels(old(State()), todo)
        {
          DeleteRel(todo[i]);
          i := i + 1;
        }
      } else if Adj(outAdj, n) != [] || Adj(inAdj, n) != [] {
        return false;
      }
      Drop(n);
      return true;
    }

    /** `nodes.pop(n)`, and `n` leaves the index entry of each of its labels. */
    method Drop(n: nat)
      modifies this`nodeIds, this`byLabel
      ensures State() == DropNode(old(State()), n)
    {
      nodeIds := Filter(IsNot(n), nodeIds);
      DropLabels(n, LabelsOf(State(), n));
    }

    method DropLabels(n: nat, labels: set<string>)
      modifies this`byLabel
      ensures byLabel == DropFromIndex(old(byLabel), labels, n)
    {
      var todo := labels;
      ghost var done := {};
      ghost var index := byLabel;
      IndexUnchanged(index, n);
      while todo != {}
        invariant done + todo == labels && done !! todo
        invariant byLabel == DropFromIndex(index, done, n)
        decreases todo
      {
        var l :| l in todo;
        DropOneLabel(index, done, l, n);
        if l in byLabel {
          byLabel := byLabel[l := byLabel[l] - {n}];
        }
        todo, done := todo - {l}, done + {l};
      }
      assert done == labels;
    }

    /** The label part of REMOVE, one label after the other. */
    method RemoveLabels(n: nat, labels: seq<string>)
      modifies this
      ensures State() == Run(old(State()), Map(l => OpRemoveLabel(n, l), labels))
    {
      ghost var ops := Map(l => OpRemoveLabel(n, l), labels);
      var i := 0;
      while i < |labels|
        invariant 0 <= i <= |labels|
        invariant Run(State(), ops[i..]) == Run(old(State()), ops)
      {
        assert ops[i] == OpRemoveLabel(n, labels[i]) && ops[i..][1..] == ops[i + 1..];
        if n in nodes {
          nodes := nodes[n := nodes[n].(labels := nodes[n].labels - {labels[i]})];
          byLabel := DropFromIndex(byLabel, {labels[i]}, n);
        }
        i := i + 1;
      }
    }

    method NodesWithLabel(lab: string) returns (ns: set<nat>)
      requires Consistent(State())
      ensures forall n :: n in ns <==> n in nodeIds && lab in LabelsOf(State(), n)
    {
      ns := set n | n in Indexed(State(), lab) && n in nodeIds;
      forall n ensures n in ns <==> n in nodeIds && lab in LabelsOf(State(), n) {
        assert LabelAt(State(), lab, n);
      }
    }
  }
}
