/** What lowering leaves behind: nothing but core nodes, and a core tree is left alone. */
module LoweringFacts {
  import opened Prelude
  import opened Lowering

  // ---- core trees ------------------------------------------------------------------------------

  /** No WHERE, or one that holds a predicate and nothing else. */
  predicate PlainWhere(w: Arg) {
    w == Missing || (PredOf(w).Some? && w == WhereOf([PredOf(w).value]))
  }

  /** What the rewriting of a single node achieves. */
  predicate Lowered(n: Tree) {
    match n.kind
    case For => false
    case Filter => false
    case Search => false
    case LoadCsv => false
    case AdminStatement => false
    case WhenQuery => false
    case RelPattern =>
      Get(n.args, "memgraph_quantifier") != Atom(Text("bfs"))
          && Get(n.args, "memgraph_quantifier") != Atom(Text("wShortest"))
    case With => Get(n.args, "group_by") == Missing
    case Return => Get(n.args, "group_by") == Missing
    case CallSubquery => Get(n.args, "in_transactions") == Missing && Get(n.args, "transaction_rows") == Missing
    case Query => Get(n.args, "clauses").Many?
    case Match => PlainWhere(Get(n.args, "where"))
    case PatternComprehension => PlainWhere(Get(n.args, "where"))
    case _ => true
  }

  /** What the first check asks of a node that lowering its arguments does not change. */
  predicate Allowed(n: Tree) {
    && !n.kind.Search? && !n.kind.LoadCsv? && !n.kind.AdminStatement? && !n.kind.WhenQuery?
    && (n.kind.RelPattern? ==> Get(n.args, "memgraph_quantifier") != Atom(Text("wShortest")))
  }

  /** A node of the core language. */
  predicate IsCore(n: Tree) {
    Lowered(n) && NothingInline(n)
  }

  predicate NotGroupBy(n: Tree) { !n.kind.GroupBy? }

  /** No GROUP BY hangs off the arguments, but for the first `group_by` where that is allowed. */
  predicate PlacedArgs(args: seq<Field>, allowed: bool) {
    args == [] ||
    if allowed && args[0].key == "group_by" then PlacedArgs(args[1..], false)
    else PlacedArg(args[0].value) && PlacedArgs(args[1..], allowed)
  }

  predicate PlacedArg(a: Arg) {
    match a
    case One(n) => NotGroupBy(n)
    case Many(items) => PlacedItems(items)
    case _ => true
  }

  predicate PlacedItems(items: seq<Entry>) {
    items == [] || ((items[0].Child? ==> NotGroupBy(items[0].node)) && PlacedItems(items[1..]))
  }

  /** GROUP BY belongs to WITH and RETURN only. */
  predicate Placed(n: Tree) {
    PlacedArgs(n.args, n.kind.With? || n.kind.Return?)
  }

  /** The invariant of the pass; `wf` says whether the tree has its GROUP BYs in their places. */
  function Done(wf: bool): Tree -> bool {
    (n: Tree) => Lowered(n) && (wf ==> Placed(n))
  }

  function Surface(wf: bool): Tree -> bool {
    (n: Tree) => Supported(n) && (wf ==> Placed(n))
  }

  predicate Ready(wf: bool, n: Tree) {
    Every(Done(wf), n) && (wf ==> NotGroupBy(n))
  }

  predicate ReadyArg(wf: bool, a: Arg) {
    EveryIn(Done(wf), a) && (wf ==> PlacedArg(a))
  }

  predicate ReadyItems(wf: bool, items: seq<Entry>) {
    EveryItem(Done(wf), items) && (wf ==> PlacedItems(items))
  }

  predicate ReadyArgs(wf: bool, args: seq<Field>) {
    EveryArg(Done(wf), args) && (wf ==> PlacedArgs(args, false))
  }

  predicate ReadyAll(wf: bool, ts: seq<Tree>) {
    ts == [] || (Ready(wf, ts[0]) && ReadyAll(wf, ts[1..]))
  }

  // ---- reading and writing arguments -------------------------------------------------------------

  lemma {:induction false} GetSet(args: seq<Field>, key: string, a: Arg, other: string)
    ensures Get(Set(args, key, a), other) == if other == key then a else Get(args, other)
  {
    if args != [] && args[0].key != key { GetSet(args[1..], key, a, other); }
  }

  lemma {:induction false} SetSame(args: seq<Field>, key: string)
    ensures Set(args, key, Get(args, key)) == args
  {
    if args != [] && args[0].key != key { SetSame(args[1..], key); }
  }

  lemma {:induction false} GetEvery(p: Tree -> bool, args: seq<Field>, key: string)
    requires EveryArg(p, args)
    ensures EveryIn(p, Get(args, key))
  {
    if args != [] && args[0].key != key { GetEvery(p, args[1..], key); }
  }

  lemma {:induction false} SetEvery(p: Tree -> bool, args: seq<Field>, key: string, a: Arg)
    requires EveryArg(p, args) && EveryIn(p, a)
    ensures EveryArg(p, Set(args, key, a))
  {
    if args != [] && args[0].key != key { SetEvery(p, args[1..], key, a); }
  }

  lemma {:induction false} GetPlaced(args: seq<Field>, allowed: bool, key: string)
    requires PlacedArgs(args, allowed) && (allowed ==> key != "group_by")
    ensures PlacedArg(Get(args, key))
  {
    if args != [] && args[0].key != key { GetPlaced(args[1..], allowed && args[0].key != "group_by", key); }
  }

  lemma {:induction false} SetPlaced(args: seq<Field>, allowed: bool, key: string, a: Arg)
    requires PlacedArgs(args, allowed) && PlacedArg(a)
    ensures PlacedArgs(Set(args, key, a), allowed)
  {
    if args != [] && args[0].key != key { SetPlaced(args[1..], allowed && args[0].key != "group_by", key, a); }
  }

  lemma GetReady(wf: bool, args: seq<Field>, key: string)
    requires ReadyArgs(wf, args)
    ensures ReadyArg(wf, Get(args, key))
  {
    GetEvery(Done(wf), args, key);
    if wf { GetPlaced(args, false, key); }
  }

  lemma SetReady(wf: bool, args: seq<Field>, key: string, a: Arg)
    requires ReadyArgs(wf, args) && ReadyArg(wf, a)
    ensures ReadyArgs(wf, Set(args, key, a))
  {
    SetEvery(Done(wf), args, key, a);
    if wf { SetPlaced(args, false, key, a); }
  }

  // ---- conjunctions ----------------------------------------------------------------------------------

  lemma {:induction false} AllReadyConcat(wf: bool, ps: seq<Tree>, qs: seq<Tree>)
    requires ReadyAll(wf, ps) && ReadyAll(wf, qs)
    ensures ReadyAll(wf, ps + qs)
  {
    if ps == [] {
      assert ps + qs == qs;
    } else {
      AllReadyConcat(wf, ps[1..], qs);
      assert (ps + qs)[1..] == ps[1..] + qs;
    }
  }

  /** A node with one argument, and one with two. */
  lemma OneReady(wf: bool, key: string, a: Arg)
    requires ReadyArg(wf, a)
    ensures ReadyArgs(wf, [Field(key, a)])
  {
    assert [Field(key, a)][1..] == [];
  }

  lemma TwoReady(wf: bool, k0: string, a0: Arg, k1: string, a1: Arg)
    requires ReadyArg(wf, a0) && ReadyArg(wf, a1)
    ensures ReadyArgs(wf, [Field(k0, a0), Field(k1, a1)])
  {
    assert [Field(k0, a0), Field(k1, a1)][1..] == [Field(k1, a1)];
    assert [Field(k1, a1)][1..] == [];
  }

  lemma {:induction false} ConjReady(wf: bool, p: Tree, preds: seq<Tree>)
    requires Ready(wf, p) && ReadyAll(wf, preds)
    ensures Ready(wf, ConjAll(p, preds))
    decreases |preds|
  {
    if preds != [] {
      TwoReady(wf, "this", One(p), "expression", One(preds[0]));
      ConjReady(wf, Conj(p, preds[0]), preds[1..]);
    }
  }

  lemma WhereReady(wf: bool, preds: seq<Tree>)
    requires ReadyAll(wf, preds)
    ensures ReadyArg(wf, WhereOf(preds)) && PlainWhere(WhereOf(preds))
  {
    if preds != [] {
      ConjReady(wf, preds[0], preds[1..]);
      var c := ConjAll(preds[0], preds[1..]);
      OneReady(wf, "this", One(c));
      assert PredOf(WhereOf(preds)) == Some(c);
      assert [c][1..] == [];
    }
  }

  lemma PredReady(wf: bool, w: Arg)
    requires ReadyArg(wf, w)
    ensures ReadyAll(wf, OptSeq(PredOf(w)))
  {
    if PredOf(w).Some? {
      assert [PredOf(w).value][1..] == [];
      if w.node.kind.Where? {
        NodeArgs(wf, w.node);
        GetReady(wf, w.node.args, "this");
      }
    }
  }

  lemma NodeArgs(wf: bool, n: Tree)
    requires Every(Done(wf), n) && !n.kind.With? && !n.kind.Return?
    ensures ReadyArgs(wf, n.args)
  {
    assert Done(wf)(n);
  }

  // ---- taking inline predicates off a pattern ---------------------------------------------------------

  /** What hoisting leaves: predicates and a pattern as good as before, and nothing more to hoist. */
  lemma {:induction false} HoistReady(wf: bool, t: Tree)
    requires Every(Done(wf), t)
    ensures ReadyAll(wf, Hoist(t).0) && Every(Done(wf), Hoist(t).1) && Hoist(t).1.kind == t.kind
    decreases t
  {
    if IsElement(t.kind) {
      NodeArgs(wf, t);
      GetReady(wf, t.args, "where");
      PredReady(wf, Get(t.args, "where"));
      SetReady(wf, t.args, "where", Missing);
      GetSet(t.args, "where", Missing, "memgraph_quantifier");
    } else if IsContainer(t.kind) {
      NodeArgs(wf, t);
      HoistArgsReady(wf, t.args);
    }
  }

  lemma {:induction false} HoistArgsReady(wf: bool, args: seq<Field>)
    requires ReadyArgs(wf, args)
    ensures ReadyAll(wf, HoistArgs(args).0) && ReadyArgs(wf, HoistArgs(args).1)
    decreases args
  {
    if args != [] {
      HoistArgReady(wf, args[0].value);
      HoistArgsReady(wf, args[1..]);
      AllReadyConcat(wf, HoistArg(args[0].value).0, HoistArgs(args[1..]).0);
    }
  }

  lemma {:induction false} HoistArgReady(wf: bool, a: Arg)
    requires ReadyArg(wf, a)
    ensures ReadyAll(wf, HoistArg(a).0) && ReadyArg(wf, HoistArg(a).1)
    decreases a
  {
    match a
    case One(n) => HoistReady(wf, n);
    case Many(items) => HoistItemsReady(wf, items);
    case _ =>
  }

  lemma {:induction false} HoistItemsReady(wf: bool, items: seq<Entry>)
    requires ReadyItems(wf, items)
    ensures ReadyAll(wf, HoistItems(items).0) && ReadyItems(wf, HoistItems(items).1)
    decreases items
  {
    if items != [] {
      HoistItemsReady(wf, items[1..]);
      if items[0].Child? {
        assert items[0].node < items[0];
        HoistReady(wf, items[0].node);
        AllReadyConcat(wf, Hoist(items[0].node).0, HoistItems(items[1..]).0);
      }
    }
  }

  lemma HoistIntoReady(wf: bool, t: Tree)
    requires ReadyArgs(wf, t.args) && (t.kind.Match? || t.kind.PatternComprehension?)
    ensures Every(Done(wf), HoistInto(t))
  {
    var (preds, pattern) := HoistArg(Get(t.args, "pattern"));
    var own := OptSeq(PredOf(Get(t.args, "where")));
    GetReady(wf, t.args, "pattern");
    GetReady(wf, t.args, "where");
    HoistArgReady(wf, Get(t.args, "pattern"));
    PredReady(wf, Get(t.args, "where"));
    AllReadyConcat(wf, own, preds);
    WhereReady(wf, own + preds);
    var args := Set(t.args, "pattern", pattern);
    SetReady(wf, t.args, "pattern", pattern);
    SetReady(wf, args, "where", WhereOf(own + preds));
    GetSet(args, "where", WhereOf(own + preds), "where");
  }

  // ---- FILTER and LET ------------------------------------------------------------------------------------

  lemma {:induction false} FilterReady(wf: bool, items: seq<Entry>)
    requires ReadyItems(wf, items) && FilterPreds(items).Some?
    ensures ReadyAll(wf, FilterPreds(items).value)
    decreases items
  {
    if items != [] {
      FilterReady(wf, items[1..]);
      var item := items[0].node;
      assert Every(Done(wf), item) && Done(wf)(item);
      if Get(item.args, "predicate").One? {
        GetEvery(Done(wf), item.args, "predicate");
        if wf { GetPlaced(item.args, item.kind.With? || item.kind.Return?, "predicate"); }
      }
    }
  }

  lemma StarReady(wf: bool)
    ensures Ready(wf, Tree(Star, []))
  {
  }

  lemma WithReady(wf: bool, args: seq<Field>)
    requires ReadyArgs(wf, args) && Get(args, "group_by") == Missing
    ensures Ready(wf, Tree(With, args))
  {
    if wf { AllowMore(args); }
  }

  lemma {:induction false} AllowMore(args: seq<Field>)
    requires PlacedArgs(args, false)
    ensures PlacedArgs(args, true)
  {
    if args != [] { AllowMore(args[1..]); }
  }

  lemma LetReady(wf: bool, item: Entry)
    requires ReadyItems(wf, [item])
    ensures ReadyItems(wf, [LetWith(item)])
  {
    var list := [Child(Tree(Star, [])), item];
    StarReady(wf);
    assert list[1..] == [item];
    TwoReady(wf, "expressions", Many(list), "where", Missing);
    var args := [Field("expressions", Many(list)), Field("where", Missing)];
    assert args[1..] == [Field("where", Missing)] && Get(args[1..], "group_by") == Missing;
    WithReady(wf, args);
    assert [LetWith(item)][1..] == [];
  }

  lemma {:induction false} ItemsReadyConcat(wf: bool, xs: seq<Entry>, ys: seq<Entry>)
    requires ReadyItems(wf, xs) && ReadyItems(wf, ys)
    ensures ReadyItems(wf, xs + ys)
  {
    if xs == [] {
      assert xs + ys == ys;
    } else {
      ItemsReadyConcat(wf, xs[1..], ys);
      assert (xs + ys)[1..] == xs[1..] + ys;
    }
  }

  lemma {:induction false} LetsReady(wf: bool, items: seq<Entry>)
    requires ReadyItems(wf, items)
    ensures ReadyItems(wf, Map(LetWith, items))
  {
    if items != [] {
      LetsReady(wf, items[1..]);
      assert [items[0]][1..] == [];
      LetReady(wf, items[0]);
      ItemsReadyConcat(wf, [LetWith(items[0])], Map(LetWith, items[1..]));
      assert Map(LetWith, items) == [LetWith(items[0])] + Map(LetWith, items[1..]);
    }
  }

  lemma {:induction false} ExpandReady(wf: bool, clauses: seq<Entry>)
    requires ReadyItems(wf, clauses) && ExpandLets(clauses).Some?
    ensures ReadyItems(wf, ExpandLets(clauses).value)
    decreases clauses
  {
    if clauses != [] {
      ExpandReady(wf, clauses[1..]);
      if clauses[0].Child? && clauses[0].node.kind.Let? {
        NodeArgs(wf, clauses[0].node);
        GetReady(wf, clauses[0].node.args, "items");
        var items := ItemsOf(Get(clauses[0].node.args, "items"));
        LetsReady(wf, items);
        ItemsReadyConcat(wf, Map(LetWith, items), ExpandLets(clauses[1..]).value);
      }
    }
  }

  // ---- one node --------------------------------------------------------------------------------------------

  lemma QueryReady(wf: bool, t: Tree, c: Tree)
    requires t.kind.Query? && ReadyArgs(wf, t.args) && LowerNode(t) == Some(c)
    ensures Ready(wf, c)
  {
    GetReady(wf, t.args, "clauses");
    var clauses := ItemsOf(Get(t.args, "clauses"));
    ExpandReady(wf, clauses);
    var cs := ExpandLets(clauses).value;
    SetReady(wf, t.args, "clauses", Many(cs));
    GetSet(t.args, "clauses", Many(cs), "clauses");
  }

  lemma ForReady(wf: bool, t: Tree, c: Tree)
    requires t.kind.For? && ReadyArgs(wf, t.args) && LowerNode(t) == Some(c)
    ensures Ready(wf, c)
  {
    GetReady(wf, t.args, "expression");
    GetReady(wf, t.args, "alias");
    TwoReady(wf, "expression", Get(t.args, "expression"), "alias", Get(t.args, "alias"));
  }

  lemma FilterNodeReady(wf: bool, t: Tree, c: Tree)
    requires t.kind.Filter? && ReadyArgs(wf, t.args) && LowerNode(t) == Some(c)
    ensures Ready(wf, c)
  {
    GetReady(wf, t.args, "items");
    var items := ItemsOf(Get(t.args, "items"));
    FilterReady(wf, items);
    var preds := FilterPreds(items).value;
    WhereReady(wf, preds);
    StarReady(wf);
    var star := [Child(Tree(Star, []))];
    assert star[1..] == [];
    TwoReady(wf, "expressions", Many(star), "where", WhereOf(preds));
    assert c.args[1..] == [Field("where", WhereOf(preds))] && c.args[1..][1..] == [];
    assert Get(c.args[1..], "group_by") == Missing;
    WithReady(wf, c.args);
  }

  lemma RelReady(wf: bool, t: Tree, c: Tree)
    requires t.kind.RelPattern? && ReadyArgs(wf, t.args) && LowerNode(t) == Some(c)
    requires Get(t.args, "memgraph_quantifier") != Atom(Text("wShortest"))
    ensures Ready(wf, c)
  {
    if Get(t.args, "memgraph_quantifier") == Atom(Text("bfs")) {
      var a1 := Set(t.args, "memgraph_quantifier", Missing);
      var a2 := Set(a1, "memgraph_weight_expr", Missing);
      SetReady(wf, t.args, "memgraph_quantifier", Missing);
      SetReady(wf, a1, "memgraph_weight_expr", Missing);
      SetReady(wf, a2, "memgraph_total_weight", Missing);
      GetSet(t.args, "memgraph_quantifier", Missing, "memgraph_quantifier");
      GetSet(a1, "memgraph_weight_expr", Missing, "memgraph_quantifier");
      GetSet(a2, "memgraph_total_weight", Missing, "memgraph_quantifier");
    }
  }

  lemma CallReady(wf: bool, t: Tree, c: Tree)
    requires t.kind.CallSubquery? && ReadyArgs(wf, t.args) && LowerNode(t) == Some(c)
    ensures Ready(wf, c)
  {
    var a1 := Set(t.args, "in_transactions", Missing);
    SetReady(wf, t.args, "in_transactions", Missing);
    SetReady(wf, a1, "transaction_rows", Missing);
    GetSet(t.args, "in_transactions", Missing, "in_transactions");
    GetSet(a1, "transaction_rows", Missing, "in_transactions");
    GetSet(a1, "transaction_rows", Missing, "transaction_rows");
  }

  lemma ProjectionReady(wf: bool, t: Tree, c: Tree)
    requires (t.kind.With? || t.kind.Return?) && LowerNode(t) == Some(c)
    requires EveryArg(Done(wf), t.args) && (wf ==> PlacedArgs(t.args, true))
    ensures Ready(wf, c)
  {
    SetEvery(Done(wf), t.args, "group_by", Missing);
    if wf { SetPlaced(t.args, true, "group_by", Missing); }
    GetSet(t.args, "group_by", Missing, "group_by");
  }

  /** Rewriting a node whose arguments are done finishes it. */
  lemma NodeReady(wf: bool, t: Tree, c: Tree)
    requires EveryArg(Done(wf), t.args) && Allowed(t) && (wf ==> Placed(t)) && LowerNode(t) == Some(c)
    ensures Every(Done(wf), c)
  {
    match t.kind
    case Query => QueryReady(wf, t, c);
    case For => ForReady(wf, t, c);
    case Filter => FilterNodeReady(wf, t, c);
    case RelPattern => RelReady(wf, t, c);
    case CallSubquery => CallReady(wf, t, c);
    case With => ProjectionReady(wf, t, c);
    case Return => ProjectionReady(wf, t, c);
    case Match => HoistIntoReady(wf, t);
    case PatternComprehension => HoistIntoReady(wf, t);
    case _ =>
  }

  // ---- the whole tree ----------------------------------------------------------------------------------------

  lemma {:induction false} LowerGet(args: seq<Field>, key: string)
    requires LowerArgs(args).Some?
    ensures LowerArg(Get(args, key)) == Some(Get(LowerArgs(args).value, key))
  {
    if args != [] && args[0].key != key { LowerGet(args[1..], key); }
  }

  lemma LowerKind(t: Tree)
    requires Lower(t).Some?
    ensures NotGroupBy(Lower(t).value) <==> NotGroupBy(t)
  {
  }

  lemma {:induction false} LowerPlaced(args: seq<Field>, allowed: bool)
    requires PlacedArgs(args, allowed) && LowerArgs(args).Some?
    ensures PlacedArgs(LowerArgs(args).value, allowed)
  {
    if args != [] {
      if allowed && args[0].key == "group_by" {
        LowerPlaced(args[1..], false);
      } else {
        match args[0].value {
          case One(n) => LowerKind(n);
          case Many(items) => LowerItemsPlaced(items);
          case _ =>
        }
        LowerPlaced(args[1..], allowed);
      }
    }
  }

  lemma {:induction false} LowerItemsPlaced(items: seq<Entry>)
    requires PlacedItems(items) && LowerItems(items).Some?
    ensures PlacedItems(LowerItems(items).value)
  {
    if items != [] {
      LowerItemsPlaced(items[1..]);
      if items[0].Child? { LowerKind(items[0].node); }
    }
  }

  lemma {:induction false} TreeReady(wf: bool, t: Tree)
    requires Every(Surface(wf), t) && Lower(t).Some?
    ensures Every(Done(wf), Lower(t).value)
    decreases t
  {
    assert Surface(wf)(t);
    ArgsReady(wf, t.args);
    var args := LowerArgs(t.args).value;
    LowerGet(t.args, "memgraph_quantifier");
    if wf { LowerPlaced(t.args, t.kind.With? || t.kind.Return?); }
    NodeReady(wf, Tree(t.kind, args), Lower(t).value);
  }

  lemma {:induction false} ArgsReady(wf: bool, args: seq<Field>)
    requires EveryArg(Surface(wf), args) && LowerArgs(args).Some?
    ensures EveryArg(Done(wf), LowerArgs(args).value)
    decreases args
  {
    if args != [] {
      match args[0].value {
        case One(n) => TreeReady(wf, n);
        case Many(items) => ItemsReady(wf, items);
        case _ =>
      }
      ArgsReady(wf, args[1..]);
    }
  }

  lemma {:induction false} ItemsReady(wf: bool, items: seq<Entry>)
    requires EveryItem(Surface(wf), items) && LowerItems(items).Some?
    ensures EveryItem(Done(wf), LowerItems(items).value)
    decreases items
  {
    if items != [] {
      ItemsReady(wf, items[1..]);
      if items[0].Child? {
        assert items[0].node < items[0];
        TreeReady(wf, items[0].node);
      }
    }
  }

  // ---- core trees are left alone -------------------------------------------------------------------------------

  lemma {:induction false} NothingToHoist(t: Tree)
    requires Every(IsCore, t)
    ensures Hoist(t) == ([], t)
    decreases t
  {
    assert IsCore(t);
    if IsElement(t.kind) {
      SetSame(t.args, "where");
    } else if IsContainer(t.kind) {
      NothingInArgs(t.args);
    }
  }

  lemma {:induction false} NothingInArgs(args: seq<Field>)
    requires EveryArg(IsCore, args)
    ensures HoistArgs(args) == ([], args)
    decreases args
  {
    if args != [] {
      NothingInArg(args[0].value);
      NothingInArgs(args[1..]);
      assert HoistArg(args[0].value).0 + HoistArgs(args[1..]).0 == [];
      assert args == [args[0]] + args[1..];
    }
  }

  lemma {:induction false} NothingInArg(a: Arg)
    requires EveryIn(IsCore, a)
    ensures HoistArg(a) == ([], a)
    decreases a
  {
    match a
    case One(n) => NothingToHoist(n);
    case Many(items) => NothingInItems(items);
    case _ =>
  }

  lemma {:induction false} NothingInItems(items: seq<Entry>)
    requires EveryItem(IsCore, items)
    ensures HoistItems(items) == ([], items)
    decreases items
  {
    if items != [] {
      NothingInItems(items[1..]);
      assert items == [items[0]] + items[1..];
      if items[0].Child? {
        assert items[0].node < items[0];
        NothingToHoist(items[0].node);
        assert Hoist(items[0].node).0 + HoistItems(items[1..]).0 == [];
      }
    }
  }

  lemma HoistNothing(t: Tree)
    requires Every(IsCore, t) && (t.kind.Match? || t.kind.PatternComprehension?)
    ensures HoistInto(t) == t
  {
    assert IsCore(t);
    var where := Get(t.args, "where");
    GetEvery(IsCore, t.args, "pattern");
    NothingInArg(Get(t.args, "pattern"));
    SetSame(t.args, "pattern");
    SetSame(t.args, "where");
    assert OptSeq(PredOf(where)) + [] == OptSeq(PredOf(where));
  }

  lemma {:induction false} NoLets(clauses: seq<Entry>)
    requires EveryItem(IsCore, clauses)
    ensures ExpandLets(clauses) == Some(clauses)
    decreases clauses
  {
    if clauses != [] {
      NoLets(clauses[1..]);
      if clauses[0].Child? { assert IsCore(clauses[0].node); }
      assert clauses == [clauses[0]] + clauses[1..];
    }
  }

  lemma CoreNodeFixed(t: Tree)
    requires Every(IsCore, t)
    ensures LowerNode(t) == Some(t)
  {
    assert IsCore(t);
    match t.kind
    case Query =>
      GetEvery(IsCore, t.args, "clauses");
      NoLets(Get(t.args, "clauses").items);
      SetSame(t.args, "clauses");
    case CallSubquery =>
      SetSame(t.args, "in_transactions");
      SetSame(t.args, "transaction_rows");
    case Match => HoistNothing(t);
    case PatternComprehension => HoistNothing(t);
    case _ =>
  }

  lemma {:induction false} CoreFixed(t: Tree)
    requires Every(IsCore, t)
    ensures Lower(t) == Some(t)
    decreases t
  {
    CoreArgsFixed(t.args);
    CoreNodeFixed(t);
  }

  lemma {:induction false} CoreArgsFixed(args: seq<Field>)
    requires EveryArg(IsCore, args)
    ensures LowerArgs(args) == Some(args)
    decreases args
  {
    if args != [] {
      match args[0].value {
        case One(n) => CoreFixed(n);
        case Many(items) => CoreItemsFixed(items);
        case _ =>
      }
      CoreArgsFixed(args[1..]);
      assert args == [args[0]] + args[1..];
    }
  }

  lemma {:induction false} CoreItemsFixed(items: seq<Entry>)
    requires EveryItem(IsCore, items)
    ensures LowerItems(items) == Some(items)
    decreases items
  {
    if items != [] {
      CoreItemsFixed(items[1..]);
      assert items == [items[0]] + items[1..];
      if items[0].Child? {
        assert items[0].node < items[0];
        CoreFixed(items[0].node);
      }
    }
  }

  // ---- properties of every node ----------------------------------------------------------------------------------

  lemma {:induction false} EveryBoth(p: Tree -> bool, q: Tree -> bool, r: Tree -> bool, t: Tree)
    requires Every(p, t) && Every(q, t) && forall n: Tree :: p(n) && q(n) ==> r(n)
    ensures Every(r, t)
    decreases t
  {
    EveryBothArgs(p, q, r, t.args);
  }

  lemma {:induction false} EveryBothArgs(p: Tree -> bool, q: Tree -> bool, r: Tree -> bool, args: seq<Field>)
    requires EveryArg(p, args) && EveryArg(q, args) && forall n: Tree :: p(n) && q(n) ==> r(n)
    ensures EveryArg(r, args)
    decreases args
  {
    if args != [] {
      match args[0].value {
        case One(n) => EveryBoth(p, q, r, n);
        case Many(items) => EveryBothItems(p, q, r, items);
        case _ =>
      }
      EveryBothArgs(p, q, r, args[1..]);
    }
  }

  lemma {:induction false} EveryBothItems(p: Tree -> bool, q: Tree -> bool, r: Tree -> bool, items: seq<Entry>)
    requires EveryItem(p, items) && EveryItem(q, items) && forall n: Tree :: p(n) && q(n) ==> r(n)
    ensures EveryItem(r, items)
    decreases items
  {
    if items != [] {
      if items[0].Child? {
        assert items[0].node < items[0];
        EveryBoth(p, q, r, items[0].node);
      }
      EveryBothItems(p, q, r, items[1..]);
    }
  }

  // ---- the theorems ---------------------------------------------------------------------------------------

  /** A lowered tree holds core nodes only. */
  lemma LoweringIsCore(t: Tree)
    requires LowerToCore(t).Some?
    ensures Every(IsCore, LowerToCore(t).value)
  {
    EveryBoth(Supported, Supported, Surface(false), t);
    TreeReady(false, t);
    EveryBoth(Done(false), NothingInline, IsCore, LowerToCore(t).value);
  }

  /** What the two checks ask of a node, they find in a core tree. */
  lemma CoreIsAccepted(t: Tree)
    requires Every(IsCore, t)
    ensures Every(Supported, t) && Every(NothingInline, t)
  {
    EveryBoth(IsCore, IsCore, Supported, t);
    EveryBoth(IsCore, IsCore, NothingInline, t);
  }

  /** Lowering leaves a core tree alone. */
  lemma CoreIsKept(t: Tree)
    requires Every(IsCore, t)
    ensures LowerToCore(t) == Some(t)
  {
    CoreFixed(t);
    CoreIsAccepted(t);
  }

  /** The trees lowering leaves as they are, and accepts, are exactly the core trees. */
  lemma FixedPoints(t: Tree)
    ensures LowerToCore(t) == Some(t) <==> Every(IsCore, t)
  {
    if Every(IsCore, t) {
      CoreIsKept(t);
    } else if LowerToCore(t) == Some(t) {
      LoweringIsCore(t);
    }
  }

  /** Lowering again succeeds and returns an equal tree. */
  lemma LoweringTwice(t: Tree)
    requires LowerToCore(t).Some?
    ensures LowerToCore(LowerToCore(t).value) == LowerToCore(t)
  {
    LoweringIsCore(t);
    CoreIsKept(LowerToCore(t).value);
  }

  /** With each GROUP BY on a WITH or RETURN to begin with, none is left. */
  lemma NoGroupByLeft(t: Tree)
    requires LowerToCore(t).Some? && Every(Placed, t) && NotGroupBy(t)
    ensures Every(NotGroupBy, LowerToCore(t).value)
  {
    var c := LowerToCore(t).value;
    EveryBoth(Supported, Placed, Surface(true), t);
    TreeReady(true, t);
    LowerKind(t);
    Cleared(c);
  }

  lemma {:induction false} DropAllowed(args: seq<Field>)
    requires PlacedArgs(args, true) && Get(args, "group_by") == Missing
    ensures PlacedArgs(args, false)
  {
    if args != [] && args[0].key != "group_by" { DropAllowed(args[1..]); }
  }

  lemma {:induction false} Cleared(t: Tree)
    requires Every(Done(true), t) && NotGroupBy(t)
    ensures Every(NotGroupBy, t)
    decreases t
  {
    assert Done(true)(t);
    if t.kind.With? || t.kind.Return? { DropAllowed(t.args); }
    ClearedArgs(t.args);
  }

  lemma {:induction false} ClearedArgs(args: seq<Field>)
    requires EveryArg(Done(true), args) && PlacedArgs(args, false)
    ensures EveryArg(NotGroupBy, args)
    decreases args
  {
    if args != [] {
      match args[0].value {
        case One(n) => Cleared(n);
        case Many(items) => ClearedItems(items);
        case _ =>
      }
      ClearedArgs(args[1..]);
    }
  }

  lemma {:induction false} ClearedItems(items: seq<Entry>)
    requires EveryItem(Done(true), items) && PlacedItems(items)
    ensures EveryItem(NotGroupBy, items)
    decreases items
  {
    if items != [] {
      if items[0].Child? {
        assert items[0].node < items[0];
        Cleared(items[0].node);
      }
      ClearedItems(items[1..]);
    }
  }
}
