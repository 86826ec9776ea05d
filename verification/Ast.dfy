/** The core IR: run-time values, expressions, patterns and clauses. */
module Ast {
  import opened Prelude

  // ---- values --------------------------------------------------------------

  /** `Tup` is the tuple a grouping key is frozen into; a node or relationship is known by its id. */
  datatype Value =
    | Null
    | Bool(b: bool)
    | Int(i: int)
    | Float(r: real)
    | Str(s: string)
    | List(items: seq<Value>)
    | Tup(elems: seq<Value>)
    | NodeRef(node: nat)
    | RelRef(rel: nat)

  type Row = map<string, Value>

  // ---- expressions -----------------------------------------------------------

  datatype BinOp =
    | OrOp | XorOp | AndOp
    | EqOp | NeqOp | LtOp | GtOp | LteOp | GteOp | RegexOp | StartsOp | EndsOp | ContainsOp | InOp
    | AddOp | SubOp | MulOp | DivOp | ModOp | PowOp

  /** `StarArg` is the `*` of `count(*)`. */
  datatype Expr =
    | NullLit
    | Boolean(b: bool)
    | Integer(i: int)
    | FloatLit(r: real)
    | StringLit(s: string)
    | Parameter(param: string)
    | Identifier(name: string)
    | Property(obj: Expr, key: string)
    | ListLit(items: seq<Expr>)
    | Binary(op: BinOp, left: Expr, right: Expr)
    | Not(arg: Expr)
    | Neg(arg: Expr)
    | IsNull(arg: Expr, negated: bool)
    | Subscript(base: Expr, index: Expr)
    | Slice(base: Expr, start: Option<Expr>, end: Option<Expr>)
    | Call(func: string, distinct: bool, args: seq<Expr>)
    | Coalesce(args: seq<Expr>)
    | StarArg

  function OpName(op: BinOp): string {
    match op
    case OrOp => "OR" case XorOp => "XOR" case AndOp => "AND"
    case EqOp => "=" case NeqOp => "<>" case LtOp => "<" case GtOp => ">" case LteOp => "<=" case GteOp => ">="
    case RegexOp => "=~" case StartsOp => "STARTS WITH" case EndsOp => "ENDS WITH"
    case ContainsOp => "CONTAINS" case InOp => "IN"
    case AddOp => "+" case SubOp => "-" case MulOp => "*" case DivOp => "/" case ModOp => "%" case PowOp => "^"
  }

  const AGGREGATES: set<string> :=
    {"count", "sum", "avg", "min", "max", "collect", "stdev", "stdevp", "percentilecont", "percentiledisc"}

  // ---- patterns --------------------------------------------------------------

  type Entries = seq<(string, Expr)>

  datatype Direction = Outgoing | Incoming | Both

  datatype NodePattern = NodePattern(
    variable: Option<string>,
    labels: seq<string>,
    properties: Option<Entries>,
    where: Option<Expr>)

  datatype RelPattern = RelPattern(
    variable: Option<string>,
    types: seq<string>,
    properties: Option<Entries>,
    direction: Direction,
    minHops: Option<nat>,
    maxHops: Option<nat>,
    variableLength: bool,
    where: Option<Expr>)

  datatype Element = NodeEl(node: NodePattern) | RelEl(rel: RelPattern)

  datatype Path = Path(variable: Option<string>, elements: seq<Element>)

  type Pattern = seq<Path>

  // ---- clauses ---------------------------------------------------------------

  datatype Item = Star | Item(expr: Expr, alias: Option<string>)

  datatype Nulls = DefaultNulls | NullsFirst | NullsLast

  datatype Ordered = Ordered(expr: Expr, desc: bool, nulls: Nulls)

  datatype Projection = Projection(
    items: seq<Item>,
    distinct: bool,
    order: seq<Ordered>,
    skip: Option<Expr>,
    limit: Option<Expr>)

  datatype Clause =
    | Match(pattern: Pattern, optional: bool, where: Option<Expr>)
    | With(proj: Projection, where: Option<Expr>)
    | Unwind(expr: Expr, alias: string)
    | Return(proj: Projection)

  predicate HasStar(items: seq<Item>) {
    exists i :: 0 <= i < |items| && items[i].Star?
  }

  lemma HasStarCons(items: seq<Item>)
    requires items != []
    ensures HasStar(items) <==> items[0].Star? || HasStar(items[1..])
  {
    if HasStar(items) && !items[0].Star? {
      var i :| 0 <= i < |items| && items[i].Star?;
      assert items[1..][i - 1].Star?;
    }
    if HasStar(items[1..]) {
      var i :| 0 <= i < |items[1..]| && items[1..][i].Star?;
      assert items[i + 1].Star?;
    }
  }

  // ---- names -----------------------------------------------------------------

  function OptSet<T>(o: Option<T>): set<T> {
    if o.Some? then {o.value} else {}
  }

  function EntriesOf(p: Option<Entries>): Entries {
    if p.Some? then p.value else []
  }

  /** Every name whose binding the value of `e` can depend on. */
  function Names(e: Expr): set<string>
    decreases e
  {
    match e
    case NullLit => {}
    case Boolean(_) => {}
    case Integer(_) => {}
    case FloatLit(_) => {}
    case StringLit(_) => {}
    case Parameter(p) => {p}
    case Identifier(x) => {x}
    case Property(o, _) => Names(o)
    case ListLit(es) => NamesAll(es)
    case Binary(_, l, r) => Names(l) + Names(r)
    case Not(a) => Names(a)
    case Neg(a) => Names(a)
    case IsNull(a, _) => Names(a)
    case Subscript(b, i) => Names(b) + Names(i)
    case Slice(b, s, n) =>
      Names(b) + (if s.Some? then Names(s.value) else {}) + (if n.Some? then Names(n.value) else {})
    case Call(_, _, es) => NamesAll(es)
    case Coalesce(es) => NamesAll(es)
    case StarArg => {}
  }

  function NamesAll(es: seq<Expr>): set<string>
    decreases es
  {
    if es == [] then {} else Names(es[0]) + NamesAll(es[1..])
  }

  function VarOf(el: Element): set<string> {
    match el
    case NodeEl(n) => OptSet(n.variable)
    case RelEl(r) => OptSet(r.variable)
  }

  function WhereOf(el: Element): Option<Expr> {
    match el
    case NodeEl(n) => n.where
    case RelEl(r) => r.where
  }

  function ElementVars(elems: seq<Element>): set<string> {
    if elems == [] then {} else VarOf(elems[0]) + ElementVars(elems[1..])
  }

  function PathVars(pattern: Pattern): set<string> {
    if pattern == [] then {} else OptSet(pattern[0].variable) + PathVars(pattern[1..])
  }

  /** The node and relationship variables of a pattern. */
  function BoundVars(pattern: Pattern): set<string> {
    if pattern == [] then {} else ElementVars(pattern[0].elements) + BoundVars(pattern[1..])
  }

  /** The names `_pattern_vars` collects: path, node and relationship variables. */
  function PatternVars(pattern: Pattern): set<string> {
    if pattern == [] then {}
    else OptSet(pattern[0].variable) + ElementVars(pattern[0].elements) + PatternVars(pattern[1..])
  }
}
