/** Values, three-valued logic, and the expression nodes that the reduce actions build, with what the
    code generator makes of each node.

    Everything that a database supplies is a parameter, the environment: columns, literals, functions,
    arithmetic, subqueries, and above all the order of two values under a given affinity and collating
    sequence. */
module Expressions {
  import opened Lemon
  import opened TokenCodes

  datatype Value = Null | Num(n: int) | Real(r: real) | Str(s: string) | Blob(id: int)

  datatype Tri = True | False | Unknown

  datatype Affinity = NoAffinity | BlobAffinity | TextAffinity | NumericAffinity | IntegerAffinity | RealAffinity

  /** How an operand takes part in a comparison: its affinity, its collating sequence, and whether that
      came from a COLLATE. */
  datatype Kind = Kind(affinity: Affinity, collation: Option<string>, explicit: bool)

  /** How a comparison is made: under an affinity and a collating sequence. */
  datatype Way = Way(affinity: Affinity, collation: Option<string>)

  datatype Operand = Operand(value: Value, kind: Kind)

  /** What decides how things are compared. */
  datatype Schema = Schema(
    columnAffinity: string -> Affinity,
    columnCollation: string -> Option<string>,
    castAffinity: string -> Affinity,
    builtin: string -> bool,
    subqueryKind: int -> Kind)

  datatype Environment = Environment(
    schema: Schema,
    column: string -> Value,
    literal: (int, string) -> Value,
    cast: (string, Value) -> Value,
    order: (Way, Value, Value) -> int,
    whole: Value -> bool,
    nonzero: Value -> bool,
    unary: (int, Value) -> Value,
    binary: (int, Value, Value) -> Value,
    call: (string, seq<Value>) -> Value,
    subquery: int -> Value,
    subqueryRows: int -> bool,
    among: (Way, Value, int) -> Tri)

  // ---------------------------------------------------------------------------------------------
  // Three-valued logic

  /** What NOT, AND and OR go by: the integer part.  For a text or a blob it is read off its beginning. */
  function Truth(env: Environment, v: Value): Tri {
    match v
    case Null => Unknown
    case Num(n) => Of(n != 0)
    case Real(r) => Of(r <= -1.0 || 1.0 <= r)
    case _ => Of(env.whole(v))
  }

  /** What a jump goes by: the real value. */
  function Holds(env: Environment, v: Value): Tri {
    match v
    case Null => Unknown
    case Num(n) => Of(n != 0)
    case Real(r) => Of(r != 0.0)
    case _ => Of(env.nonzero(v))
  }

  function FromTri(t: Tri): Value {
    match t
    case True => Num(1)
    case False => Num(0)
    case Unknown => Null
  }

  function Not3(t: Tri): Tri {
    match t
    case True => False
    case False => True
    case Unknown => Unknown
  }

  function And3(a: Tri, b: Tri): Tri {
    if a == False || b == False then False else if a == True && b == True then True else Unknown
  }

  function Or3(a: Tri, b: Tri): Tri {
    Not3(And3(Not3(a), Not3(b)))
  }

  function Of(b: bool): Tri {
    if b then True else False
  }

  // ---------------------------------------------------------------------------------------------
  // Comparisons

  predicate IsNumeric(a: Affinity) {
    a == NumericAffinity || a == IntegerAffinity || a == RealAffinity
  }

  /** sqlite3CompareAffinity */
  function CompareAffinity(a: Affinity, b: Affinity): Affinity {
    if a != NoAffinity && b != NoAffinity then
      if IsNumeric(a) || IsNumeric(b) then NumericAffinity else BlobAffinity
    else if a == NoAffinity && b == NoAffinity then BlobAffinity
    else if a == NoAffinity then b else a
  }

  /** sqlite3BinaryCompareCollSeq: an explicit COLLATE wins, the left operand before the right. */
  function CompareCollation(l: Kind, r: Kind): Option<string> {
    if l.explicit then l.collation
    else if r.explicit then r.collation
    else if l.collation != None then l.collation
    else r.collation
  }

  /** The interpreter converts alike for all numeric affinities. */
  function Applied(a: Affinity): Affinity {
    if IsNumeric(a) then NumericAffinity else a
  }

  function CompareWay(l: Kind, r: Kind): Way {
    Way(Applied(CompareAffinity(l.affinity, r.affinity)), CompareCollation(l, r))
  }

  predicate IsComparison(op: int) {
    op == TK_EQ || op == TK_NE || op == TK_LT || op == TK_LE || op == TK_GT || op == TK_GE
  }

  predicate Satisfies(op: int, c: int) {
    if op == TK_EQ then c == 0
    else if op == TK_NE then c != 0
    else if op == TK_LT then c < 0
    else if op == TK_LE then c <= 0
    else if op == TK_GT then c > 0
    else c >= 0
  }

  /** A comparison of two values: unknown if either is null. */
  function Test(env: Environment, op: int, way: Way, v: Value, w: Value): Tri {
    if v == Null || w == Null then Unknown else Of(Satisfies(op, env.order(way, v, w)))
  }

  function Compare(env: Environment, op: int, l: Operand, r: Operand): Tri {
    Test(env, op, CompareWay(l.kind, r.kind), l.value, r.value)
  }

  /** IS: like =, but null is the same as null and as nothing else. */
  function Same(env: Environment, l: Operand, r: Operand): Tri {
    if l.value == Null || r.value == Null then Of(l.value == r.value) else Compare(env, TK_EQ, l, r)
  }

  /** IN over a subquery: a null on the left is in no rows at all, and unknown otherwise. */
  function Among(env: Environment, l: Operand, select: int): Tri {
    if l.value == Null then (if env.subqueryRows(select) then Unknown else False)
    else env.among(CompareWay(l.kind, env.schema.subqueryKind(select)), l.value, select)
  }

  predicate IsArithmetic(op: int) {
    || op == TK_BITAND || op == TK_BITOR || op == TK_LSHIFT || op == TK_RSHIFT
    || op == TK_PLUS || op == TK_MINUS || op == TK_STAR || op == TK_SLASH || op == TK_REM
    || op == TK_CONCAT
  }

  function BinaryValue(env: Environment, op: int, l: Operand, r: Operand): Value {
    if op == TK_AND then FromTri(And3(Truth(env, l.value), Truth(env, r.value)))
    else if op == TK_OR then FromTri(Or3(Truth(env, l.value), Truth(env, r.value)))
    else if IsComparison(op) then FromTri(Compare(env, op, l, r))
    else env.binary(op, l.value, r.value)
  }

  function Negative(env: Environment, v: Value): Value {
    match v
    case Null => Null
    case Num(n) => Num(-n)
    case _ => env.unary(TK_UMINUS, v)
  }

  // ---------------------------------------------------------------------------------------------
  // Functions that only carry a likelihood

  function Lower(s: string): string {
    seq(|s|, i requires 0 <= i < |s| => if 'A' <= s[i] <= 'Z' then (s[i] as int + 32) as char else s[i])
  }

  /** likely(X), unlikely(X) and likelihood(X, Y). */
  predicate IsHint(name: string, n: nat) {
    var f := Lower(name);
    (n == 1 && (f == "likely" || f == "unlikely")) || (n == 2 && f == "likelihood")
  }

  /** The name still means the built-in function. */
  predicate Hint(sc: Schema, name: string, n: nat) {
    IsHint(name, n) && sc.builtin(name)
  }

  // ---------------------------------------------------------------------------------------------
  // Nodes

  datatype Payload = Bare | Text(s: string) | Literal(n: nat)

  /** An expression node.  `generic` is the flag EP_Generic.  A TK_ID node with a left child is a name that
      stands for another expression: name resolution overwrites it with a copy of that expression, flags
      and all. */
  datatype Expr = Expr(op: int, token: Payload, generic: bool, left: Option<Expr>, right: Option<Expr>,
                       list: seq<Expr>, select: int)

  function NewExpr(op: int, left: Option<Expr>, right: Option<Expr>): Expr {
    Expr(op, Bare, false, left, right, [], 0)
  }

  function WithText(op: int, s: string, left: Option<Expr>): Expr {
    Expr(op, Text(s), false, left, None, [], 0)
  }

  function Integer(n: nat): Expr {
    Expr(TK_INTEGER, Literal(n), false, None, None, [], 0)
  }

  function TextOf(e: Expr): string {
    if e.token.Text? then e.token.s else ""
  }

  predicate IsAlias(e: Expr) {
    e.op == TK_ID && e.left.Some?
  }

  predicate IsHintCall(sc: Schema, e: Expr) {
    e.op == TK_FUNCTION && Hint(sc, TextOf(e), |e.list|)
  }

  /** The flag EP_Collate as the parser leaves it: set by COLLATE, handed up from operands and from the
      argument lists that have been attached before the flags are computed, cleared by EP_Generic. */
  predicate Flagged(e: Expr) {
    && !e.generic
    && e.op != TK_ID
    && (|| e.op == TK_COLLATE
        || (e.left.Some? && Flagged(e.left.value))
        || (e.right.Some? && Flagged(e.right.value))
        || (e.op != TK_BETWEEN && exists i :: 0 <= i < |e.list| && Flagged(e.list[i])))
  }

  /** The same flag once names are resolved. */
  predicate Explicit(e: Expr) {
    if IsAlias(e) then Explicit(e.left.value) else Flagged(e)
  }

  /** sqlite3ExprAffinity.  COLLATE nodes and likelihood functions are skipped before EP_Generic is looked
      at. */
  function ExprAffinity(sc: Schema, e: Expr): Affinity {
    if IsAlias(e) then ExprAffinity(sc, e.left.value)
    else if e.op == TK_COLLATE then (if e.left.Some? then ExprAffinity(sc, e.left.value) else NoAffinity)
    else if IsHintCall(sc, e) then ExprAffinity(sc, e.list[0])
    else if e.generic then NoAffinity
    else if e.op == TK_ID then sc.columnAffinity(TextOf(e))
    else if e.op == TK_CAST then sc.castAffinity(TextOf(e))
    else if e.op == TK_SELECT then sc.subqueryKind(e.select).affinity
    else NoAffinity
  }

  /** sqlite3ExprCollSeq.  Here EP_Generic comes first. */
  function ExprCollation(sc: Schema, e: Expr): Option<string>
    decreases e, 1
  {
    if IsAlias(e) then ExprCollation(sc, e.left.value)
    else if e.generic then None
    else if e.op == TK_CAST || e.op == TK_UPLUS then
      (if e.left.Some? then ExprCollation(sc, e.left.value) else None)
    else if e.op == TK_COLLATE then Some(TextOf(e))
    else if e.op == TK_ID then sc.columnCollation(TextOf(e))
    else InnerCollation(sc, e)
  }

  /** The rest of its loop: down to where the flag EP_Collate comes from. */
  function InnerCollation(sc: Schema, e: Expr): Option<string>
    decreases e, 0
  {
    if !Flagged(e) then None
    else if e.left.Some? && Explicit(e.left.value) then ExprCollation(sc, e.left.value)
    else if e.list != [] then FirstExplicit(sc, e.list)
    else if e.right.Some? then ExprCollation(sc, e.right.value)
    else None
  }

  function FirstExplicit(sc: Schema, es: seq<Expr>): Option<string>
    decreases es, 0
  {
    if es == [] then None
    else if Explicit(es[0]) then ExprCollation(sc, es[0])
    else FirstExplicit(sc, es[1..])
  }

  function ExprKind(sc: Schema, e: Expr): Kind {
    Kind(ExprAffinity(sc, e), ExprCollation(sc, e), Explicit(e))
  }

  /** How an operand is compared after exprToRegister.  That clears EP_Skip and hides the operator, so the
      affinity below a COLLATE, a likelihood function or a subquery is lost, and so is a collating
      sequence below a CAST or a plus that no COLLATE has flagged. */
  function RegisterKind(sc: Schema, e: Expr): Kind {
    if IsAlias(e) then RegisterKind(sc, e.left.value)
    else
      var affinity :=
        if e.generic then NoAffinity
        else if e.op == TK_ID then sc.columnAffinity(TextOf(e))
        else if e.op == TK_CAST then sc.castAffinity(TextOf(e))
        else NoAffinity;
      var collation :=
        if e.generic then None
        else if e.op == TK_COLLATE then Some(TextOf(e))
        else if e.op == TK_ID then sc.columnCollation(TextOf(e))
        else InnerCollation(sc, e);
      Kind(affinity, collation, Flagged(e))
  }

  const PLAIN: Kind := Kind(NoAffinity, None, false)

  /** A value that takes no part in choosing how it is compared. */
  function Plain(v: Value): Operand {
    Operand(v, PLAIN)
  }

  /** TK_IN over a list: found, or else unknown if some value is null. */
  function Search(env: Environment, l: Operand, values: seq<Value>): Tri {
    if l.value == Null then Unknown
    else if exists v :: v in values && v != Null && Compare(env, TK_EQ, l, Plain(v)) == True then True
    else if Null in values then Unknown
    else False
  }

  /** The value of a node, by operator. */
  function Eval(env: Environment, e: Expr): Value
    decreases e, 1
  {
    var op := e.op;
    if op == TK_NULL then Null
    else if op == TK_INTEGER then (if e.token.Literal? then Num(e.token.n) else Null)
    else if op == TK_ID then (if e.left.Some? then Eval(env, e.left.value) else env.column(TextOf(e)))
    else if op == TK_STRING || op == TK_FLOAT || op == TK_BLOB || op == TK_VARIABLE then env.literal(op, TextOf(e))
    else if op == TK_FUNCTION then
      if IsHintCall(env.schema, e) then Eval(env, e.list[0]) else env.call(TextOf(e), EvalAll(env, e.list))
    else if op == TK_SELECT then env.subquery(e.select)
    else if op == TK_EXISTS then FromTri(Of(env.subqueryRows(e.select)))
    else if op == TK_CASE then
      var operand := if e.left.Some? then Some(Registered(env, e.left.value)) else None;
      EvalCase(env, operand, e.list)
    else if e.left.None? then Null
    else
      var l := EvalOperand(env, e.left.value);
      if op == TK_COLLATE || op == TK_UPLUS then l.value
      else if op == TK_CAST then env.cast(TextOf(e), l.value)
      else if op == TK_NOT then FromTri(Not3(Truth(env, l.value)))
      else if op == TK_UMINUS then Negative(env, l.value)
      else if op == TK_BITNOT then env.unary(op, l.value)
      else if op == TK_ISNULL then FromTri(Of(l.value == Null))
      else if op == TK_NOTNULL then FromTri(Of(l.value != Null))
      else if op == TK_BETWEEN then
        if |e.list| != 2 then Null
        else
          var x := Registered(env, e.left.value);
          var above := Compare(env, TK_GE, x, EvalOperand(env, e.list[0]));
          var below := Compare(env, TK_LE, x, EvalOperand(env, e.list[1]));
          FromTri(And3(above, below))
      else if op == TK_IN then
        if e.list == [] then FromTri(Among(env, l, e.select)) else FromTri(Search(env, l, EvalAll(env, e.list)))
      else if e.right.None? then Null
      else
        var r := EvalOperand(env, e.right.value);
        if op == TK_IS then FromTri(Same(env, l, r))
        else if op == TK_ISNOT then FromTri(Not3(Same(env, l, r)))
        else BinaryValue(env, op, l, r)
  }

  function EvalOperand(env: Environment, e: Expr): Operand
    decreases e, 2
  {
    Operand(Eval(env, e), ExprKind(env.schema, e))
  }

  /** The operand of a BETWEEN or CASE, evaluated once into a register. */
  function Registered(env: Environment, e: Expr): Operand
    decreases e, 2
  {
    Operand(Eval(env, e), RegisterKind(env.schema, e))
  }

  /** The truth of a condition.  It is compiled to jumps, which take AND, OR and NOT apart. */
  function Decide(env: Environment, e: Expr): Tri
    decreases e, 3
  {
    if IsAlias(e) then Decide(env, e.left.value)
    else if e.op == TK_NOT && e.left.Some? then Not3(Decide(env, e.left.value))
    else if e.op == TK_AND && e.left.Some? && e.right.Some? then
      And3(Decide(env, e.left.value), Decide(env, e.right.value))
    else if e.op == TK_OR && e.left.Some? && e.right.Some? then
      Or3(Decide(env, e.left.value), Decide(env, e.right.value))
    else Holds(env, Eval(env, e))
  }

  function EvalAll(env: Environment, es: seq<Expr>): seq<Value>
    decreases es, 0
  {
    if es == [] then [] else [Eval(env, es[0])] + EvalAll(env, es[1..])
  }

  /** TK_CASE walks its flat list two at a time; a last element on its own is the ELSE. */
  function EvalCase(env: Environment, operand: Option<Operand>, list: seq<Expr>): Value
    decreases list, 0
  {
    if list == [] then Null
    else if |list| == 1 then Eval(env, list[0])
    else
      var w := EvalOperand(env, list[0]);
      var taken := if operand.Some? then Compare(env, TK_EQ, operand.value, w) else Decide(env, list[0]);
      if taken == True then Eval(env, list[1]) else EvalCase(env, operand, list[2..])
  }
}
