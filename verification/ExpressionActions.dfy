/** The reduce actions for expressions.  `Sql` is an expression as written; `Build` is the tree of nodes
    that the actions make of it, rewriting as they go; `Meaning` is what SQL says the expression means. */
module ExpressionActions {
  import opened Lemon
  import opened TokenCodes
  import opened Expressions

  /** An expression as written.  A LIKE operator carries its token: the operator's name and the length
      word of the token.  `Alias` is a name that stands for another expression, be it a column of the
      result or a column of a subquery that is merged into its parent. */
  datatype Sql =
    | NullWord
    | Number(n: nat)
    | Word(op: int, text: string)
    | Name(text: string)
    | Alias(e: Sql)
    | Paren(e: Sql)
    | Collate(e: Sql, name: string)
    | Cast(e: Sql, typename: string)
    | Call(name: string, args: seq<Sql>)
    | Binary(op: int, l: Sql, r: Sql)
    | Like(l: Sql, name: string, length: bv32, neg: bool, r: Sql, escape: Option<Sql>)
    | Postfix(op: int, e: Sql)
    | Is(l: Sql, neg: bool, r: Sql)
    | Prefix(op: int, e: Sql)
    | Between(e: Sql, neg: bool, lo: Sql, hi: Sql)
    | InList(e: Sql, neg: bool, items: seq<Sql>)
    | InSelect(e: Sql, neg: bool, select: int)
    | Select(select: int)
    | Exists(select: int)
    | Case(operand: Option<Sql>, whens: seq<When>, els: Option<Sql>)

  datatype When = When(cond: Sql, result: Sql)

  // ---------------------------------------------------------------------------------------------
  // How SQL compares an expression

  /** Columns, casts and subqueries have an affinity; parentheses, COLLATE and likelihoods pass it on. */
  function Affin(sc: Schema, s: Sql): Affinity {
    match s
    case Paren(e) => Affin(sc, e)
    case Alias(e) => Affin(sc, e)
    case Collate(e, _) => Affin(sc, e)
    case Name(text) => sc.columnAffinity(text)
    case Cast(_, typename) => sc.castAffinity(typename)
    case Select(select) => sc.subqueryKind(select).affinity
    case Call(name, args) => if Hint(sc, name, |args|) then Affin(sc, args[0]) else NoAffinity
    case _ => NoAffinity
  }

  function First(a: Option<string>, b: Option<string>): Option<string> {
    if a.Some? then a else b
  }

  /** The leftmost COLLATE in an expression, whose collating sequence takes precedence. */
  function Leftmost(s: Sql): Option<string>
    decreases s, 1
  {
    match s
    case Collate(_, name) => Some(name)
    case Paren(e) => Leftmost(e)
    case Alias(e) => Leftmost(e)
    case Cast(e, _) => Leftmost(e)
    case Postfix(_, e) => Leftmost(e)
    case Prefix(_, e) => Leftmost(e)
    case InSelect(e, _, _) => Leftmost(e)
    case Call(_, args) => LeftmostOf(args)
    case Binary(_, l, r) => First(Leftmost(l), Leftmost(r))
    case Is(l, _, r) => First(Leftmost(l), Leftmost(r))
    case Like(l, _, _, _, r, escape) =>
      First(First(Leftmost(l), Leftmost(r)), if escape.Some? then Leftmost(escape.value) else None)
    case Between(e, _, lo, hi) => First(Leftmost(e), First(Leftmost(lo), Leftmost(hi)))
    case InList(e, _, items) => First(Leftmost(e), LeftmostOf(items))
    case Case(operand, whens, els) =>
      First(if operand.Some? then Leftmost(operand.value) else None,
            First(LeftmostWhen(whens), if els.Some? then Leftmost(els.value) else None))
    case _ => None
  }

  function LeftmostOf(ss: seq<Sql>): Option<string>
    decreases ss, 0
  {
    if ss == [] then None else First(Leftmost(ss[0]), LeftmostOf(ss[1..]))
  }

  function LeftmostWhen(whens: seq<When>): Option<string>
    decreases whens, 0
  {
    if whens == [] then None else First(LeftmostIn(whens[0]), LeftmostWhen(whens[1..]))
  }

  function LeftmostIn(w: When): Option<string>
    decreases w, 3
  {
    First(Leftmost(w.cond), Leftmost(w.result))
  }

  /** Without a COLLATE, a column has its own; parentheses, CAST and unary plus pass it on. */
  function ColumnCollation(sc: Schema, s: Sql): Option<string> {
    match s
    case Paren(e) => ColumnCollation(sc, e)
    case Alias(e) => ColumnCollation(sc, e)
    case Name(text) => sc.columnCollation(text)
    case Cast(e, _) => ColumnCollation(sc, e)
    case Prefix(op, e) => if op == TK_PLUS then ColumnCollation(sc, e) else None
    case _ => None
  }

  function SqlKind(sc: Schema, s: Sql): Kind {
    var collate := Leftmost(s);
    Kind(Affin(sc, s), First(collate, ColumnCollation(sc, s)), collate.Some?)
  }

  // ---------------------------------------------------------------------------------------------
  // What SQL says

  function Negated(neg: bool, t: Tri): Value {
    FromTri(if neg then Not3(t) else t)
  }

  /** x IN (v1, ..., vn) is x = v1 OR ... OR x = vn, where only x decides how it is compared. */
  function AnyEqual(env: Environment, l: Operand, values: seq<Value>): Tri {
    if values == [] then False
    else Or3(Compare(env, TK_EQ, l, Plain(values[0])), AnyEqual(env, l, values[1..]))
  }

  function CallName(name: string, length: bv32): string {
    if (length as int) <= |name| then name[..length as int] else name
  }

  function Meaning(env: Environment, s: Sql): Value
    decreases s, 1
  {
    match s
    case NullWord => Null
    case Number(n) => Num(n)
    case Word(op, text) => env.literal(op, text)
    case Name(text) => env.column(text)
    case Alias(e) => Meaning(env, e)
    case Paren(e) => Meaning(env, e)
    case Collate(e, _) => Meaning(env, e)
    case Cast(e, typename) => env.cast(typename, Meaning(env, e))
    case Call(name, args) =>
      if Hint(env.schema, name, |args|) then Meaning(env, args[0]) else env.call(name, Meanings(env, args))
    case Binary(op, l, r) => BinaryValue(env, op, Operation(env, l), Operation(env, r))
    case Like(l, name, length, neg, r, escape) =>
      var args := [Meaning(env, r), Meaning(env, l)] + (if escape.Some? then [Meaning(env, escape.value)] else []);
      var v := env.call(CallName(name, length), args);
      if neg then FromTri(Not3(Truth(env, v))) else v
    case Postfix(op, e) => Negated(op == TK_NOTNULL, Of(Meaning(env, e) == Null))
    case Is(l, neg, r) => Negated(neg, Same(env, Operation(env, l), Operation(env, r)))
    case Prefix(op, e) =>
      var v := Meaning(env, e);
      if op == TK_NOT then FromTri(Not3(Truth(env, v)))
      else if op == TK_MINUS then Negative(env, v)
      else if op == TK_PLUS then v
      else env.unary(op, v)
    case Between(e, neg, lo, hi) =>
      var x := Operation(env, e);
      Negated(neg, And3(Compare(env, TK_GE, x, Operation(env, lo)), Compare(env, TK_LE, x, Operation(env, hi))))
    case InList(e, neg, items) => Negated(neg, AnyEqual(env, Operation(env, e), Meanings(env, items)))
    case InSelect(e, neg, select) => Negated(neg, Among(env, Operation(env, e), select))
    case Select(select) => env.subquery(select)
    case Exists(select) => FromTri(Of(env.subqueryRows(select)))
    case Case(operand, whens, els) =>
      var x := if operand.Some? then Some(Operation(env, operand.value)) else None;
      var otherwise := if els.Some? then Meaning(env, els.value) else Null;
      Chosen(env, x, whens, otherwise)
  }

  function Operation(env: Environment, s: Sql): Operand
    decreases s, 2
  {
    Operand(Meaning(env, s), SqlKind(env.schema, s))
  }

  function Meanings(env: Environment, ss: seq<Sql>): seq<Value>
    decreases ss, 0
  {
    if ss == [] then [] else [Meaning(env, ss[0])] + Meanings(env, ss[1..])
  }

  /** The result of the first WHEN that is true. */
  function Chosen(env: Environment, x: Option<Operand>, whens: seq<When>, otherwise: Value): Value
    decreases whens, 0
  {
    if whens == [] then otherwise
    else
      var c := Condition(env, whens[0]);
      var taken := if x.Some? then Compare(env, TK_EQ, x.value, c) else Judged(env, whens[0]);
      if taken == True then Consequence(env, whens[0]) else Chosen(env, x, whens[1..], otherwise)
  }

  function Condition(env: Environment, w: When): Operand
    decreases w, 3
  {
    Operation(env, w.cond)
  }

  /** The truth of a condition, for which the whole of a value counts. */
  function Judgement(env: Environment, s: Sql): Tri
    decreases s, 3
  {
    match s
    case Paren(e) => Judgement(env, e)
    case Alias(e) => Judgement(env, e)
    case Binary(op, l, r) =>
      if op == TK_AND then And3(Judgement(env, l), Judgement(env, r))
      else if op == TK_OR then Or3(Judgement(env, l), Judgement(env, r))
      else Holds(env, Meaning(env, s))
    case Prefix(op, e) => if op == TK_NOT then Not3(Judgement(env, e)) else Holds(env, Meaning(env, s))
    case Like(l, name, length, neg, r, escape) =>
      var args := [Meaning(env, r), Meaning(env, l)] + (if escape.Some? then [Meaning(env, escape.value)] else []);
      var t := Holds(env, env.call(CallName(name, length), args));
      if neg then Not3(t) else t
    case _ => Holds(env, Meaning(env, s))
  }

  function Judged(env: Environment, w: When): Tri
    decreases w, 4
  {
    Judgement(env, w.cond)
  }

  function Consequence(env: Environment, w: When): Value
    decreases w, 3
  {
    Meaning(env, w.result)
  }

  // ---------------------------------------------------------------------------------------------
  // What the actions build

  /** sqlite3ExprIsInteger */
  function IntegerValue(e: Expr): Option<int> {
    if e.op == TK_INTEGER && e.token.Literal? && e.token.n <= 0x7fff_ffff then Some(e.token.n)
    else if e.op == TK_UPLUS && e.left.Some? then IntegerValue(e.left.value)
    else if e.op == TK_UMINUS && e.left.Some? then
      var v := IntegerValue(e.left.value);
      if v.Some? then Some(-v.value) else None
    else None
  }

  /** sqlite3PExpr with two operands: an AND with a constant false operand becomes 0. */
  function PExpr(op: int, l: Expr, r: Expr): Expr {
    if op == TK_AND && (IntegerValue(l) == Some(0) || IntegerValue(r) == Some(0)) then Integer(0)
    else NewExpr(op, Some(l), Some(r))
  }

  function Unary(op: int, e: Expr): Expr {
    NewExpr(op, Some(e), None)
  }

  function ExprNot(neg: bool, e: Expr): Expr {
    if neg then Unary(TK_NOT, e) else e
  }

  function WithList(op: int, l: Option<Expr>, list: seq<Expr>): Expr {
    Expr(op, Bare, false, l, None, list, 0)
  }

  function Function(name: string, args: seq<Expr>): Expr {
    Expr(TK_FUNCTION, Text(name), false, None, None, args, 0)
  }

  /** What rule 191 does to the value of a one-value IN. */
  function MarkGeneric(e: Expr): Expr {
    e.(generic := true)
  }

  /** The length word of a LIKE token, with its top bit saying NOT. */
  function FlaggedLength(length: bv32, neg: bool): bv32 {
    if neg then length | 0x8000_0000 else length
  }

  /** The call that a LIKE becomes: the token's length word is taken apart again. */
  function LikeNode(word: bv32, name: string, args: seq<Expr>): Expr {
    ExprNot(word & 0x8000_0000 != 0, Function(CallName(name, word & 0x7fff_ffff), args))
  }

  function Build(s: Sql): Expr
    decreases s, 1
  {
    match s
    case NullWord => NewExpr(TK_NULL, None, None)
    case Number(n) => Integer(n)
    case Word(op, text) => WithText(op, text, None)
    case Name(text) => WithText(TK_ID, text, None)
    case Alias(e) => WithText(TK_ID, "", Some(Build(e)))
    case Paren(e) => Build(e)
    case Collate(e, name) => WithText(TK_COLLATE, name, Some(Build(e)))
    case Cast(e, typename) => WithText(TK_CAST, typename, Some(Build(e)))
    case Call(name, args) => Function(name, BuildAll(args))
    case Binary(op, l, r) => PExpr(op, Build(l), Build(r))
    case Like(l, name, length, neg, r, escape) =>
      var args := [Build(r), Build(l)] + (if escape.Some? then [Build(escape.value)] else []);
      LikeNode(FlaggedLength(length, neg), name, args)
    case Postfix(op, e) => Unary(op, Build(e))
    case Is(l, neg, r) =>
      // binaryToUnaryIfNull
      if Build(r).op == TK_NULL then Unary(if neg then TK_NOTNULL else TK_ISNULL, Build(l))
      else PExpr(if neg then TK_ISNOT else TK_IS, Build(l), Build(r))
    case Prefix(op, e) =>
      Unary(if op == TK_MINUS then TK_UMINUS else if op == TK_PLUS then TK_UPLUS else op, Build(e))
    case Between(e, neg, lo, hi) => ExprNot(neg, WithList(TK_BETWEEN, Some(Build(e)), [Build(lo), Build(hi)]))
    case InList(e, neg, items) =>
      if items == [] then Integer(if neg then 1 else 0)
      else if |items| == 1 then PExpr(if neg then TK_NE else TK_EQ, Build(e), MarkGeneric(Build(items[0])))
      else ExprNot(neg, WithList(TK_IN, Some(Build(e)), BuildAll(items)))
    case InSelect(e, neg, select) => ExprNot(neg, Expr(TK_IN, Bare, false, Some(Build(e)), None, [], select))
    case Select(select) => Expr(TK_SELECT, Bare, false, None, None, [], select)
    case Exists(select) => Expr(TK_EXISTS, Bare, false, None, None, [], select)
    case Case(operand, whens, els) =>
      WithList(TK_CASE, if operand.Some? then Some(Build(operand.value)) else None,
               BuildWhens(whens) + (if els.Some? then [Build(els.value)] else []))
  }

  function BuildAll(ss: seq<Sql>): seq<Expr>
    decreases ss, 0
  {
    if ss == [] then [] else [Build(ss[0])] + BuildAll(ss[1..])
  }

  /** The flat list of a CASE: each condition followed by its result. */
  function BuildWhens(whens: seq<When>): seq<Expr>
    decreases whens, 0
  {
    if whens == [] then [] else BuildWhen(whens[0]) + BuildWhens(whens[1..])
  }

  function BuildWhen(w: When): seq<Expr>
    decreases w, 3
  {
    [Build(w.cond), Build(w.result)]
  }

  // ---------------------------------------------------------------------------------------------
  // Which expressions the rules accept

  /** The operators are ones that the rule accepts, and LIKE tokens are names of the LIKE family whose
      length leaves the top bit free. */
  predicate Grammatical(s: Sql)
    decreases s, 1
  {
    match s
    case Word(op, _) => op == TK_STRING || op == TK_FLOAT || op == TK_BLOB || op == TK_VARIABLE
    case Alias(e) => Grammatical(e)
    case Paren(e) => Grammatical(e)
    case Collate(e, _) => Grammatical(e)
    case Cast(e, _) => Grammatical(e)
    case Call(_, args) => AllGrammatical(args)
    case Binary(op, l, r) =>
      (op == TK_AND || op == TK_OR || IsComparison(op) || IsArithmetic(op)) && Grammatical(l) && Grammatical(r)
    case Like(l, name, length, _, r, escape) =>
      && length < 0x8000_0000 && !IsHint(CallName(name, length), if escape.Some? then 3 else 2)
      && Grammatical(l) && Grammatical(r) && (escape.Some? ==> Grammatical(escape.value))
    case Postfix(op, e) => (op == TK_ISNULL || op == TK_NOTNULL) && Grammatical(e)
    case Is(l, _, r) => Grammatical(l) && Grammatical(r)
    case Prefix(op, e) => (op == TK_NOT || op == TK_BITNOT || op == TK_MINUS || op == TK_PLUS) && Grammatical(e)
    case Between(e, _, lo, hi) => Grammatical(e) && Grammatical(lo) && Grammatical(hi)
    case InList(e, _, items) => Grammatical(e) && AllGrammatical(items)
    case InSelect(e, _, _) => Grammatical(e)
    case Case(operand, whens, els) =>
      && (operand.Some? ==> Grammatical(operand.value))
      && (els.Some? ==> Grammatical(els.value))
      && WhensGrammatical(whens)
    case _ => true
  }

  predicate AllGrammatical(ss: seq<Sql>)
    decreases ss, 0
  {
    ss == [] || (Grammatical(ss[0]) && AllGrammatical(ss[1..]))
  }

  predicate WhensGrammatical(whens: seq<When>)
    decreases whens, 0
  {
    whens == [] || (WhenGrammatical(whens[0]) && WhensGrammatical(whens[1..]))
  }

  predicate WhenGrammatical(w: When)
    decreases w, 3
  {
    Grammatical(w.cond) && Grammatical(w.result)
  }

  // ---------------------------------------------------------------------------------------------
  // Where the tree compares as the expression should

  /** Two values are compared the same way by operands of kinds l1 and r1 as by operands of kinds l and r:
      a null makes the way irrelevant. */
  predicate Alike(v: Value, w: Value, l1: Kind, r1: Kind, l: Kind, r: Kind) {
    v == Null || w == Null || CompareWay(l1, r1) == CompareWay(l, r)
  }

  /** A comparison of two operands. */
  predicate PairKept(env: Environment, l: Sql, r: Sql) {
    var sc := env.schema;
    Alike(Meaning(env, l), Meaning(env, r), ExprKind(sc, Build(l)), ExprKind(sc, Build(r)),
          SqlKind(sc, l), SqlKind(sc, r))
  }

  /** A comparison with an operand held in a register. */
  predicate RegisterKept(env: Environment, l: Sql, r: Sql) {
    var sc := env.schema;
    Alike(Meaning(env, l), Meaning(env, r), RegisterKind(sc, Build(l)), ExprKind(sc, Build(r)),
          SqlKind(sc, l), SqlKind(sc, r))
  }

  /** The comparison that replaces a one-value IN. */
  predicate ItemKept(env: Environment, l: Sql, item: Sql) {
    var sc := env.schema;
    Alike(Meaning(env, l), Meaning(env, item), ExprKind(sc, Build(l)), ExprKind(sc, MarkGeneric(Build(item))),
          SqlKind(sc, l), PLAIN)
  }

  /** One comparison of a longer IN. */
  predicate MemberKept(env: Environment, l: Sql, v: Value) {
    Alike(Meaning(env, l), v, ExprKind(env.schema, Build(l)), PLAIN, SqlKind(env.schema, l), PLAIN)
  }

  /** An IN over a subquery. */
  predicate RowsKept(env: Environment, l: Sql, select: int) {
    var k := env.schema.subqueryKind(select);
    Meaning(env, l) == Null || CompareWay(ExprKind(env.schema, Build(l)), k) == CompareWay(SqlKind(env.schema, l), k)
  }

  /** Every comparison in s is made the way SQL says, or involves a null. */
  predicate Kept(env: Environment, s: Sql)
    decreases s, 1
  {
    match s
    case Alias(e) => Kept(env, e)
    case Paren(e) => Kept(env, e)
    case Collate(e, _) => Kept(env, e)
    case Cast(e, _) => Kept(env, e)
    case Call(_, args) => AllKept(env, args)
    case Binary(op, l, r) => Kept(env, l) && Kept(env, r) && (IsComparison(op) ==> PairKept(env, l, r))
    case Like(l, _, _, _, r, escape) => Kept(env, l) && Kept(env, r) && (escape.Some? ==> Kept(env, escape.value))
    case Postfix(_, e) => Kept(env, e)
    case Is(l, _, r) => Kept(env, l) && Kept(env, r) && PairKept(env, l, r)
    case Prefix(_, e) => Kept(env, e)
    case Between(e, _, lo, hi) =>
      Kept(env, e) && Kept(env, lo) && Kept(env, hi) && RegisterKept(env, e, lo) && RegisterKept(env, e, hi)
    case InList(e, _, items) =>
      && Kept(env, e) && AllKept(env, items)
      && (|items| == 1 ==> ItemKept(env, e, items[0]))
      && (2 <= |items| ==> forall v :: v in Meanings(env, items) ==> MemberKept(env, e, v))
    case InSelect(e, _, select) => Kept(env, e) && RowsKept(env, e, select)
    case Case(operand, whens, els) =>
      && (operand.Some? ==> Kept(env, operand.value))
      && (els.Some? ==> Kept(env, els.value))
      && WhensKept(env, operand, whens)
    case _ => true
  }

  predicate AllKept(env: Environment, ss: seq<Sql>)
    decreases ss, 0
  {
    ss == [] || (Kept(env, ss[0]) && AllKept(env, ss[1..]))
  }

  predicate WhensKept(env: Environment, operand: Option<Sql>, whens: seq<When>)
    decreases whens, 0
  {
    whens == [] || (WhenKept(env, operand, whens[0]) && WhensKept(env, operand, whens[1..]))
  }

  predicate WhenKept(env: Environment, operand: Option<Sql>, w: When)
    decreases w, 3
  {
    && Kept(env, w.cond) && Kept(env, w.result)
    && (operand.Some? ==> RegisterKept(env, operand.value, w.cond))
  }
}
