/** Exactly where the tree and the expression may differ.  How two values compare is up to the database;
    a comparison that is made another way than SQL says goes wrong for some order of the values, unless
    one of them is null. */
module RewritingLimits {
  import opened Lemon
  import opened TokenCodes
  import opened Expressions
  import opened ExpressionActions
  import opened Rewriting

  /** How values compare, and how a value compares with the rows of a subquery. */
  datatype Order = Order(values: (Way, Value, Value) -> int, rows: (Way, Value, int) -> Tri)

  /** The same database with another order. */
  function Reordered(env: Environment, o: Order): Environment {
    env.(order := o.values, among := o.rows)
  }

  // ---------------------------------------------------------------------------------------------
  // One comparison

  /** An outcome that satisfies a comparison, and one that does not. */
  function Yes(op: int): int {
    if op == TK_NE || op == TK_GT then 1 else if op == TK_LT then -1 else 0
  }

  function No(op: int): int {
    if op == TK_EQ || op == TK_LE then 1 else if op == TK_GE then -1 else 0
  }

  /** Outcomes that tell one way from all others. */
  function Telling(way: Way, here: int, elsewhere: int): Order {
    Order((w, _, _) => if w == way then here else elsewhere, (w, _, _) => Of(w == way))
  }

  lemma YesAndNo(op: int)
    requires IsComparison(op)
    ensures Satisfies(op, Yes(op)) && !Satisfies(op, No(op))
  {}

  predicate TestsAgree(env: Environment, o: Order, op: int, a: Way, b: Way, v: Value, w: Value) {
    Test(Reordered(env, o), op, a, v, w) == Test(Reordered(env, o), op, b, v, w)
  }

  /** Two ways of comparing give the same answer under every order exactly if they are the same way, or a
      value is null. */
  lemma WaysExactly(env: Environment, op: int, a: Way, b: Way, v: Value, w: Value)
    requires IsComparison(op)
    ensures v == Null || w == Null || a == b <==> forall o: Order :: TestsAgree(env, o, op, a, b, v, w)
  {
    if v != Null && w != Null && a != b {
      YesAndNo(op);
      var o := Telling(a, Yes(op), No(op));
      assert !TestsAgree(env, o, op, a, b, v, w);
    }
  }

  predicate ItemAgrees(env: Environment, o: Order, neg: bool, l: Operand, stray: Kind, v: Value) {
    FromTri(Compare(Reordered(env, o), if neg then TK_NE else TK_EQ, l, Operand(v, stray)))
      == Negated(neg, AnyEqual(Reordered(env, o), l, [v]))
  }

  /** For any two operands: the comparison that replaces a one-value IN or NOT IN agrees with the IN under every
      order exactly if a side is null, or what the value contributes does not change the comparison. */
  lemma OperandsExactly(env: Environment, neg: bool, l: Operand, stray: Kind, v: Value)
    ensures l.value == Null || v == Null || CompareWay(l.kind, stray) == CompareWay(l.kind, PLAIN) <==>
      forall o: Order :: ItemAgrees(env, o, neg, l, stray, v)
  {
    var a, b := CompareWay(l.kind, stray), CompareWay(l.kind, PLAIN);
    WaysExactly(env, TK_EQ, a, b, l.value, v);
    forall o: Order ensures ItemAgrees(env, o, neg, l, stray, v) <==> TestsAgree(env, o, TK_EQ, a, b, l.value, v) {
      AnyEqualOne(Reordered(env, o), l, v);
      NotEqual(Reordered(env, o), a, l.value, v);
      hide CompareWay;
    }
  }

  // ---------------------------------------------------------------------------------------------
  // Operands that compare nothing themselves

  /** No comparison is made in evaluating s. */
  predicate OrderFree(s: Sql)
    decreases s, 1
  {
    match s
    case Alias(e) => OrderFree(e)
    case Paren(e) => OrderFree(e)
    case Collate(e, _) => OrderFree(e)
    case Cast(e, _) => OrderFree(e)
    case Call(_, args) => AllOrderFree(args)
    case Binary(op, l, r) => !IsComparison(op) && OrderFree(l) && OrderFree(r)
    case Like(l, _, _, _, r, escape) => OrderFree(l) && OrderFree(r) && (escape.Some? ==> OrderFree(escape.value))
    case Postfix(_, e) => OrderFree(e)
    case Prefix(_, e) => OrderFree(e)
    case Is(_, _, _) => false
    case Between(_, _, _, _) => false
    case InList(_, _, items) => false
    case InSelect(_, _, _) => false
    case Case(_, _, _) => false
    case _ => true
  }

  predicate AllOrderFree(ss: seq<Sql>)
    decreases ss, 0
  {
    ss == [] || (OrderFree(ss[0]) && AllOrderFree(ss[1..]))
  }

  lemma BinarySame(env: Environment, o: Order, op: int, l: Sql, r: Sql)
    requires !IsComparison(op)
    requires Meaning(Reordered(env, o), l) == Meaning(env, l) && Meaning(Reordered(env, o), r) == Meaning(env, r)
    ensures Meaning(Reordered(env, o), Binary(op, l, r)) == Meaning(env, Binary(op, l, r))
  {
    hide SqlKind, IsComparison, Compare, And3, Or3;
  }

  lemma OneOperandSame(env: Environment, o: Order, s: Sql)
    requires OneOperand(s) && Meaning(Reordered(env, o), s.e) == Meaning(env, s.e)
    ensures Meaning(Reordered(env, o), s) == Meaning(env, s)
  {
    hide SqlKind, Negated;
  }

  lemma CallSame(env: Environment, o: Order, name: string, args: seq<Sql>)
    requires Meanings(Reordered(env, o), args) == Meanings(env, args)
    requires args != [] ==> Meaning(Reordered(env, o), args[0]) == Meaning(env, args[0])
    ensures Meaning(Reordered(env, o), Call(name, args)) == Meaning(env, Call(name, args))
  {
    hide Meanings, IsHint;
    if IsHint(name, |args|) {
      HintHasArgument(name, |args|);
    }
  }

  lemma LikeSame(env: Environment, o: Order, s: Sql)
    requires s.Like? && Meaning(Reordered(env, o), s.l) == Meaning(env, s.l)
    requires Meaning(Reordered(env, o), s.r) == Meaning(env, s.r)
    requires s.escape.Some? ==> Meaning(Reordered(env, o), s.escape.value) == Meaning(env, s.escape.value)
    ensures Meaning(Reordered(env, o), s) == Meaning(env, s)
  {
    hide CallName;
  }

  lemma LeafSame(env: Environment, o: Order, s: Sql)
    requires s.NullWord? || s.Number? || s.Word? || s.Name? || s.Select? || s.Exists?
    ensures Meaning(Reordered(env, o), s) == Meaning(env, s)
  {}

  lemma {:induction false} OrderFreeSame(env: Environment, o: Order, s: Sql)
    requires OrderFree(s)
    ensures Meaning(Reordered(env, o), s) == Meaning(env, s)
    decreases s, 1
  {
    hide Meaning, Meanings, Reordered, IsComparison;
    if OneOperand(s) {
      OrderFreeSame(env, o, s.e);
      OneOperandSame(env, o, s);
    } else {
      match s {
        case Call(name, args) =>
          AllSame(env, o, args);
          CallSame(env, o, name, args);
        case Binary(op, l, r) =>
          OrderFreeSame(env, o, l);
          OrderFreeSame(env, o, r);
          BinarySame(env, o, op, l, r);
        case Like(l, _, _, _, r, escape) =>
          OrderFreeSame(env, o, l);
          OrderFreeSame(env, o, r);
          if escape.Some? {
            OrderFreeSame(env, o, escape.value);
          }
          LikeSame(env, o, s);
        case _ => LeafSame(env, o, s);
      }
    }
  }

  lemma {:induction false} AllSame(env: Environment, o: Order, ss: seq<Sql>)
    requires AllOrderFree(ss)
    ensures Meanings(Reordered(env, o), ss) == Meanings(env, ss)
    ensures ss != [] ==> Meaning(Reordered(env, o), ss[0]) == Meaning(env, ss[0])
    decreases ss, 0
  {
    hide Meaning, OrderFree;
    if ss != [] {
      OrderFreeSame(env, o, ss[0]);
      AllSame(env, o, ss[1..]);
    }
  }

  lemma {:induction false} OrderFreeKept(env: Environment, s: Sql)
    requires OrderFree(s)
    ensures Kept(env, s)
    decreases s, 1
  {
    hide PairKept, RegisterKept, ItemKept, MemberKept, RowsKept;
    match s {
      case Alias(e) => OrderFreeKept(env, e);
      case Paren(e) => OrderFreeKept(env, e);
      case Collate(e, _) => OrderFreeKept(env, e);
      case Cast(e, _) => OrderFreeKept(env, e);
      case Call(_, args) => AllOrderFreeKept(env, args);
      case Binary(_, l, r) =>
        OrderFreeKept(env, l);
        OrderFreeKept(env, r);
      case Like(l, _, _, _, r, escape) =>
        OrderFreeKept(env, l);
        OrderFreeKept(env, r);
        if escape.Some? {
          OrderFreeKept(env, escape.value);
        }
      case Postfix(_, e) => OrderFreeKept(env, e);
      case Prefix(_, e) => OrderFreeKept(env, e);
      case _ =>
    }
  }

  lemma {:induction false} AllOrderFreeKept(env: Environment, ss: seq<Sql>)
    requires AllOrderFree(ss)
    ensures AllKept(env, ss)
    decreases ss, 0
  {
    hide OrderFree, Kept;
    if ss != [] {
      OrderFreeKept(env, ss[0]);
      AllOrderFreeKept(env, ss[1..]);
    }
  }

  /** So both its value and its meaning are the same under every order. */
  lemma OperandFixed(env: Environment, o: Order, s: Sql)
    requires Grammatical(s) && OrderFree(s)
    ensures Means(Reordered(env, o), s) && Meaning(Reordered(env, o), s) == Meaning(env, s)
  {
    hide Eval, Meaning, Build, Kept;
    OrderFreeSame(env, o, s);
    OrderFreeKept(Reordered(env, o), s);
    BuildMeans(Reordered(env, o), s);
  }

  // ---------------------------------------------------------------------------------------------
  // Where a single comparison is right

  /** The tree for s is right under order o. */
  predicate RightUnder(env: Environment, o: Order, s: Sql) {
    Means(Reordered(env, o), s)
  }

  lemma FromTriInjective(a: Tri, b: Tri)
    ensures FromTri(a) == FromTri(b) <==> a == b
    ensures Not3(a) == Not3(b) <==> a == b
  {}

  lemma NotEqual(env: Environment, way: Way, v: Value, w: Value)
    ensures Test(env, TK_NE, way, v, w) == Not3(Test(env, TK_EQ, way, v, w))
  {}

  function PairWay(sc: Schema, l: Sql, r: Sql): Way {
    CompareWay(ExprKind(sc, Build(l)), ExprKind(sc, Build(r)))
  }

  function MeantWay(sc: Schema, l: Sql, r: Sql): Way {
    CompareWay(SqlKind(sc, l), SqlKind(sc, r))
  }

  lemma PairUnder(env: Environment, o: Order, op: int, l: Sql, r: Sql)
    requires Grammatical(Binary(op, l, r)) && IsComparison(op) && OrderFree(l) && OrderFree(r)
    ensures RightUnder(env, o, Binary(op, l, r)) <==>
      TestsAgree(env, o, op, PairWay(env.schema, l, r), MeantWay(env.schema, l, r), Meaning(env, l), Meaning(env, r))
  {
    hide Eval, ExprKind, SqlKind, CompareWay, PExpr, Test, OrderFree;
    var env1 := Reordered(env, o);
    OperandFixed(env, o, l);
    OperandFixed(env, o, r);
    PExprMeans(env1, op, Build(l), Build(r));
    assert Build(Binary(op, l, r)) == PExpr(op, Build(l), Build(r));
    assert Meaning(env1, Binary(op, l, r)) == BinaryValue(env1, op, Operation(env1, l), Operation(env1, r));
    FromTriInjective(Compare(env1, op, EvalOperand(env1, Build(l)), EvalOperand(env1, Build(r))),
                     Compare(env1, op, Operation(env1, l), Operation(env1, r)));
  }

  /** A comparison as written is evaluated rightly under every order if and only if it is made the way SQL
      says or involves a null. */
  lemma PairExactly(env: Environment, op: int, l: Sql, r: Sql)
    requires Grammatical(Binary(op, l, r)) && IsComparison(op) && OrderFree(l) && OrderFree(r)
    ensures PairKept(env, l, r) <==> forall o: Order :: RightUnder(env, o, Binary(op, l, r))
  {
    hide RightUnder, TestsAgree, Meaning, ExprKind, SqlKind, CompareWay, OrderFree, Grammatical;
    var a, b := PairWay(env.schema, l, r), MeantWay(env.schema, l, r);
    WaysExactly(env, op, a, b, Meaning(env, l), Meaning(env, r));
    forall o: Order
      ensures RightUnder(env, o, Binary(op, l, r)) <==> TestsAgree(env, o, op, a, b, Meaning(env, l), Meaning(env, r))
    {
      PairUnder(env, o, op, l, r);
    }
  }

  lemma IsUnder(env: Environment, o: Order, l: Sql, neg: bool, r: Sql)
    requires Grammatical(l) && Grammatical(r) && OrderFree(l) && OrderFree(r)
    requires Meaning(env, l) != Null && Meaning(env, r) != Null
    ensures RightUnder(env, o, Is(l, neg, r)) <==>
      TestsAgree(env, o, TK_EQ, PairWay(env.schema, l, r), MeantWay(env.schema, l, r), Meaning(env, l), Meaning(env, r))
  {
    hide Eval, Build, Meaning, ExprKind, SqlKind, CompareWay, PExpr, Test, OrderFree, Grammatical, FromTri, Not3;
    var env1 := Reordered(env, o);
    OperandFixed(env, o, l);
    OperandFixed(env, o, r);
    IsParts(env1, l, neg, r);
    IsMeans(env1, neg, Build(l), Build(r));
    var a := Same(env1, EvalOperand(env1, Build(l)), EvalOperand(env1, Build(r)));
    var b := Same(env1, Operation(env1, l), Operation(env1, r));
    FromTriInjective(a, b);
    FromTriInjective(Not3(a), Not3(b));
  }

  lemma IsParts(env: Environment, l: Sql, neg: bool, r: Sql)
    requires Eval(env, Build(r)) != Null
    ensures Build(Is(l, neg, r)) == PExpr(if neg then TK_ISNOT else TK_IS, Build(l), Build(r))
    ensures Meaning(env, Is(l, neg, r)) == Negated(neg, Same(env, Operation(env, l), Operation(env, r)))
  {
    hide PExpr, Same, SqlKind;
    if Build(r).op == TK_NULL {
      NullIs(env, Build(r));
    }
  }

  lemma IsAnswer(env: Environment, o: Order, l: Sql, neg: bool, r: Sql)
    requires Grammatical(l) && Grammatical(r) && OrderFree(l) && OrderFree(r)
    ensures RightUnder(env, o, Is(l, neg, r)) <==>
      TestsAgree(env, o, TK_EQ, PairWay(env.schema, l, r), MeantWay(env.schema, l, r), Meaning(env, l), Meaning(env, r))
  {
    hide PairWay, MeantWay, Meaning, Build, Eval, ExprKind, SqlKind, CompareWay, OrderFree, Grammatical;
    if Meaning(env, l) == Null || Meaning(env, r) == Null {
      OperandFixed(env, o, l);
      OperandFixed(env, o, r);
      IsValue(Reordered(env, o), l, neg, r);
    } else {
      IsUnder(env, o, l, neg, r);
    }
  }

  /** The same for IS and IS NOT. */
  lemma IsExactly(env: Environment, l: Sql, neg: bool, r: Sql)
    requires Grammatical(l) && Grammatical(r) && OrderFree(l) && OrderFree(r)
    ensures PairKept(env, l, r) <==> forall o: Order :: RightUnder(env, o, Is(l, neg, r))
  {
    hide RightUnder, TestsAgree, Meaning, Build, ExprKind, SqlKind, CompareWay, OrderFree, Grammatical;
    var a, b := PairWay(env.schema, l, r), MeantWay(env.schema, l, r);
    WaysExactly(env, TK_EQ, a, b, Meaning(env, l), Meaning(env, r));
    var s := Is(l, neg, r);
    forall o: Order
      ensures RightUnder(env, o, s) <==> TestsAgree(env, o, TK_EQ, a, b, Meaning(env, l), Meaning(env, r))
    {
      IsAnswer(env, o, l, neg, r);
    }
  }

  function ItemWay(sc: Schema, e: Sql, item: Sql): Way {
    CompareWay(ExprKind(sc, Build(e)), ExprKind(sc, MarkGeneric(Build(item))))
  }

  function MeantItemWay(sc: Schema, e: Sql): Way {
    CompareWay(SqlKind(sc, e), PLAIN)
  }

  lemma OneItemBuilt(e: Sql, neg: bool, item: Sql)
    ensures Build(InList(e, neg, [item])) == PExpr(if neg then TK_NE else TK_EQ, Build(e), MarkGeneric(Build(item)))
  {
    hide PExpr;
  }

  lemma OneItemMeaning(env: Environment, e: Sql, neg: bool, item: Sql)
    ensures Meaning(env, InList(e, neg, [item]))
         == Negated(neg, Test(env, TK_EQ, MeantItemWay(env.schema, e), Meaning(env, e), Meaning(env, item)))
  {
    hide SqlKind, CompareWay, Test, AnyEqual;
    OneMeaning(env, item);
    AnyEqualOne(env, Operation(env, e), Meaning(env, item));
    assert Meaning(env, InList(e, neg, [item]))
        == Negated(neg, AnyEqual(env, Operation(env, e), Meanings(env, [item])));
  }

  lemma OneItemUnder(env: Environment, o: Order, e: Sql, neg: bool, item: Sql)
    requires Grammatical(e) && Grammatical(item) && OrderFree(e) && OrderFree(item)
    ensures RightUnder(env, o, InList(e, neg, [item])) <==>
      TestsAgree(env, o, TK_EQ, ItemWay(env.schema, e, item), MeantItemWay(env.schema, e), Meaning(env, e),
                 Meaning(env, item))
  {
    hide Eval, Build, Meaning, ExprKind, SqlKind, CompareWay, PExpr, Test, OrderFree, Grammatical, FromTri, Not3;
    var env1, op := Reordered(env, o), if neg then TK_NE else TK_EQ;
    OperandFixed(env, o, e);
    OperandFixed(env, o, item);
    OneItemBuilt(e, neg, item);
    OneItemMeaning(env1, e, neg, item);
    PExprMeans(env1, op, Build(e), MarkGeneric(Build(item)));
    GenericMeans(env1, Build(item));
    var v, w := Meaning(env, e), Meaning(env, item);
    var a, b := ItemWay(env.schema, e, item), MeantItemWay(env.schema, e);
    assert EvalOperand(env1, Build(e)) == Operand(v, ExprKind(env.schema, Build(e)));
    assert EvalOperand(env1, MarkGeneric(Build(item))) == Operand(w, ExprKind(env.schema, MarkGeneric(Build(item))));
    NotEqual(env1, a, v, w);
    FromTriInjective(Test(env1, TK_EQ, a, v, w), Test(env1, TK_EQ, b, v, w));
    FromTriInjective(Not3(Test(env1, TK_EQ, a, v, w)), Not3(Test(env1, TK_EQ, b, v, w)));
  }

  /** A one-value IN or NOT IN is rewritten rightly, under every order of the values, if and only if the
      comparison that replaces it is made the way SQL says or involves a null. */
  lemma OneItemExactly(env: Environment, e: Sql, neg: bool, item: Sql)
    requires Grammatical(e) && Grammatical(item) && OrderFree(e) && OrderFree(item)
    ensures ItemKept(env, e, item) <==> forall o: Order :: RightUnder(env, o, InList(e, neg, [item]))
  {
    hide RightUnder, TestsAgree, Meaning, Build, ExprKind, SqlKind, CompareWay, OrderFree, Grammatical;
    var a, b := ItemWay(env.schema, e, item), MeantItemWay(env.schema, e);
    WaysExactly(env, TK_EQ, a, b, Meaning(env, e), Meaning(env, item));
    forall o: Order
      ensures RightUnder(env, o, InList(e, neg, [item])) <==>
        TestsAgree(env, o, TK_EQ, a, b, Meaning(env, e), Meaning(env, item))
    {
      OneItemUnder(env, o, e, neg, item);
    }
  }

  // ---------------------------------------------------------------------------------------------
  // Where a BETWEEN is right

  function RegisterWay(sc: Schema, e: Sql, r: Sql): Way {
    CompareWay(RegisterKind(sc, Build(e)), ExprKind(sc, Build(r)))
  }

  /** Both bounds, under order o. */
  function Bounds(env: Environment, o: Order, lo: Way, hi: Way, x: Value, v: Value, w: Value): Tri {
    And3(Test(Reordered(env, o), TK_GE, lo, x, v), Test(Reordered(env, o), TK_LE, hi, x, w))
  }

  predicate BoundsAgree(env: Environment, o: Order, alo: Way, ahi: Way, blo: Way, bhi: Way, x: Value, v: Value,
                        w: Value)
  {
    Bounds(env, o, alo, ahi, x, v, w) == Bounds(env, o, blo, bhi, x, v, w)
  }

  lemma BoundsExactly(env: Environment, alo: Way, ahi: Way, blo: Way, bhi: Way, x: Value, v: Value, w: Value)
    ensures (x == Null || v == Null || alo == blo) && (x == Null || w == Null || ahi == bhi) <==>
      forall o: Order :: BoundsAgree(env, o, alo, ahi, blo, bhi, x, v, w)
  {
    hide BoundsAgree;
    if x != Null && v != Null && alo != blo {
      LowTells(env, alo, ahi, blo, bhi, x, v, w);
    } else if x != Null && w != Null && ahi != bhi {
      HighTells(env, alo, ahi, blo, bhi, x, v, w);
    } else {
      forall o: Order ensures BoundsAgree(env, o, alo, ahi, blo, bhi, x, v, w) {
        BoundsSame(env, o, alo, ahi, blo, bhi, x, v, w);
      }
    }
  }

  lemma LowTells(env: Environment, alo: Way, ahi: Way, blo: Way, bhi: Way, x: Value, v: Value, w: Value)
    requires x != Null && v != Null && alo != blo
    ensures !BoundsAgree(env, Telling(alo, 0, -1), alo, ahi, blo, bhi, x, v, w)
  {
    var env1 := Reordered(env, Telling(alo, 0, -1));
    assert Test(env1, TK_GE, alo, x, v) == True && Test(env1, TK_LE, ahi, x, w) != False;
    assert Test(env1, TK_GE, blo, x, v) == False;
  }

  lemma HighTells(env: Environment, alo: Way, ahi: Way, blo: Way, bhi: Way, x: Value, v: Value, w: Value)
    requires x != Null && w != Null && ahi != bhi
    ensures !BoundsAgree(env, Telling(ahi, 0, 1), alo, ahi, blo, bhi, x, v, w)
  {
    var env1 := Reordered(env, Telling(ahi, 0, 1));
    assert Test(env1, TK_LE, ahi, x, w) == True && Test(env1, TK_GE, alo, x, v) != False;
    assert Test(env1, TK_LE, bhi, x, w) == False;
  }

  lemma BoundsSame(env: Environment, o: Order, alo: Way, ahi: Way, blo: Way, bhi: Way, x: Value, v: Value, w: Value)
    requires (x == Null || v == Null || alo == blo) && (x == Null || w == Null || ahi == bhi)
    ensures BoundsAgree(env, o, alo, ahi, blo, bhi, x, v, w)
  {
    hide Satisfies;
  }

  lemma BetweenBuilt(env: Environment, e: Sql, neg: bool, lo: Sql, hi: Sql, t: Tri)
    requires t == And3(Compare(env, TK_GE, Registered(env, Build(e)), EvalOperand(env, Build(lo))),
                       Compare(env, TK_LE, Registered(env, Build(e)), EvalOperand(env, Build(hi))))
    ensures Eval(env, Build(Between(e, neg, lo, hi))) == Negated(neg, t)
  {
    hide Eval, Registered, EvalOperand, Compare, And3, ExprNot, WithList, Negated;
    BetweenIs(env, Build(e), Build(lo), Build(hi));
    NotMeans(env, neg, WithList(TK_BETWEEN, Some(Build(e)), [Build(lo), Build(hi)]), t);
  }

  lemma BetweenMeant(env: Environment, e: Sql, neg: bool, lo: Sql, hi: Sql)
    ensures Meaning(env, Between(e, neg, lo, hi)) ==
      Negated(neg, And3(Compare(env, TK_GE, Operation(env, e), Operation(env, lo)),
                        Compare(env, TK_LE, Operation(env, e), Operation(env, hi))))
  {
    hide Compare, And3, Negated;
  }

  /** Both bounds as the tree compares them, and as SQL says. */
  lemma BoundsBuilt(env: Environment, o: Order, e: Sql, lo: Sql, hi: Sql)
    requires Grammatical(e) && Grammatical(lo) && Grammatical(hi) && OrderFree(e) && OrderFree(lo) && OrderFree(hi)
    ensures var sc, env1 := env.schema, Reordered(env, o);
      And3(Compare(env1, TK_GE, Registered(env1, Build(e)), EvalOperand(env1, Build(lo))),
           Compare(env1, TK_LE, Registered(env1, Build(e)), EvalOperand(env1, Build(hi)))) ==
      Bounds(env, o, RegisterWay(sc, e, lo), RegisterWay(sc, e, hi),
             Meaning(env, e), Meaning(env, lo), Meaning(env, hi))
  {
    hide Eval, Meaning, Build, ExprKind, RegisterKind, CompareWay, Test, OrderFree, And3, Grammatical;
    OperandFixed(env, o, e);
    OperandFixed(env, o, lo);
    OperandFixed(env, o, hi);
  }

  lemma BoundsMeant(env: Environment, o: Order, e: Sql, lo: Sql, hi: Sql)
    requires OrderFree(e) && OrderFree(lo) && OrderFree(hi)
    ensures var sc, env1 := env.schema, Reordered(env, o);
      And3(Compare(env1, TK_GE, Operation(env1, e), Operation(env1, lo)),
           Compare(env1, TK_LE, Operation(env1, e), Operation(env1, hi))) ==
      Bounds(env, o, MeantWay(sc, e, lo), MeantWay(sc, e, hi), Meaning(env, e), Meaning(env, lo), Meaning(env, hi))
  {
    hide Meaning, SqlKind, CompareWay, Test, OrderFree, And3;
    OrderFreeSame(env, o, e);
    OrderFreeSame(env, o, lo);
    OrderFreeSame(env, o, hi);
  }

  lemma BetweenUnder(env: Environment, o: Order, e: Sql, neg: bool, lo: Sql, hi: Sql)
    requires Grammatical(Between(e, neg, lo, hi)) && OrderFree(e) && OrderFree(lo) && OrderFree(hi)
    ensures var sc := env.schema;
      RightUnder(env, o, Between(e, neg, lo, hi)) <==>
      BoundsAgree(env, o, RegisterWay(sc, e, lo), RegisterWay(sc, e, hi), MeantWay(sc, e, lo), MeantWay(sc, e, hi),
                  Meaning(env, e), Meaning(env, lo), Meaning(env, hi))
  {
    assert Grammatical(e) && Grammatical(lo) && Grammatical(hi);
    hide Eval, Meaning, Build, RegisterWay, MeantWay, Bounds, OrderFree, FromTri, Not3, And3, Compare, Grammatical,
         Registered, EvalOperand, Operation, Reordered;
    var sc, env1 := env.schema, Reordered(env, o);
    var a := Bounds(env, o, RegisterWay(sc, e, lo), RegisterWay(sc, e, hi),
                    Meaning(env, e), Meaning(env, lo), Meaning(env, hi));
    var b := Bounds(env, o, MeantWay(sc, e, lo), MeantWay(sc, e, hi),
                    Meaning(env, e), Meaning(env, lo), Meaning(env, hi));
    BoundsBuilt(env, o, e, lo, hi);
    BoundsMeant(env, o, e, lo, hi);
    BetweenBuilt(env1, e, neg, lo, hi, a);
    BetweenMeant(env1, e, neg, lo, hi);
    FromTriInjective(a, b);
    FromTriInjective(Not3(a), Not3(b));
  }

  /** A BETWEEN or NOT BETWEEN is evaluated rightly, under every order of the values, if and only if both of
      its comparisons are made the way SQL says or involve a null. */
  lemma BetweenExactly(env: Environment, e: Sql, neg: bool, lo: Sql, hi: Sql)
    requires Grammatical(Between(e, neg, lo, hi)) && OrderFree(e) && OrderFree(lo) && OrderFree(hi)
    ensures RegisterKept(env, e, lo) && RegisterKept(env, e, hi) <==>
      forall o: Order :: RightUnder(env, o, Between(e, neg, lo, hi))
  {
    hide RightUnder, BoundsAgree, Meaning, Build, ExprKind, RegisterKind, SqlKind, CompareWay, OrderFree, Grammatical;
    var sc := env.schema;
    var alo, ahi := RegisterWay(sc, e, lo), RegisterWay(sc, e, hi);
    var blo, bhi := MeantWay(sc, e, lo), MeantWay(sc, e, hi);
    BoundsExactly(env, alo, ahi, blo, bhi, Meaning(env, e), Meaning(env, lo), Meaning(env, hi));
    forall o: Order
      ensures RightUnder(env, o, Between(e, neg, lo, hi)) <==>
        BoundsAgree(env, o, alo, ahi, blo, bhi, Meaning(env, e), Meaning(env, lo), Meaning(env, hi))
    {
      BetweenUnder(env, o, e, neg, lo, hi);
    }
  }

  // ---------------------------------------------------------------------------------------------
  // Where a longer IN is right

  predicate ListsAgree(env: Environment, o: Order, v: Value, k1: Kind, k: Kind, values: seq<Value>) {
    AnyEqual(Reordered(env, o), Operand(v, k1), values) == AnyEqual(Reordered(env, o), Operand(v, k), values)
  }

  lemma {:induction false} SomeEqual(env: Environment, l: Operand, values: seq<Value>, w: Value)
    requires w in values && Compare(env, TK_EQ, l, Plain(w)) == True
    ensures AnyEqual(env, l, values) == True
  {
    hide Compare;
    if values[0] != w {
      SomeEqual(env, l, values[1..], w);
    }
  }

  lemma {:induction false} NoneEqual(env: Environment, l: Operand, values: seq<Value>)
    requires forall w :: w in values ==> Compare(env, TK_EQ, l, Plain(w)) != True
    ensures AnyEqual(env, l, values) != True
  {
    hide Compare;
    if values != [] {
      assert values[0] in values;
      NoneEqual(env, l, values[1..]);
    }
  }

  lemma ListsExactly(env: Environment, v: Value, k1: Kind, k: Kind, values: seq<Value>)
    ensures (forall w :: w in values ==> Alike(v, w, k1, PLAIN, k, PLAIN)) <==>
      forall o: Order :: ListsAgree(env, o, v, k1, k, values)
  {
    if w :| w in values && !Alike(v, w, k1, PLAIN, k, PLAIN) {
      var o := Telling(CompareWay(k1, PLAIN), 0, 1);
      var env1 := Reordered(env, o);
      hide CompareWay;
      SomeEqual(env1, Operand(v, k1), values, w);
      NoneEqual(env1, Operand(v, k), values);
      assert !ListsAgree(env, o, v, k1, k, values);
    } else {
      forall o: Order ensures ListsAgree(env, o, v, k1, k, values) {
        AnyEqualAlike(Reordered(env, o), v, k1, k, values);
      }
    }
  }

  lemma LongListIs(env: Environment, e: Sql, neg: bool, items: seq<Sql>)
    requires 2 <= |items|
    ensures BuildAll(items) != [] && Meanings(env, items) != []
    ensures Build(InList(e, neg, items)) == ExprNot(neg, WithList(TK_IN, Some(Build(e)), BuildAll(items)))
    ensures Meaning(env, InList(e, neg, items)) ==
      Negated(neg, AnyEqual(env, Operation(env, e), Meanings(env, items)))
    ensures Grammatical(InList(e, neg, items)) ==> Grammatical(e) && AllGrammatical(items)
  {
    hide SqlKind, AnyEqual, ExprNot;
  }

  lemma LongListUnder(env: Environment, o: Order, e: Sql, neg: bool, items: seq<Sql>)
    requires 2 <= |items| && Grammatical(InList(e, neg, items)) && OrderFree(e) && AllOrderFree(items)
    ensures RightUnder(env, o, InList(e, neg, items)) <==>
      ListsAgree(env, o, Meaning(env, e), ExprKind(env.schema, Build(e)), SqlKind(env.schema, e), Meanings(env, items))
  {
    hide Eval, Meaning, Build, Kept, OrderFree, ExprKind, SqlKind, CompareWay, AnyEqual, Search, EvalAll, Meanings,
         ExprNot, BuildAll, WithList, FromTri, Not3;
    var env1 := Reordered(env, o);
    OperandFixed(env, o, e);
    AllSame(env, o, items);
    AllOrderFreeKept(env1, items);
    AllMean(env1, items);
    LongListIs(env1, e, neg, items);
    var l1, values := EvalOperand(env1, Build(e)), Meanings(env1, items);
    InListIs(env1, Build(e), BuildAll(items));
    SearchMeans(env1, l1, values);
    var a, b := AnyEqual(env1, l1, values), AnyEqual(env1, Operation(env1, e), values);
    NotMeans(env1, neg, WithList(TK_IN, Some(Build(e)), BuildAll(items)), a);
    FromTriInjective(a, b);
    FromTriInjective(Not3(a), Not3(b));
  }

  /** The same for an IN or NOT IN over two or more values. */
  lemma LongListExactly(env: Environment, e: Sql, neg: bool, items: seq<Sql>)
    requires 2 <= |items| && Grammatical(InList(e, neg, items)) && OrderFree(e) && AllOrderFree(items)
    ensures (forall v :: v in Meanings(env, items) ==> MemberKept(env, e, v)) <==>
      forall o: Order :: RightUnder(env, o, InList(e, neg, items))
  {
    hide RightUnder, ListsAgree, Meaning, Meanings, Build, ExprKind, SqlKind, CompareWay, OrderFree, Grammatical;
    var k1, k, values := ExprKind(env.schema, Build(e)), SqlKind(env.schema, e), Meanings(env, items);
    ListsExactly(env, Meaning(env, e), k1, k, values);
    assert forall v :: MemberKept(env, e, v) <==> Alike(Meaning(env, e), v, k1, PLAIN, k, PLAIN);
    forall o: Order
      ensures RightUnder(env, o, InList(e, neg, items)) <==> ListsAgree(env, o, Meaning(env, e), k1, k, values)
    {
      LongListUnder(env, o, e, neg, items);
    }
  }

  // ---------------------------------------------------------------------------------------------
  // Where an IN over a subquery is right

  predicate RowsAgree(o: Order, a: Way, b: Way, v: Value, select: int) {
    v == Null || o.rows(a, v, select) == o.rows(b, v, select)
  }

  lemma RowsExactly(a: Way, b: Way, v: Value, select: int)
    ensures v == Null || a == b <==> forall o: Order :: RowsAgree(o, a, b, v, select)
  {
    if v != Null && a != b {
      assert !RowsAgree(Telling(a, 0, 1), a, b, v, select);
    }
  }

  lemma InSelectParts(env: Environment, e: Sql, neg: bool, select: int)
    ensures Build(InSelect(e, neg, select)) == ExprNot(neg, Expr(TK_IN, Bare, false, Some(Build(e)), None, [], select))
    ensures Meaning(env, InSelect(e, neg, select)) == Negated(neg, Among(env, Operation(env, e), select))
  {
    hide ExprNot, Among, SqlKind;
  }

  lemma InSelectUnder(env: Environment, o: Order, e: Sql, neg: bool, select: int)
    requires Grammatical(e) && OrderFree(e)
    ensures var sc := env.schema;
      RightUnder(env, o, InSelect(e, neg, select)) <==>
      RowsAgree(o, CompareWay(ExprKind(sc, Build(e)), sc.subqueryKind(select)),
                CompareWay(SqlKind(sc, e), sc.subqueryKind(select)), Meaning(env, e), select)
  {
    hide Eval, Build, Meaning, ExprKind, SqlKind, CompareWay, OrderFree, Grammatical, FromTri, Not3, ExprNot;
    var env1 := Reordered(env, o);
    OperandFixed(env, o, e);
    InSelectParts(env1, e, neg, select);
    SelectIs(env1, Build(e), select);
    var a, b := Among(env1, EvalOperand(env1, Build(e)), select), Among(env1, Operation(env1, e), select);
    NotMeans(env1, neg, Expr(TK_IN, Bare, false, Some(Build(e)), None, [], select), a);
    FromTriInjective(a, b);
    FromTriInjective(Not3(a), Not3(b));
  }

  /** The same for an IN or NOT IN over a subquery. */
  lemma InSelectExactly(env: Environment, e: Sql, neg: bool, select: int)
    requires Grammatical(e) && OrderFree(e)
    ensures RowsKept(env, e, select) <==> forall o: Order :: RightUnder(env, o, InSelect(e, neg, select))
  {
    hide RightUnder, RowsAgree, Meaning, Build, ExprKind, SqlKind, CompareWay, OrderFree, Grammatical;
    var k := env.schema.subqueryKind(select);
    var a, b := CompareWay(ExprKind(env.schema, Build(e)), k), CompareWay(SqlKind(env.schema, e), k);
    RowsExactly(a, b, Meaning(env, e), select);
    forall o: Order
      ensures RightUnder(env, o, InSelect(e, neg, select)) <==> RowsAgree(o, a, b, Meaning(env, e), select)
    {
      InSelectUnder(env, o, e, neg, select);
    }
  }

  // ---------------------------------------------------------------------------------------------
  // Where a CASE is right

  predicate WhensFree(whens: seq<When>) {
    forall i :: 0 <= i < |whens| ==> OrderFree(whens[i].cond) && OrderFree(whens[i].result)
  }

  /** What one WHEN compares the operand with, and how; nothing if a side is null. */
  function Key(v: Value, w: Value, way: Way): Option<(Way, Value)> {
    if v == Null || w == Null then None else Some((way, w))
  }

  function TreeKeys(env: Environment, x: Sql, whens: seq<When>): seq<Option<(Way, Value)>> {
    seq(|whens|, i requires 0 <= i < |whens| =>
      Key(Meaning(env, x), Meaning(env, whens[i].cond), RegisterWay(env.schema, x, whens[i].cond)))
  }

  function MeantKeys(env: Environment, x: Sql, whens: seq<When>): seq<Option<(Way, Value)>> {
    seq(|whens|, i requires 0 <= i < |whens| =>
      Key(Meaning(env, x), Meaning(env, whens[i].cond), MeantWay(env.schema, x, whens[i].cond)))
  }

  /** The results, and last what is left if no WHEN is taken. */
  function Results(env: Environment, whens: seq<When>, otherwise: Value): seq<Value> {
    if whens == [] then [otherwise] else [Meaning(env, whens[0].result)] + Results(env, whens[1..], otherwise)
  }

  predicate Hits(o: Order, v: Value, key: Option<(Way, Value)>) {
    key.Some? && o.values(key.value.0, v, key.value.1) == 0
  }

  function FirstHit(o: Order, v: Value, keys: seq<Option<(Way, Value)>>): (r: nat)
    ensures r <= |keys| && (r < |keys| ==> Hits(o, v, keys[r]))
    ensures forall j :: 0 <= j < r ==> !Hits(o, v, keys[j])
  {
    if keys == [] || Hits(o, v, keys[0]) then 0 else 1 + FirstHit(o, v, keys[1..])
  }

  /** Each WHEN has the same key, or can take nothing that an earlier one has not taken, either way. */
  predicate KeysAgree(ks: seq<Option<(Way, Value)>>, ls: seq<Option<(Way, Value)>>)
    requires |ks| == |ls|
  {
    forall i :: 0 <= i < |ks| ==> ks[i] == ls[i] || (ks[i] in ks[..i] && ls[i] in ls[..i])
  }

  predicate HitsAgree(o: Order, v: Value, ks: seq<Option<(Way, Value)>>, ls: seq<Option<(Way, Value)>>) {
    FirstHit(o, v, ks) == FirstHit(o, v, ls)
  }

  lemma KeysHit(o: Order, v: Value, ks: seq<Option<(Way, Value)>>, ls: seq<Option<(Way, Value)>>)
    requires |ks| == |ls| && KeysAgree(ks, ls)
    ensures FirstHit(o, v, ks) == FirstHit(o, v, ls)
  {
    hide Hits;
    var i, j := FirstHit(o, v, ks), FirstHit(o, v, ls);
    assert !(i < j) && !(j < i);
  }

  /** An order in which just one key hits. */
  function Only(key: (Way, Value)): Order {
    Order((way, _, w) => if (way, w) == key then 0 else 1, (_, _, _) => False)
  }

  lemma KeysTell(v: Value, ks: seq<Option<(Way, Value)>>, ls: seq<Option<(Way, Value)>>, i: nat)
    requires |ks| == |ls| && i < |ks| && ks[i].Some? && ks[i] != ls[i] && ks[i] !in ks[..i]
    ensures !HitsAgree(Only(ks[i].value), v, ks, ls)
  {
    var o := Only(ks[i].value);
    forall j | 0 <= j < i ensures !Hits(o, v, ks[j]) {
      assert ks[j] in ks[..i];
    }
    assert Hits(o, v, ks[i]) && !Hits(o, v, ls[i]);
  }

  lemma KeysExactly(v: Value, ks: seq<Option<(Way, Value)>>, ls: seq<Option<(Way, Value)>>)
    requires |ks| == |ls| && forall i :: 0 <= i < |ks| ==> (ks[i].Some? <==> ls[i].Some?)
    ensures KeysAgree(ks, ls) <==> forall o: Order :: HitsAgree(o, v, ks, ls)
  {
    if KeysAgree(ks, ls) {
      forall o: Order ensures HitsAgree(o, v, ks, ls) {
        KeysHit(o, v, ks, ls);
      }
    } else {
      var i :| 0 <= i < |ks| && ks[i] != ls[i] && (ks[i] !in ks[..i] || ls[i] !in ls[..i]);
      if ks[i] !in ks[..i] {
        KeysTell(v, ks, ls, i);
      } else {
        KeysTell(v, ls, ks, i);
        assert !HitsAgree(Only(ls[i].value), v, ks, ls);
      }
    }
  }

  /** A WHEN is taken if its key hits. */
  lemma TakenIs(env: Environment, o: Order, v: Value, w: Value, way: Way)
    ensures Test(Reordered(env, o), TK_EQ, way, v, w) == True <==> Hits(o, v, Key(v, w, way))
  {}

  lemma FirstStep(env: Environment, o: Order, v: Value, whens: seq<When>, otherwise: Value,
                  keys: seq<Option<(Way, Value)>>)
    requires whens != [] && |keys| == |whens|
    ensures |Results(env, whens, otherwise)| == |whens| + 1 && |Results(env, whens[1..], otherwise)| == |whens|
    ensures Results(env, whens, otherwise)[FirstHit(o, v, keys)] ==
      if Hits(o, v, keys[0]) then Meaning(env, whens[0].result)
      else Results(env, whens[1..], otherwise)[FirstHit(o, v, keys[1..])]
  {
    hide Hits, Meaning;
    ResultsLength(env, whens, otherwise);
    ResultsLength(env, whens[1..], otherwise);
  }

  lemma {:induction false} ResultsLength(env: Environment, whens: seq<When>, otherwise: Value)
    ensures |Results(env, whens, otherwise)| == |whens| + 1
  {
    hide Meaning;
    if whens != [] {
      ResultsLength(env, whens[1..], otherwise);
    }
  }

  lemma BuiltStep(whens: seq<When>, els: Option<Sql>)
    requires whens != []
    ensures BuildWhens(whens) + LastOf(els)
         == [Build(whens[0].cond), Build(whens[0].result)] + (BuildWhens(whens[1..]) + LastOf(els))
  {
    hide Build, LastOf;
  }

  /** The tree takes the first WHEN whose key hits. */
  lemma {:induction false} TreeTakes(env: Environment, o: Order, x: Sql, whens: seq<When>, els: Option<Sql>)
    requires Grammatical(x) && OrderFree(x) && WhensGrammatical(whens) && WhensFree(whens)
    requires els.Some? ==> Grammatical(els.value) && OrderFree(els.value)
    ensures var env1 := Reordered(env, o); var results := Results(env, whens, Left(env, els));
      && |results| == |whens| + 1
      && EvalCase(env1, Some(Registered(env1, Build(x))), BuildWhens(whens) + LastOf(els))
         == results[FirstHit(o, Meaning(env, x), TreeKeys(env, x, whens))]
  {
    hide Eval, Meaning, Build, OrderFree, Grammatical, RegisterKind, ExprKind, CompareWay, Test, Hits, EvalCase;
    hide BuildWhens, Decide;
    var env1, v := Reordered(env, o), Meaning(env, x);
    OperandFixed(env, o, x);
    if whens == [] {
      LeftIs(env, o, x, els);
    } else {
      var w, rest := whens[0], whens[1..];
      OperandFixed(env, o, w.cond);
      OperandFixed(env, o, w.result);
      TreeTakes(env, o, x, rest, els);
      BuiltStep(whens, els);
      CaseStep(env1, Some(Registered(env1, Build(x))), Build(w.cond), Build(w.result), BuildWhens(rest) + LastOf(els));
      TakenIs(env, o, v, Meaning(env, w.cond), RegisterWay(env.schema, x, w.cond));
      FirstStep(env, o, v, whens, Left(env, els), TreeKeys(env, x, whens));
      assert TreeKeys(env, x, whens)[1..] == TreeKeys(env, x, rest);
    }
  }

  lemma LeftIs(env: Environment, o: Order, x: Sql, els: Option<Sql>)
    requires els.Some? ==> Grammatical(els.value) && OrderFree(els.value)
    ensures var env1 := Reordered(env, o);
      EvalCase(env1, Some(Registered(env1, Build(x))), BuildWhens([]) + LastOf(els)) == Left(env, els)
  {
    hide Eval, Meaning, OrderFree, Grammatical, RegisterKind;
    var env1 := Reordered(env, o);
    if els.Some? {
      OperandFixed(env, o, els.value);
    }
    hide EvalCase, Build;
    ElseIs(env1, Some(Registered(env1, Build(x))), if els.Some? then Some(Build(els.value)) else None);
    assert BuildWhens([]) + LastOf(els) == LastOf(els);
  }

  lemma ChosenStep(env: Environment, x: Operand, whens: seq<When>, otherwise: Value)
    requires whens != []
    ensures Chosen(env, Some(x), whens, otherwise) ==
      if Compare(env, TK_EQ, x, Operation(env, whens[0].cond)) == True then Meaning(env, whens[0].result)
      else Chosen(env, Some(x), whens[1..], otherwise)
  {
    hide Meaning, SqlKind, Compare, Judged;
  }

  /** So does SQL. */
  lemma {:induction false} SqlTakes(env: Environment, o: Order, x: Sql, whens: seq<When>, otherwise: Value)
    requires Grammatical(x) && OrderFree(x) && WhensGrammatical(whens) && WhensFree(whens)
    ensures var env1 := Reordered(env, o); var results := Results(env, whens, otherwise);
      && |results| == |whens| + 1
      && Chosen(env1, Some(Operation(env1, x)), whens, otherwise)
         == results[FirstHit(o, Meaning(env, x), MeantKeys(env, x, whens))]
  {
    hide Eval, Meaning, Build, OrderFree, Grammatical, SqlKind, CompareWay, Test, Hits;
    var env1, v := Reordered(env, o), Meaning(env, x);
    if whens == [] {
      assert Chosen(env1, Some(Operation(env1, x)), whens, otherwise) == otherwise;
    } else {
      hide Chosen;
      var w, rest := whens[0], whens[1..];
      OperandFixed(env, o, x);
      OperandFixed(env, o, w.cond);
      OperandFixed(env, o, w.result);
      SqlTakes(env, o, x, rest, otherwise);
      ChosenStep(env1, Operation(env1, x), whens, otherwise);
      TakenIs(env, o, v, Meaning(env, w.cond), MeantWay(env.schema, x, w.cond));
      FirstStep(env, o, v, whens, otherwise, MeantKeys(env, x, whens));
      assert MeantKeys(env, x, whens)[1..] == MeantKeys(env, x, rest);
    }
  }

  function Left(env: Environment, els: Option<Sql>): Value {
    if els.Some? then Meaning(env, els.value) else Null
  }

  predicate Distinct(vs: seq<Value>) {
    forall i, j :: 0 <= i < j < |vs| ==> vs[i] != vs[j]
  }

  lemma CaseGrammar(x: Sql, whens: seq<When>, els: Option<Sql>)
    requires Grammatical(Case(Some(x), whens, els))
    ensures Grammatical(x) && WhensGrammatical(whens) && (els.Some? ==> Grammatical(els.value))
  {
    hide WhensGrammatical;
  }

  lemma CaseUnder(env: Environment, o: Order, x: Sql, whens: seq<When>, els: Option<Sql>)
    requires Grammatical(Case(Some(x), whens, els)) && OrderFree(x) && WhensFree(whens)
    requires els.Some? ==> OrderFree(els.value)
    requires Distinct(Results(env, whens, Left(env, els)))
    ensures RightUnder(env, o, Case(Some(x), whens, els)) <==>
      HitsAgree(o, Meaning(env, x), TreeKeys(env, x, whens), MeantKeys(env, x, whens))
  {
    var env1 := Reordered(env, o);
    CaseGrammar(x, whens, els);
    hide Grammatical, OrderFree, WhensFree, WhensGrammatical, Results, FirstHit, TreeKeys, MeantKeys, Chosen, EvalCase,
         Eval, Meaning, Build, WithList, BuildWhens, LastOf, Registered, Operation, Reordered;
    if els.Some? {
      OperandFixed(env, o, els.value);
    }
    CaseParts(env1, x, whens, els);
    TreeTakes(env, o, x, whens, els);
    SqlTakes(env, o, x, whens, Left(env, els));
  }

  lemma CaseParts(env: Environment, x: Sql, whens: seq<When>, els: Option<Sql>)
    ensures Eval(env, Build(Case(Some(x), whens, els)))
         == EvalCase(env, Some(Registered(env, Build(x))), BuildWhens(whens) + LastOf(els))
    ensures Meaning(env, Case(Some(x), whens, els)) == Chosen(env, Some(Operation(env, x)), whens, Left(env, els))
  {
    hide EvalCase, Chosen, WithList, SqlKind, RegisterKind, Eval;
    CaseIs(env, Some(Build(x)), BuildWhens(whens) + LastOf(els));
  }

  /** A CASE with an operand, any WHENs and different results is evaluated rightly, under every order of the
      values, if and only if each of its comparisons is made the way SQL says, involves a null, or has no say
      because earlier WHENs have the same value compared in the one way and in the other. */
  lemma CaseExactly(env: Environment, x: Sql, whens: seq<When>, els: Option<Sql>)
    requires Grammatical(Case(Some(x), whens, els)) && OrderFree(x) && WhensFree(whens)
    requires els.Some? ==> OrderFree(els.value)
    requires Distinct(Results(env, whens, Left(env, els)))
    ensures KeysAgree(TreeKeys(env, x, whens), MeantKeys(env, x, whens)) <==>
      forall o: Order :: RightUnder(env, o, Case(Some(x), whens, els))
  {
    hide RightUnder, HitsAgree, KeysAgree, Grammatical, OrderFree, Distinct, Results, Meaning, RegisterWay, MeantWay;
    var ks, ls, v, s := TreeKeys(env, x, whens), MeantKeys(env, x, whens), Meaning(env, x), Case(Some(x), whens, els);
    KeysExactly(v, ks, ls);
    forall o: Order ensures RightUnder(env, o, s) <==> HitsAgree(o, v, ks, ls) {
      CaseUnder(env, o, x, whens, els);
    }
  }

  /** A WHEN whose comparison is kept has the same key. */
  lemma KeyKept(env: Environment, x: Sql, whens: seq<When>, i: nat)
    requires i < |whens|
    ensures RegisterKept(env, x, whens[i].cond) <==> TreeKeys(env, x, whens)[i] == MeantKeys(env, x, whens)[i]
  {
    hide Meaning, RegisterKind, ExprKind, SqlKind, CompareWay, Build;
  }

  function LastOf(els: Option<Sql>): seq<Expr> {
    if els.Some? then [Build(els.value)] else []
  }

  // ---------------------------------------------------------------------------------------------
  // What a value marked generic still contributes

  /** How a one-value IN compares its value: not at all by itself, except that a COLLATE or a likelihood
      lets the affinity below it through, and that a name for another expression loses the mark. */
  function StrayKind(sc: Schema, item: Sql): Kind {
    match item
    case Paren(e) => StrayKind(sc, e)
    case Alias(e) => ExprKind(sc, Build(e))
    case Collate(e, _) => Kind(ExprAffinity(sc, Build(e)), None, false)
    case Call(name, args) =>
      if Hint(sc, name, |args|) then Kind(ExprAffinity(sc, Build(args[0])), None, false) else PLAIN
    case _ => PLAIN
  }

  lemma BuiltOp(s: Sql)
    requires Grammatical(s) && !(s.Name? || s.Alias? || s.Paren? || s.Collate? || s.Call?)
    ensures Build(s).op != TK_ID && Build(s).op != TK_COLLATE
    ensures Build(s).op == TK_FUNCTION ==> s.Like? && !IsHint(TextOf(Build(s)), |Build(s).list|)
  {
    hide IntegerValue, BuildAll, BuildWhens, LikeNode, IsHint;
    if s.Like? {
      LikeBuilt(s.l, s.name, s.length, s.neg, s.r, s.escape);
    }
  }

  lemma BuildAllLength(ss: seq<Sql>)
    ensures |BuildAll(ss)| == |ss| && (ss != [] ==> BuildAll(ss)[0] == Build(ss[0]))
  {
    hide Build;
  }

  lemma CallKind(sc: Schema, name: string, args: seq<Sql>)
    ensures ExprKind(sc, MarkGeneric(Build(Call(name, args)))) == StrayKind(sc, Call(name, args))
  {
    var e := MarkGeneric(Build(Call(name, args)));
    BuildAllLength(args);
    assert e.op == TK_FUNCTION && TextOf(e) == name && e.list == BuildAll(args);
    assert IsHintCall(sc, e) <==> Hint(sc, name, |args|);
    if IsHintCall(sc, e) {
      HintHasArgument(name, |args|);
    }
    hide IsHint, Build, BuildAll;
    assert !Explicit(e) && ExprCollation(sc, e) == None;
  }

  lemma {:induction false} StrayKindIs(sc: Schema, item: Sql)
    requires Grammatical(item)
    ensures ExprKind(sc, MarkGeneric(Build(item))) == StrayKind(sc, item)
  {
    hide IsHint;
    match item {
      case Paren(e) => StrayKindIs(sc, e);
      case Call(name, args) => CallKind(sc, name, args);
      case Name(_) =>
      case Alias(_) =>
      case Collate(_, _) =>
      case _ => BuiltOp(item);
    }
  }
}
