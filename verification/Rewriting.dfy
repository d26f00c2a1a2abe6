/** The actions preserve meaning: wherever its comparisons are made the way SQL says, the tree that they
    build evaluates to what the expression means. */
module Rewriting {
  import opened Lemon
  import opened TokenCodes
  import opened Expressions
  import opened ExpressionActions

  // ---------------------------------------------------------------------------------------------
  // The rewritings, one at a time

  /** sqlite3ExprIsInteger is right about the value. */
  lemma {:induction false} IntegerIs(env: Environment, e: Expr)
    requires IntegerValue(e).Some?
    ensures Eval(env, e) == Num(IntegerValue(e).value)
  {
    if e.op == TK_UPLUS || e.op == TK_UMINUS {
      IntegerIs(env, e.left.value);
    }
  }

  /** AND with a false operand is false. */
  lemma FoldedMeans(env: Environment, l: Expr, r: Expr)
    requires IntegerValue(l) == Some(0) || IntegerValue(r) == Some(0)
    ensures Eval(env, Integer(0)) == BinaryValue(env, TK_AND, EvalOperand(env, l), EvalOperand(env, r))
  {
    assert Eval(env, Integer(0)) == Num(0);
    hide Eval, IntegerValue, ExprKind;
    IntegerIs(env, if IntegerValue(l) == Some(0) then l else r);
  }

  lemma NodeMeans(env: Environment, op: int, l: Expr, r: Expr)
    requires op == TK_AND || op == TK_OR || IsComparison(op) || IsArithmetic(op)
    ensures Eval(env, NewExpr(op, Some(l), Some(r))) == BinaryValue(env, op, EvalOperand(env, l), EvalOperand(env, r))
  {
    hide EvalOperand, EvalCase, EvalAll, BinaryValue;
  }

  /** A binary node means its operator, also when AND with a constant false was folded away. */
  lemma PExprMeans(env: Environment, op: int, l: Expr, r: Expr)
    requires op == TK_AND || op == TK_OR || IsComparison(op) || IsArithmetic(op)
    ensures Eval(env, PExpr(op, l, r)) == BinaryValue(env, op, EvalOperand(env, l), EvalOperand(env, r))
  {
    hide Eval, EvalOperand, IntegerValue, BinaryValue, NewExpr;
    if op == TK_AND && (IntegerValue(l) == Some(0) || IntegerValue(r) == Some(0)) {
      FoldedMeans(env, l, r);
    } else {
      NodeMeans(env, op, l, r);
    }
  }

  lemma IsMeans(env: Environment, neg: bool, l: Expr, r: Expr)
    ensures Eval(env, PExpr(if neg then TK_ISNOT else TK_IS, l, r))
         == Negated(neg, Same(env, EvalOperand(env, l), EvalOperand(env, r)))
  {
    hide ExprKind, RegisterKind, EvalCase, EvalAll, Search, Among, Same, BinaryValue;
  }

  /** NOT around a truth value negates it. */
  lemma NotMeans(env: Environment, neg: bool, e: Expr, t: Tri)
    requires Eval(env, e) == FromTri(t)
    ensures Eval(env, ExprNot(neg, e)) == Negated(neg, t)
  {}

  /** Marking a node generic does not change its value. */
  lemma GenericMeans(env: Environment, e: Expr)
    ensures Eval(env, MarkGeneric(e)) == Eval(env, e)
  {
    hide ExprKind, RegisterKind, Search, Among, Same, BinaryValue, Compare;
  }

  lemma EqualIs(env: Environment, l: Operand, v: Value)
    ensures l.value == Null || v == Null <==> Compare(env, TK_EQ, l, Plain(v)) == Unknown
  {}

  /** Searching the list answers the OR of the equalities. */
  lemma {:induction false} SearchMeans(env: Environment, l: Operand, values: seq<Value>)
    requires values != []
    ensures Search(env, l, values) == AnyEqual(env, l, values)
  {
    hide Compare;
    var first, rest := values[0], values[1..];
    assert values == [first] + rest;
    EqualIs(env, l, first);
    if rest == [] {
      assert AnyEqual(env, l, rest) == False;
    } else {
      SearchMeans(env, l, rest);
    }
  }

  /** The top bit of the length word carries NOT through the LIKE token unharmed. */
  lemma LikeTokenRoundTrip(length: bv32, neg: bool)
    requires length < 0x8000_0000
    ensures FlaggedLength(length, neg) & 0x7fff_ffff == length
    ensures FlaggedLength(length, neg) & 0x8000_0000 != 0 <==> neg
  {}

  lemma AnyEqualOne(env: Environment, l: Operand, v: Value)
    ensures AnyEqual(env, l, [v]) == Compare(env, TK_EQ, l, Plain(v))
  {
    assert [v][1..] == [];
  }

  /** Operands that compare alike with every value give the same IN. */
  lemma {:induction false} AnyEqualAlike(env: Environment, v: Value, l1: Kind, l: Kind, values: seq<Value>)
    requires forall w :: w in values ==> Alike(v, w, l1, PLAIN, l, PLAIN)
    ensures AnyEqual(env, Operand(v, l1), values) == AnyEqual(env, Operand(v, l), values)
  {
    if values != [] {
      assert Alike(v, values[0], l1, PLAIN, l, PLAIN);
      AnyEqualAlike(env, v, l1, l, values[1..]);
    }
  }

  /** Operands that compare alike make the same of a binary operator, */
  lemma AlikeBinary(env: Environment, op: int, v: Value, w: Value, l1: Kind, r1: Kind, l: Kind, r: Kind)
    requires IsComparison(op) ==> Alike(v, w, l1, r1, l, r)
    ensures BinaryValue(env, op, Operand(v, l1), Operand(w, r1)) == BinaryValue(env, op, Operand(v, l), Operand(w, r))
  {}

  /** and of IS. */
  lemma AlikeSame(env: Environment, v: Value, w: Value, l1: Kind, r1: Kind, l: Kind, r: Kind)
    requires Alike(v, w, l1, r1, l, r)
    ensures Same(env, Operand(v, l1), Operand(w, r1)) == Same(env, Operand(v, l), Operand(w, r))
  {}

  // ---------------------------------------------------------------------------------------------
  // CASE

  /** One step of evaluation on the flat list. */
  lemma CaseStep(env: Environment, x: Option<Operand>, c: Expr, r: Expr, rest: seq<Expr>)
    ensures EvalCase(env, x, [c, r] + rest) ==
      var w := EvalOperand(env, c);
      var taken := if x.Some? then Compare(env, TK_EQ, x.value, w) else Decide(env, c);
      if taken == True then Eval(env, r) else EvalCase(env, x, rest)
  {
    var list := [c, r] + rest;
    assert list[0] == c && list[1] == r && list[2..] == rest;
    hide Eval, EvalOperand, Compare, Decide;
  }

  /** The operand of a CASE as it is evaluated, and as it is meant. */
  function CaseOperand(env: Environment, operand: Option<Sql>): Option<Operand> {
    if operand.Some? then Some(Registered(env, Build(operand.value))) else None
  }

  function CaseOperation(env: Environment, operand: Option<Sql>): Option<Operand> {
    if operand.Some? then Some(Operation(env, operand.value)) else None
  }

  lemma WhensStep(env: Environment, operand: Option<Sql>, w: When, more: seq<Expr>, rest: Value)
    requires operand.Some? ==> Eval(env, Build(operand.value)) == Meaning(env, operand.value)
    requires Eval(env, Build(w.cond)) == Meaning(env, w.cond) && Eval(env, Build(w.result)) == Meaning(env, w.result)
    requires Decide(env, Build(w.cond)) == Judgement(env, w.cond)
    requires operand.Some? ==> RegisterKept(env, operand.value, w.cond)
    requires EvalCase(env, CaseOperand(env, operand), more) == rest
    ensures EvalCase(env, CaseOperand(env, operand), BuildWhen(w) + more) ==
      var x := CaseOperation(env, operand);
      var c := Condition(env, w);
      var taken := if x.Some? then Compare(env, TK_EQ, x.value, c) else Judged(env, w);
      if taken == True then Consequence(env, w) else rest
  {
    hide Eval, Decide, Meaning, Judgement, Build, RegisterKind, ExprKind, SqlKind, EvalCase, CompareWay;
    CaseStep(env, CaseOperand(env, operand), Build(w.cond), Build(w.result), more);
  }

  lemma CaseIs(env: Environment, x: Option<Expr>, list: seq<Expr>)
    ensures Eval(env, WithList(TK_CASE, x, list)) ==
      EvalCase(env, if x.Some? then Some(Registered(env, x.value)) else None, list)
  {
    hide EvalCase, EvalOperand, Registered;
  }

  lemma ElseIs(env: Environment, x: Option<Operand>, els: Option<Expr>)
    ensures EvalCase(env, x, if els.Some? then [els.value] else []) == if els.Some? then Eval(env, els.value) else Null
  {}

  // ---------------------------------------------------------------------------------------------
  // The value of each kind of expression, given the values of its parts

  /** The value is right. */
  predicate Means(env: Environment, s: Sql) {
    Eval(env, Build(s)) == Meaning(env, s)
  }

  predicate OneOperand(s: Sql) {
    s.Alias? || s.Paren? || s.Collate? || s.Cast? || s.Postfix? || s.Prefix?
  }

  /** The operators that yield a truth value or a number. */
  lemma UnaryIs(env: Environment, op: int, e: Expr)
    ensures op == TK_NOT ==> Eval(env, Unary(op, e)) == FromTri(Not3(Truth(env, Eval(env, e))))
    ensures op == TK_UMINUS ==> Eval(env, Unary(op, e)) == Negative(env, Eval(env, e))
    ensures op == TK_UPLUS ==> Eval(env, Unary(op, e)) == Eval(env, e)
    ensures op == TK_BITNOT ==> Eval(env, Unary(op, e)) == env.unary(op, Eval(env, e))
    ensures op == TK_ISNULL ==> Eval(env, Unary(op, e)) == FromTri(Of(Eval(env, e) == Null))
    ensures op == TK_NOTNULL ==> Eval(env, Unary(op, e)) == FromTri(Of(Eval(env, e) != Null))
  {
    hide ExprKind, RegisterKind, EvalCase, EvalAll, Search, Among, Same, BinaryValue, Compare;
  }

  /** The nodes that carry a text. */
  lemma TextNodeIs(env: Environment, s: string, e: Expr)
    ensures Eval(env, WithText(TK_ID, s, Some(e))) == Eval(env, e)
    ensures Eval(env, WithText(TK_COLLATE, s, Some(e))) == Eval(env, e)
    ensures Eval(env, WithText(TK_CAST, s, Some(e))) == env.cast(s, Eval(env, e))
  {
    hide ExprKind, RegisterKind, EvalCase, EvalAll, Search, Among, Same, BinaryValue, Compare;
  }

  lemma OneOperandValue(env: Environment, s: Sql)
    requires OneOperand(s) && Grammatical(s) && Means(env, s.e)
    ensures Means(env, s)
  {
    hide Eval;
    match s {
      case Postfix(op, e) => UnaryIs(env, op, Build(e));
      case Prefix(op, e) => UnaryIs(env, Build(s).op, Build(e));
      case Alias(e) => TextNodeIs(env, "", Build(e));
      case Collate(e, name) => TextNodeIs(env, name, Build(e));
      case Cast(e, typename) => TextNodeIs(env, typename, Build(e));
      case Paren(e) =>
    }
  }

  lemma SelectIs(env: Environment, e: Expr, select: int)
    ensures Eval(env, Expr(TK_IN, Bare, false, Some(e), None, [], select))
         == FromTri(Among(env, EvalOperand(env, e), select))
  {
    hide Among, ExprKind, RegisterKind, EvalCase, Search;
  }

  lemma InSelectValue(env: Environment, e: Sql, neg: bool, select: int)
    requires Means(env, e) && RowsKept(env, e, select)
    ensures Means(env, InSelect(e, neg, select))
  {
    hide Eval, ExprKind, SqlKind, Negated, ExprNot;
    SelectIs(env, Build(e), select);
    NotMeans(env, neg, Expr(TK_IN, Bare, false, Some(Build(e)), None, [], select),
             Among(env, Operation(env, e), select));
  }

  lemma NullIs(env: Environment, e: Expr)
    requires e.op == TK_NULL
    ensures Eval(env, e) == Null
  {}

  lemma NullTestMeans(env: Environment, neg: bool, e: Expr)
    ensures Eval(env, Unary(if neg then TK_NOTNULL else TK_ISNULL, e)) == Negated(neg, Of(Eval(env, e) == Null))
  {}

  /** IS, turned into a null test or not. */
  lemma IsValue(env: Environment, l: Sql, neg: bool, r: Sql)
    requires Means(env, l) && Means(env, r) && PairKept(env, l, r)
    ensures Means(env, Is(l, neg, r))
  {
    hide Eval, PExpr, Unary, Negated, ExprKind, SqlKind, CompareWay, Compare;
    assert Meaning(env, Is(l, neg, r)) == Negated(neg, Same(env, Operation(env, l), Operation(env, r)));
    assert Operation(env, l) == Operand(Meaning(env, l), SqlKind(env.schema, l));
    assert Operation(env, r) == Operand(Meaning(env, r), SqlKind(env.schema, r));
    if Build(r).op == TK_NULL {
      NullIs(env, Build(r));
      NullTestMeans(env, neg, Build(l));
    } else {
      IsMeans(env, neg, Build(l), Build(r));
      assert EvalOperand(env, Build(l)) == Operand(Meaning(env, l), ExprKind(env.schema, Build(l)));
      assert EvalOperand(env, Build(r)) == Operand(Meaning(env, r), ExprKind(env.schema, Build(r)));
      AlikeSame(env, Meaning(env, l), Meaning(env, r), ExprKind(env.schema, Build(l)), ExprKind(env.schema, Build(r)),
                SqlKind(env.schema, l), SqlKind(env.schema, r));
    }
  }

  lemma BinaryIs(env: Environment, op: int, l: Sql, r: Sql)
    requires Grammatical(Binary(op, l, r)) && Means(env, l) && Means(env, r)
    requires IsComparison(op) ==> PairKept(env, l, r)
    ensures Means(env, Binary(op, l, r))
  {
    hide Eval, PExpr, ExprKind, SqlKind, CompareWay, BinaryValue;
    PExprMeans(env, op, Build(l), Build(r));
    assert Build(Binary(op, l, r)) == PExpr(op, Build(l), Build(r));
    assert Meaning(env, Binary(op, l, r)) == BinaryValue(env, op, Operation(env, l), Operation(env, r));
    assert EvalOperand(env, Build(l)) == Operand(Meaning(env, l), ExprKind(env.schema, Build(l)));
    assert Operation(env, l) == Operand(Meaning(env, l), SqlKind(env.schema, l));
    AlikeBinary(env, op, Meaning(env, l), Meaning(env, r), ExprKind(env.schema, Build(l)),
                ExprKind(env.schema, Build(r)), SqlKind(env.schema, l), SqlKind(env.schema, r));
  }

  /** A one-value IN becomes a comparison with the same answer. */
  lemma OneItemMeans(env: Environment, e: Sql, neg: bool, item: Sql)
    requires Means(env, e) && Means(env, item) && ItemKept(env, e, item)
    ensures Eval(env, PExpr(if neg then TK_NE else TK_EQ, Build(e), MarkGeneric(Build(item))))
         == Negated(neg, AnyEqual(env, Operation(env, e), [Meaning(env, item)]))
  {
    hide Eval, PExpr, ExprKind, SqlKind, Build, Meaning, CompareWay, AnyEqual;
    PExprMeans(env, if neg then TK_NE else TK_EQ, Build(e), MarkGeneric(Build(item)));
    GenericMeans(env, Build(item));
    AnyEqualOne(env, Operation(env, e), Meaning(env, item));
  }

  lemma InListIs(env: Environment, e: Expr, list: seq<Expr>)
    requires list != []
    ensures Eval(env, WithList(TK_IN, Some(e), list)) == FromTri(Search(env, EvalOperand(env, e), EvalAll(env, list)))
  {
    hide Search, EvalAll, ExprKind, RegisterKind, EvalCase, Among;
  }

  lemma LongListMeans(env: Environment, e: Sql, neg: bool, items: seq<Sql>)
    requires 2 <= |items| && Means(env, e) && EvalAll(env, BuildAll(items)) == Meanings(env, items)
    requires forall v :: v in Meanings(env, items) ==> MemberKept(env, e, v)
    ensures Eval(env, ExprNot(neg, WithList(TK_IN, Some(Build(e)), BuildAll(items))))
         == Negated(neg, AnyEqual(env, Operation(env, e), Meanings(env, items)))
  {
    var l1, values := EvalOperand(env, Build(e)), Meanings(env, items);
    assert BuildAll(items) != [] && values != [];
    hide Eval, ExprKind, SqlKind, Build, Meaning, CompareWay, AnyEqual, Search, EvalAll, Meanings, Negated, ExprNot;
    InListIs(env, Build(e), BuildAll(items));
    SearchMeans(env, l1, values);
    AnyEqualAlike(env, Meaning(env, e), l1.kind, SqlKind(env.schema, e), values);
    NotMeans(env, neg, WithList(TK_IN, Some(Build(e)), BuildAll(items)), AnyEqual(env, Operation(env, e), values));
  }

  lemma InListValue(env: Environment, e: Sql, neg: bool, items: seq<Sql>)
    requires Kept(env, InList(e, neg, items))
    requires Means(env, e) && EvalAll(env, BuildAll(items)) == Meanings(env, items)
    ensures Means(env, InList(e, neg, items))
  {
    hide Eval, ExprNot, PExpr, WithList, AnyEqual, ItemKept, MemberKept;
    if items == [] {
      EmptyListMeans(env, Operation(env, e), neg);
    } else if |items| == 1 {
      assert items[1..] == [];
      assert BuildAll(items) == [Build(items[0])];
      OneValue(env, Build(items[0]));
      OneMeaning(env, items[0]);
      OneItemMeans(env, e, neg, items[0]);
    } else {
      LongListMeans(env, e, neg, items);
    }
  }

  lemma EmptyListMeans(env: Environment, l: Operand, neg: bool)
    ensures Eval(env, Integer(if neg then 1 else 0)) == Negated(neg, AnyEqual(env, l, []))
  {}

  lemma OneValue(env: Environment, e: Expr)
    ensures EvalAll(env, [e]) == [Eval(env, e)]
  {
    assert [e][1..] == [];
    hide Eval;
  }

  lemma OneMeaning(env: Environment, s: Sql)
    ensures Meanings(env, [s]) == [Meaning(env, s)]
  {
    assert [s][1..] == [];
    hide Meaning;
  }

  lemma {:induction false} EvalAllMore(env: Environment, es: seq<Expr>, e: Expr)
    ensures EvalAll(env, es + [e]) == EvalAll(env, es) + [Eval(env, e)]
  {
    hide Eval;
    if es == [] {
      assert es + [e] == [e];
    } else {
      EvalAllMore(env, es[1..], e);
      assert (es + [e])[1..] == es[1..] + [e];
    }
  }

  lemma LikeArguments(env: Environment, l: Sql, r: Sql, escape: Option<Sql>)
    requires Means(env, l) && Means(env, r) && (escape.Some? ==> Means(env, escape.value))
    ensures EvalAll(env, [Build(r), Build(l)] + (if escape.Some? then [Build(escape.value)] else []))
         == [Meaning(env, r), Meaning(env, l)] + (if escape.Some? then [Meaning(env, escape.value)] else [])
  {
    hide Eval, Build, Meaning;
    EvalAllMore(env, [], Build(r));
    EvalAllMore(env, [Build(r)], Build(l));
    assert [] + [Build(r)] == [Build(r)] && [Build(r)] + [Build(l)] == [Build(r), Build(l)];
    if escape.Some? {
      EvalAllMore(env, [Build(r), Build(l)], Build(escape.value));
    }
  }

  lemma CallIs(env: Environment, name: string, args: seq<Expr>)
    ensures Hint(env.schema, name, |args|) ==> args != [] && Eval(env, Function(name, args)) == Eval(env, args[0])
    ensures !Hint(env.schema, name, |args|) ==> Eval(env, Function(name, args)) == env.call(name, EvalAll(env, args))
  {
    hide IsHint;
    if Hint(env.schema, name, |args|) {
      HintHasArgument(name, |args|);
    }
  }

  lemma HintHasArgument(name: string, n: nat)
    requires IsHint(name, n)
    ensures 0 < n
  {}

  lemma NotValue(env: Environment, neg: bool, e: Expr)
    ensures Eval(env, ExprNot(neg, e)) == if neg then FromTri(Not3(Truth(env, Eval(env, e)))) else Eval(env, e)
  {}

  lemma LikeCall(env: Environment, name: string, l: Sql, r: Sql, escape: Option<Sql>)
    requires Means(env, l) && Means(env, r) && (escape.Some? ==> Means(env, escape.value))
    requires !IsHint(name, if escape.Some? then 3 else 2)
    ensures Eval(env, Function(name, [Build(r), Build(l)] + (if escape.Some? then [Build(escape.value)] else [])))
         == env.call(name, [Meaning(env, r), Meaning(env, l)]
                           + (if escape.Some? then [Meaning(env, escape.value)] else []))
  {
    hide Eval, EvalAll, Function, IsHint, Build, Meaning;
    LikeArguments(env, l, r, escape);
    CallIs(env, name, [Build(r), Build(l)] + (if escape.Some? then [Build(escape.value)] else []));
  }

  function LikeList(l: Sql, r: Sql, escape: Option<Sql>): seq<Expr> {
    [Build(r), Build(l)] + (if escape.Some? then [Build(escape.value)] else [])
  }

  /** NOT LIKE is NOT around LIKE, with the name of the operator intact. */
  lemma LikeBuilt(l: Sql, name: string, length: bv32, neg: bool, r: Sql, escape: Option<Sql>)
    requires length < 0x8000_0000
    ensures Build(Like(l, name, length, neg, r, escape))
         == ExprNot(neg, Function(CallName(name, length), LikeList(l, r, escape)))
  {
    hide LikeNode, ExprNot, Function, CallName, FlaggedLength;
    LikeNodeIs(length, neg, name, LikeList(l, r, escape));
  }

  lemma LikeNodeIs(length: bv32, neg: bool, name: string, args: seq<Expr>)
    requires length < 0x8000_0000
    ensures LikeNode(FlaggedLength(length, neg), name, args) == ExprNot(neg, Function(CallName(name, length), args))
  {
    hide CallName, ExprNot, Function, FlaggedLength;
    LikeTokenRoundTrip(length, neg);
  }

  lemma LikeMeaning(env: Environment, l: Sql, name: string, length: bv32, neg: bool, r: Sql, escape: Option<Sql>,
                    v: Value)
    requires v == env.call(CallName(name, length), [Meaning(env, r), Meaning(env, l)]
                           + (if escape.Some? then [Meaning(env, escape.value)] else []))
    ensures Meaning(env, Like(l, name, length, neg, r, escape)) == if neg then FromTri(Not3(Truth(env, v))) else v
  {
    hide CallName, Truth, Not3, FromTri;
  }

  lemma LikeValue(env: Environment, l: Sql, name: string, length: bv32, neg: bool, r: Sql, escape: Option<Sql>)
    requires length < 0x8000_0000 && !IsHint(CallName(name, length), if escape.Some? then 3 else 2)
    requires Means(env, l) && Means(env, r) && (escape.Some? ==> Means(env, escape.value))
    ensures Means(env, Like(l, name, length, neg, r, escape))
  {
    hide Eval, Build, Meaning, CallName, ExprNot, Function, IsHint, Truth, Not3, FromTri;
    LikeBuilt(l, name, length, neg, r, escape);
    LikeCall(env, CallName(name, length), l, r, escape);
    NotValue(env, neg, Function(CallName(name, length), LikeList(l, r, escape)));
    LikeMeaning(env, l, name, length, neg, r, escape,
                Eval(env, Function(CallName(name, length), LikeList(l, r, escape))));
  }

  lemma BetweenIs(env: Environment, x: Expr, lo: Expr, hi: Expr)
    ensures Eval(env, WithList(TK_BETWEEN, Some(x), [lo, hi])) ==
      var l := Registered(env, x);
      FromTri(And3(Compare(env, TK_GE, l, EvalOperand(env, lo)), Compare(env, TK_LE, l, EvalOperand(env, hi))))
  {
    hide Compare, And3, EvalOperand, Registered, EvalAll, EvalCase;
  }

  lemma BetweenValue(env: Environment, e: Sql, neg: bool, lo: Sql, hi: Sql)
    requires Means(env, e) && Means(env, lo) && Means(env, hi)
    requires RegisterKept(env, e, lo) && RegisterKept(env, e, hi)
    ensures Means(env, Between(e, neg, lo, hi))
  {
    hide Eval, ExprKind, RegisterKind, SqlKind, CompareWay, And3, ExprNot, WithList, Negated;
    var x := Operation(env, e);
    BetweenIs(env, Build(e), Build(lo), Build(hi));
    NotMeans(env, neg, WithList(TK_BETWEEN, Some(Build(e)), [Build(lo), Build(hi)]),
             And3(Compare(env, TK_GE, x, Operation(env, lo)), Compare(env, TK_LE, x, Operation(env, hi))));
  }

  lemma CallValue(env: Environment, name: string, args: seq<Sql>)
    requires EvalAll(env, BuildAll(args)) == Meanings(env, args) && |BuildAll(args)| == |args|
    ensures Means(env, Call(name, args))
  {
    hide IsHint, Function;
    CallIs(env, name, BuildAll(args));
    if Hint(env.schema, name, |args|) {
      HintHasArgument(name, |args|);
      FirstOfAll(env, args);
    }
  }

  lemma FirstOfAll(env: Environment, args: seq<Sql>)
    requires args != [] && EvalAll(env, BuildAll(args)) == Meanings(env, args)
    ensures BuildAll(args) != [] && Eval(env, BuildAll(args)[0]) == Meaning(env, args[0])
  {
    hide Eval, Meaning, Build;
    assert EvalAll(env, BuildAll(args))[0] == Eval(env, BuildAll(args)[0]);
    assert Meanings(env, args)[0] == Meaning(env, args[0]);
  }

  lemma LeafValue(env: Environment, s: Sql)
    requires Grammatical(s) && (s.NullWord? || s.Number? || s.Word? || s.Name? || s.Select? || s.Exists?)
    ensures Means(env, s)
  {}

  // ---------------------------------------------------------------------------------------------
  // Conditions

  /** Not one of the operators that jumps take apart. */
  predicate Whole(e: Expr) {
    e.op != TK_AND && e.op != TK_OR && e.op != TK_NOT && !IsAlias(e)
  }

  lemma DecideWhole(env: Environment, e: Expr)
    requires Whole(e)
    ensures Decide(env, e) == Holds(env, Eval(env, e))
  {
    hide Eval, Holds;
  }

  lemma HoldsTri(env: Environment, t: Tri)
    ensures Holds(env, FromTri(t)) == t
  {}

  lemma DecideNot(env: Environment, neg: bool, e: Expr, t: Tri)
    requires Whole(e) && Eval(env, e) == FromTri(t)
    ensures Decide(env, ExprNot(neg, e)) == Holds(env, Eval(env, ExprNot(neg, e)))
  {
    hide Eval, Holds;
    NotMeans(env, neg, e, t);
    DecideWhole(env, e);
    HoldsTri(env, t);
    HoldsTri(env, Not3(t));
  }

  /** Whatever is built around a truth value of its own, or around nothing, is decided by its value. */
  predicate Undivided(s: Sql) {
    match s
    case Paren(_) => false
    case Alias(_) => false
    case Binary(op, _, _) => op != TK_AND && op != TK_OR
    case Prefix(op, _) => op != TK_NOT
    case Like(_, _, _, _, _, _) => false
    case _ => true
  }

  lemma WholeBuilt(s: Sql)
    requires Grammatical(s) && Undivided(s)
    requires !(s.InList? && 2 <= |s.items|) && !s.InSelect? && !s.Between?
    ensures Whole(Build(s))
  {
    hide IntegerValue, BuildAll, BuildWhens, LikeNode, IsHint;
  }

  lemma ListDecides(env: Environment, e: Sql, neg: bool, items: seq<Sql>)
    requires 2 <= |items|
    ensures var b := Build(InList(e, neg, items)); Decide(env, b) == Holds(env, Eval(env, b))
  {
    hide Eval, Decide, Build, Holds, Search, EvalAll, ExprNot;
    var list := BuildAll(items);
    InListBuilt(e, neg, items);
    InListIs(env, Build(e), list);
    DecideNot(env, neg, WithList(TK_IN, Some(Build(e)), list),
              Search(env, EvalOperand(env, Build(e)), EvalAll(env, list)));
  }

  lemma InListBuilt(e: Sql, neg: bool, items: seq<Sql>)
    requires 2 <= |items|
    ensures BuildAll(items) != []
    ensures Build(InList(e, neg, items)) == ExprNot(neg, WithList(TK_IN, Some(Build(e)), BuildAll(items)))
  {
    hide ExprNot;
  }

  lemma BetweenDecides(env: Environment, e: Sql, neg: bool, lo: Sql, hi: Sql)
    ensures var b := Build(Between(e, neg, lo, hi)); Decide(env, b) == Holds(env, Eval(env, b))
  {
    hide Eval, Decide, Holds, Compare, And3, Registered, EvalOperand, ExprNot;
    var x, v, w := Registered(env, Build(e)), EvalOperand(env, Build(lo)), EvalOperand(env, Build(hi));
    BetweenIs(env, Build(e), Build(lo), Build(hi));
    assert Build(Between(e, neg, lo, hi)) == ExprNot(neg, WithList(TK_BETWEEN, Some(Build(e)), [Build(lo), Build(hi)]));
    DecideNot(env, neg, WithList(TK_BETWEEN, Some(Build(e)), [Build(lo), Build(hi)]),
              And3(Compare(env, TK_GE, x, v), Compare(env, TK_LE, x, w)));
  }

  lemma RowsDecides(env: Environment, e: Sql, neg: bool, select: int)
    ensures var b := Build(InSelect(e, neg, select)); Decide(env, b) == Holds(env, Eval(env, b))
  {
    hide Eval, Decide, Holds, Among, ExprNot;
    var n := Expr(TK_IN, Bare, false, Some(Build(e)), None, [], select);
    assert Build(InSelect(e, neg, select)) == ExprNot(neg, n);
    SelectIs(env, Build(e), select);
    DecideNot(env, neg, n, Among(env, EvalOperand(env, Build(e)), select));
  }

  lemma PlainDecides(env: Environment, s: Sql)
    requires Grammatical(s) && Undivided(s) && Means(env, s)
    ensures Decide(env, Build(s)) == Judgement(env, s)
  {
    hide Eval, Decide, Build, Holds, Meaning, Grammatical;
    if s.InList? && 2 <= |s.items| {
      ListDecides(env, s.e, s.neg, s.items);
    } else if s.Between? {
      BetweenDecides(env, s.e, s.neg, s.lo, s.hi);
    } else if s.InSelect? {
      RowsDecides(env, s.e, s.neg, s.select);
    } else {
      WholeBuilt(s);
      DecideWhole(env, Build(s));
    }
  }

  /** Parentheses, other names and NOT. */
  lemma WrapperDecides(env: Environment, s: Sql)
    requires s.Paren? || s.Alias? || (s.Prefix? && s.op == TK_NOT)
    requires Decide(env, Build(s.e)) == Judgement(env, s.e)
    ensures Decide(env, Build(s)) == Judgement(env, s)
  {
    hide Eval, Holds, Meaning;
  }

  /** AND with a constant false counts as false, */
  lemma FoldedIs(env: Environment, l: Expr, r: Expr)
    requires IntegerValue(l) == Some(0) || IntegerValue(r) == Some(0)
    ensures Decide(env, Integer(0)) == And3(Decide(env, l), Decide(env, r)) == False
  {
    hide Eval, Decide;
    assert IntegerValue(Integer(0)) == Some(0);
    hide IntegerValue;
    ZeroDecides(env, if IntegerValue(l) == Some(0) then l else r);
    ZeroDecides(env, Integer(0));
  }

  lemma ZeroDecides(env: Environment, e: Expr)
    requires IntegerValue(e) == Some(0)
    ensures Decide(env, e) == False
  {
    hide Eval, Decide;
    IntegerIs(env, e);
    DecideWhole(env, e);
  }

  /** and the jumps take AND and OR apart. */
  lemma JointIs(env: Environment, op: int, l: Expr, r: Expr)
    requires op == TK_AND || op == TK_OR
    ensures Decide(env, NewExpr(op, Some(l), Some(r))) ==
      if op == TK_AND then And3(Decide(env, l), Decide(env, r)) else Or3(Decide(env, l), Decide(env, r))
  {
    hide Eval, Holds, And3, Or3;
  }

  lemma JoinIs(env: Environment, op: int, l: Expr, r: Expr)
    requires op == TK_AND || op == TK_OR
    ensures Decide(env, PExpr(op, l, r)) ==
      if op == TK_AND then And3(Decide(env, l), Decide(env, r)) else Or3(Decide(env, l), Decide(env, r))
  {
    hide Eval, Decide, IntegerValue, NewExpr, And3, Or3;
    if op == TK_AND && (IntegerValue(l) == Some(0) || IntegerValue(r) == Some(0)) {
      FoldedIs(env, l, r);
    } else {
      JointIs(env, op, l, r);
    }
  }

  lemma JoinDecides(env: Environment, op: int, l: Sql, r: Sql)
    requires op == TK_AND || op == TK_OR
    requires Decide(env, Build(l)) == Judgement(env, l) && Decide(env, Build(r)) == Judgement(env, r)
    ensures Decide(env, Build(Binary(op, l, r))) == Judgement(env, Binary(op, l, r))
  {
    assert Build(Binary(op, l, r)) == PExpr(op, Build(l), Build(r));
    hide Decide, Build, Eval, Meaning, Holds, And3, Or3, PExpr;
    JoinIs(env, op, Build(l), Build(r));
  }

  lemma LikeDecides(env: Environment, l: Sql, name: string, length: bv32, neg: bool, r: Sql, escape: Option<Sql>)
    requires length < 0x8000_0000 && !IsHint(CallName(name, length), if escape.Some? then 3 else 2)
    requires Means(env, l) && Means(env, r) && (escape.Some? ==> Means(env, escape.value))
    ensures Decide(env, Build(Like(l, name, length, neg, r, escape)))
         == Judgement(env, Like(l, name, length, neg, r, escape))
  {
    hide Eval, Build, Meaning, CallName, Function, IsHint, Holds;
    LikeBuilt(l, name, length, neg, r, escape);
    LikeCall(env, CallName(name, length), l, r, escape);
    var call := Function(CallName(name, length), LikeList(l, r, escape));
    assert Whole(call) by { FunctionWhole(CallName(name, length), LikeList(l, r, escape)); }
    DecideWhole(env, call);
    NotDecides(env, neg, call);
  }

  lemma FunctionWhole(name: string, args: seq<Expr>)
    ensures Whole(Function(name, args))
  {}

  lemma NotDecides(env: Environment, neg: bool, e: Expr)
    ensures Decide(env, ExprNot(neg, e)) == if neg then Not3(Decide(env, e)) else Decide(env, e)
  {
    hide Eval, Holds;
  }

  // ---------------------------------------------------------------------------------------------
  // Everything together

  /** The tree evaluates to what was meant. */
  lemma {:induction false} BuildMeans(env: Environment, s: Sql)
    requires Grammatical(s) && Kept(env, s)
    ensures Eval(env, Build(s)) == Meaning(env, s)
    decreases s, 1
  {
    hide Eval, Meaning, Build, PairKept, RegisterKept, ItemKept, MemberKept, RowsKept;
    if OneOperand(s) {
      BuildMeans(env, s.e);
      OneOperandValue(env, s);
    } else {
      match s {
        case Binary(op, l, r) =>
          BuildMeans(env, l);
          BuildMeans(env, r);
          BinaryIs(env, op, l, r);
        case Is(l, neg, r) =>
          BuildMeans(env, l);
          BuildMeans(env, r);
          IsValue(env, l, neg, r);
        case InList(e, neg, items) =>
          BuildMeans(env, e);
          AllMean(env, items);
          InListValue(env, e, neg, items);
        case InSelect(e, neg, select) =>
          BuildMeans(env, e);
          InSelectValue(env, e, neg, select);
        case Like(l, name, length, neg, r, escape) =>
          BuildMeans(env, l);
          BuildMeans(env, r);
          if escape.Some? {
            BuildMeans(env, escape.value);
          }
          LikeValue(env, l, name, length, neg, r, escape);
        case Between(e, neg, lo, hi) =>
          BuildMeans(env, e);
          BuildMeans(env, lo);
          BuildMeans(env, hi);
          BetweenValue(env, e, neg, lo, hi);
        case Case(operand, whens, els) => CaseMeans(env, operand, whens, els);
        case Call(name, args) =>
          AllMean(env, args);
          CallValue(env, name, args);
        case _ => LeafValue(env, s);
      }
    }
  }

  /** As a condition, too, the tree is decided as was meant. */
  lemma {:induction false} BuildDecides(env: Environment, s: Sql)
    requires Grammatical(s) && Kept(env, s)
    ensures Decide(env, Build(s)) == Judgement(env, s)
    decreases s, 2
  {
    hide Eval, Decide, Build, Judgement, Meaning, PairKept, RegisterKept, ItemKept, MemberKept, RowsKept;
    match s {
      case Paren(e) =>
        BuildDecides(env, e);
        WrapperDecides(env, s);
      case Alias(e) =>
        BuildDecides(env, e);
        WrapperDecides(env, s);
      case Binary(op, l, r) =>
        if op == TK_AND || op == TK_OR {
          BuildDecides(env, l);
          BuildDecides(env, r);
          JoinDecides(env, op, l, r);
        } else {
          BuildMeans(env, s);
          PlainDecides(env, s);
        }
      case Prefix(op, e) =>
        if op == TK_NOT {
          BuildDecides(env, e);
          WrapperDecides(env, s);
        } else {
          BuildMeans(env, s);
          PlainDecides(env, s);
        }
      case Like(l, name, length, neg, r, escape) =>
        BuildMeans(env, l);
        BuildMeans(env, r);
        if escape.Some? {
          BuildMeans(env, escape.value);
        }
        LikeDecides(env, l, name, length, neg, r, escape);
      case _ =>
        BuildMeans(env, s);
        PlainDecides(env, s);
    }
  }

  lemma {:induction false} AllMean(env: Environment, ss: seq<Sql>)
    requires AllGrammatical(ss) && AllKept(env, ss)
    ensures EvalAll(env, BuildAll(ss)) == Meanings(env, ss) && |BuildAll(ss)| == |ss|
    decreases ss, 0
  {
    hide Eval, Meaning, Build, Grammatical, Kept;
    if ss != [] {
      BuildMeans(env, ss[0]);
      AllMean(env, ss[1..]);
    }
  }

  lemma {:induction false} WhensMean(env: Environment, operand: Option<Sql>, whens: seq<When>, els: Option<Expr>)
    requires operand.Some? ==> Means(env, operand.value)
    requires WhensGrammatical(whens) && WhensKept(env, operand, whens)
    ensures EvalCase(env, CaseOperand(env, operand), BuildWhens(whens) + (if els.Some? then [els.value] else []))
         == Chosen(env, CaseOperation(env, operand), whens, if els.Some? then Eval(env, els.value) else Null)
    decreases whens, 0
  {
    hide Eval, Decide, EvalCase, Meaning, Judgement, Build, Grammatical, Kept;
    hide Condition, Judged, Consequence, BuildWhen, RegisterKept;
    hide CaseOperand, CaseOperation;
    var otherwise := if els.Some? then [els.value] else [];
    if whens == [] {
      ElseIs(env, CaseOperand(env, operand), els);
      assert BuildWhens(whens) + otherwise == otherwise;
    } else {
      WhenMeans(env, operand, whens[0]);
      WhensMean(env, operand, whens[1..], els);
      WhensStep(env, operand, whens[0], BuildWhens(whens[1..]) + otherwise,
                Chosen(env, CaseOperation(env, operand), whens[1..], if els.Some? then Eval(env, els.value) else Null));
      assert BuildWhens(whens) + otherwise == BuildWhen(whens[0]) + (BuildWhens(whens[1..]) + otherwise);
      assert (CaseOperand(env, operand).Some? <==> CaseOperation(env, operand).Some?) by { SameOperand(env, operand); }
    }
  }

  lemma SameOperand(env: Environment, operand: Option<Sql>)
    ensures CaseOperand(env, operand).Some? <==> CaseOperation(env, operand).Some?
  {}

  lemma {:induction false} WhenMeans(env: Environment, operand: Option<Sql>, w: When)
    requires WhenGrammatical(w) && WhenKept(env, operand, w)
    ensures Eval(env, Build(w.cond)) == Meaning(env, w.cond) && Eval(env, Build(w.result)) == Meaning(env, w.result)
    ensures Decide(env, Build(w.cond)) == Judgement(env, w.cond)
    ensures operand.Some? ==> RegisterKept(env, operand.value, w.cond)
    decreases w, 3
  {
    hide Eval, Meaning, Build, Grammatical, Kept, RegisterKept, Decide, Judgement;
    BuildMeans(env, w.cond);
    BuildDecides(env, w.cond);
    BuildMeans(env, w.result);
  }

  /** A CASE means the result of its first true WHEN, and so does its flat list. */
  lemma {:induction false} CaseMeans(env: Environment, operand: Option<Sql>, whens: seq<When>, els: Option<Sql>)
    requires Grammatical(Case(operand, whens, els)) && Kept(env, Case(operand, whens, els))
    ensures Eval(env, Build(Case(operand, whens, els))) == Meaning(env, Case(operand, whens, els))
    decreases Case(operand, whens, els), 0
  {
    hide EvalCase, EvalOperand, Registered, Chosen, BuildWhens, WhensKept, WhensGrammatical, WithList, Eval;
    if operand.Some? {
      BuildMeans(env, operand.value);
    }
    if els.Some? {
      BuildMeans(env, els.value);
    }
    var otherwise := if els.Some? then Some(Build(els.value)) else None;
    WhensMean(env, operand, whens, otherwise);
    CaseIs(env, if operand.Some? then Some(Build(operand.value)) else None,
           BuildWhens(whens) + (if otherwise.Some? then [otherwise.value] else []));
  }

  /** The two truth tests differ: CASE WHEN 0.5 THEN NOT 0.5 END is 1. */
  lemma HalfIsTrueAndNotTrue(env: Environment)
    requires env.literal(TK_FLOAT, "0.5") == Real(0.5)
    ensures var half := Word(TK_FLOAT, "0.5");
      Meaning(env, Case(None, [When(half, Prefix(TK_NOT, half))], None)) == Num(1)
  {
    var half := Word(TK_FLOAT, "0.5");
    var whens := [When(half, Prefix(TK_NOT, half))];
    assert Meaning(env, half) == Real(0.5) && Judgement(env, half) == Holds(env, Real(0.5)) == True;
    assert Truth(env, Real(0.5)) == False;
    assert Judged(env, whens[0]) == True && Consequence(env, whens[0]) == Num(1);
    assert Chosen(env, None, whens, Null) == Consequence(env, whens[0]);
  }

  // ---------------------------------------------------------------------------------------------
  // The flat list of a CASE

  /** Rule 197: one more WHEN appends its condition and then its result. */
  lemma {:induction false} OneMoreWhen(whens: seq<When>, w: When)
    ensures BuildWhens(whens + [w]) == BuildWhens(whens) + [Build(w.cond)] + [Build(w.result)]
  {
    hide Build;
    if whens == [] {
      assert whens + [w] == [w] && [w][1..] == [];
    } else {
      OneMoreWhen(whens[1..], w);
      assert (whens + [w])[1..] == whens[1..] + [w];
    }
  }

  /** Reading the list back: pairs, then an ELSE if one is left. */
  function Pairs(list: seq<Expr>): seq<(Expr, Expr)> {
    if |list| < 2 then [] else [(list[0], list[1])] + Pairs(list[2..])
  }

  function Rest(list: seq<Expr>): Option<Expr> {
    if |list| == 0 then None else if |list| == 1 then Some(list[0]) else Rest(list[2..])
  }

  function BuiltPairs(whens: seq<When>): seq<(Expr, Expr)> {
    if whens == [] then [] else [(Build(whens[0].cond), Build(whens[0].result))] + BuiltPairs(whens[1..])
  }

  /** Nothing is lost in the flat list: it is of odd length exactly when there is an ELSE, and gives back
      the pairs in order and the ELSE. */
  lemma {:induction false} CaseListInvertible(whens: seq<When>, els: Option<Expr>)
    ensures var list := BuildWhens(whens) + (if els.Some? then [els.value] else []);
      (|list| % 2 == 1 <==> els.Some?) && Pairs(list) == BuiltPairs(whens) && Rest(list) == els
  {
    hide Build;
    var otherwise := if els.Some? then [els.value] else [];
    var list := BuildWhens(whens) + otherwise;
    if whens == [] {
      assert list == otherwise;
    } else {
      CaseListInvertible(whens[1..], els);
      assert list == BuildWhen(whens[0]) + (BuildWhens(whens[1..]) + otherwise);
      assert list[2..] == BuildWhens(whens[1..]) + otherwise;
    }
  }
}
