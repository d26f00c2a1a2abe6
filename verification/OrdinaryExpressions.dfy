/** Expressions that are rewritten rightly whatever the database holds. */
module OrdinaryExpressions {
  import opened Lemon
  import opened TokenCodes
  import opened Expressions
  import opened ExpressionActions
  import opened Rewriting
  import opened RewritingLimits

  /** The operand of a BETWEEN or CASE keeps its kind in a register. */
  predicate Direct(s: Sql) {
    match s
    case Paren(e) => Direct(e)
    case Collate(_, _) => false
    case Cast(_, _) => false
    case Select(_) => false
    case Prefix(op, _) => op != TK_PLUS
    case _ => true
  }

  predicate Uncollated(s: Sql) {
    Leftmost(s) == None
  }

  /** A condition on the text alone.  No name stands for another expression and no function carries a
      likelihood; there is no COLLATE below an AND, in the value of a one-value IN, before an empty IN, in
      a bound of a BETWEEN or to the right of a LIKE; and the operands of BETWEEN and CASE are direct. */
  predicate Ordinary(s: Sql)
    decreases s, 1
  {
    match s
    case Alias(_) => false
    case Paren(e) => Ordinary(e)
    case Collate(e, _) => Ordinary(e)
    case Cast(e, _) => Ordinary(e)
    case Call(name, args) => !IsHint(name, |args|) && AllOrdinary(args)
    case Binary(op, l, r) => Ordinary(l) && Ordinary(r) && (op == TK_AND ==> Uncollated(l) && Uncollated(r))
    case Like(l, _, _, _, r, escape) =>
      Ordinary(l) && Ordinary(r) && Uncollated(r) && (escape.Some? ==> Ordinary(escape.value))
    case Postfix(_, e) => Ordinary(e)
    case Is(l, _, r) => Ordinary(l) && Ordinary(r)
    case Prefix(_, e) => Ordinary(e)
    case Between(e, _, lo, hi) =>
      Ordinary(e) && Direct(e) && Ordinary(lo) && Ordinary(hi) && Uncollated(lo) && Uncollated(hi)
    case InList(e, _, items) =>
      Ordinary(e) && AllOrdinary(items) && (items == [] ==> Uncollated(e)) && (|items| == 1 ==> Uncollated(items[0]))
    case InSelect(e, _, _) => Ordinary(e)
    case Case(operand, whens, els) =>
      && (operand.Some? ==> Ordinary(operand.value) && Direct(operand.value))
      && (els.Some? ==> Ordinary(els.value))
      && WhensOrdinary(whens)
    case _ => true
  }

  predicate AllOrdinary(ss: seq<Sql>)
    decreases ss, 0
  {
    ss == [] || (Ordinary(ss[0]) && AllOrdinary(ss[1..]))
  }

  predicate WhensOrdinary(whens: seq<When>)
    decreases whens, 0
  {
    whens == [] || (WhenOrdinary(whens[0]) && WhensOrdinary(whens[1..]))
  }

  predicate WhenOrdinary(w: When)
    decreases w, 3
  {
    Ordinary(w.cond) && Ordinary(w.result)
  }

  // ---------------------------------------------------------------------------------------------
  // The COLLATE that a node hands up

  /** c is the collating sequence of the COLLATE that e hands up, if it has one. */
  predicate Through(sc: Schema, e: Expr, c: Option<string>) {
    !IsAlias(e) && (Flagged(e) <==> c.Some?) && (c.Some? ==> ExprCollation(sc, e) == c)
  }

  /** The same for a list. */
  predicate ListThrough(sc: Schema, es: seq<Expr>, c: Option<string>) {
    && (c.Some? <==> exists i :: 0 <= i < |es| && Flagged(es[i]))
    && (c.Some? ==> FirstExplicit(sc, es) == c)
    && (forall i :: 0 <= i < |es| ==> !IsAlias(es[i]))
  }

  lemma ListStep(sc: Schema, e: Expr, es: seq<Expr>, a: Option<string>, b: Option<string>)
    requires Through(sc, e, a) && ListThrough(sc, es, b)
    ensures ListThrough(sc, [e] + es, First(a, b))
  {
    hide ExprCollation, Flagged;
    var all := [e] + es;
    assert all[0] == e && all[1..] == es;
    if i :| 0 <= i < |es| && Flagged(es[i]) {
      assert Flagged(all[i + 1]);
    }
    if i :| 0 <= i < |all| && Flagged(all[i]) {
      if i > 0 {
        assert Flagged(es[i - 1]);
      }
    }
    FirstExplicitStep(sc, e, es);
  }

  lemma FirstExplicitStep(sc: Schema, e: Expr, es: seq<Expr>)
    ensures FirstExplicit(sc, [e] + es) == if Explicit(e) then ExprCollation(sc, e) else FirstExplicit(sc, es)
  {
    hide ExprCollation, Explicit;
    assert ([e] + es)[1..] == es;
  }

  lemma ListEmpty(sc: Schema)
    ensures ListThrough(sc, [], None)
  {}

  lemma {:induction false} ListAppend(sc: Schema, es: seq<Expr>, fs: seq<Expr>, a: Option<string>, b: Option<string>)
    requires ListThrough(sc, es, a) && ListThrough(sc, fs, b)
    ensures ListThrough(sc, es + fs, First(a, b))
  {
    hide ExprCollation, Flagged, IsAlias;
    var all := es + fs;
    assert forall i :: 0 <= i < |es| ==> all[i] == es[i];
    assert forall i :: 0 <= i < |fs| ==> all[|es| + i] == fs[i];
    forall i | 0 <= i < |all| && Flagged(all[i]) ensures First(a, b).Some? {
      if i < |es| {
        assert Flagged(es[i]);
      } else {
        assert Flagged(fs[i - |es|]);
      }
    }
    FirstExplicitAppend(sc, es, fs);
  }

  lemma {:induction false} FirstExplicitAppend(sc: Schema, es: seq<Expr>, fs: seq<Expr>)
    ensures (exists i :: 0 <= i < |es| && Explicit(es[i])) ==> FirstExplicit(sc, es + fs) == FirstExplicit(sc, es)
    ensures (forall i :: 0 <= i < |es| ==> !Explicit(es[i])) ==> FirstExplicit(sc, es + fs) == FirstExplicit(sc, fs)
  {
    hide ExprCollation, Explicit;
    if es == [] {
      assert es + fs == fs;
    } else {
      assert (es + fs)[1..] == es[1..] + fs;
      FirstExplicitAppend(sc, es[1..], fs);
    }
  }

  // ---------------------------------------------------------------------------------------------
  // Node by node

  /** Operators whose collating sequence comes only from a COLLATE below. */
  predicate Inner(op: int) {
    op != TK_ID && op != TK_COLLATE && op != TK_CAST && op != TK_UPLUS
  }

  lemma LeafThrough(sc: Schema, n: Expr)
    requires n.left == None && n.right == None && n.list == [] && n.op != TK_COLLATE
    ensures Through(sc, n, None)
  {}

  lemma UnaryThrough(sc: Schema, n: Expr, a: Option<string>)
    requires n.left.Some? && n.right == None && n.list == [] && !n.generic && n.op != TK_ID && n.op != TK_COLLATE
    requires Through(sc, n.left.value, a)
    ensures Through(sc, n, a)
  {}

  lemma BinaryThrough(sc: Schema, n: Expr, a: Option<string>, c: Option<string>)
    requires n.left.Some? && n.right.Some? && n.list == [] && !n.generic && Inner(n.op)
    requires Through(sc, n.left.value, a) && Through(sc, n.right.value, c)
    ensures Through(sc, n, First(a, c))
  {}

  lemma GenericThrough(sc: Schema, e: Expr)
    requires !IsAlias(e)
    ensures Through(sc, MarkGeneric(e), None)
  {}

  lemma ListNodeThrough(sc: Schema, n: Expr, a: Option<string>, b: Option<string>)
    requires n.right == None && !n.generic && Inner(n.op) && n.op != TK_BETWEEN && n.list != []
    requires if n.left.Some? then Through(sc, n.left.value, a) else a == None
    requires ListThrough(sc, n.list, b)
    ensures Through(sc, n, First(a, b))
  {}

  lemma BetweenThrough(sc: Schema, n: Expr, a: Option<string>)
    requires n.op == TK_BETWEEN && n.left.Some? && n.right == None && !n.generic
    requires Through(sc, n.left.value, a)
    ensures Through(sc, n, a)
  {}

  lemma {:induction false} NullOnly(s: Sql)
    requires Grammatical(s) && Build(s).op == TK_NULL
    ensures Leftmost(s) == None
  {
    hide IntegerValue, BuildAll, BuildWhens, LikeNode, IsHint;
    if s.Paren? {
      NullOnly(s.e);
    } else if s.Like? {
      LikeBuilt(s.l, s.name, s.length, s.neg, s.r, s.escape);
    }
  }

  /** Each node hands up the leftmost COLLATE of its expression. */
  predicate Handed(sc: Schema, s: Sql) {
    Through(sc, Build(s), Leftmost(s))
  }

  lemma NotThrough(sc: Schema, neg: bool, e: Expr, a: Option<string>)
    requires Through(sc, e, a)
    ensures Through(sc, ExprNot(neg, e), a)
  {
    hide Through;
    if neg {
      UnaryThrough(sc, Unary(TK_NOT, e), a);
    }
  }

  lemma BinaryHanded(sc: Schema, op: int, l: Sql, r: Sql)
    requires Ordinary(Binary(op, l, r)) && Grammatical(Binary(op, l, r)) && Handed(sc, l) && Handed(sc, r)
    ensures Handed(sc, Binary(op, l, r))
  {
    hide Through, Build, Leftmost;
    PairThrough(sc, op, Build(l), Build(r), Leftmost(l), Leftmost(r));
    BinaryBuilt(op, l, r);
    BinaryLeftmost(op, l, r);
  }

  lemma BinaryBuilt(op: int, l: Sql, r: Sql)
    ensures Build(Binary(op, l, r)) == PExpr(op, Build(l), Build(r))
  {
    hide PExpr, ExprNot, WithList, LikeNode, Function, WithText, Unary, BuildAll, BuildWhens, Leftmost;
  }

  lemma BinaryLeftmost(op: int, l: Sql, r: Sql)
    ensures Leftmost(Binary(op, l, r)) == First(Leftmost(l), Leftmost(r))
  {
    hide First, Build, LeftmostOf, LeftmostWhen;
  }

  lemma PairThrough(sc: Schema, op: int, l: Expr, r: Expr, a: Option<string>, c: Option<string>)
    requires Inner(op) && Through(sc, l, a) && Through(sc, r, c) && (op == TK_AND ==> a == None && c == None)
    ensures Through(sc, PExpr(op, l, r), First(a, c))
  {
    hide Through;
    if op == TK_AND && (IntegerValue(l) == Some(0) || IntegerValue(r) == Some(0)) {
      LeafThrough(sc, Integer(0));
    } else {
      BinaryThrough(sc, NewExpr(op, Some(l), Some(r)), a, c);
    }
  }

  lemma IsHanded(sc: Schema, l: Sql, neg: bool, r: Sql)
    requires Grammatical(r) && Handed(sc, l) && Handed(sc, r)
    ensures Handed(sc, Is(l, neg, r))
  {
    var s := Is(l, neg, r);
    assert Leftmost(s) == First(Leftmost(l), Leftmost(r));
    if Build(r).op == TK_NULL {
      NullOnly(r);
      assert Build(s) == Unary(if neg then TK_NOTNULL else TK_ISNULL, Build(l));
      hide Through, Build, Leftmost;
      UnaryThrough(sc, Build(s), Leftmost(l));
    } else {
      assert Build(s) == PExpr(if neg then TK_ISNOT else TK_IS, Build(l), Build(r));
      hide Through, Build, Leftmost, PExpr;
      PairThrough(sc, if neg then TK_ISNOT else TK_IS, Build(l), Build(r), Leftmost(l), Leftmost(r));
    }
  }

  lemma BetweenHanded(sc: Schema, e: Sql, neg: bool, lo: Sql, hi: Sql)
    requires Handed(sc, e) && Uncollated(lo) && Uncollated(hi)
    ensures Handed(sc, Between(e, neg, lo, hi))
  {
    var n := WithList(TK_BETWEEN, Some(Build(e)), [Build(lo), Build(hi)]);
    assert Build(Between(e, neg, lo, hi)) == ExprNot(neg, n);
    assert Leftmost(Between(e, neg, lo, hi)) == Leftmost(e);
    hide Through, Build, Leftmost;
    BetweenThrough(sc, n, Leftmost(e));
    NotThrough(sc, neg, n, Leftmost(e));
  }

  lemma InSelectHanded(sc: Schema, e: Sql, neg: bool, select: int)
    requires Handed(sc, e)
    ensures Handed(sc, InSelect(e, neg, select))
  {
    var n := Expr(TK_IN, Payload.Bare, false, Some(Build(e)), None, [], select);
    assert Build(InSelect(e, neg, select)) == ExprNot(neg, n);
    assert Leftmost(InSelect(e, neg, select)) == Leftmost(e);
    hide Through, Build, Leftmost;
    UnaryThrough(sc, n, Leftmost(e));
    NotThrough(sc, neg, n, Leftmost(e));
  }

  lemma LeftmostOne(s: Sql)
    ensures LeftmostOf([s]) == Leftmost(s)
  {
    hide Leftmost;
    assert [s][1..] == [];
  }

  lemma InListHanded(sc: Schema, e: Sql, neg: bool, items: seq<Sql>)
    requires Ordinary(InList(e, neg, items))
    requires Handed(sc, e) && ListThrough(sc, BuildAll(items), LeftmostOf(items))
    ensures Handed(sc, InList(e, neg, items))
  {
    var s := InList(e, neg, items);
    assert Leftmost(s) == First(Leftmost(e), LeftmostOf(items));
    BuildAllLength(items);
    if items == [] {
      assert Build(s) == Integer(if neg then 1 else 0);
      LeafThrough(sc, Build(s));
    } else if |items| == 1 {
      var op := if neg then TK_NE else TK_EQ;
      LeftmostOne(items[0]);
      assert items == [items[0]];
      OneItemBuilt(e, neg, items[0]);
      assert !IsAlias(Build(items[0]));
      hide Through, Build, Leftmost;
      GenericThrough(sc, Build(items[0]));
      PairThrough(sc, op, Build(e), MarkGeneric(Build(items[0])), Leftmost(e), None);
    } else {
      var n := WithList(TK_IN, Some(Build(e)), BuildAll(items));
      assert Build(s) == ExprNot(neg, n);
      hide Through, Build, Leftmost;
      ListNodeThrough(sc, n, Leftmost(e), LeftmostOf(items));
      NotThrough(sc, neg, n, Leftmost(s));
    }
  }

  lemma CallHanded(sc: Schema, name: string, args: seq<Sql>)
    requires ListThrough(sc, BuildAll(args), LeftmostOf(args))
    ensures Handed(sc, Call(name, args))
  {
    var n := Function(name, BuildAll(args));
    assert Build(Call(name, args)) == n && Leftmost(Call(name, args)) == LeftmostOf(args);
    hide Through, Build, Leftmost, LeftmostOf;
    if n.list == [] {
      assert ListThrough(sc, [], LeftmostOf(args));
      LeafThrough(sc, n);
    } else {
      ListNodeThrough(sc, n, None, LeftmostOf(args));
    }
  }

  lemma LikeHanded(sc: Schema, l: Sql, name: string, length: bv32, neg: bool, r: Sql, escape: Option<Sql>)
    requires length < 0x8000_0000 && Uncollated(r)
    requires Handed(sc, l) && Handed(sc, r) && (escape.Some? ==> Handed(sc, escape.value))
    ensures Handed(sc, Like(l, name, length, neg, r, escape))
  {
    var s := Like(l, name, length, neg, r, escape);
    var c := if escape.Some? then Leftmost(escape.value) else None;
    assert Leftmost(s) == First(Leftmost(l), c);
    LikeBuilt(l, name, length, neg, r, escape);
    var list := LikeList(l, r, escape);
    hide Through, ListThrough, Build, Leftmost;
    ListEmpty(sc);
    var last := if escape.Some? then [Build(escape.value)] else [];
    if escape.Some? {
      ListStep(sc, Build(escape.value), [], c, None);
      assert [Build(escape.value)] + [] == last;
    }
    assert First(c, None) == c;
    ListStep(sc, Build(l), last, Leftmost(l), c);
    ListStep(sc, Build(r), [Build(l)] + last, None, First(Leftmost(l), c));
    assert [Build(r)] + ([Build(l)] + last) == list;
    var n := Function(CallName(name, length), list);
    ListNodeThrough(sc, n, None, Leftmost(s));
    NotThrough(sc, neg, n, Leftmost(s));
  }

  function LeftmostMaybe(s: Option<Sql>): Option<string> {
    if s.Some? then Leftmost(s.value) else None
  }

  lemma CaseHanded(sc: Schema, operand: Option<Sql>, whens: seq<When>, els: Option<Sql>)
    requires operand.Some? ==> Handed(sc, operand.value)
    requires els.Some? ==> Handed(sc, els.value)
    requires ListThrough(sc, BuildWhens(whens), LeftmostWhen(whens))
    ensures Handed(sc, Case(operand, whens, els))
  {
    var s := Case(operand, whens, els);
    var left := if operand.Some? then Some(Build(operand.value)) else None;
    var last := if els.Some? then [Build(els.value)] else [];
    var n := WithList(TK_CASE, left, BuildWhens(whens) + last);
    var c := First(LeftmostWhen(whens), LeftmostMaybe(els));
    assert Build(s) == n;
    assert Leftmost(s) == First(LeftmostMaybe(operand), c);
    hide Through, ListThrough, Build, Leftmost, LeftmostWhen, BuildWhens;
    ListEmpty(sc);
    if els.Some? {
      ListStep(sc, Build(els.value), [], LeftmostMaybe(els), None);
      assert [Build(els.value)] + [] == last;
    }
    assert First(LeftmostMaybe(els), None) == LeftmostMaybe(els);
    ListAppend(sc, BuildWhens(whens), last, LeftmostWhen(whens), LeftmostMaybe(els));
    if n.list == [] {
      CaseAlone(sc, n, LeftmostMaybe(operand), c);
    } else {
      ListNodeThrough(sc, n, LeftmostMaybe(operand), c);
    }
  }

  lemma CaseAlone(sc: Schema, n: Expr, a: Option<string>, b: Option<string>)
    requires n.op == TK_CASE && n.list == [] && n.right == None && !n.generic && ListThrough(sc, n.list, b)
    requires if n.left.Some? then Through(sc, n.left.value, a) else a == None
    ensures Through(sc, n, First(a, b))
  {
    if n.left.Some? {
      UnaryThrough(sc, n, a);
    }
  }

  lemma UnaryHanded(sc: Schema, s: Sql)
    requires Grammatical(s) && (s.Postfix? || s.Prefix? || s.Cast?) && Handed(sc, s.e)
    ensures Handed(sc, s)
  {
    hide Through;
    assert Leftmost(s) == Leftmost(s.e);
    UnaryThrough(sc, Build(s), Leftmost(s.e));
  }

  lemma LeafHanded(sc: Schema, s: Sql)
    requires s.NullWord? || s.Number? || s.Name? || s.Select? || s.Exists? || (s.Word? && Grammatical(s))
    ensures Handed(sc, s)
  {
    LeafThrough(sc, Build(s));
  }

  lemma CollateHanded(sc: Schema, e: Sql, name: string)
    ensures Handed(sc, Collate(e, name))
  {}

  lemma ParenHanded(sc: Schema, e: Sql)
    requires Handed(sc, e)
    ensures Handed(sc, Paren(e))
  {
    hide Through;
  }

  lemma {:induction false} AllHandUp(sc: Schema, s: Sql)
    requires Grammatical(s) && Ordinary(s)
    ensures Handed(sc, s)
    decreases s, 1
  {
    hide Handed, Uncollated, Direct, IsHint;
    match s {
      case Paren(e) =>
        AllHandUp(sc, e);
        ParenHanded(sc, e);
      case Collate(e, name) => CollateHanded(sc, e, name);
      case Postfix(_, e) =>
        AllHandUp(sc, e);
        UnaryHanded(sc, s);
      case Prefix(_, e) =>
        AllHandUp(sc, e);
        UnaryHanded(sc, s);
      case Cast(e, _) =>
        AllHandUp(sc, e);
        UnaryHanded(sc, s);
      case Call(name, args) =>
        ListHandsUp(sc, args);
        CallHanded(sc, name, args);
      case Binary(op, l, r) =>
        AllHandUp(sc, l);
        AllHandUp(sc, r);
        BinaryHanded(sc, op, l, r);
      case Like(l, name, length, neg, r, escape) =>
        AllHandUp(sc, l);
        AllHandUp(sc, r);
        if escape.Some? {
          AllHandUp(sc, escape.value);
        }
        LikeHanded(sc, l, name, length, neg, r, escape);
      case Is(l, neg, r) =>
        AllHandUp(sc, l);
        AllHandUp(sc, r);
        IsHanded(sc, l, neg, r);
      case Between(e, neg, lo, hi) =>
        AllHandUp(sc, e);
        BetweenHanded(sc, e, neg, lo, hi);
      case InList(e, neg, items) =>
        AllHandUp(sc, e);
        ListHandsUp(sc, items);
        InListHanded(sc, e, neg, items);
      case InSelect(e, neg, select) =>
        AllHandUp(sc, e);
        InSelectHanded(sc, e, neg, select);
      case Case(operand, whens, els) =>
        if operand.Some? {
          AllHandUp(sc, operand.value);
        }
        if els.Some? {
          AllHandUp(sc, els.value);
        }
        WhensHandUp(sc, whens);
        CaseHanded(sc, operand, whens, els);
      case _ => LeafHanded(sc, s);
    }
  }

  lemma {:induction false} ListHandsUp(sc: Schema, ss: seq<Sql>)
    requires AllGrammatical(ss) && AllOrdinary(ss)
    ensures ListThrough(sc, BuildAll(ss), LeftmostOf(ss))
    decreases ss, 0
  {
    hide Through, ListThrough, Build, Leftmost, Grammatical, Ordinary;
    ListEmpty(sc);
    if ss != [] {
      AllHandUp(sc, ss[0]);
      ListHandsUp(sc, ss[1..]);
      ListStep(sc, Build(ss[0]), BuildAll(ss[1..]), Leftmost(ss[0]), LeftmostOf(ss[1..]));
    }
  }

  lemma {:induction false} WhensHandUp(sc: Schema, whens: seq<When>)
    requires WhensGrammatical(whens) && WhensOrdinary(whens)
    ensures ListThrough(sc, BuildWhens(whens), LeftmostWhen(whens))
    decreases whens, 0
  {
    hide Through, ListThrough, BuildWhen, LeftmostIn, WhenGrammatical, WhenOrdinary;
    ListEmpty(sc);
    if whens != [] {
      WhenHandsUp(sc, whens[0]);
      WhensHandUp(sc, whens[1..]);
      ListAppend(sc, BuildWhen(whens[0]), BuildWhens(whens[1..]), LeftmostIn(whens[0]), LeftmostWhen(whens[1..]));
    }
  }

  lemma {:induction false} WhenHandsUp(sc: Schema, w: When)
    requires WhenGrammatical(w) && WhenOrdinary(w)
    ensures ListThrough(sc, BuildWhen(w), LeftmostIn(w))
    decreases w, 3
  {
    hide Through, ListThrough, Build, Leftmost, Grammatical, Ordinary;
    AllHandUp(sc, w.cond);
    AllHandUp(sc, w.result);
    ListEmpty(sc);
    ListStep(sc, Build(w.result), [], Leftmost(w.result), None);
    assert First(Leftmost(w.result), None) == Leftmost(w.result);
    assert [Build(w.result)] + [] == [Build(w.result)];
    ListStep(sc, Build(w.cond), [Build(w.result)], Leftmost(w.cond), Leftmost(w.result));
    assert [Build(w.cond)] + [Build(w.result)] == BuildWhen(w);
  }

  // ---------------------------------------------------------------------------------------------
  // Kinds

  lemma OtherBuilt(sc: Schema, s: Sql)
    requires Grammatical(s) && Ordinary(s) && !(s.Name? || s.Paren? || s.Collate? || s.Cast? || s.Select?)
    requires !(s.Prefix? && s.op == TK_PLUS)
    ensures var e := Build(s);
      && Inner(e.op) && e.op != TK_SELECT && !IsHintCall(sc, e)
      && Affin(sc, s) == NoAffinity && ColumnCollation(sc, s) == None
  {
    hide Build, IsHint, Grammatical;
    OtherOp(s);
    if s.Call? {
      CallBuilt(sc, s.name, s.args);
    } else {
      BuiltOp(s);
    }
  }

  lemma CallBuilt(sc: Schema, name: string, args: seq<Sql>)
    requires !IsHint(name, |args|)
    ensures Build(Call(name, args)).op == TK_FUNCTION && !IsHintCall(sc, Build(Call(name, args)))
  {
    hide IsHint, BuildAll;
    BuildAllLength(args);
  }

  lemma OtherOp(s: Sql)
    requires Grammatical(s) && !(s.Name? || s.Alias? || s.Paren? || s.Collate? || s.Cast? || s.Select?)
    requires !(s.Prefix? && s.op == TK_PLUS)
    ensures Build(s).op != TK_CAST && Build(s).op != TK_UPLUS && Build(s).op != TK_SELECT
  {
    hide IntegerValue, BuildAll, BuildWhens, LikeNode, IsHint;
    if s.Like? {
      LikeBuilt(s.l, s.name, s.length, s.neg, s.r, s.escape);
    }
  }

  lemma {:induction false} AffinityIs(sc: Schema, s: Sql)
    requires Grammatical(s) && Ordinary(s)
    ensures ExprAffinity(sc, Build(s)) == Affin(sc, s)
  {
    hide IsHint, BuildAll, BuildWhens, IntegerValue, AllOrdinary, AllGrammatical, WhensOrdinary, WhensGrammatical;
    match s {
      case Paren(e) => AffinityIs(sc, e);
      case Collate(e, _) => AffinityIs(sc, e);
      case Name(_) =>
      case Cast(_, _) =>
      case Select(_) =>
      case Prefix(op, e) =>
        if op != TK_PLUS {
          OtherBuilt(sc, s);
        }
      case _ => OtherBuilt(sc, s);
    }
  }

  lemma CollationInner(sc: Schema, e: Expr)
    requires Inner(e.op) && !Flagged(e)
    ensures ExprCollation(sc, e) == None
  {}

  /** Without a COLLATE, the collating sequence of a node is that of its column. */
  lemma {:induction false} CollationIs(sc: Schema, s: Sql)
    requires Grammatical(s) && Ordinary(s) && Leftmost(s) == None
    ensures ExprCollation(sc, Build(s)) == ColumnCollation(sc, s)
  {
    hide IsHint, BuildAll, BuildWhens, IntegerValue, AllOrdinary, AllGrammatical, WhensOrdinary, WhensGrammatical,
         LeftmostOf, LeftmostWhen, InnerCollation, Flagged;
    match s {
      case Paren(e) => CollationIs(sc, e);
      case Name(_) =>
      case Cast(e, _) => CollationIs(sc, e);
      case Select(_) =>
        LeafThrough(sc, Build(s));
        CollationInner(sc, Build(s));
      case Prefix(op, e) =>
        if op == TK_PLUS {
          CollationIs(sc, e);
        } else {
          OtherCollation(sc, s);
        }
      case _ => OtherCollation(sc, s);
    }
  }

  lemma OtherCollation(sc: Schema, s: Sql)
    requires Grammatical(s) && Ordinary(s) && !(s.Name? || s.Paren? || s.Collate? || s.Cast? || s.Select?)
    requires !(s.Prefix? && s.op == TK_PLUS) && Leftmost(s) == None
    ensures ExprCollation(sc, Build(s)) == ColumnCollation(sc, s)
  {
    hide Grammatical, Ordinary, Leftmost, Build, ExprCollation, Flagged;
    OtherBuilt(sc, s);
    AllHandUp(sc, s);
    CollationInner(sc, Build(s));
  }

  /** The tree for an ordinary expression is compared as SQL says. */
  lemma KindIs(sc: Schema, s: Sql)
    requires Grammatical(s) && Ordinary(s)
    ensures ExprKind(sc, Build(s)) == SqlKind(sc, s)
  {
    hide Grammatical, Ordinary, Leftmost, Build, ExprCollation, Flagged, ExprAffinity, Affin, ColumnCollation;
    AffinityIs(sc, s);
    AllHandUp(sc, s);
    if Leftmost(s) == None {
      CollationIs(sc, s);
    }
  }

  lemma {:induction false} DirectBuilt(sc: Schema, s: Sql)
    requires Grammatical(s) && Ordinary(s) && Direct(s)
    ensures Inner(Build(s).op) || (Build(s).op == TK_ID && !IsAlias(Build(s)))
    ensures Build(s).op != TK_SELECT && !IsHintCall(sc, Build(s))
  {
    hide IsHint, BuildAll, BuildWhens, IntegerValue, AllOrdinary, AllGrammatical, WhensOrdinary, WhensGrammatical;
    if s.Paren? {
      DirectBuilt(sc, s.e);
    } else if !s.Name? {
      OtherBuilt(sc, s);
    }
  }

  /** A direct operand keeps its kind in a register. */
  lemma DirectKind(sc: Schema, s: Sql)
    requires Grammatical(s) && Ordinary(s) && Direct(s)
    ensures RegisterKind(sc, Build(s)) == SqlKind(sc, s)
  {
    hide Grammatical, Ordinary, Build, SqlKind, IsHint, InnerCollation, Flagged;
    DirectBuilt(sc, s);
    KindIs(sc, s);
  }

  /** A bare value marked generic takes no part in a comparison. */
  lemma StrayPlain(sc: Schema, s: Sql)
    requires Grammatical(s) && Ordinary(s) && Uncollated(s)
    ensures StrayKind(sc, s) == PLAIN
  {
    hide IsHint, AllOrdinary, AllGrammatical, WhensOrdinary, WhensGrammatical, ExprKind, Build;
  }

  // ---------------------------------------------------------------------------------------------
  // Every ordinary expression is rewritten rightly

  lemma ListIsKept(env: Environment, e: Sql, items: seq<Sql>)
    requires Grammatical(e) && Ordinary(e) && AllGrammatical(items) && AllOrdinary(items)
    requires |items| == 1 ==> Uncollated(items[0])
    ensures |items| == 1 ==> ItemKept(env, e, items[0])
    ensures forall v :: MemberKept(env, e, v)
  {
    hide Grammatical, Ordinary, Uncollated, Build, Meaning, ExprKind, SqlKind, StrayKind, CompareWay, MarkGeneric;
    var sc := env.schema;
    KindIs(sc, e);
    if |items| == 1 {
      StrayKindIs(sc, items[0]);
      StrayPlain(sc, items[0]);
    }
  }

  lemma RowsAreKept(env: Environment, e: Sql, select: int)
    requires Grammatical(e) && Ordinary(e)
    ensures RowsKept(env, e, select)
  {
    hide Grammatical, Ordinary, Build, ExprKind, SqlKind, Meaning, CompareWay;
    KindIs(env.schema, e);
  }

  lemma {:induction false} OrdinaryKept(env: Environment, s: Sql)
    requires Grammatical(s) && Ordinary(s)
    ensures Kept(env, s)
    decreases s, 1
  {
    hide PairKept, RegisterKept, ItemKept, MemberKept, RowsKept, IsHint, Direct, Uncollated, IsComparison, IsArithmetic,
         CallName, Kept;
    if OneOperand(s) {
      OrdinaryKept(env, s.e);
      OneOperandKept(env, s);
    } else {
      hide Grammatical, Ordinary;
      WiderKept(env, s);
    }
  }

  lemma OneOperandKept(env: Environment, s: Sql)
    requires OneOperand(s) && Kept(env, s.e)
    ensures Kept(env, s)
  {
    hide PairKept, RegisterKept, ItemKept, MemberKept, RowsKept, IsComparison;
  }

  /** Expressions of more than one operand. */
  lemma {:induction false} WiderKept(env: Environment, s: Sql)
    requires Grammatical(s) && Ordinary(s) && !OneOperand(s)
    ensures Kept(env, s)
    decreases s, 0
  {
    hide PairKept, RegisterKept, ItemKept, MemberKept, RowsKept, IsHint, Direct, Uncollated, IsComparison, IsArithmetic,
         CallName;
    match s {
      case Call(_, args) => AllOrdinaryKept(env, args);
      case Binary(_, l, r) =>
        PairIsKept(env, l, r);
        OrdinaryKept(env, l);
        OrdinaryKept(env, r);
      case Like(l, _, _, _, r, escape) =>
        OrdinaryKept(env, l);
        OrdinaryKept(env, r);
        if escape.Some? {
          OrdinaryKept(env, escape.value);
        }
      case Is(l, _, r) =>
        PairIsKept(env, l, r);
        OrdinaryKept(env, l);
        OrdinaryKept(env, r);
      case Between(e, _, lo, hi) =>
        OrdinaryKept(env, e);
        OrdinaryKept(env, lo);
        OrdinaryKept(env, hi);
        RegisterIsKept(env, e, lo);
        RegisterIsKept(env, e, hi);
      case InList(e, _, items) =>
        OrdinaryKept(env, e);
        AllOrdinaryKept(env, items);
        ListIsKept(env, e, items);
      case InSelect(e, _, select) =>
        OrdinaryKept(env, e);
        RowsAreKept(env, e, select);
      case Case(operand, whens, els) =>
        if operand.Some? {
          OrdinaryKept(env, operand.value);
        }
        if els.Some? {
          OrdinaryKept(env, els.value);
        }
        OrdinaryWhensKept(env, operand, whens);
      case _ =>
    }
  }

  lemma PairIsKept(env: Environment, l: Sql, r: Sql)
    requires Grammatical(l) && Ordinary(l) && Grammatical(r) && Ordinary(r)
    ensures PairKept(env, l, r)
  {
    hide Grammatical, Ordinary, Build, ExprKind, SqlKind, Meaning, CompareWay;
    KindIs(env.schema, l);
    KindIs(env.schema, r);
  }

  lemma RegisterIsKept(env: Environment, l: Sql, r: Sql)
    requires Grammatical(l) && Ordinary(l) && Direct(l) && Grammatical(r) && Ordinary(r)
    ensures RegisterKept(env, l, r)
  {
    hide Grammatical, Ordinary, Direct, Build, ExprKind, RegisterKind, SqlKind, Meaning, CompareWay;
    DirectKind(env.schema, l);
    KindIs(env.schema, r);
  }

  lemma {:induction false} AllOrdinaryKept(env: Environment, ss: seq<Sql>)
    requires AllGrammatical(ss) && AllOrdinary(ss)
    ensures AllKept(env, ss)
    decreases ss, 0
  {
    hide Grammatical, Ordinary, Kept;
    if ss != [] {
      OrdinaryKept(env, ss[0]);
      AllOrdinaryKept(env, ss[1..]);
    }
  }

  lemma {:induction false} OrdinaryWhensKept(env: Environment, operand: Option<Sql>, whens: seq<When>)
    requires WhensGrammatical(whens) && WhensOrdinary(whens)
    requires operand.Some? ==> Grammatical(operand.value) && Ordinary(operand.value) && Direct(operand.value)
    ensures WhensKept(env, operand, whens)
    decreases whens, 0
  {
    hide Grammatical, Ordinary, Direct, WhenGrammatical, WhenOrdinary, WhenKept;
    if whens != [] {
      OrdinaryWhenKept(env, operand, whens[0]);
      OrdinaryWhensKept(env, operand, whens[1..]);
    }
  }

  lemma {:induction false} OrdinaryWhenKept(env: Environment, operand: Option<Sql>, w: When)
    requires WhenGrammatical(w) && WhenOrdinary(w)
    requires operand.Some? ==> Grammatical(operand.value) && Ordinary(operand.value) && Direct(operand.value)
    ensures WhenKept(env, operand, w)
    decreases w, 3
  {
    hide Grammatical, Ordinary, Direct, Kept, RegisterKept;
    OrdinaryKept(env, w.cond);
    OrdinaryKept(env, w.result);
    if operand.Some? {
      RegisterIsKept(env, operand.value, w.cond);
    }
  }

  /** The tree that is built for an ordinary expression means it, in every environment. */
  lemma OrdinaryMeans(env: Environment, s: Sql)
    requires Grammatical(s) && Ordinary(s)
    ensures Eval(env, Build(s)) == Meaning(env, s)
  {
    hide Grammatical, Ordinary, Kept, Eval, Build, Meaning;
    OrdinaryKept(env, s);
    BuildMeans(env, s);
  }

  // ---------------------------------------------------------------------------------------------
  // The one-value IN, read off the text

  /** With an ordinary left side, a one-value IN or NOT IN is right under every order of the values if and
      only if a side is null, or what its value still contributes does not change the comparison. */
  lemma OneItemCondition(env: Environment, e: Sql, neg: bool, item: Sql)
    requires Grammatical(e) && Ordinary(e) && OrderFree(e) && Grammatical(item) && OrderFree(item)
    ensures (forall o: Order :: RightUnder(env, o, InList(e, neg, [item]))) <==>
      (|| Meaning(env, e) == Null || Meaning(env, item) == Null
       || CompareWay(SqlKind(env.schema, e), StrayKind(env.schema, item)) == MeantItemWay(env.schema, e))
  {
    hide RightUnder, Meaning, Build, ExprKind, SqlKind, StrayKind, CompareWay, OrderFree, Grammatical, Ordinary;
    OneItemExactly(env, e, neg, item);
    KindIs(env.schema, e);
    StrayKindIs(env.schema, item);
  }

  /** Another name for y, or y with a COLLATE or a likelihood. */
  predicate Dressed(sc: Schema, item: Sql, y: string) {
    || item == Alias(Name(y))
    || (item.Collate? && item.e == Name(y))
    || (item.Call? && item.args == [Name(y)] && Hint(sc, item.name, 1))
  }

  lemma DressedKind(sc: Schema, item: Sql, y: string)
    requires Dressed(sc, item, y)
    ensures OrderFree(item) && Grammatical(item)
    ensures StrayKind(sc, item).affinity == sc.columnAffinity(y)
  {
    hide IsHint;
    if item.Call? {
      assert item.args[1..] == [];
      assert OrderFree(Name(y)) && Grammatical(Name(y));
      assert AllOrderFree([]) && AllGrammatical([]);
      assert AllOrderFree(item.args) && AllGrammatical(item.args);
    }
  }

  /** So x IN (y COLLATE c), x IN (likely(y)) and x IN (alias of y) go wrong for a text column x and a numeric
      column y, although x IN (y) is right. */
  lemma DressedFails(env: Environment, x: string, neg: bool, item: Sql, y: string)
    requires Dressed(env.schema, item, y) && env.column(x) != Null && Meaning(env, item) != Null
    requires env.schema.columnAffinity(x) == TextAffinity && IsNumeric(env.schema.columnAffinity(y))
    ensures exists o: Order :: !RightUnder(env, o, InList(Name(x), neg, [item]))
    ensures Eval(env, Build(InList(Name(x), neg, [Name(y)]))) == Meaning(env, InList(Name(x), neg, [Name(y)]))
  {
    DressedKind(env.schema, item, y);
    assert SqlKind(env.schema, Name(x)).affinity == TextAffinity;
    hide RightUnder, Build, SqlKind, StrayKind, OrderFree, Eval;
    OneItemCondition(env, Name(x), neg, item);
    OneOrdinary(x, neg, y);
    hide Meaning, Grammatical, Ordinary;
    OrdinaryMeans(env, InList(Name(x), neg, [Name(y)]));
  }

  lemma OneOrdinary(x: string, neg: bool, y: string)
    ensures Grammatical(InList(Name(x), neg, [Name(y)])) && Ordinary(InList(Name(x), neg, [Name(y)]))
  {
    var items := [Name(y)];
    assert items[1..] == [];
    assert AllGrammatical([]) && AllOrdinary([]);
    assert AllGrammatical(items) && AllOrdinary(items);
  }

  /** x COLLATE c BETWEEN two numbers goes wrong for a text column x. */
  lemma CollatedBetweenFails(env: Environment, x: string, c: string, neg: bool, lo: nat, hi: nat)
    requires env.column(x) != Null && env.schema.columnAffinity(x) == TextAffinity
    ensures exists o: Order :: !RightUnder(env, o, Between(Collate(Name(x), c), neg, Number(lo), Number(hi)))
  {
    hide RightUnder;
    var sc, e := env.schema, Collate(Name(x), c);
    assert Grammatical(Name(x)) && OrderFree(Name(x)) && Affin(sc, Name(x)) == TextAffinity;
    BetweenExactly(env, e, neg, Number(lo), Number(hi));
    assert RegisterKind(sc, Build(e)).affinity == NoAffinity;
    assert SqlKind(sc, e).affinity == TextAffinity;
    NumberKind(sc, lo);
    assert Meaning(env, e) == Meaning(env, Name(x));
    hide ExprKind, RegisterKind, SqlKind;
    assert !RegisterKept(env, e, Number(lo));
  }

  lemma NumberKind(sc: Schema, n: nat)
    ensures ExprKind(sc, Build(Number(n))) == SqlKind(sc, Number(n)) == PLAIN
  {
    KindIs(sc, Number(n));
  }
}
