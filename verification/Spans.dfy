/** Source spans.  The actions of the expression rules record where an expression starts and ends in the
    text.  The start is always the start of the expression's first token.  The end is the end of its last
    token, except after `expr IN name(arguments)` at the right edge, where it stops at the name. */
module Spans {
  import opened Lemon
  import opened Certificate
  import opened Machine
  import opened Runs
  import Soundness

  const NM: nat := 152
  const DBNM: nat := 159
  const TERM: nat := 172
  const EXPR: nat := 173
  const PAREN_EXPRLIST: nat := 224
  const IN_NAME: nat := 194

  // ---------------------------------------------------------------------------------------------
  // What the actions record

  /** The rules whose action leaves zStart as the first operand has it; all others take it from their
      first token. */
  predicate StartsWithExpr(r: nat) {
    || r == 160 || 166 <= r <= 173 || 176 <= r <= 181 || r == 188 || r == 191 || r == 193 || r == IN_NAME
    || r == 310
  }

  /** The rules whose action takes zEnd from the last operand. */
  predicate EndsWithExpr(r: nat) {
    166 <= r <= 173 || 176 <= r <= 177 || 180 <= r <= 185 || r == 188 || r == 310
  }

  const NO_TOKEN: Token := Token(0, 0, 0)

  /** The token that a name stands for: itself, or what a rule for nm or dbnm passes on. */
  function NameToken(d: Tree): Token {
    match d
    case Leaf(tok) => tok
    case Node(_, kids) =>
      if kids == [] then NO_TOKEN else NameToken(kids[|kids| - 1])
  }

  function TokenEnd(tok: Token): nat {
    tok.z + tok.n
  }

  function Start(d: Tree): nat {
    match d
    case Leaf(tok) => tok.z
    case Node(r, kids) =>
      if kids == [] then 0
      else if StartsWithExpr(r) then Start(kids[0])
      else NameToken(kids[0]).z
  }

  function End(d: Tree): nat {
    match d
    case Leaf(tok) => TokenEnd(tok)
    case Node(r, kids) =>
      if r == IN_NAME && |kids| == 5 then
        if NameToken(kids[3]).z != 0 then TokenEnd(NameToken(kids[3])) else TokenEnd(NameToken(kids[2]))
      else if kids == [] then 0
      else if EndsWithExpr(r) then End(kids[|kids| - 1])
      else TokenEnd(NameToken(kids[|kids| - 1]))
  }

  /** The right edge is an IN with an argument list. */
  predicate EndsShort(d: Tree) {
    match d
    case Leaf(_) => false
    case Node(r, kids) =>
      if r == IN_NAME && |kids| == 5 then Yield(kids[4]) != []
      else EndsWithExpr(r) && kids != [] && EndsShort(kids[|kids| - 1])
  }

  // ---------------------------------------------------------------------------------------------
  // What the grammar has to look like for that

  predicate IsExpr(x: nat) {
    x == EXPR || x == TERM
  }

  predicate IsToken(slot: nat) {
    slot < FIRST_NONTERMINAL || YYNOCODE <= slot
  }

  predicate IsName(slot: nat) {
    IsToken(slot) || slot == NM
  }

  /** The rule for an expression begins and ends with what its action relies on. */
  predicate ExprRuleOk(rule: Rule, r: nat) {
    var n := |rule.rhs|;
    && n != 0
    && (if StartsWithExpr(r) then IsExpr(rule.rhs[0]) else IsName(rule.rhs[0]))
    && (if r == IN_NAME then n == 5 && rule.rhs[2] == NM && rule.rhs[3] == DBNM && rule.rhs[4] == PAREN_EXPRLIST
        else if EndsWithExpr(r) then IsExpr(rule.rhs[n - 1]) else IsName(rule.rhs[n - 1]))
  }

  predicate NameRuleOk(rule: Rule) {
    && (rule.lhs == NM ==> |rule.rhs| == 1 && IsToken(rule.rhs[0]))
    && (rule.lhs == DBNM ==> rule.rhs == [] || (|rule.rhs| == 2 && IsToken(rule.rhs[0]) && rule.rhs[1] == NM))
  }

  ghost predicate SpanGrammar(T: Tables, C: Cert) {
    && (forall r: nat :: r < |T.rules| && IsExpr(T.rules[r].lhs) ==> ExprRuleOk(T.rules[r], r))
    && (forall r: nat :: r < |T.rules| ==> NameRuleOk(T.rules[r]))
    && (forall slot: nat, z: nat :: C.covers(slot, z) && IsExpr(slot) ==> IsExpr(z))
    && (forall slot: nat, z: nat ::
          C.covers(slot, z) && (slot == NM || slot == DBNM || slot == PAREN_EXPRLIST) ==> z == slot)
  }

  /** Tokens as the tokenizer hands them over: nonempty, not at address zero, one after the other. */
  predicate InOrder(toks: seq<Token>) {
    && (forall i :: 0 <= i < |toks| ==> 1 <= toks[i].z && 1 <= toks[i].n)
    && (forall i, j :: 0 <= i < j < |toks| ==> TokenEnd(toks[i]) <= toks[j].z)
  }

  // ---------------------------------------------------------------------------------------------
  // Tokens and names

  lemma InOrderParts(a: seq<Token>, b: seq<Token>)
    requires InOrder(a + b)
    ensures InOrder(a) && InOrder(b)
    ensures a != [] && b != [] ==> TokenEnd(a[|a| - 1]) <= b[0].z
  {
    forall i | 0 <= i < |a| ensures a[i] == (a + b)[i] {}
    forall i | 0 <= i < |b| ensures b[i] == (a + b)[|a| + i] {}
  }

  /** A nonterminal on the stack stands for itself only. */
  lemma StandsForItself(T: Tables, x: nat, z: nat)
    requires Sized(T) && StandsFor(T, x, z)
    ensures FIRST_NONTERMINAL <= x || FIRST_NONTERMINAL <= z ==> x == z
  {
    if x < FALLBACK_COUNT {
      assert FallbackSettles(T.fallback, x);
    }
  }

  /** What fills a token slot is a single token. */
  lemma TokenSlot(T: Tables, C: Cert, slot: nat, d: Tree)
    requires Certified(T, C) && TreeOk(T, C, d) && Fits(T, C, slot, Root(T, d)) && IsToken(slot)
    ensures d.Leaf?
  {
    var z: nat :| StandsFor(T, Root(T, d), z) && C.covers(slot, z);
    CoverCases(T, C, slot, z);
    StandsForItself(T, Root(T, d), z);
    LeftSides(T, C);
  }

  lemma LeftSides(T: Tables, C: Cert)
    requires Certified(T, C)
    ensures forall r: nat :: r < |T.rules| ==> FIRST_NONTERMINAL <= T.rules[r].lhs < YYNOCODE
  {
    forall r: nat | r < |T.rules| ensures FIRST_NONTERMINAL <= T.rules[r].lhs < YYNOCODE {
      assert RuleOk(T, C, r);
    }
  }

  lemma CoverCases(T: Tables, C: Cert, slot: nat, z: nat)
    requires Certified(T, C) && C.covers(slot, z) && IsToken(slot)
    ensures Sized(T) && (slot == z || z < FIRST_NONTERMINAL)
  {
    assert CoverOk(T, C, slot, z);
    LeftSides(T, C);
  }

  /** Kid i of a value fills slot i of its rule. */
  lemma Kid(T: Tables, C: Cert, d: Tree, i: nat)
    requires TreeOk(T, C, d) && d.Node? && i < |d.kids|
    ensures d.rule < |T.rules| && |d.kids| == |T.rules[d.rule].rhs|
    ensures TreeOk(T, C, d.kids[i]) && Fits(T, C, T.rules[d.rule].rhs[i], Root(T, d.kids[i]))
  {}

  lemma YieldOne(d: Tree)
    ensures YieldAll([d]) == Yield(d)
  {
    assert [d][..0] == [];
  }

  lemma YieldParts(a: seq<Tree>, d: Tree, b: seq<Tree>)
    ensures YieldAll(a + ([d] + b)) == YieldAll(a) + Yield(d) + YieldAll(b)
  {
    YieldAllAppend(a, [d] + b);
    YieldAllAppend([d], b);
    YieldOne(d);
    hide Yield, YieldAll;
    assert YieldAll(a) + (Yield(d) + YieldAll(b)) == YieldAll(a) + Yield(d) + YieldAll(b);
  }

  lemma SplitAt<A>(s: seq<A>, i: nat)
    requires i < |s|
    ensures s == s[..i] + ([s[i]] + s[i + 1..])
  {}

  lemma YieldSplit(kids: seq<Tree>, i: nat)
    requires i < |kids|
    ensures YieldAll(kids) == YieldAll(kids[..i]) + Yield(kids[i]) + YieldAll(kids[i + 1..])
  {
    hide Yield, YieldAll;
    SplitAt(kids, i);
    YieldParts(kids[..i], kids[i], kids[i + 1..]);
  }

  /** What fills a name slot is a single token, the one the action uses. */
  lemma NameSlot(T: Tables, C: Cert, slot: nat, d: Tree)
    requires Certified(T, C) && SpanGrammar(T, C)
    requires TreeOk(T, C, d) && Fits(T, C, slot, Root(T, d)) && IsName(slot)
    ensures Yield(d) == [NameToken(d)]
    ensures !IsExpr(Root(T, d))
  {
    if IsToken(slot) {
      TokenSlot(T, C, slot, d);
    } else {
      RootIs(T, C, slot, d);
      match d
      case Leaf(tok) =>
      case Node(r, kids) =>
        assert NameRuleOk(T.rules[r]);
        Kid(T, C, d, 0);
        TokenSlot(T, C, T.rules[r].rhs[0], kids[0]);
        assert kids == [kids[0]];
        YieldOne(kids[0]);
    }
  }

  lemma RootIs(T: Tables, C: Cert, slot: nat, d: Tree)
    requires Certified(T, C) && SpanGrammar(T, C)
    requires Fits(T, C, slot, Root(T, d)) && (slot == NM || slot == DBNM || slot == PAREN_EXPRLIST)
    ensures Root(T, d) == slot
  {
    var z: nat :| StandsFor(T, Root(T, d), z) && C.covers(slot, z);
    StandsForItself(T, Root(T, d), z);
  }

  lemma ExprRoot(T: Tables, C: Cert, slot: nat, d: Tree)
    requires Certified(T, C) && SpanGrammar(T, C)
    requires Fits(T, C, slot, Root(T, d)) && IsExpr(slot)
    ensures IsExpr(Root(T, d))
  {
    var z: nat :| StandsFor(T, Root(T, d), z) && C.covers(slot, z);
    StandsForItself(T, Root(T, d), z);
  }

  /** A database name: nothing, or a dot and a name. */
  lemma DbnmSlot(T: Tables, C: Cert, d: Tree)
    requires Certified(T, C) && SpanGrammar(T, C)
    requires TreeOk(T, C, d) && Fits(T, C, DBNM, Root(T, d))
    ensures !IsExpr(Root(T, d))
    ensures (Yield(d) == [] && NameToken(d) == NO_TOKEN) || (|Yield(d)| == 2 && Yield(d)[1] == NameToken(d))
  {
    RootIs(T, C, DBNM, d);
    if d.Node? && d.kids != [] {
      assert NameRuleOk(T.rules[d.rule]);
      Kid(T, C, d, 0);
      Kid(T, C, d, 1);
      TokenSlot(T, C, T.rules[d.rule].rhs[0], d.kids[0]);
      NameSlot(T, C, NM, d.kids[1]);
      assert d.kids[..1] == [d.kids[0]];
      YieldOne(d.kids[0]);
    }
  }

  // ---------------------------------------------------------------------------------------------
  // Expressions

  /** The recorded span of d against the tokens that d was made from. */
  predicate Exact(d: Tree) {
    var toks := Yield(d);
    && toks != []
    && Start(d) == toks[0].z
    && Start(d) <= End(d) <= TokenEnd(toks[|toks| - 1])
    && (End(d) == TokenEnd(toks[|toks| - 1]) <==> !EndsShort(d))
  }

  lemma YieldFirst(r: nat, kids: seq<Tree>)
    requires kids != []
    ensures Yield(Node(r, kids)) == Yield(kids[0]) + YieldAll(kids[1..])
  {
    YieldSplit(kids, 0);
    assert kids[..0] == [];
  }

  lemma YieldLast(r: nat, kids: seq<Tree>)
    requires kids != []
    ensures Yield(Node(r, kids)) == YieldAll(kids[..|kids| - 1]) + Yield(kids[|kids| - 1])
  {}

  /** The first token comes from the first symbol. */
  lemma StartPart(d: Tree, first: seq<Token>, others: seq<Token>)
    requires d.Node? && d.kids != [] && Yield(d) == first + others
    requires StartsWithExpr(d.rule) ==> first == Yield(d.kids[0]) && Exact(d.kids[0])
    requires !StartsWithExpr(d.rule) ==> first == [NameToken(d.kids[0])]
    ensures Yield(d) != [] && Start(d) == Yield(d)[0].z
  {
    hide Yield, End, EndsShort;
  }

  lemma EndUnfold(d: Tree)
    requires d.Node? && d.kids != [] && d.rule != IN_NAME
    ensures EndsWithExpr(d.rule) ==>
              End(d) == End(d.kids[|d.kids| - 1]) && EndsShort(d) == EndsShort(d.kids[|d.kids| - 1])
    ensures !EndsWithExpr(d.rule) ==> End(d) == TokenEnd(NameToken(d.kids[|d.kids| - 1])) && !EndsShort(d)
  {}

  /** The last token comes from the last symbol. */
  lemma EndPart(d: Tree, others: seq<Token>, last: seq<Token>)
    requires d.Node? && d.kids != [] && d.rule != IN_NAME && Yield(d) == others + last
    requires InOrder(Yield(d)) && Yield(d) != [] && Start(d) == Yield(d)[0].z
    requires EndsWithExpr(d.rule) ==> last == Yield(d.kids[|d.kids| - 1]) && Exact(d.kids[|d.kids| - 1])
    requires !EndsWithExpr(d.rule) ==> last == [NameToken(d.kids[|d.kids| - 1])]
    ensures Exact(d)
  {
    EndUnfold(d);
    hide Yield, Start, End, EndsShort, NameToken;
    var toks, n := Yield(d), |others|;
    assert toks[n] == last[0] && toks[|toks| - 1] == last[|last| - 1];
    assert n == 0 || toks[0].z <= toks[n].z;
  }

  /** IN with a table name: the end is that of the name, argument list or not. */
  lemma InNamePart(d: Tree, before: seq<Token>, nm: Token, db: seq<Token>, args: seq<Token>)
    requires d.Node? && d.rule == IN_NAME && |d.kids| == 5
    requires NameToken(d.kids[2]) == nm && Yield(d.kids[4]) == args
    requires (db == [] && NameToken(d.kids[3]) == NO_TOKEN) || (|db| == 2 && db[1] == NameToken(d.kids[3]))
    requires Yield(d) == before + [nm] + db + args && InOrder(Yield(d)) && Start(d) == Yield(d)[0].z
    ensures Exact(d)
  {
    hide Yield;
    var toks := Yield(d);
    var k := |before| + |db|;
    assert toks[k] == if db == [] then nm else db[1];
    assert k == 0 || toks[0].z <= toks[k].z;
    assert args != [] ==> TokenEnd(toks[k]) <= toks[|toks| - 1].z;
  }

  lemma YieldFive(d: Tree)
    requires d.Node? && |d.kids| == 5
    ensures Yield(d) == YieldAll(d.kids[..2]) + Yield(d.kids[2]) + Yield(d.kids[3]) + Yield(d.kids[4])
  {
    hide Yield, YieldAll;
    var kids := d.kids;
    assert Yield(d) == YieldAll(kids) by { YieldNode(d); }
    YieldSplit(kids, 4);
    YieldSplit(kids[..4], 3);
    YieldSplit(kids[..3], 2);
    assert kids[..4][..3] == kids[..3] && kids[..3][..2] == kids[..2];
    assert kids[4 + 1..] == [] && kids[..4][3 + 1..] == [] && kids[..3][2 + 1..] == [];
    NoYield();
  }

  lemma YieldNode(d: Tree)
    requires d.Node?
    ensures Yield(d) == YieldAll(d.kids)
  {}

  lemma NoYield()
    ensures YieldAll([]) == []
  {}

  lemma ExprNode(T: Tables, C: Cert, d: Tree)
    requires Certified(T, C) && SpanGrammar(T, C) && TreeOk(T, C, d) && IsExpr(Root(T, d))
    ensures d.Node? && d.rule < |T.rules| && ExprRuleOk(T.rules[d.rule], d.rule)
    ensures |d.kids| == |T.rules[d.rule].rhs| && d.kids != []
  {}

  /** Every expression's start is exact, and its end is exact unless its right edge is an IN with an
      argument list. */
  lemma {:induction false} SpanExact(T: Tables, C: Cert, d: Tree)
    requires Certified(T, C) && SpanGrammar(T, C)
    requires TreeOk(T, C, d) && IsExpr(Root(T, d)) && InOrder(Yield(d))
    ensures Exact(d)
  {
    ExprNode(T, C, d);
    hide Certified, SpanGrammar, TreeOk, Yield, YieldAll, Start, End, EndsShort, NameToken, InOrder, Exact, Fits, Root;
    var r, kids, rhs := d.rule, d.kids, T.rules[d.rule].rhs;
    var n := |kids|;
    Kid(T, C, d, 0);
    YieldFirst(r, kids);
    InOrderParts(Yield(kids[0]), YieldAll(kids[1..]));
    if StartsWithExpr(r) {
      ExprRoot(T, C, rhs[0], kids[0]);
      SpanExact(T, C, kids[0]);
    } else {
      NameSlot(T, C, rhs[0], kids[0]);
    }
    StartPart(d, Yield(kids[0]), YieldAll(kids[1..]));
    if r == IN_NAME {
      Kid(T, C, d, 2);
      Kid(T, C, d, 3);
      NameSlot(T, C, NM, kids[2]);
      DbnmSlot(T, C, kids[3]);
      YieldFive(d);
      InNamePart(d, YieldAll(kids[..2]), NameToken(kids[2]), Yield(kids[3]), Yield(kids[4]));
    } else {
      Kid(T, C, d, n - 1);
      YieldLast(r, kids);
      InOrderParts(YieldAll(kids[..n - 1]), Yield(kids[n - 1]));
      if EndsWithExpr(r) {
        ExprRoot(T, C, rhs[n - 1], kids[n - 1]);
        SpanExact(T, C, kids[n - 1]);
      } else {
        NameSlot(T, C, rhs[n - 1], kids[n - 1]);
      }
      EndPart(d, YieldAll(kids[..n - 1]), Yield(kids[n - 1]));
    }
  }

  // ---------------------------------------------------------------------------------------------
  // Nesting

  /** Some of the tokens of a text lie within it. */
  lemma Within(a: seq<Token>, own: seq<Token>, b: seq<Token>)
    requires InOrder(a + own + b) && own != []
    ensures InOrder(own)
    ensures var toks := a + own + b;
      toks[0].z <= own[0].z && TokenEnd(own[|own| - 1]) <= TokenEnd(toks[|toks| - 1])
  {
    InOrderParts(a + own, b);
    InOrderParts(a, own);
    var toks, k := a + own + b, |a|;
    assert toks[k] == own[0] && toks[k + |own| - 1] == own[|own| - 1];
  }

  /** Where the tokens of kid i lie among those of the kids before kid m. */
  lemma KidBefore(kids: seq<Tree>, m: nat, i: nat)
    requires i < m <= |kids| && InOrder(YieldAll(kids[..m])) && Yield(kids[i]) != []
    ensures InOrder(Yield(kids[i]))
    ensures var toks, own := YieldAll(kids[..m]), Yield(kids[i]);
      toks != [] && toks[0].z <= own[0].z && TokenEnd(own[|own| - 1]) <= TokenEnd(toks[|toks| - 1])
  {
    hide Yield, YieldAll, InOrder;
    YieldSplit(kids[..m], i);
    Within(YieldAll(kids[..m][..i]), Yield(kids[i]), YieldAll(kids[..m][i + 1..]));
  }

  /** In an IN with a table name, only the kids before the name can be expressions. */
  lemma InNameKid(T: Tables, C: Cert, d: Tree, i: nat)
    requires Certified(T, C) && SpanGrammar(T, C)
    requires TreeOk(T, C, d) && IsExpr(Root(T, d)) && d.rule == IN_NAME
    requires i < |d.kids| && IsExpr(Root(T, d.kids[i]))
    ensures i < 2
  {
    ExprNode(T, C, d);
    Kid(T, C, d, i);
    if i == 2 {
      NameSlot(T, C, NM, d.kids[2]);
    } else if i == 3 {
      DbnmSlot(T, C, d.kids[3]);
    } else if i == 4 {
      RootIs(T, C, PAREN_EXPRLIST, d.kids[4]);
    }
  }

  lemma NameAfter(before: seq<Token>, nm: Token, db: seq<Token>, args: seq<Token>)
    requires InOrder(before + [nm] + db + args)
    ensures InOrder(before) && 1 <= nm.z && (db != [] ==> 1 <= db[|db| - 1].z)
    ensures before != [] ==> TokenEnd(before[|before| - 1]) <= TokenEnd(nm)
    ensures before != [] && db != [] ==> TokenEnd(before[|before| - 1]) <= TokenEnd(db[|db| - 1])
  {
    InOrderParts(before + [nm] + db, args);
    InOrderParts(before + [nm], db);
    InOrderParts(before, [nm]);
    assert [nm][0] == nm;
  }

  lemma InNameEndIs(d: Tree)
    requires d.Node? && d.rule == IN_NAME && |d.kids| == 5
    ensures End(d) ==
        if NameToken(d.kids[3]).z != 0 then TokenEnd(NameToken(d.kids[3])) else TokenEnd(NameToken(d.kids[2]))
  {}

  /** The recorded end is not before the end of the tokens in front of the name. */
  lemma InNameEnd(T: Tables, C: Cert, d: Tree)
    requires Certified(T, C) && SpanGrammar(T, C)
    requires TreeOk(T, C, d) && IsExpr(Root(T, d)) && d.rule == IN_NAME && InOrder(Yield(d))
    ensures |d.kids| == 5 && InOrder(YieldAll(d.kids[..2]))
    ensures var toks := YieldAll(d.kids[..2]); toks != [] ==> TokenEnd(toks[|toks| - 1]) <= End(d)
  {
    hide Certified, SpanGrammar, TreeOk, Yield, YieldAll, NameToken, Fits, Root, Start, End, EndsShort, InOrder;
    ExprNode(T, C, d);
    var kids := d.kids;
    Kid(T, C, d, 2);
    Kid(T, C, d, 3);
    NameSlot(T, C, NM, kids[2]);
    DbnmSlot(T, C, kids[3]);
    YieldFive(d);
    NameAfter(YieldAll(kids[..2]), NameToken(kids[2]), Yield(kids[3]), Yield(kids[4]));
    InNameEndIs(d);
  }

  lemma OperandEnd(T: Tables, C: Cert, d: Tree)
    requires Certified(T, C) && SpanGrammar(T, C)
    requires TreeOk(T, C, d) && IsExpr(Root(T, d)) && d.rule != IN_NAME && EndsWithExpr(d.rule) && InOrder(Yield(d))
    ensures d.kids != [] && InOrder(YieldAll(d.kids[..|d.kids| - 1])) && End(d) == End(d.kids[|d.kids| - 1])
    ensures var toks := YieldAll(d.kids[..|d.kids| - 1]); toks != [] ==> TokenEnd(toks[|toks| - 1]) <= End(d)
  {
    ExprNode(T, C, d);
    var n := |d.kids|;
    Kid(T, C, d, n - 1);
    ExprRoot(T, C, T.rules[d.rule].rhs[n - 1], d.kids[n - 1]);
    YieldLast(d.rule, d.kids);
    InOrderParts(YieldAll(d.kids[..n - 1]), Yield(d.kids[n - 1]));
    SpanExact(T, C, d.kids[n - 1]);
    EndUnfold(d);
    hide Certified, SpanGrammar, TreeOk, Yield, YieldAll, NameToken, Fits, Root, Start, End;
  }

  /** The span of every operand lies within the span of the expression. */
  lemma SpansNest(T: Tables, C: Cert, d: Tree, i: nat)
    requires Certified(T, C) && SpanGrammar(T, C)
    requires TreeOk(T, C, d) && IsExpr(Root(T, d)) && InOrder(Yield(d))
    requires d.Node? && i < |d.kids| && IsExpr(Root(T, d.kids[i]))
    ensures Start(d) <= Start(d.kids[i]) && End(d.kids[i]) <= End(d)
  {
    hide Certified, SpanGrammar, TreeOk, Yield, YieldAll, NameToken, Fits, Root, Start, End, EndsShort, InOrder;
    ExprNode(T, C, d);
    var kids := d.kids;
    var n := |kids|;
    Kid(T, C, d, i);
    YieldNode(d);
    assert kids[..n] == kids;
    KidInOrder(kids, i);
    SpanExact(T, C, kids[i]);
    KidBefore(kids, n, i);
    SpanExact(T, C, d);
    if d.rule == IN_NAME {
      InNameKid(T, C, d, i);
      InNameEnd(T, C, d);
      KidBefore(kids, 2, i);
    } else if !EndsWithExpr(d.rule) {
      EndUnfold(d);
    } else {
      OperandEnd(T, C, d);
      if i < n - 1 {
        KidBefore(kids, n - 1, i);
      }
    }
  }

  lemma KidInOrder(kids: seq<Tree>, i: nat)
    requires i < |kids| && InOrder(YieldAll(kids))
    ensures InOrder(Yield(kids[i]))
  {
    if Yield(kids[i]) != [] {
      assert kids[..|kids|] == kids;
      KidBefore(kids, |kids|, i);
    }
  }

  /** The values the machine has on its stack agree with the rules that built them. */
  lemma OnStack(T: Tables, C: Cert, stack: seq<Entry>, i: nat)
    requires Certified(T, C) && Inv(T, C, stack) && 1 <= i < |stack|
    ensures TreeOk(T, C, stack[i].minor) && Root(T, stack[i].minor) == stack[i].major
  {}

  /** So whenever tokens in order have been taken in undisturbed, every expression on the stack has the
      right span. */
  lemma StackSpans(T: Tables, C: Cert, toks: seq<Token>, i: nat)
    requires Certified(T, C) && SpanGrammar(T, C)
    requires AllTerminal(toks) && InOrder(toks) && Soundness.Undisturbed(Feed(T, C, toks).log)
    requires 1 <= i < |Feed(T, C, toks).stack| && IsExpr(Feed(T, C, toks).stack[i].major)
    ensures Exact(Feed(T, C, toks).stack[i].minor)
  {
    hide Certified, SpanGrammar, TreeOk, Inv, WellFormed, Feed, Yield, YieldAll, InOrder, Exact, Soundness.Undisturbed;
    var c := Feed(T, C, toks);
    Soundness.FeedFaithful(T, C, toks);
    Soundness.FeedPending(T, C, toks);
    OnStack(T, C, c.stack, i);
    var minors := Minors(c.stack[1..]);
    assert minors[i - 1] == c.stack[i].minor;
    KidInOrder(minors, i - 1);
    SpanExact(T, C, c.stack[i].minor);
  }
}
