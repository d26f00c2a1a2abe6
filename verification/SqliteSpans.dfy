/** The shipped grammar has the shape that the spans rely on. */
module SqliteSpans {
  import opened Lemon
  import opened Certificate
  import opened Packed
  import opened PackedCertified
  import opened Spans
  import SqliteParser
  import Rules = SqliteRuleChecks
  import S = SqliteTables
  import K = SqliteCertificate

  predicate IsExprCode(x: int) {
    x == EXPR || x == TERM
  }

  predicate IsTokenCode(x: int) {
    x < FIRST_NONTERMINAL || YYNOCODE <= x
  }

  /** What ExprRuleOk asks of rule r with left-hand side a, length l, first slot f and last slot e. */
  predicate ExprShape(r: nat, l: int, f: int, e: int) {
    && 0 < l
    && (if StartsWithExpr(r) then IsExprCode(f) else IsTokenCode(f) || f == NM)
    && (if r == IN_NAME then l == 5 else if EndsWithExpr(r) then IsExprCode(e) else IsTokenCode(e) || e == NM)
  }

  lemma ExprRules0(r: nat, l: int, f: int, e: int)
    requires 0 <= r < 172 && IsExprCode(S.Lhs(r)) && l == S.Length(r) && f == S.Slot(16 * r + 1) &&
        e == S.Slot(16 * r + l)
    ensures ExprShape(r, l, f, e)
  {}

  lemma ExprRules172(r: nat, l: int, f: int, e: int)
    requires 172 <= r < 190 && IsExprCode(S.Lhs(r)) && l == S.Length(r) && f == S.Slot(16 * r + 1) &&
        e == S.Slot(16 * r + l)
    ensures ExprShape(r, l, f, e)
  {}

  lemma ExprRules190(r: nat, l: int, f: int, e: int)
    requires 190 <= r < YYNRULE && IsExprCode(S.Lhs(r)) && l == S.Length(r) && f == S.Slot(16 * r + 1) &&
        e == S.Slot(16 * r + l)
    ensures ExprShape(r, l, f, e)
  {}

  lemma InNameRule()
    ensures S.Slot(3107) == NM && S.Slot(3108) == DBNM && S.Slot(3109) == PAREN_EXPRLIST
  {}

  lemma NameRules(r: int, a: int, l: int, f: int, e: int)
    requires 0 <= r < YYNRULE && a == S.Lhs(r) && l == S.Length(r) && f == S.Slot(16 * r + 1) && e == S.Slot(16 * r + 2)
    ensures a == NM ==> l == 1 && IsTokenCode(f)
    ensures a == DBNM ==> l == 0 || (l == 2 && IsTokenCode(f) && e == NM)
  {}

  lemma CoverShape(c: int, z: int)
    requires K.Covers(c, z)
    ensures IsExprCode(c) ==> IsExprCode(z)
    ensures c == NM || c == DBNM || c == PAREN_EXPRLIST ==> z == c
  {}

  /** What the spans ask of rule r. */
  predicate ShapeAt(lhs: Fn, length: Fn, slot: Fn, r: nat) {
    && (IsExprCode(lhs(r)) ==> ExprShape(r, length(r), slot(16 * r + 1), slot(16 * r + length(r))))
    && (lhs(r) == NM ==> length(r) == 1 && IsTokenCode(slot(16 * r + 1)))
    && (lhs(r) == DBNM ==>
          length(r) == 0 || (length(r) == 2 && IsTokenCode(slot(16 * r + 1)) && slot(16 * r + 2) == NM))
  }

  predicate InNameShape(slot: Fn) {
    slot(3107) == NM && slot(3108) == DBNM && slot(3109) == PAREN_EXPRLIST
  }

  ghost predicate SpanShape(lhs: Fn, length: Fn, slot: Fn, covers: Rel) {
    && (forall r :: 0 <= r < YYNRULE ==> ShapeAt(lhs, length, slot, r))
    && InNameShape(slot)
    && (forall c: nat, z: nat :: covers(c, z) ==>
          (IsExprCode(c) ==> IsExprCode(z)) && (c == NM || c == DBNM || c == PAREN_EXPRLIST ==> z == c))
  }

  lemma ShippedShape()
    ensures SpanShape(S.Lhs, S.Length, S.Slot, K.Covers)
  {
    hide S.Lhs, S.Length, S.Slot, K.Covers, ExprShape;
    InNameRule();
    forall r | 0 <= r < YYNRULE ensures ShapeAt(S.Lhs, S.Length, S.Slot, r) {
      var l := S.Length(r);
      if IsExprCode(S.Lhs(r)) {
        if r < 172 {
          ExprRules0(r, l, S.Slot(16 * r + 1), S.Slot(16 * r + l));
        } else if r < 190 {
          ExprRules172(r, l, S.Slot(16 * r + 1), S.Slot(16 * r + l));
        } else {
          ExprRules190(r, l, S.Slot(16 * r + 1), S.Slot(16 * r + l));
        }
      }
      NameRules(r, S.Lhs(r), l, S.Slot(16 * r + 1), S.Slot(16 * r + 2));
    }
    forall c: nat, z: nat | K.Covers(c, z)
      ensures (IsExprCode(c) ==> IsExprCode(z)) && (c == NM || c == DBNM || c == PAREN_EXPRLIST ==> z == c)
    {
      CoverShape(c, z);
    }
  }

  lemma RuleSlot(P: Automaton, r: nat, k: nat, i: int)
    requires SlotsInRules(P.slot, P.length) && r < YYNRULE && k < P.length(r) && i == 16 * r + (k + 1)
    ensures |RuleAt(P, r).rhs| == P.length(r) && RuleAt(P, r).rhs[k] == P.slot(i)
  {
    var c := 16 * r;
    var j := c + k + 1;
    assert Slots(P.slot, c, P.length(r))[k] == Nat(P.slot(j));
    assert j == i;
  }

  lemma RuleFromShape(P: Automaton, r: nat, l: nat, rule: Rule)
    requires ShapeAt(P.lhs, P.length, P.slot, r) && (r == IN_NAME ==> InNameShape(P.slot))
    requires l == P.length(r) == |rule.rhs| && rule.lhs == P.lhs(r)
    requires 0 < l ==> rule.rhs[0] == P.slot(16 * r + 1) && rule.rhs[l - 1] == P.slot(16 * r + l)
    requires r == IN_NAME && l == 5 ==>
               rule.rhs[2] == P.slot(3107) && rule.rhs[3] == P.slot(3108) && rule.rhs[4] == P.slot(3109)
    ensures (IsExpr(rule.lhs) ==> ExprRuleOk(rule, r)) && NameRuleOk(rule)
  {}

  lemma RuleFacts(P: Automaton, r: nat)
    requires SlotsInRules(P.slot, P.length) && RulesShaped(P.length, P.lhs) && r < YYNRULE
    requires SpanShape(P.lhs, P.length, P.slot, P.covers)
    ensures ShapeAt(P.lhs, P.length, P.slot, r) && InNameShape(P.slot)
    ensures 0 <= P.length(r) == |RuleAt(P, r).rhs| && RuleAt(P, r).lhs == P.lhs(r)
  {
    hide ShapeAt, InNameShape;
    assert 0 <= P.length(r) && FIRST_NONTERMINAL <= P.lhs(r);
  }

  lemma RuleHasShape(P: Automaton, r: nat)
    requires SlotsInRules(P.slot, P.length) && RulesShaped(P.length, P.lhs) && r < YYNRULE
    requires SpanShape(P.lhs, P.length, P.slot, P.covers)
    ensures var rule := RuleAt(P, r); (IsExpr(rule.lhs) ==> ExprRuleOk(rule, r)) && NameRuleOk(rule)
  {
    hide SlotsInRules, RulesShaped, SpanShape, ShapeAt, InNameShape, ExprRuleOk, NameRuleOk, IsExpr, RuleAt;
    RuleFacts(P, r);
    var l: nat := P.length(r);
    if 0 < l {
      RuleSlot(P, r, 0, 16 * r + 1);
      RuleSlot(P, r, l - 1, 16 * r + l);
    }
    if r == IN_NAME && l == 5 {
      RuleSlot(P, r, 2, 3107);
      RuleSlot(P, r, 3, 3108);
      RuleSlot(P, r, 4, 3109);
    }
    RuleFromShape(P, r, l, RuleAt(P, r));
  }

  lemma FromShape(T: Tables, P: Automaton)
    requires Holds(T, P) && SlotsInRules(P.slot, P.length) && RulesShaped(P.length, P.lhs)
    requires SpanShape(P.lhs, P.length, P.slot, P.covers)
    ensures SpanGrammar(T, CertOf(P))
  {
    hide SlotsInRules, ExprRuleOk, NameRuleOk;
    forall r: nat | r < |T.rules|
      ensures (IsExpr(T.rules[r].lhs) ==> ExprRuleOk(T.rules[r], r)) && NameRuleOk(T.rules[r])
    {
      RuleHasShape(P, r);
    }
  }

  lemma ShippedSpanGrammar()
    ensures SpanGrammar(SqliteParser.TABLES, SqliteParser.CERT)
  {
    hide S.Lhs, S.Length, S.Slot, S.Action, S.Lookahead, S.ShiftOfst, S.ReduceOfst, S.Default, S.Fallback;
    hide K.ItemOf, K.MainKey, K.ExtraKey, K.ShiftRowItem, K.GotoRowItem, K.ShiftRowKey, K.GotoRowKey, K.SuffixPair,
         K.Suffix, K.Covers, K.Weight;
    var P := SqliteParser.AUTOMATON;
    ShippedShape();
    Rules.SlotsAreInRules();
    Rules.RulesAreShaped();
    TablesHold(P);
    FromShape(SqliteParser.TABLES, P);
  }

  /** In the shipped parser, every expression on the stack has the right span. */
  lemma ShippedSpans(toks: seq<Token>, i: nat)
    requires Runs.AllTerminal(toks) && InOrder(toks)
    ensures Certified(SqliteParser.TABLES, SqliteParser.CERT) == true
    ensures var c := Runs.Feed(SqliteParser.TABLES, SqliteParser.CERT, toks);
      Soundness.Undisturbed(c.log) && 1 <= i < |c.stack| && IsExpr(c.stack[i].major) ==> Exact(c.stack[i].minor)
  {
    hide *;
    SqliteParser.ShippedTablesAreCertified();
    ShippedSpanGrammar();
    var c := Runs.Feed(SqliteParser.TABLES, SqliteParser.CERT, toks);
    if Soundness.Undisturbed(c.log) && 1 <= i < |c.stack| && IsExpr(c.stack[i].major) {
      StackSpans(SqliteParser.TABLES, SqliteParser.CERT, toks, i);
    }
  }
}
