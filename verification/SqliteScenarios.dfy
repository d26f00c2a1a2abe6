/** The two scenarios on the shipped tables. */
module SqliteScenarios {
  import opened Lemon
  import opened TokenCodes
  import opened Certificate
  import opened Packed
  import opened PackedCertified
  import opened Scenarios
  import opened Spans
  import SqliteParser
  import S = SqliteTables
  import K = SqliteCertificate

  // ---------------------------------------------------------------------------------------------
  // Cells of the tables

  /** State s has its own entry for terminal x, at offset o. */
  predicate Hits(shiftOfst: Fn, lookahead: Fn, action: Fn, s: int, x: int, o: int, act: int) {
    shiftOfst(s) == o && 0 <= o + x < YY_ACTTAB_COUNT && lookahead(o + x) == x && action(o + x) == act
  }

  /** State s has no entry for terminal x, which has no fallback, nor for the wildcard. */
  predicate Defaults(shiftOfst: Fn, lookahead: Fn, dflt: Fn, fallback: Fn, s: int, x: int, o: int, act: int) {
    && shiftOfst(s) == o && dflt(s) == act && (x < FALLBACK_COUNT ==> fallback(x) == 0)
    && (o + x < YY_ACTTAB_COUNT ==> lookahead(o + x) != x)
    && (o + YYWILDCARD < YY_ACTTAB_COUNT ==> lookahead(o + YYWILDCARD) != YYWILDCARD)
  }

  /** State s has a goto, at offset o, on the left-hand side of rule r. */
  predicate Goes(lhs: Fn, reduceOfst: Fn, lookahead: Fn, action: Fn, s: int, r: int, a: int, o: int, act: int) {
    && lhs(r) == a && reduceOfst(s) == o && o != YY_REDUCE_USE_DFLT
    && 0 <= o + a < YY_ACTTAB_COUNT && lookahead(o + a) == a && action(o + a) == act
  }

  predicate HitIn(P: Automaton, s: int, x: int, o: int, act: int) {
    Hits(P.shiftOfst, P.lookahead, P.action, s, x, o, act)
  }

  predicate DefaultIn(P: Automaton, s: int, x: int, o: int, act: int) {
    Defaults(P.shiftOfst, P.lookahead, P.dflt, P.fallback, s, x, o, act)
  }

  predicate GotoIn(P: Automaton, s: int, r: int, a: int, o: int, act: int) {
    Goes(P.lhs, P.reduceOfst, P.lookahead, P.action, s, r, a, o, act)
  }

  /** What the scenario of nested parentheses uses. */
  predicate NestingCells(P: Automaton) {
    && HitIn(P, 23, TK_SELECT, 542, 242)
    && HitIn(P, 58, TK_LP, 705, 3)
    && HitIn(P, 3, TK_LP, 612, 3)
    && HitIn(P, 120, TK_SELECT, 113, 242)
    && HitIn(P, 58, TK_ID, 705, 356)
    && DefaultIn(P, 0, TK_SELECT, 40, 1285)
    && DefaultIn(P, 2, TK_SELECT, 904, 1275)
    && DefaultIn(P, 242, TK_LP, 1152, 1094)
    && DefaultIn(P, 168, TK_LP, 1570, 1095)
    && DefaultIn(P, 3, TK_SELECT, 612, 1275)
    && DefaultIn(P, 242, TK_ID, 1152, 1094)
    && DefaultIn(P, 168, TK_ID, 1570, 1095)
    && DefaultIn(P, 356, TK_RP, 1195, 1156)
    && DefaultIn(P, 9, TK_RP, -19, 1100)
    && GotoIn(P, 0, NO_EXPLAIN, 147, -29, 2)
    && GotoIn(P, 2, NO_WITH, 196, 525, 23)
    && GotoIn(P, 242, NO_DISTINCT, 198, 1153, 168)
    && GotoIn(P, 168, NO_SCLP, 209, 557, 58)
    && GotoIn(P, 3, NO_WITH, 196, 605, 120)
    && GotoIn(P, 58, NAME_EXPR, 173, 783, 9)
    && P.length(NO_EXPLAIN) == 0
    && P.length(NO_WITH) == 0
    && P.length(NO_DISTINCT) == 0
    && P.length(NO_SCLP) == 0
    && P.length(NAME_EXPR) == 1
    && P.length(NO_AS) == 0
  }

  /** What the scenario of the short end uses besides. */
  predicate InNameCells(P: Automaton) {
    && HitIn(P, 9, TK_IN, -19, 861)
    && HitIn(P, 178, TK_ID, 851, 962)
    && HitIn(P, 301, TK_LP, 1394, 6)
    && HitIn(P, 6, TK_INTEGER, 760, 830)
    && HitIn(P, 431, TK_RP, 1521, 879)
    && HitIn(P, 9, TK_PLUS, -19, 95)
    && DefaultIn(P, 356, TK_IN, 1195, 1156)
    && DefaultIn(P, 302, TK_LP, 1238, 1109)
    && DefaultIn(P, 52, TK_RP, 459, 1209)
    && DefaultIn(P, 432, TK_RP, 1514, 1315)
    && GotoIn(P, 9, PLAIN_IN, 223, 435, 178)
    && GotoIn(P, 178, NAME, 152, 364, 302)
    && GotoIn(P, 302, NO_DBNM, 159, 1269, 301)
    && GotoIn(P, 6, INTEGER_TERM, 172, 491, 52)
    && GotoIn(P, 6, ONE_EXPR, 207, 491, 432)
    && GotoIn(P, 6, EXPR_LIST, 208, 491, 431)
    && GotoIn(P, 301, PAREN_LIST, 224, 1208, 866)
    && GotoIn(P, 58, IN_NAME, 173, 783, 9)
    && P.length(PLAIN_IN) == 1
    && P.length(NAME) == 1
    && P.length(NO_DBNM) == 0
    && P.length(INTEGER_TERM) == 1
    && P.length(ONE_EXPR) == 1
    && P.length(EXPR_LIST) == 1
    && P.length(PAREN_LIST) == 3
    && P.length(IN_NAME) == 5
    && P.lhs(IN_NAME) == EXPR
  }

  // ---------------------------------------------------------------------------------------------
  // From cells to moves

  lemma HitAnswers(T: Tables, P: Automaton, s: nat, x: nat, o: int, act: nat)
    requires Sized(T) && Holds(T, P) && s < YYNSTATE && x < YYNOCODE && HitIn(P, s, x, o, act)
    ensures Answers(T, s, x, act)
  {
    assert Hit(T, T.shiftOfst[s], x);
    assert x in PlainRow(T, s);
  }

  lemma DefaultAnswers(T: Tables, P: Automaton, s: nat, x: nat, o: int, act: nat)
    requires Sized(T) && Holds(T, P) && s < YYNSTATE && 0 < x < FIRST_NONTERMINAL && DefaultIn(P, s, x, o, act)
    ensures Answers(T, s, x, act)
  {
    assert x !in PlainRow(T, s) && YYWILDCARD !in PlainRow(T, s);
  }

  lemma GoesFollows(T: Tables, P: Automaton, s: nat, r: nat, a: int, o: int, act: nat)
    requires Sized(T) && Holds(T, P) && s <= YY_REDUCE_COUNT && r < YYNRULE && 0 <= a
    requires GotoIn(P, s, r, a, o, act) && act <= YY_MAX_SHIFTREDUCE
    ensures Follows(T, s, r, Machine.StoredState(act))
  {
    assert T.rules[r] == RuleAt(P, r);
    assert Hit(T, T.reduceOfst[s], T.rules[r].lhs);
  }

  lemma LengthIs(T: Tables, P: Automaton, r: nat, n: nat)
    requires Sized(T) && Holds(T, P) && r < YYNRULE && P.length(r) == n
    ensures HasLength(T, r, n) && T.rules[r].lhs == Nat(P.lhs(r))
  {
    assert T.rules[r] == RuleAt(P, r);
  }

  lemma NestingFrom(T: Tables, P: Automaton)
    requires Sized(T) && Holds(T, P) && NestingCells(P)
    ensures NestingMoves(T)
  {
    hide Sized, Holds, Answers, Follows, HasLength, HitIn, DefaultIn, GotoIn;
    HitAnswers(T, P, 23, TK_SELECT, 542, 242);
    HitAnswers(T, P, 58, TK_LP, 705, 3);
    HitAnswers(T, P, 3, TK_LP, 612, 3);
    HitAnswers(T, P, 120, TK_SELECT, 113, 242);
    HitAnswers(T, P, 58, TK_ID, 705, 356);
    DefaultAnswers(T, P, 0, TK_SELECT, 40, 1285);
    DefaultAnswers(T, P, 2, TK_SELECT, 904, 1275);
    DefaultAnswers(T, P, 242, TK_LP, 1152, 1094);
    DefaultAnswers(T, P, 168, TK_LP, 1570, 1095);
    DefaultAnswers(T, P, 3, TK_SELECT, 612, 1275);
    DefaultAnswers(T, P, 242, TK_ID, 1152, 1094);
    DefaultAnswers(T, P, 168, TK_ID, 1570, 1095);
    DefaultAnswers(T, P, 356, TK_RP, 1195, 1156);
    DefaultAnswers(T, P, 9, TK_RP, -19, 1100);
    GoesFollows(T, P, 0, NO_EXPLAIN, 147, -29, 2);
    GoesFollows(T, P, 2, NO_WITH, 196, 525, 23);
    GoesFollows(T, P, 242, NO_DISTINCT, 198, 1153, 168);
    GoesFollows(T, P, 168, NO_SCLP, 209, 557, 58);
    GoesFollows(T, P, 3, NO_WITH, 196, 605, 120);
    GoesFollows(T, P, 58, NAME_EXPR, 173, 783, 9);
    LengthIs(T, P, NO_EXPLAIN, 0);
    LengthIs(T, P, NO_WITH, 0);
    LengthIs(T, P, NO_DISTINCT, 0);
    LengthIs(T, P, NO_SCLP, 0);
    LengthIs(T, P, NAME_EXPR, 1);
    LengthIs(T, P, NO_AS, 0);
  }

  lemma InNameFrom(T: Tables, P: Automaton)
    requires Sized(T) && Holds(T, P) && InNameCells(P)
    ensures InNameMoves(T)
  {
    hide Sized, Holds, Answers, Follows, HasLength, HitIn, DefaultIn, GotoIn;
    HitAnswers(T, P, 9, TK_IN, -19, 861);
    HitAnswers(T, P, 178, TK_ID, 851, 962);
    HitAnswers(T, P, 301, TK_LP, 1394, 6);
    HitAnswers(T, P, 6, TK_INTEGER, 760, 830);
    HitAnswers(T, P, 431, TK_RP, 1521, 879);
    HitAnswers(T, P, 9, TK_PLUS, -19, 95);
    DefaultAnswers(T, P, 356, TK_IN, 1195, 1156);
    DefaultAnswers(T, P, 302, TK_LP, 1238, 1109);
    DefaultAnswers(T, P, 52, TK_RP, 459, 1209);
    DefaultAnswers(T, P, 432, TK_RP, 1514, 1315);
    GoesFollows(T, P, 9, PLAIN_IN, 223, 435, 178);
    GoesFollows(T, P, 178, NAME, 152, 364, 302);
    GoesFollows(T, P, 302, NO_DBNM, 159, 1269, 301);
    GoesFollows(T, P, 6, INTEGER_TERM, 172, 491, 52);
    GoesFollows(T, P, 6, ONE_EXPR, 207, 491, 432);
    GoesFollows(T, P, 6, EXPR_LIST, 208, 491, 431);
    GoesFollows(T, P, 301, PAREN_LIST, 224, 1208, 866);
    GoesFollows(T, P, 58, IN_NAME, 173, 783, 9);
    LengthIs(T, P, PLAIN_IN, 1);
    LengthIs(T, P, NAME, 1);
    LengthIs(T, P, NO_DBNM, 0);
    LengthIs(T, P, INTEGER_TERM, 1);
    LengthIs(T, P, ONE_EXPR, 1);
    LengthIs(T, P, EXPR_LIST, 1);
    LengthIs(T, P, PAREN_LIST, 3);
    LengthIs(T, P, IN_NAME, 5);
  }

  // ---------------------------------------------------------------------------------------------
  // The shipped cells

  lemma NestingHits0()
    ensures Hits(S.ShiftOfst, S.Lookahead, S.Action, 23, TK_SELECT, 542, 242) == true
    ensures Hits(S.ShiftOfst, S.Lookahead, S.Action, 58, TK_LP, 705, 3) == true
    ensures Hits(S.ShiftOfst, S.Lookahead, S.Action, 3, TK_LP, 612, 3) == true
  {}

  lemma NestingHits1()
    ensures Hits(S.ShiftOfst, S.Lookahead, S.Action, 120, TK_SELECT, 113, 242) == true
    ensures Hits(S.ShiftOfst, S.Lookahead, S.Action, 58, TK_ID, 705, 356) == true
  {}

  lemma NestingDefaults0()
    ensures Defaults(S.ShiftOfst, S.Lookahead, S.Default, S.Fallback, 0, TK_SELECT, 40, 1285) == true
    ensures Defaults(S.ShiftOfst, S.Lookahead, S.Default, S.Fallback, 2, TK_SELECT, 904, 1275) == true
  {}

  lemma NestingDefaults1()
    ensures Defaults(S.ShiftOfst, S.Lookahead, S.Default, S.Fallback, 242, TK_LP, 1152, 1094) == true
    ensures Defaults(S.ShiftOfst, S.Lookahead, S.Default, S.Fallback, 168, TK_LP, 1570, 1095) == true
  {}

  lemma NestingDefaults2()
    ensures Defaults(S.ShiftOfst, S.Lookahead, S.Default, S.Fallback, 3, TK_SELECT, 612, 1275) == true
    ensures Defaults(S.ShiftOfst, S.Lookahead, S.Default, S.Fallback, 242, TK_ID, 1152, 1094) == true
  {}

  lemma NestingDefaults3()
    ensures Defaults(S.ShiftOfst, S.Lookahead, S.Default, S.Fallback, 168, TK_ID, 1570, 1095) == true
    ensures Defaults(S.ShiftOfst, S.Lookahead, S.Default, S.Fallback, 356, TK_RP, 1195, 1156) == true
  {}

  lemma NestingDefaults4()
    ensures Defaults(S.ShiftOfst, S.Lookahead, S.Default, S.Fallback, 9, TK_RP, -19, 1100) == true
  {}

  lemma NestingGoes0()
    ensures Goes(S.Lhs, S.ReduceOfst, S.Lookahead, S.Action, 0, NO_EXPLAIN, 147, -29, 2) == true
    ensures Goes(S.Lhs, S.ReduceOfst, S.Lookahead, S.Action, 2, NO_WITH, 196, 525, 23) == true
  {}

  lemma NestingGoes1()
    ensures Goes(S.Lhs, S.ReduceOfst, S.Lookahead, S.Action, 242, NO_DISTINCT, 198, 1153, 168) == true
    ensures Goes(S.Lhs, S.ReduceOfst, S.Lookahead, S.Action, 168, NO_SCLP, 209, 557, 58) == true
  {}

  lemma NestingGoes2()
    ensures Goes(S.Lhs, S.ReduceOfst, S.Lookahead, S.Action, 3, NO_WITH, 196, 605, 120) == true
    ensures Goes(S.Lhs, S.ReduceOfst, S.Lookahead, S.Action, 58, NAME_EXPR, 173, 783, 9) == true
  {}

  lemma InNameHits0()
    ensures Hits(S.ShiftOfst, S.Lookahead, S.Action, 9, TK_IN, -19, 861) == true
    ensures Hits(S.ShiftOfst, S.Lookahead, S.Action, 178, TK_ID, 851, 962) == true
    ensures Hits(S.ShiftOfst, S.Lookahead, S.Action, 301, TK_LP, 1394, 6) == true
  {}

  lemma InNameHits1()
    ensures Hits(S.ShiftOfst, S.Lookahead, S.Action, 6, TK_INTEGER, 760, 830) == true
    ensures Hits(S.ShiftOfst, S.Lookahead, S.Action, 431, TK_RP, 1521, 879) == true
    ensures Hits(S.ShiftOfst, S.Lookahead, S.Action, 9, TK_PLUS, -19, 95) == true
  {}

  lemma InNameDefaults0()
    ensures Defaults(S.ShiftOfst, S.Lookahead, S.Default, S.Fallback, 356, TK_IN, 1195, 1156) == true
    ensures Defaults(S.ShiftOfst, S.Lookahead, S.Default, S.Fallback, 302, TK_LP, 1238, 1109) == true
  {}

  lemma InNameDefaults1()
    ensures Defaults(S.ShiftOfst, S.Lookahead, S.Default, S.Fallback, 52, TK_RP, 459, 1209) == true
    ensures Defaults(S.ShiftOfst, S.Lookahead, S.Default, S.Fallback, 432, TK_RP, 1514, 1315) == true
  {}

  lemma InNameGoes0()
    ensures Goes(S.Lhs, S.ReduceOfst, S.Lookahead, S.Action, 9, PLAIN_IN, 223, 435, 178) == true
    ensures Goes(S.Lhs, S.ReduceOfst, S.Lookahead, S.Action, 178, NAME, 152, 364, 302) == true
  {}

  lemma InNameGoes1()
    ensures Goes(S.Lhs, S.ReduceOfst, S.Lookahead, S.Action, 302, NO_DBNM, 159, 1269, 301) == true
    ensures Goes(S.Lhs, S.ReduceOfst, S.Lookahead, S.Action, 6, INTEGER_TERM, 172, 491, 52) == true
  {}

  lemma InNameGoes2()
    ensures Goes(S.Lhs, S.ReduceOfst, S.Lookahead, S.Action, 6, ONE_EXPR, 207, 491, 432) == true
    ensures Goes(S.Lhs, S.ReduceOfst, S.Lookahead, S.Action, 6, EXPR_LIST, 208, 491, 431) == true
  {}

  lemma InNameGoes3()
    ensures Goes(S.Lhs, S.ReduceOfst, S.Lookahead, S.Action, 301, PAREN_LIST, 224, 1208, 866) == true
    ensures Goes(S.Lhs, S.ReduceOfst, S.Lookahead, S.Action, 58, IN_NAME, 173, 783, 9) == true
  {}

  lemma NestingLengths()
    ensures S.Length(NO_EXPLAIN) == 0
    ensures S.Length(NO_WITH) == 0
    ensures S.Length(NO_DISTINCT) == 0
    ensures S.Length(NO_SCLP) == 0
    ensures S.Length(NAME_EXPR) == 1
    ensures S.Length(NO_AS) == 0
  {}

  lemma InNameLengths()
    ensures S.Length(PLAIN_IN) == 1
    ensures S.Length(NAME) == 1
    ensures S.Length(NO_DBNM) == 0
    ensures S.Length(INTEGER_TERM) == 1
    ensures S.Length(ONE_EXPR) == 1
    ensures S.Length(EXPR_LIST) == 1
    ensures S.Length(PAREN_LIST) == 3
    ensures S.Length(IN_NAME) == 5
    ensures S.Lhs(IN_NAME) == EXPR
  {}

  lemma ShippedCells()
    ensures NestingCells(SqliteParser.AUTOMATON) == true
    ensures InNameCells(SqliteParser.AUTOMATON) == true
  {
    hide S.Action, S.Lookahead, S.ShiftOfst, S.ReduceOfst, S.Default, S.Fallback, S.Lhs, S.Length, S.Slot;
    hide K.ItemOf, K.MainKey, K.ExtraKey, K.ShiftRowItem, K.GotoRowItem, K.ShiftRowKey, K.GotoRowKey, K.SuffixPair,
         K.Suffix, K.Covers, K.Weight;
    hide Hits, Defaults, Goes;
    NestingHits0();
    NestingHits1();
    NestingDefaults0();
    NestingDefaults1();
    NestingDefaults2();
    NestingDefaults3();
    NestingDefaults4();
    NestingGoes0();
    NestingGoes1();
    NestingGoes2();
    NestingLengths();
    InNameHits0();
    InNameHits1();
    InNameDefaults0();
    InNameDefaults1();
    InNameGoes0();
    InNameGoes1();
    InNameGoes2();
    InNameGoes3();
    InNameLengths();
  }

  lemma ShippedMoves()
    ensures Certified(SqliteParser.TABLES, SqliteParser.CERT) == true
    ensures NestingMoves(SqliteParser.TABLES) == true && InNameMoves(SqliteParser.TABLES) == true
  {
    hide S.Action, S.Lookahead, S.ShiftOfst, S.ReduceOfst, S.Default, S.Fallback, S.Lhs, S.Length, S.Slot;
    hide K.ItemOf, K.MainKey, K.ExtraKey, K.ShiftRowItem, K.GotoRowItem, K.ShiftRowKey, K.GotoRowKey, K.SuffixPair,
         K.Suffix, K.Covers, K.Weight;
    hide Certified, Holds, NestingCells, InNameCells, NestingMoves, InNameMoves;
    SqliteParser.ShippedTablesAreCertified();
    TablesHold(SqliteParser.AUTOMATON);
    ShippedCells();
    CertifiedSized(SqliteParser.TABLES, SqliteParser.CERT);
    NestingFrom(SqliteParser.TABLES, SqliteParser.AUTOMATON);
    InNameFrom(SqliteParser.TABLES, SqliteParser.AUTOMATON);
  }

  lemma CertifiedSized(T: Tables, C: Cert)
    requires Certified(T, C)
    ensures Sized(T)
  {}

  // ---------------------------------------------------------------------------------------------
  // What the shipped parser does

  /** SELECT, 89 open parentheses and SELECT x fill the stack; then the close parenthesis loses the value of
      the expression x, which no destructor will see. */
  lemma ShippedParserLeaks(toks: seq<Token>)
    requires Nested(toks)
    ensures Certified(SqliteParser.TABLES, SqliteParser.CERT) == true
    ensures Machine.Leaked(Node(NAME_EXPR, [Leaf(toks[91])]))
         in Runs.Feed(SqliteParser.TABLES, SqliteParser.CERT, toks).log
  {
    hide *;
    ShippedMoves();
    NestedLeaks(SqliteParser.TABLES, SqliteParser.CERT, toks);
  }

  /** After SELECT x IN f ( 1 ) + the recorded end of x IN f ( 1 ) is that of the name f. */
  lemma ShippedParserEndsShort(toks: seq<Token>)
    requires InNameText(toks) && InOrder(toks)
    ensures Certified(SqliteParser.TABLES, SqliteParser.CERT) == true
    ensures var stack := Runs.Feed(SqliteParser.TABLES, SqliteParser.CERT, toks).stack;
      && 7 <= |stack| && stack[6].major == EXPR && Yield(stack[6].minor) == toks[1..7]
      && End(stack[6].minor) == TokenEnd(toks[3]) < TokenEnd(toks[6])
  {
    hide *;
    ShippedMoves();
    InNameRead(SqliteParser.TABLES, SqliteParser.CERT, toks);
    InNameShort(toks);
  }
}
