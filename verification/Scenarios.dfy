/** Two inputs followed through the parser step by step: one on which a full stack loses a live value,
    and one whose expression is recorded as ending too early. */
module Scenarios {
  import opened Lemon
  import opened TokenCodes
  import opened Certificate
  import opened Machine
  import opened Invariant
  import opened Runs
  import opened Spans

  // ---------------------------------------------------------------------------------------------
  // One step at a time

  /** State s on terminal x answers act. */
  predicate Answers(T: Tables, s: nat, x: nat, act: nat)
    requires Sized(T)
  {
    (s < YYNSTATE || YY_MIN_REDUCE <= s) && ShiftAction(T, s, x) == act
  }

  /** Below a reduce by r, state s goes on to state t. */
  predicate Follows(T: Tables, s: nat, r: nat, t: nat)
    requires Sized(T)
  {
    && r < |T.rules| && GotoDefined(T, s, T.rules[r].lhs)
    && GotoAction(T, s, T.rules[r].lhs) <= YY_MAX_SHIFTREDUCE
    && StoredState(GotoAction(T, s, T.rules[r].lhs)) == t
  }

  predicate HasLength(T: Tables, r: nat, n: nat) {
    r < |T.rules| && |T.rules[r].rhs| == n
  }

  /** The machine in a state that calls may be made in. */
  ghost predicate Ready(T: Tables, C: Cert, c: Config) {
    Certified(T, C) && Inv(T, C, c.stack)
  }

  lemma ShiftStep(T: Tables, C: Cert, c: Config, tok: Token, act: nat)
    requires Ready(T, C, c) && Terminal(tok) && |c.stack| < YYSTACKDEPTH
    requires Answers(T, Top(c).stateno, tok.major, act) && act <= YY_MAX_SHIFTREDUCE
    ensures var e := Entry(StoredState(act), tok.major, Leaf(tok));
      Run(T, C, c, tok) == Config(c.stack + [e], c.log + [Shifted(tok)])
  {
    hide Certified, Inv, WellFormed, Run;
    var _, _ := Unfold(T, C, c, tok);
  }

  /** The configuration after a reduce by r that leaves `rest` and goes on to state t. */
  function Reduced1(T: Tables, c: Config, rest: seq<Entry>, r: nat, t: nat): Config
    requires r < |T.rules| && |rest| <= |c.stack|
  {
    var kids := Minors(c.stack[|rest|..]);
    Config(rest + [Entry(t, T.rules[r].lhs, Node(r, kids))], c.log + [Reduced(r, kids)])
  }

  lemma ReduceStep(T: Tables, C: Cert, c: Config, tok: Token, rest: seq<Entry>, n: nat, r: nat, t: nat)
    requires Ready(T, C, c) && Terminal(tok) && rest != []
    requires |c.stack| == |rest| + n && c.stack[..|rest|] == rest && (n == 0 ==> |c.stack| < YYSTACKDEPTH)
    requires Answers(T, Top(c).stateno, tok.major, YY_MIN_REDUCE + r) && HasLength(T, r, n) && r < YYNRULE
    requires Follows(T, rest[|rest| - 1].stateno, r, t)
    ensures Ready(T, C, Reduced1(T, c, rest, r, t))
    ensures Run(T, C, c, tok) == Run(T, C, Reduced1(T, c, rest, r, t), tok)
  {
    hide Certified, Inv, WellFormed, Run, ReduceDue, ShiftAction, GotoDefined, GotoAction;
    var act, next := Unfold(T, C, c, tok);
    assert Uncovered(T, c.stack, r) == rest[|rest| - 1];
    assert next == Reduced1(T, c, rest, r, t);
  }

  /** An empty rule that is due on a full stack loses the value on top. */
  lemma LeakStep(T: Tables, C: Cert, c: Config, tok: Token, r: nat)
    requires Ready(T, C, c) && Terminal(tok) && |c.stack| == YYSTACKDEPTH
    requires Answers(T, Top(c).stateno, tok.major, YY_MIN_REDUCE + r) && HasLength(T, r, 0) && r < YYNRULE
    ensures Leaked(Top(c).minor) in Run(T, C, c, tok).log
  {
    hide Certified, Inv, WellFormed, Run, ReduceDue, ShiftAction, GotoDefined, GotoAction;
    var act, next := Unfold(T, C, c, tok);
    assert next.stack == c.stack[..1];
    assert next.log == c.log + [Leaked(Top(c).minor)] + DestroyAll(c.stack[1..|c.stack| - 1]) + [Overflowed];
  }

  // ---------------------------------------------------------------------------------------------
  // A full stack

  /** The rules explain ::=, with ::=, distinct ::=, sclp ::=, expr ::= ID|INDEXED and as ::=. */
  const NO_EXPLAIN: nat := 281
  const NO_WITH: nat := 271
  const NO_DISTINCT: nat := 90
  const NO_SCLP: nat := 91
  const NAME_EXPR: nat := 152
  const NO_AS: nat := 96

  /** The moves on SELECT ( ( ... ( SELECT x ). */
  ghost predicate NestingMoves(T: Tables)
    requires Sized(T)
  {
    && Answers(T, 0, TK_SELECT, YY_MIN_REDUCE + NO_EXPLAIN) && Follows(T, 0, NO_EXPLAIN, 2)
    && Answers(T, 2, TK_SELECT, YY_MIN_REDUCE + NO_WITH) && Follows(T, 2, NO_WITH, 23)
    && Answers(T, 23, TK_SELECT, 242)
    && Answers(T, 242, TK_LP, YY_MIN_REDUCE + NO_DISTINCT) && Follows(T, 242, NO_DISTINCT, 168)
    && Answers(T, 168, TK_LP, YY_MIN_REDUCE + NO_SCLP) && Follows(T, 168, NO_SCLP, 58)
    && Answers(T, 58, TK_LP, 3) && Answers(T, 3, TK_LP, 3)
    && Answers(T, 3, TK_SELECT, YY_MIN_REDUCE + NO_WITH) && Follows(T, 3, NO_WITH, 120)
    && Answers(T, 120, TK_SELECT, 242)
    && Answers(T, 242, TK_ID, YY_MIN_REDUCE + NO_DISTINCT) && Answers(T, 168, TK_ID, YY_MIN_REDUCE + NO_SCLP)
    && Answers(T, 58, TK_ID, 356)
    && Answers(T, 356, TK_RP, YY_MIN_REDUCE + NAME_EXPR) && Follows(T, 58, NAME_EXPR, 9)
    && Answers(T, 9, TK_RP, YY_MIN_REDUCE + NO_AS)
    && HasLength(T, NO_EXPLAIN, 0) && HasLength(T, NO_WITH, 0) && HasLength(T, NO_DISTINCT, 0)
    && HasLength(T, NO_SCLP, 0) && HasLength(T, NAME_EXPR, 1) && HasLength(T, NO_AS, 0)
  }

  /** The stack is h high with state s on top. */
  predicate At(c: Config, h: nat, s: nat) {
    |c.stack| == h && h != 0 && Top(c).stateno == s
  }

  lemma EmptyStep(T: Tables, C: Cert, c: Config, tok: Token, r: nat, t: nat) returns (next: Config)
    requires Ready(T, C, c) && Terminal(tok) && 0 < |c.stack| < YYSTACKDEPTH
    requires Answers(T, Top(c).stateno, tok.major, YY_MIN_REDUCE + r) && HasLength(T, r, 0) && r < YYNRULE
    requires Follows(T, Top(c).stateno, r, t)
    ensures Ready(T, C, next) && Run(T, C, c, tok) == Run(T, C, next, tok)
    ensures At(next, |c.stack| + 1, t) && next.stack[..|c.stack|] == c.stack
  {
    hide Ready, Run, Answers, Follows;
    ReduceStep(T, C, c, tok, c.stack, 0, r, t);
    next := Reduced1(T, c, c.stack, r, t);
  }

  lemma FeedNext(T: Tables, C: Cert, toks: seq<Token>, n: nat)
    requires Certified(T, C) && AllTerminal(toks) && n < |toks|
    ensures Feed(T, C, toks[..n + 1]) == Run(T, C, Feed(T, C, toks[..n]), toks[n])
    ensures Ready(T, C, Feed(T, C, toks[..n]))
  {
    hide Certified, Inv, WellFormed, Run;
    assert toks[..n + 1][..n] == toks[..n];
  }

  /** SELECT at the start. */
  lemma FirstSelect(T: Tables, C: Cert, toks: seq<Token>)
    requires Certified(T, C) && NestingMoves(T) && AllTerminal(toks) && 1 <= |toks| && toks[0].major == TK_SELECT
    ensures At(Feed(T, C, toks[..1]), 4, 242)
  {
    hide Certified, Inv, WellFormed, Run, Answers, Follows, HasLength, Ready;
    FeedNext(T, C, toks, 0);
    var c := Feed(T, C, toks[..0]);
    assert c == INITIAL;
    var c1 := EmptyStep(T, C, c, toks[0], NO_EXPLAIN, 2);
    var c2 := EmptyStep(T, C, c1, toks[0], NO_WITH, 23);
    ShiftStep(T, C, c2, toks[0], 242);
  }

  /** What comes after SELECT, before the result columns. */
  lemma AfterSelect(T: Tables, C: Cert, c: Config, tok: Token) returns (c': Config)
    requires Ready(T, C, c) && NestingMoves(T) && Terminal(tok) && (tok.major == TK_LP || tok.major == TK_ID)
    requires |c.stack| + 2 <= YYSTACKDEPTH && At(c, |c.stack|, 242)
    ensures Ready(T, C, c') && At(c', |c.stack| + 2, 58) && Run(T, C, c, tok) == Run(T, C, c', tok)
    ensures c'.stack[..|c.stack|] == c.stack
  {
    hide Certified, Inv, WellFormed, Run, Answers, Follows, HasLength, Ready;
    var c1 := EmptyStep(T, C, c, tok, NO_DISTINCT, 168);
    c' := EmptyStep(T, C, c1, tok, NO_SCLP, 58);
    assert c'.stack[..|c.stack|] == c1.stack[..|c.stack|];
  }

  predicate AllOpen(toks: seq<Token>, from: nat, to: nat)
    requires to <= |toks|
  {
    forall i :: from <= i < to ==> toks[i].major == TK_LP
  }

  lemma FirstParenthesis(T: Tables, C: Cert, c: Config, tok: Token)
    requires Ready(T, C, c) && NestingMoves(T) && Terminal(tok) && tok.major == TK_LP && At(c, 4, 242)
    ensures At(Run(T, C, c, tok), 7, 3)
  {
    hide Certified, Inv, WellFormed, Run, Answers, Follows, HasLength, Ready;
    var c1 := AfterSelect(T, C, c, tok);
    ShiftStep(T, C, c1, tok, 3);
  }

  lemma OneMoreParenthesis(T: Tables, C: Cert, c: Config, tok: Token, h: nat)
    requires Ready(T, C, c) && NestingMoves(T) && Terminal(tok) && tok.major == TK_LP
    requires At(c, h, 3) && h < YYSTACKDEPTH
    ensures At(Run(T, C, c, tok), h + 1, 3)
  {
    hide Certified, Inv, WellFormed, Run, Answers, Follows, HasLength, Ready;
    ShiftStep(T, C, c, tok, 3);
  }

  /** Each open parenthesis adds one entry. */
  lemma {:induction false} Parentheses(T: Tables, C: Cert, toks: seq<Token>, k: nat)
    requires Certified(T, C) && NestingMoves(T) && AllTerminal(toks)
    requires 1 <= k && 1 + k <= |toks| && 6 + k <= YYSTACKDEPTH
    requires toks[0].major == TK_SELECT && AllOpen(toks, 1, 1 + k)
    ensures At(Feed(T, C, toks[..1 + k]), 6 + k, 3)
  {
    hide Certified, Inv, WellFormed, Run, Feed, NestingMoves, Ready, At;
    FirstSelect(T, C, toks);
    FeedNext(T, C, toks, k);
    if 1 < k {
      Parentheses(T, C, toks, k - 1);
      OneMoreParenthesis(T, C, Feed(T, C, toks[..k]), toks[k], 5 + k);
    } else {
      FirstParenthesis(T, C, Feed(T, C, toks[..k]), toks[k]);
    }
  }

  /** SELECT inside the parentheses. */
  lemma NestedSelect(T: Tables, C: Cert, c: Config, tok: Token, h: nat)
    requires Ready(T, C, c) && NestingMoves(T) && Terminal(tok) && tok.major == TK_SELECT
    requires At(c, h, 3) && h + 2 <= YYSTACKDEPTH
    ensures At(Run(T, C, c, tok), h + 2, 242)
  {
    hide Certified, Inv, WellFormed, Run, Answers, Follows, HasLength, Ready;
    var c1 := EmptyStep(T, C, c, tok, NO_WITH, 120);
    ShiftStep(T, C, c1, tok, 242);
  }

  /** The name: three entries more, the last of which is the name. */
  lemma NestedName(T: Tables, C: Cert, c: Config, tok: Token, h: nat)
    requires Ready(T, C, c) && NestingMoves(T) && Terminal(tok) && tok.major == TK_ID
    requires At(c, h, 242) && h + 3 <= YYSTACKDEPTH
    ensures var c' := Run(T, C, c, tok);
      At(c', h + 3, 356) && c'.stack[h + 1].stateno == 58 && c'.stack[h + 2].minor == Leaf(tok)
  {
    hide Certified, Inv, WellFormed, Run, Answers, Follows, HasLength, Ready;
    var c1 := AfterSelect(T, C, c, tok);
    ShiftStep(T, C, c1, tok, 356);
  }

  /** The close parenthesis makes an expression of the name, and then calls for an empty alias. */
  lemma NestedClose(T: Tables, C: Cert, c: Config, tok: Token, name: Token)
    requires Ready(T, C, c) && NestingMoves(T) && Terminal(tok) && tok.major == TK_RP
    requires At(c, YYSTACKDEPTH, 356) && c.stack[YYSTACKDEPTH - 2].stateno == 58 && Top(c).minor == Leaf(name)
    ensures Leaked(Node(NAME_EXPR, [Leaf(name)])) in Run(T, C, c, tok).log
  {
    hide Certified, Inv, WellFormed, Run, Answers, Follows, Ready;
    var rest := c.stack[..YYSTACKDEPTH - 1];
    ReduceStep(T, C, c, tok, rest, 1, NAME_EXPR, 9);
    var next := Reduced1(T, c, rest, NAME_EXPR, 9);
    assert Minors(c.stack[|rest|..]) == [Leaf(name)];
    assert Top(next) == next.stack[|next.stack| - 1];
    LeakStep(T, C, next, tok, NO_AS);
  }

  /** SELECT ( ( ... ( SELECT x ) with as many open parentheses as fill the stack. */
  predicate Nested(toks: seq<Token>) {
    && |toks| == 93 && AllTerminal(toks)
    && toks[0].major == TK_SELECT && AllOpen(toks, 1, 90)
    && toks[90].major == TK_SELECT && toks[91].major == TK_ID && toks[92].major == TK_RP
  }

  /** Reading it loses the value of the expression x. */
  lemma NestedLeaks(T: Tables, C: Cert, toks: seq<Token>)
    requires Certified(T, C) && NestingMoves(T) && Nested(toks)
    ensures Leaked(Node(NAME_EXPR, [Leaf(toks[91])])) in Feed(T, C, toks).log
  {
    hide Certified, Inv, WellFormed, Run, Feed, NestingMoves, Ready;
    Parentheses(T, C, toks, 89);
    FeedNext(T, C, toks, 90);
    NestedSelect(T, C, Feed(T, C, toks[..90]), toks[90], 95);
    FeedNext(T, C, toks, 91);
    NestedName(T, C, Feed(T, C, toks[..91]), toks[91], 97);
    FeedNext(T, C, toks, 92);
    NestedClose(T, C, Feed(T, C, toks[..92]), toks[92], toks[91]);
    assert toks[..93] == toks;
  }

  // ---------------------------------------------------------------------------------------------
  // A short end

  /** The rules in_op ::= IN, nm ::= ID|INDEXED, dbnm ::=, term ::= INTEGER, nexprlist ::= expr,
      exprlist ::= nexprlist and paren_exprlist ::= LP exprlist RP. */
  const PLAIN_IN: nat := 189
  const NAME: nat := 290
  const NO_DBNM: nat := 105
  const INTEGER_TERM: nat := 158
  const ONE_EXPR: nat := 205
  const EXPR_LIST: nat := 311
  const PAREN_LIST: nat := 207

  /** The moves on SELECT x IN f ( 1 ) +, from where the result columns begin. */
  ghost predicate InNameMoves(T: Tables)
    requires Sized(T)
  {
    && Answers(T, 356, TK_IN, YY_MIN_REDUCE + NAME_EXPR) && Answers(T, 9, TK_IN, YY_MIN_SHIFTREDUCE + PLAIN_IN)
    && Follows(T, 9, PLAIN_IN, 178) && Answers(T, 178, TK_ID, YY_MIN_SHIFTREDUCE + NAME)
    && Follows(T, 178, NAME, 302) && Answers(T, 302, TK_LP, YY_MIN_REDUCE + NO_DBNM)
    && Follows(T, 302, NO_DBNM, 301) && Answers(T, 301, TK_LP, 6)
    && Answers(T, 6, TK_INTEGER, YY_MIN_SHIFTREDUCE + INTEGER_TERM) && Follows(T, 6, INTEGER_TERM, 52)
    && Answers(T, 52, TK_RP, YY_MIN_REDUCE + ONE_EXPR) && Follows(T, 6, ONE_EXPR, 432)
    && Answers(T, 432, TK_RP, YY_MIN_REDUCE + EXPR_LIST) && Follows(T, 6, EXPR_LIST, 431)
    && Answers(T, 431, TK_RP, YY_MIN_SHIFTREDUCE + PAREN_LIST) && Follows(T, 301, PAREN_LIST, Pending(IN_NAME))
    && Follows(T, 58, IN_NAME, 9) && Answers(T, 9, TK_PLUS, 95)
    && HasLength(T, PLAIN_IN, 1) && HasLength(T, NAME, 1) && HasLength(T, NO_DBNM, 0)
    && HasLength(T, INTEGER_TERM, 1) && HasLength(T, ONE_EXPR, 1) && HasLength(T, EXPR_LIST, 1)
    && HasLength(T, PAREN_LIST, 3) && HasLength(T, IN_NAME, 5) && T.rules[IN_NAME].lhs == EXPR
  }

  /** The pseudo-state of rule r. */
  function Pending(r: nat): nat {
    YY_MIN_REDUCE + r
  }

  /** The upper part of a stack: its height, and state and value of the entries from the top down. */
  datatype Pile = Floor(height: nat) | On(below: Pile, state: nat, minor: Tree)

  predicate Stands(p: Pile, stack: seq<Entry>) {
    match p
    case Floor(h) => |stack| == h
    case On(below, state, minor) =>
      && stack != [] && stack[|stack| - 1].stateno == state && stack[|stack| - 1].minor == minor
      && Stands(below, stack[..|stack| - 1])
  }

  function Depth(p: Pile): nat {
    if p.On? then Depth(p.below) + 1 else 0
  }

  function Drop(p: Pile, k: nat): Pile
    requires k <= Depth(p)
  {
    if k == 0 then p else Drop(p.below, k - 1)
  }

  function TopMinors(p: Pile, k: nat): seq<Tree>
    requires k <= Depth(p)
  {
    if k == 0 then [] else TopMinors(p.below, k - 1) + [p.minor]
  }

  lemma {:induction false} StandsDrop(p: Pile, stack: seq<Entry>, k: nat)
    requires Stands(p, stack) && k <= Depth(p)
    ensures k <= |stack| && Stands(Drop(p, k), stack[..|stack| - k])
    ensures Minors(stack[|stack| - k..]) == TopMinors(p, k)
  {
    if k == 0 {
      assert stack[..|stack|] == stack;
    } else {
      var rest := stack[..|stack| - 1];
      StandsDrop(p.below, rest, k - 1);
      var n, last := |stack| - k, stack[|stack| - 1];
      assert rest[..n] == stack[..n];
      assert stack == rest + [last];
      assert (rest + [last])[n..] == rest[n..] + [last];
      assert Minors(rest[n..] + [last]) == Minors(rest[n..]) + [last.minor];
    }
  }

  /** Reducing the top k entries of a pile. */
  lemma PileReduce(T: Tables, C: Cert, c: Config, tok: Token, p: Pile, k: nat, r: nat, t: nat)
    returns (next: Config)
    requires Ready(T, C, c) && Terminal(tok) && Stands(p, c.stack) && |c.stack| < YYSTACKDEPTH
    requires k < Depth(p) && r < YYNRULE && HasLength(T, r, k)
    requires Answers(T, p.state, tok.major, YY_MIN_REDUCE + r) && Drop(p, k).On? && Follows(T, Drop(p, k).state, r, t)
    ensures Ready(T, C, next) && Run(T, C, c, tok) == Run(T, C, next, tok)
    ensures Stands(On(Drop(p, k), t, Node(r, TopMinors(p, k))), next.stack)
    ensures |next.stack| == |c.stack| + 1 - k && Top(next).major == T.rules[r].lhs
  {
    hide Ready, Run, Answers, Follows;
    StandsDrop(p, c.stack, k);
    var rest := c.stack[..|c.stack| - k];
    ReduceStep(T, C, c, tok, rest, k, r, t);
    next := Reduced1(T, c, rest, r, t);
    assert next.stack[..|next.stack| - 1] == rest;
  }

  lemma PileShift(T: Tables, C: Cert, c: Config, tok: Token, p: Pile, act: nat)
    requires Ready(T, C, c) && Terminal(tok) && Stands(p, c.stack) && |c.stack| < YYSTACKDEPTH
    requires p.On? && Answers(T, p.state, tok.major, act) && act <= YY_MAX_SHIFTREDUCE
    ensures var next := Run(T, C, c, tok);
      && Stands(On(p, StoredState(act), Leaf(tok)), next.stack)
      && |next.stack| == |c.stack| + 1 && next.stack[..|c.stack|] == c.stack
  {
    hide Ready, Run, Answers;
    ShiftStep(T, C, c, tok, act);
  }

  lemma PendingAnswers(T: Tables, r: nat, x: nat)
    requires Sized(T)
    ensures Answers(T, Pending(r), x, YY_MIN_REDUCE + r)
  {}

  // The tokens one after the other.

  lemma OneMinor(p: Pile, s: nat, d: Tree)
    ensures Depth(On(p, s, d)) == 1 + Depth(p) && Drop(On(p, s, d), 1) == p && TopMinors(On(p, s, d), 1) == [d]
  {
    assert Drop(p, 0) == p;
  }

  lemma ReadIn(T: Tables, C: Cert, c: Config, tok: Token, p: Pile, x: Tree)
    requires Ready(T, C, c) && NestingMoves(T) && InNameMoves(T) && Terminal(tok) && tok.major == TK_IN
    requires p.On? && p.state == 58 && Stands(On(p, 356, x), c.stack) && |c.stack| < 50
    ensures Stands(On(On(p, 9, Node(NAME_EXPR, [x])), Pending(PLAIN_IN), Leaf(tok)), Run(T, C, c, tok).stack)
    ensures |Run(T, C, c, tok).stack| == |c.stack| + 1
  {
    assert Sized(T);
    hide Ready, Sized, Run, Answers, Follows, HasLength, Stands, Drop, TopMinors;
    OneMinor(p, 356, x);
    var c1 := PileReduce(T, C, c, tok, On(p, 356, x), 1, NAME_EXPR, 9);
    PileShift(T, C, c1, tok, On(p, 9, Node(NAME_EXPR, [x])), YY_MIN_SHIFTREDUCE + PLAIN_IN);
  }

  lemma ReadFunction(T: Tables, C: Cert, c: Config, tok: Token, p: Pile, i: Tree)
    requires Ready(T, C, c) && InNameMoves(T) && Terminal(tok) && tok.major == TK_ID
    requires p.On? && p.state == 9 && Stands(On(p, Pending(PLAIN_IN), i), c.stack) && |c.stack| < 50
    ensures Stands(On(On(p, 178, Node(PLAIN_IN, [i])), Pending(NAME), Leaf(tok)), Run(T, C, c, tok).stack)
    ensures |Run(T, C, c, tok).stack| == |c.stack| + 1
  {
    assert Sized(T);
    hide Ready, Sized, Run, Answers, Follows, HasLength, Stands, Drop, TopMinors;
    PendingAnswers(T, PLAIN_IN, tok.major);
    OneMinor(p, Pending(PLAIN_IN), i);
    var c1 := PileReduce(T, C, c, tok, On(p, Pending(PLAIN_IN), i), 1, PLAIN_IN, 178);
    PileShift(T, C, c1, tok, On(p, 178, Node(PLAIN_IN, [i])), YY_MIN_SHIFTREDUCE + NAME);
  }

  lemma ReadOpen(T: Tables, C: Cert, c: Config, tok: Token, p: Pile, f: Tree)
    requires Ready(T, C, c) && InNameMoves(T) && Terminal(tok) && tok.major == TK_LP
    requires p.On? && p.state == 178 && Stands(On(p, Pending(NAME), f), c.stack) && |c.stack| < 50
    ensures Stands(On(On(On(p, 302, Node(NAME, [f])), 301, Node(NO_DBNM, [])), 6, Leaf(tok)), Run(T, C, c, tok).stack)
    ensures |Run(T, C, c, tok).stack| == |c.stack| + 2
  {
    assert Sized(T);
    hide Ready, Sized, Run, Answers, Follows, HasLength, Stands, Drop, TopMinors;
    PendingAnswers(T, NAME, tok.major);
    OneMinor(p, Pending(NAME), f);
    var c1 := PileReduce(T, C, c, tok, On(p, Pending(NAME), f), 1, NAME, 302);
    var q := On(p, 302, Node(NAME, [f]));
    var c2 := PileReduce(T, C, c1, tok, q, 0, NO_DBNM, 301);
    PileShift(T, C, c2, tok, On(q, 301, Node(NO_DBNM, [])), 6);
  }

  lemma ReadArgument(T: Tables, C: Cert, c: Config, tok: Token, p: Pile)
    requires Ready(T, C, c) && InNameMoves(T) && Terminal(tok) && tok.major == TK_INTEGER
    requires p.On? && p.state == 6 && Stands(p, c.stack) && |c.stack| < 50
    ensures Stands(On(p, Pending(INTEGER_TERM), Leaf(tok)), Run(T, C, c, tok).stack)
    ensures |Run(T, C, c, tok).stack| == |c.stack| + 1
  {
    assert Sized(T);
    hide Ready, Sized, Run, Answers, Follows, HasLength, Stands, Drop, TopMinors;
    PileShift(T, C, c, tok, p, YY_MIN_SHIFTREDUCE + INTEGER_TERM);
  }

  /** The list of arguments with the one argument d. */
  function ListOf(d: Tree): Tree {
    Node(EXPR_LIST, [Node(ONE_EXPR, [Node(INTEGER_TERM, [d])])])
  }

  lemma ReadClose(T: Tables, C: Cert, c: Config, tok: Token, p: Pile, d: Tree)
    requires Ready(T, C, c) && InNameMoves(T) && Terminal(tok) && tok.major == TK_RP
    requires p.On? && p.state == 6 && Stands(On(p, Pending(INTEGER_TERM), d), c.stack) && |c.stack| < 50
    ensures Stands(On(On(p, 431, ListOf(d)), Pending(PAREN_LIST), Leaf(tok)), Run(T, C, c, tok).stack)
    ensures |Run(T, C, c, tok).stack| == |c.stack| + 1
  {
    assert Sized(T);
    hide Ready, Sized, Run, Answers, Follows, HasLength, Stands, Drop, TopMinors;
    PendingAnswers(T, INTEGER_TERM, tok.major);
    OneMinor(p, Pending(INTEGER_TERM), d);
    var c1 := PileReduce(T, C, c, tok, On(p, Pending(INTEGER_TERM), d), 1, INTEGER_TERM, 52);
    var d1 := Node(INTEGER_TERM, [d]);
    OneMinor(p, 52, d1);
    var c2 := PileReduce(T, C, c1, tok, On(p, 52, d1), 1, ONE_EXPR, 432);
    var d2 := Node(ONE_EXPR, [d1]);
    OneMinor(p, 432, d2);
    var c3 := PileReduce(T, C, c2, tok, On(p, 432, d2), 1, EXPR_LIST, 431);
    PileShift(T, C, c3, tok, On(p, 431, ListOf(d)), YY_MIN_SHIFTREDUCE + PAREN_LIST);
  }

  /** The value of x IN f (list). */
  function InCall(x: Tree, i: Tree, f: Tree, b: Tree, lp: Tree, list: Tree, rp: Tree): Tree {
    Node(IN_NAME, [x, i, f, b, Node(PAREN_LIST, [lp, list, rp])])
  }

  /** What comes after the close parenthesis: first the arguments are complete, */
  lemma CloseList(T: Tables, C: Cert, c: Config, tok: Token, p: Pile, lp: Tree, list: Tree, rp: Tree)
    returns (next: Config)
    requires Ready(T, C, c) && InNameMoves(T) && Terminal(tok) && |c.stack| < 50
    requires p.On? && p.state == 301 && Stands(On(On(On(p, 6, lp), 431, list), Pending(PAREN_LIST), rp), c.stack)
    ensures Ready(T, C, next) && Run(T, C, c, tok) == Run(T, C, next, tok)
    ensures Stands(On(p, Pending(IN_NAME), Node(PAREN_LIST, [lp, list, rp])), next.stack)
    ensures |next.stack| == |c.stack| - 2
  {
    assert Sized(T);
    hide Ready, Sized, Run, Answers, Follows, HasLength, Stands, Drop, TopMinors;
    PendingAnswers(T, PAREN_LIST, tok.major);
    ThreeMinors(p, lp, list, rp);
    next := PileReduce(T, C, c, tok, On(On(On(p, 6, lp), 431, list), Pending(PAREN_LIST), rp), 3, PAREN_LIST,
                       Pending(IN_NAME));
  }

  /** and then the whole is. */
  lemma CloseIn(T: Tables, C: Cert, c: Config, tok: Token, p: Pile, x: Tree, i: Tree, f: Tree, b: Tree, l: Tree)
    returns (next: Config)
    requires Ready(T, C, c) && InNameMoves(T) && Terminal(tok) && |c.stack| < 50 && p.On? && p.state == 58
    requires Stands(On(On(On(On(On(p, 9, x), 178, i), 302, f), 301, b), Pending(IN_NAME), l), c.stack)
    ensures Ready(T, C, next) && Run(T, C, c, tok) == Run(T, C, next, tok)
    ensures Stands(On(p, 9, Node(IN_NAME, [x, i, f, b, l])), next.stack)
    ensures |next.stack| == |c.stack| - 4 && Top(next).major == EXPR
  {
    assert Sized(T);
    hide Ready, Sized, Run, Answers, Follows, HasLength, Stands, Drop, TopMinors;
    PendingAnswers(T, IN_NAME, tok.major);
    FiveMinors(p, x, i, f, b, l);
    var q := On(On(On(On(On(p, 9, x), 178, i), 302, f), 301, b), Pending(IN_NAME), l);
    next := PileReduce(T, C, c, tok, q, 5, IN_NAME, 9);
  }

  lemma ReadNext(T: Tables, C: Cert, c: Config, tok: Token, p: Pile, x: Tree, i: Tree, f: Tree, b: Tree, lp: Tree,
                 list: Tree, rp: Tree)
    requires Ready(T, C, c) && InNameMoves(T) && Terminal(tok) && tok.major == TK_PLUS
    requires p.On? && p.state == 58 && |c.stack| < 50
    requires var q := On(On(On(On(p, 9, x), 178, i), 302, f), 301, b);
      Stands(On(On(On(q, 6, lp), 431, list), Pending(PAREN_LIST), rp), c.stack)
    ensures var c' := Run(T, C, c, tok); var n := |c.stack| - 7;
      && 0 <= n < |c'.stack|
      && c'.stack[n].minor == InCall(x, i, f, b, lp, list, rp) && c'.stack[n].major == EXPR
  {
    assert Sized(T);
    hide Ready, Sized, Run, Answers, Follows, HasLength, Stands;
    var c1 := CloseList(T, C, c, tok, On(On(On(On(p, 9, x), 178, i), 302, f), 301, b), lp, list, rp);
    var c2 := CloseIn(T, C, c1, tok, p, x, i, f, b, Node(PAREN_LIST, [lp, list, rp]));
    var q := On(p, 9, InCall(x, i, f, b, lp, list, rp));
    PileShift(T, C, c2, tok, q, 95);
    StandsTop(q, c2.stack);
  }

  lemma StandsTop(p: Pile, stack: seq<Entry>)
    requires Stands(p, stack) && p.On?
    ensures stack != [] && stack[|stack| - 1].minor == p.minor
  {}

  lemma ThreeMinors(q: Pile, a: Tree, b: Tree, c: Tree)
    ensures var p := On(On(On(q, 6, a), 431, b), Pending(PAREN_LIST), c);
      3 + Depth(q) == Depth(p) && Drop(p, 3) == q && TopMinors(p, 3) == [a, b, c]
  {
    var p1 := On(q, 6, a);
    var p2 := On(p1, 431, b);
    assert Drop(p1, 0) == p1 && Drop(p1, 1) == Drop(q, 0) == q;
    assert Drop(p2, 2) == Drop(p1, 1);
    assert TopMinors(p1, 1) == [a];
    assert TopMinors(p2, 2) == [a, b];
  }

  lemma FiveMinors(p: Pile, x: Tree, i: Tree, f: Tree, b: Tree, l: Tree)
    ensures var q := On(On(On(On(On(p, 9, x), 178, i), 302, f), 301, b), Pending(IN_NAME), l);
      5 + Depth(p) == Depth(q) && Drop(q, 5) == p && TopMinors(q, 5) == [x, i, f, b, l]
  {
    var p1 := On(p, 9, x);
    var p2 := On(p1, 178, i);
    var p3 := On(p2, 302, f);
    var p4 := On(p3, 301, b);
    assert Depth(p1) == 1 + Depth(p) && Depth(p2) == 2 + Depth(p) && Depth(p3) == 3 + Depth(p);
    assert Drop(p1, 1) == Drop(p, 0) == p;
    assert Drop(p2, 2) == Drop(p1, 1);
    assert Drop(p3, 3) == Drop(p2, 2);
    assert Drop(p4, 4) == Drop(p3, 3);
    assert TopMinors(p1, 1) == [x];
    assert TopMinors(p2, 2) == [x, i];
    assert TopMinors(p3, 3) == [x, i, f];
    assert TopMinors(p4, 4) == [x, i, f, b];
  }

  /** SELECT x IN f ( 1 ) + */
  predicate InNameText(toks: seq<Token>) {
    && |toks| == 8 && AllTerminal(toks)
    && toks[0].major == TK_SELECT && toks[1].major == TK_ID && toks[2].major == TK_IN && toks[3].major == TK_ID
    && toks[4].major == TK_LP && toks[5].major == TK_INTEGER && toks[6].major == TK_RP && toks[7].major == TK_PLUS
  }

  /** What becomes of the tokens x IN f ( 1 ). */
  function InNameValue(toks: seq<Token>): Tree
    requires |toks| == 8
  {
    InCall(Node(NAME_EXPR, [Leaf(toks[1])]), Node(PLAIN_IN, [Leaf(toks[2])]), Node(NAME, [Leaf(toks[3])]),
           Node(NO_DBNM, []), Leaf(toks[4]), ListOf(Leaf(toks[5])), Leaf(toks[6]))
  }

  lemma ReadName(T: Tables, C: Cert, c: Config, tok: Token) returns (p: Pile)
    requires Ready(T, C, c) && NestingMoves(T) && Terminal(tok) && tok.major == TK_ID && At(c, 4, 242)
    ensures p.On? && p.state == 58 && Stands(On(p, 356, Leaf(tok)), Run(T, C, c, tok).stack)
    ensures |Run(T, C, c, tok).stack| == 7
  {
    hide Certified, Inv, WellFormed, Run, Answers, Follows, HasLength, Ready;
    var c1 := AfterSelect(T, C, c, tok);
    p := On(Floor(5), 58, Top(c1).minor);
    assert Stands(p, c1.stack);
    PileShift(T, C, c1, tok, p, 356);
  }

  /** Reading it leaves the value of x IN f ( 1 ) on the stack. */
  lemma InNameRead(T: Tables, C: Cert, toks: seq<Token>)
    requires Certified(T, C) && NestingMoves(T) && InNameMoves(T) && InNameText(toks)
    ensures var stack := Feed(T, C, toks).stack;
      7 <= |stack| && stack[6].minor == InNameValue(toks) && stack[6].major == EXPR
  {
    hide Certified, Inv, WellFormed, Run, Feed, InNameMoves, NestingMoves, Ready, Stands, Answers, Follows, HasLength;
    FirstSelect(T, C, toks);
    FeedNext(T, C, toks, 1);
    var p := ReadName(T, C, Feed(T, C, toks[..1]), toks[1]);
    FeedNext(T, C, toks, 2);
    var x := Node(NAME_EXPR, [Leaf(toks[1])]);
    ReadIn(T, C, Feed(T, C, toks[..2]), toks[2], p, Leaf(toks[1]));
    FeedNext(T, C, toks, 3);
    var p1, i := On(p, 9, x), Node(PLAIN_IN, [Leaf(toks[2])]);
    ReadFunction(T, C, Feed(T, C, toks[..3]), toks[3], p1, Leaf(toks[2]));
    FeedNext(T, C, toks, 4);
    var p2, f, b := On(p1, 178, i), Node(NAME, [Leaf(toks[3])]), Node(NO_DBNM, []);
    ReadOpen(T, C, Feed(T, C, toks[..4]), toks[4], p2, Leaf(toks[3]));
    FeedNext(T, C, toks, 5);
    var p3 := On(On(On(p2, 302, f), 301, b), 6, Leaf(toks[4]));
    ReadArgument(T, C, Feed(T, C, toks[..5]), toks[5], p3);
    FeedNext(T, C, toks, 6);
    ReadClose(T, C, Feed(T, C, toks[..6]), toks[6], p3, Leaf(toks[5]));
    FeedNext(T, C, toks, 7);
    ReadNext(T, C, Feed(T, C, toks[..7]), toks[7], p, x, i, f, b, Leaf(toks[4]), ListOf(Leaf(toks[5])), Leaf(toks[6]));
    assert toks[..8] == toks;
  }

  lemma YieldMore(ds: seq<Tree>, d: Tree)
    ensures YieldAll(ds + [d]) == YieldAll(ds) + Yield(d)
  {
    hide Yield;
    assert (ds + [d])[..|ds|] == ds;
  }

  lemma YieldSingle(r: nat, d: Tree)
    ensures Yield(Node(r, [d])) == Yield(d)
  {
    YieldNode(Node(r, [d]));
    YieldOne(d);
  }

  lemma YieldInCall(x: Tree, i: Tree, f: Tree, b: Tree, lp: Tree, list: Tree, rp: Tree)
    ensures Yield(InCall(x, i, f, b, lp, list, rp)) ==
      Yield(x) + Yield(i) + Yield(f) + Yield(b) + Yield(Node(PAREN_LIST, [lp, list, rp]))
    ensures Yield(Node(PAREN_LIST, [lp, list, rp])) == Yield(lp) + Yield(list) + Yield(rp)
  {
    var l := Node(PAREN_LIST, [lp, list, rp]);
    YieldNode(l);
    YieldNode(InCall(x, i, f, b, lp, list, rp));
    hide Yield, YieldAll;
    YieldOne(lp);
    YieldMore([lp], list);
    YieldMore([lp, list], rp);
    assert [lp] + [list] == [lp, list] && [lp, list] + [rp] == [lp, list, rp];
    YieldOne(x);
    YieldMore([x], i);
    YieldMore([x, i], f);
    YieldMore([x, i, f], b);
    YieldMore([x, i, f, b], l);
    assert [x] + [i] == [x, i] && [x, i] + [f] == [x, i, f] && [x, i, f] + [b] == [x, i, f, b];
    assert [x, i, f, b] + [l] == [x, i, f, b, l];
  }

  lemma InNameYield(toks: seq<Token>)
    requires |toks| == 8
    ensures Yield(InNameValue(toks)) == toks[1..7] && Yield(InNameValue(toks).kids[4]) != []
  {
    var d := InNameValue(toks);
    var one := Leaf(toks[5]);
    YieldInCall(d.kids[0], d.kids[1], d.kids[2], d.kids[3], Leaf(toks[4]), ListOf(one), Leaf(toks[6]));
    YieldSingle(NAME_EXPR, Leaf(toks[1]));
    YieldSingle(PLAIN_IN, Leaf(toks[2]));
    YieldSingle(NAME, Leaf(toks[3]));
    YieldNode(Node(NO_DBNM, []));
    NoYield();
    YieldSingle(INTEGER_TERM, one);
    YieldSingle(ONE_EXPR, Node(INTEGER_TERM, [one]));
    YieldSingle(EXPR_LIST, Node(ONE_EXPR, [Node(INTEGER_TERM, [one])]));
    assert Yield(d.kids[4]) == [toks[4], toks[5], toks[6]];
    assert Yield(d) == [toks[1], toks[2], toks[3], toks[4], toks[5], toks[6]] == toks[1..7];
  }

  lemma InNameEdges(toks: seq<Token>)
    requires |toks| == 8
    ensures Start(InNameValue(toks)) == toks[1].z && End(InNameValue(toks)) == TokenEnd(toks[3])
  {
    var kids := InNameValue(toks).kids;
    hide Yield, YieldAll;
    assert NameToken(kids[2]) == NameToken(kids[2].kids[0]) == toks[3];
    assert NameToken(kids[3]) == NO_TOKEN;
    assert Start(kids[0]) == NameToken(kids[0].kids[0]).z == toks[1].z;
  }

  /** Its tokens are the six of the text, but the end that is recorded is that of the name f. */
  lemma InNameShort(toks: seq<Token>)
    requires InNameText(toks)
    ensures var d := InNameValue(toks);
      && EndsShort(d) && Yield(d) == toks[1..7] && Start(d) == toks[1].z && End(d) == TokenEnd(toks[3])
    ensures InOrder(toks) ==> End(InNameValue(toks)) < TokenEnd(toks[6])
  {
    InNameYield(toks);
    InNameEdges(toks);
    hide Yield, YieldAll, Start, End, InCall;
    assert EndsShort(InNameValue(toks)) by {
      assert InNameValue(toks).rule == IN_NAME && |InNameValue(toks).kids| == 5;
    }
  }
}
