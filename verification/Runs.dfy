/** Whole runs: what one call of the parser does with a token, and what a sequence of calls does.
    The weights of the certificate bound every run. */
module Runs {
  import opened Lemon
  import opened Certificate
  import opened Machine
  import opened Invariant

  // ---------------------------------------------------------------------------------------------
  // Weights

  function Weigh(C: Cert, es: seq<Entry>): int {
    if es == [] then 0 else Weigh(C, es[..|es| - 1]) + C.weight(es[|es| - 1].major)
  }

  lemma {:induction false} WeighAppend(C: Cert, a: seq<Entry>, b: seq<Entry>)
    ensures Weigh(C, a + b) == Weigh(C, a) + Weigh(C, b)
  {
    if b == [] {
      assert a + b == a;
    } else {
      WeighAppend(C, a, b[..|b| - 1]);
      assert (a + b)[..|a + b| - 1] == a + b[..|b| - 1];
    }
  }

  /** The weight of a stack of bounded height is bounded below. */
  lemma {:induction false} WeighFloor(C: Cert, es: seq<Entry>, n: nat)
    requires forall x: nat :: 0 <= C.weight(x) + C.floor
    requires |es| <= n
    ensures 0 <= Weigh(C, es) + C.floor * n
  {
    if es == [] {
    } else {
      WeighFloor(C, es[..|es| - 1], n - 1);
      assert C.floor * n == C.floor * (n - 1) + C.floor;
    }
  }

  lemma FitsWeight(T: Tables, C: Cert, slot: nat, x: nat)
    requires Certified(T, C) && Fits(T, C, slot, x)
    ensures C.weight(slot) <= C.weight(x)
  {
    var z: nat :| StandsFor(T, x, z) && C.covers(slot, z);
    assert CoverOk(T, C, slot, z);
    assert x < FALLBACK_COUNT ==> FallbackSettles(T.fallback, x);
  }

  /** What fills a right-hand side weighs at least as much as the right-hand side. */
  lemma {:induction false} KidsWeight(T: Tables, C: Cert, slots: seq<nat>, es: seq<Entry>)
    requires Certified(T, C) && |slots| == |es|
    requires forall k :: 0 <= k < |es| ==> Fits(T, C, slots[k], es[k].major)
    ensures SlotWeight(C, slots) <= Weigh(C, es)
  {
    if es == [] {
    } else {
      KidsWeight(T, C, slots[..|es| - 1], es[..|es| - 1]);
      FitsWeight(T, C, slots[|es| - 1], es[|es| - 1].major);
    }
  }

  /** The termination measure: the weight above the base, shifted to be a natural number. */
  ghost function Potential(C: Cert, stack: seq<Entry>): int
    requires stack != []
  {
    Weigh(C, stack[1..]) + C.floor * (YYSTACKDEPTH - 1)
  }

  /** Cutting off a right-hand side takes at least its weight away. */
  lemma CutWeight(T: Tables, C: Cert, stack: seq<Entry>, rhs: seq<nat>)
    requires Certified(T, C) && |rhs| < |stack|
    requires forall k :: 0 <= k < |rhs| ==> Fits(T, C, rhs[k], stack[|stack| - |rhs| + k].major)
    ensures Weigh(C, stack[1..|stack| - |rhs|]) + SlotWeight(C, rhs) <= Weigh(C, stack[1..])
  {
    hide Certified, Fits, Weigh, SlotWeight;
    var rest, gone := stack[1..|stack| - |rhs|], stack[|stack| - |rhs|..];
    assert stack[1..] == rest + gone;
    WeighAppend(C, rest, gone);
    forall k | 0 <= k < |gone| ensures Fits(T, C, rhs[k], gone[k].major) {
      assert gone[k] == stack[|stack| - |rhs| + k];
    }
    KidsWeight(T, C, rhs, gone);
  }

  lemma PushedWeight(C: Cert, stack: seq<Entry>, n: nat, e: Entry)
    requires 1 <= n <= |stack|
    ensures Weigh(C, (stack[..n] + [e])[1..]) == Weigh(C, stack[1..n]) + C.weight(e.major)
  {
    assert (stack[..n] + [e])[1..] == stack[1..n] + [e];
    WeighAppend(C, stack[1..n], [e]);
    assert [e][..0] == [];
  }

  lemma GotoWeight(C: Cert, c: Config, rhs: seq<nat>, e: Entry, c': Config)
    requires 1 <= |c.stack| - |rhs| && GotoStep(c, |rhs|, e, c')
    requires Weigh(C, c.stack[1..|c.stack| - |rhs|]) + SlotWeight(C, rhs) <= Weigh(C, c.stack[1..])
    requires C.weight(e.major) < SlotWeight(C, rhs)
    ensures Weigh(C, c'.stack[1..]) < Weigh(C, c.stack[1..])
  {
    hide Weigh, SlotWeight;
    PushedWeight(C, c.stack, |c.stack| - |rhs|, e);
  }

  lemma AcceptWeight(C: Cert, c: Config, rhs: seq<nat>, c': Config)
    requires 1 + |rhs| == |c.stack| && c'.stack == c.stack[..1]
    requires Weigh(C, c.stack[1..|c.stack| - |rhs|]) + SlotWeight(C, rhs) <= Weigh(C, c.stack[1..])
    requires 0 < SlotWeight(C, rhs)
    ensures Weigh(C, c'.stack[1..]) < Weigh(C, c.stack[1..])
  {
    hide Weigh, SlotWeight;
    assert c'.stack[1..] == c.stack[1..|c.stack| - |rhs|];
  }

  /** What one reduce does to the stack and its weight, case by case. */
  lemma ReduceWeight(T: Tables, C: Cert, c: Config, r: nat)
    requires Certified(T, C) && Inv(T, C, c.stack) && ReduceDue(T, C, c.stack, r)
    ensures CanReduce(T, c.stack, r)
    ensures var c' := Reduce(T, c, r); var n := |T.rules[r].rhs|;
      if n == 0 && YYSTACKDEPTH <= |c.stack| then c'.stack == c.stack[..1]
      else
        && c'.stack != []
        && (Weigh(C, c'.stack[1..]) < Weigh(C, c.stack[1..]))
  {
    Height(T, C, c.stack);
    RuleFacts(T, C, r);
    StartWeighs(T, C);
    hide Certified, Inv, WellFormed, ReduceDue, Reduce, GotoDefined, Sized, Fits, Weigh, SlotWeight, TreeOk, GotoStep;
    var stack, rhs := c.stack, T.rules[r].rhs;
    DueCanReduce(T, C, stack, r);
    ReduceCases(T, C, c, r);
    var c' := Reduce(T, c, r);
    if rhs != [] || |stack| < YYSTACKDEPTH {
      CutWeight(T, C, stack, rhs);
      if c'.stack != [] && GotoStep(c, |rhs|, Top(c'), c') {
        GotoWeight(C, c, rhs, Top(c'), c');
      } else {
        AcceptWeight(C, c, rhs, c');
      }
    }
  }

  lemma StartWeighs(T: Tables, C: Cert)
    requires Certified(T, C)
    ensures 0 <= C.weight(START)
  {}

  // ---------------------------------------------------------------------------------------------
  // Runs

  predicate Terminal(tok: Token) {
    tok.major < FIRST_NONTERMINAL
  }

  const BASE: Entry := Entry(0, 0, Node(0, []))

  const INITIAL: Config := Config([BASE], [])

  /** One call of the parser: reduce as the token demands, then shift or refuse it.  The loop also
      stops when the stack is down to its base entry. */
  function Run(T: Tables, C: Cert, c: Config, tok: Token): (c': Config)
    requires Certified(T, C) && Inv(T, C, c.stack) && Terminal(tok)
    ensures Inv(T, C, c'.stack)
    decreases Potential(C, c.stack)
  {
    NextAction(T, C, c, tok);
    var act := ShiftAction(T, Top(c).stateno, tok.major);
    if act <= YY_MAX_SHIFTREDUCE then Shift(c, act, tok)
    else if act <= YY_MAX_REDUCE then
      var r := act - YY_MIN_REDUCE;
      ReduceKeeps(T, C, c, r);
      var next := Reduce(T, c, r);
      if |next.stack| == 1 then next
      else
        ReduceWeight(T, C, c, r);
        WeighFloor(C, c.stack[1..], YYSTACKDEPTH - 1);
        Run(T, C, next, tok)
    else Refuse(c, tok)
  }

  lemma RunShift(T: Tables, C: Cert, c: Config, tok: Token)
    requires Certified(T, C) && Inv(T, C, c.stack) && Terminal(tok)
    requires Top(c).stateno < YYNSTATE || YY_MIN_REDUCE <= Top(c).stateno
    requires ShiftAction(T, Top(c).stateno, tok.major) <= YY_MAX_SHIFTREDUCE
    ensures Run(T, C, c, tok) == Shift(c, ShiftAction(T, Top(c).stateno, tok.major), tok)
  {
    hide Certified, Inv, WellFormed, ReduceDue, CanReduce, Reduce, Shift, Refuse, Sized, Weigh, Potential, ShiftAction;
  }

  lemma RunReduce(T: Tables, C: Cert, c: Config, tok: Token, r: nat) returns (next: Config)
    requires Certified(T, C) && Inv(T, C, c.stack) && Terminal(tok)
    requires Top(c).stateno < YYNSTATE || YY_MIN_REDUCE <= Top(c).stateno
    requires ShiftAction(T, Top(c).stateno, tok.major) == YY_MIN_REDUCE + r <= YY_MAX_REDUCE
    requires ReduceDue(T, C, c.stack, r)
    ensures CanReduce(T, c.stack, r) && next == Reduce(T, c, r) && Inv(T, C, next.stack)
    ensures Run(T, C, c, tok) == if |next.stack| == 1 then next else Run(T, C, next, tok)
  {
    Height(T, C, c.stack);
    hide Certified, Inv, WellFormed, ReduceDue, CanReduce, Reduce, Shift, Refuse, Sized, Weigh, Potential, ShiftAction;
    ReduceKeeps(T, C, c, r);
    next := Reduce(T, c, r);
  }

  lemma RunRefuse(T: Tables, C: Cert, c: Config, tok: Token)
    requires Certified(T, C) && Inv(T, C, c.stack) && Terminal(tok)
    requires Top(c).stateno < YYNSTATE || YY_MIN_REDUCE <= Top(c).stateno
    requires YY_MAX_REDUCE < ShiftAction(T, Top(c).stateno, tok.major)
    ensures Run(T, C, c, tok) == Refuse(c, tok)
  {
    hide Certified, Inv, WellFormed, ReduceDue, CanReduce, Reduce, Shift, Refuse, Sized, Weigh, Potential, ShiftAction;
  }

  /** Unless it empties the stack, a reduce leaves a lighter one. */
  lemma Lighter(T: Tables, C: Cert, c: Config, r: nat)
    requires Certified(T, C) && Inv(T, C, c.stack) && ReduceDue(T, C, c.stack, r)
    ensures CanReduce(T, c.stack, r) && Inv(T, C, Reduce(T, c, r).stack)
    ensures var next := Reduce(T, c, r);
      |next.stack| != 1 ==> 0 <= Potential(C, next.stack) < Potential(C, c.stack)
  {
    Bounds(T, C, c.stack);
    hide Certified, Inv, WellFormed, ReduceDue, CanReduce, Reduce, Sized, Weigh;
    ReduceKeeps(T, C, c, r);
    ReduceWeight(T, C, c, r);
    var next := Reduce(T, c, r);
    Height(T, C, next.stack);
    WeighFloor(C, next.stack[1..], YYSTACKDEPTH - 1);
  }

  /** One round of the parser's loop. */
  lemma Unfold(T: Tables, C: Cert, c: Config, tok: Token) returns (act: nat, next: Config)
    requires Certified(T, C) && Inv(T, C, c.stack) && Terminal(tok)
    ensures Sized(T) && 1 <= |c.stack| <= YYSTACKDEPTH
    ensures Top(c).stateno < YYNSTATE || YY_MIN_REDUCE <= Top(c).stateno
    ensures act == ShiftAction(T, Top(c).stateno, tok.major)
    ensures act <= YY_MAX_SHIFTREDUCE ==> Run(T, C, c, tok) == Shift(c, act, tok)
    ensures YY_MAX_SHIFTREDUCE < act <= YY_MAX_REDUCE ==>
              && YY_MIN_REDUCE <= act && ReduceDue(T, C, c.stack, act - YY_MIN_REDUCE)
              && CanReduce(T, c.stack, act - YY_MIN_REDUCE) && next == Reduce(T, c, act - YY_MIN_REDUCE)
              && Inv(T, C, next.stack)
    ensures YY_MAX_SHIFTREDUCE < act <= YY_MAX_REDUCE && |next.stack| == 1 ==> Run(T, C, c, tok) == next
    ensures YY_MAX_SHIFTREDUCE < act <= YY_MAX_REDUCE && |next.stack| != 1 ==>
              Run(T, C, c, tok) == Run(T, C, next, tok) && 0 <= Potential(C, next.stack) < Potential(C, c.stack)
    ensures YY_MAX_REDUCE < act ==> act == YY_ERROR_ACTION && Run(T, C, c, tok) == Refuse(c, tok)
  {
    Height(T, C, c.stack);
    hide Certified, Inv, WellFormed, ReduceDue, CanReduce, Reduce, Shift, Refuse, Sized, Weigh, Run, Potential,
         ShiftAction;
    NextAction(T, C, c, tok);
    act := ShiftAction(T, Top(c).stateno, tok.major);
    next := c;
    if act <= YY_MAX_SHIFTREDUCE {
      RunShift(T, C, c, tok);
    } else if act <= YY_MAX_REDUCE {
      next := RunReduce(T, C, c, tok, act - YY_MIN_REDUCE);
      Lighter(T, C, c, act - YY_MIN_REDUCE);
    } else {
      RunRefuse(T, C, c, tok);
    }
  }

  predicate AllTerminal(toks: seq<Token>) {
    forall i :: 0 <= i < |toks| ==> Terminal(toks[i])
  }

  lemma InitialOk(T: Tables, C: Cert)
    requires Certified(T, C)
    ensures Inv(T, C, INITIAL.stack)
  {
    assert InitialStateOk(C);
    assert Known(T, C, INITIAL.stack, 0);
  }

  /** The machine after a whole sequence of tokens, starting from a new parser. */
  function Feed(T: Tables, C: Cert, toks: seq<Token>): (c: Config)
    requires Certified(T, C) && AllTerminal(toks)
    ensures Inv(T, C, c.stack)
  {
    if toks == [] then
      InitialOk(T, C);
      INITIAL
    else
      Run(T, C, Feed(T, C, toks[..|toks| - 1]), toks[|toks| - 1])
  }
}
