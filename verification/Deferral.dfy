/** Shift-reduce actions.  The generated parser stores a pseudo-state and performs the reduce only when
    the next token arrives.  The plain machine performs it at once.  Both do the same things to the same
    values in the same order: settling what the deferring machine still owes gives exactly the plain
    machine, after every call. */
module Deferral {
  import opened Lemon
  import opened Certificate
  import opened Machine
  import opened Invariant
  import opened Runs

  lemma PendingDue(T: Tables, C: Cert, c: Config) returns (r: nat)
    requires Certified(T, C) && Inv(T, C, c.stack) && Pseudo(Top(c).stateno)
    ensures Sized(T) && Top(c).stateno == YY_MIN_REDUCE + r <= YY_MAX_REDUCE
    ensures ReduceDue(T, C, c.stack, r) && T.rules[r].rhs != [] && T.rules[r].lhs != START
  {
    Height(T, C, c.stack);
    hide Certified, KnownSymbols, KnownGotos, TreeOk, Sized;
    assert Known(T, C, c.stack, |c.stack| - 1);
    r := Top(c).stateno - YY_MIN_REDUCE;
  }

  lemma PendingStays(T: Tables, C: Cert, c: Config, r: nat)
    requires Certified(T, C) && Inv(T, C, c.stack)
    requires Sized(T) && ReduceDue(T, C, c.stack, r) && T.rules[r].rhs != [] && T.rules[r].lhs != START
    ensures CanReduce(T, c.stack, r) && 2 <= |Reduce(T, c, r).stack|
  {
    hide Certified, Inv, WellFormed, ReduceDue, CanReduce, Reduce, Sized, TreeOk, Minors;
    ReduceCases(T, C, c, r);
  }

  /** A pending reduce neither overflows nor accepts. */
  lemma PendingReduce(T: Tables, C: Cert, c: Config)
    requires Certified(T, C) && Inv(T, C, c.stack) && Pseudo(Top(c).stateno)
    ensures Top(c).stateno <= YY_MAX_REDUCE
    ensures var r := Top(c).stateno - YY_MIN_REDUCE;
      && ReduceDue(T, C, c.stack, r) && CanReduce(T, c.stack, r)
      && Inv(T, C, Reduce(T, c, r).stack)
      && 2 <= |Reduce(T, c, r).stack|
      && 0 <= Potential(C, Reduce(T, c, r).stack) < Potential(C, c.stack)
  {
    Height(T, C, c.stack);
    var r := PendingDue(T, C, c);
    hide Certified, Inv, WellFormed, ReduceDue, CanReduce, Reduce, Sized, Potential;
    PendingStays(T, C, c, r);
    Lighter(T, C, c, r);
  }

  /** Performs every reduce that is still pending. */
  function Settle(T: Tables, C: Cert, c: Config): (c': Config)
    requires Certified(T, C) && Inv(T, C, c.stack)
    ensures Inv(T, C, c'.stack) && !Pseudo(Top(c').stateno)
    ensures Potential(C, c'.stack) <= Potential(C, c.stack)
    decreases Potential(C, c.stack)
  {
    if Pseudo(Top(c).stateno) then
      PendingReduce(T, C, c);
      Settle(T, C, Reduce(T, c, Top(c).stateno - YY_MIN_REDUCE))
    else c
  }

  /** One call of the plain machine, which is never left in a pseudo-state. */
  function EagerRun(T: Tables, C: Cert, c: Config, tok: Token): (c': Config)
    requires Certified(T, C) && Inv(T, C, c.stack) && !Pseudo(Top(c).stateno) && Terminal(tok)
    ensures Inv(T, C, c'.stack) && !Pseudo(Top(c').stateno)
    decreases Potential(C, c.stack)
  {
    NextAction(T, C, c, tok);
    var act := ShiftAction(T, Top(c).stateno, tok.major);
    if act <= YY_MAX_SHIFTREDUCE then Settle(T, C, Shift(c, act, tok))
    else if act <= YY_MAX_REDUCE then
      var r := act - YY_MIN_REDUCE;
      ReduceKeeps(T, C, c, r);
      var next := Reduce(T, c, r);
      if |next.stack| == 1 then next
      else
        ReduceWeight(T, C, c, r);
        WeighFloor(C, c.stack[1..], YYSTACKDEPTH - 1);
        EagerRun(T, C, Settle(T, C, next), tok)
    else Refuse(c, tok)
  }

  lemma EagerShift(T: Tables, C: Cert, c: Config, tok: Token)
    requires Certified(T, C) && Inv(T, C, c.stack) && !Pseudo(Top(c).stateno) && Terminal(tok)
    requires Top(c).stateno < YYNSTATE && ShiftAction(T, Top(c).stateno, tok.major) <= YY_MAX_SHIFTREDUCE
    requires Inv(T, C, Shift(c, ShiftAction(T, Top(c).stateno, tok.major), tok).stack)
    ensures EagerRun(T, C, c, tok) == Settle(T, C, Shift(c, ShiftAction(T, Top(c).stateno, tok.major), tok))
  {
    hide Certified, Inv, WellFormed, ReduceDue, CanReduce, Reduce, Shift, Refuse, Sized, Weigh, Settle, Potential,
         ShiftAction;
  }

  lemma EagerReduce(T: Tables, C: Cert, c: Config, tok: Token, r: nat) returns (next: Config)
    requires Certified(T, C) && Inv(T, C, c.stack) && !Pseudo(Top(c).stateno) && Terminal(tok)
    requires Top(c).stateno < YYNSTATE
    requires ShiftAction(T, Top(c).stateno, tok.major) == YY_MIN_REDUCE + r <= YY_MAX_REDUCE
    requires ReduceDue(T, C, c.stack, r)
    ensures CanReduce(T, c.stack, r) && next == Reduce(T, c, r) && Inv(T, C, next.stack)
    ensures EagerRun(T, C, c, tok) == if |next.stack| == 1 then next else EagerRun(T, C, Settle(T, C, next), tok)
  {
    Height(T, C, c.stack);
    hide Certified, Inv, WellFormed, ReduceDue, CanReduce, Reduce, Shift, Refuse, Sized, Weigh, Settle, Potential,
         ShiftAction;
    ReduceKeeps(T, C, c, r);
    next := Reduce(T, c, r);
  }

  lemma EagerRefuse(T: Tables, C: Cert, c: Config, tok: Token)
    requires Certified(T, C) && Inv(T, C, c.stack) && !Pseudo(Top(c).stateno) && Terminal(tok)
    requires Top(c).stateno < YYNSTATE && YY_MAX_REDUCE < ShiftAction(T, Top(c).stateno, tok.major)
    ensures EagerRun(T, C, c, tok) == Refuse(c, tok)
  {
    hide Certified, Inv, WellFormed, ReduceDue, CanReduce, Reduce, Shift, Refuse, Sized, Weigh, Settle, Potential,
         ShiftAction;
  }

  lemma EagerUnfold(T: Tables, C: Cert, c: Config, tok: Token) returns (act: nat, next: Config)
    requires Certified(T, C) && Inv(T, C, c.stack) && !Pseudo(Top(c).stateno) && Terminal(tok)
    ensures Top(c).stateno < YYNSTATE
    ensures act == ShiftAction(T, Top(c).stateno, tok.major)
    ensures act <= YY_MAX_SHIFTREDUCE ==>
              Inv(T, C, Shift(c, act, tok).stack) && EagerRun(T, C, c, tok) == Settle(T, C, Shift(c, act, tok))
    ensures YY_MAX_SHIFTREDUCE < act <= YY_MAX_REDUCE ==>
              && YY_MIN_REDUCE <= act && CanReduce(T, c.stack, act - YY_MIN_REDUCE)
              && next == Reduce(T, c, act - YY_MIN_REDUCE) && Inv(T, C, next.stack)
    ensures YY_MAX_SHIFTREDUCE < act <= YY_MAX_REDUCE && |next.stack| == 1 ==> EagerRun(T, C, c, tok) == next
    ensures YY_MAX_SHIFTREDUCE < act <= YY_MAX_REDUCE && |next.stack| != 1 ==>
              EagerRun(T, C, c, tok) == EagerRun(T, C, Settle(T, C, next), tok)
    ensures YY_MAX_REDUCE < act ==> EagerRun(T, C, c, tok) == Refuse(c, tok)
  {
    Height(T, C, c.stack);
    hide Certified, Inv, WellFormed, ReduceDue, CanReduce, Reduce, Shift, Refuse, Sized, Weigh, Settle, EagerRun,
         Potential, ShiftAction;
    NextAction(T, C, c, tok);
    act := ShiftAction(T, Top(c).stateno, tok.major);
    next := c;
    if act <= YY_MAX_SHIFTREDUCE {
      EagerShift(T, C, c, tok);
    } else if act <= YY_MAX_REDUCE {
      next := EagerReduce(T, C, c, tok, act - YY_MIN_REDUCE);
    } else {
      EagerRefuse(T, C, c, tok);
    }
  }

  lemma SettleUnfold(T: Tables, C: Cert, c: Config)
    requires Certified(T, C) && Inv(T, C, c.stack)
    ensures c.stack != []
    ensures Pseudo(Top(c).stateno) ==>
              && CanReduce(T, c.stack, Top(c).stateno - YY_MIN_REDUCE)
              && var next := Reduce(T, c, Top(c).stateno - YY_MIN_REDUCE);
              Inv(T, C, next.stack) && 2 <= |next.stack| && Settle(T, C, c) == Settle(T, C, next)
    ensures !Pseudo(Top(c).stateno) ==> Settle(T, C, c) == c
  {
    Height(T, C, c.stack);
    hide *;
    if Pseudo(Top(c).stateno) {
      SettlePending(T, C, c);
    } else {
      SettleNothing(T, C, c);
    }
  }

  lemma SettlePending(T: Tables, C: Cert, c: Config)
    requires Certified(T, C) && Inv(T, C, c.stack) && Pseudo(Top(c).stateno)
    ensures CanReduce(T, c.stack, Top(c).stateno - YY_MIN_REDUCE)
    ensures var next := Reduce(T, c, Top(c).stateno - YY_MIN_REDUCE);
      Inv(T, C, next.stack) && 2 <= |next.stack| && Settle(T, C, c) == Settle(T, C, next)
  {
    hide Certified, Inv, WellFormed, ReduceDue, CanReduce, Reduce, Sized, Weigh, Potential;
    PendingReduce(T, C, c);
  }

  lemma SettleNothing(T: Tables, C: Cert, c: Config)
    requires Certified(T, C) && Inv(T, C, c.stack) && !Pseudo(Top(c).stateno)
    ensures Settle(T, C, c) == c
  {
    hide Certified, Inv, WellFormed, Reduce, Sized, Weigh, Potential;
  }

  /** A pseudo-state is its own answer. */
  lemma PendingAnswer(T: Tables, C: Cert, c: Config, x: nat)
    requires Certified(T, C) && Inv(T, C, c.stack) && Pseudo(Top(c).stateno)
    ensures Sized(T) && YY_MIN_REDUCE <= Top(c).stateno && ShiftAction(T, Top(c).stateno, x) == Top(c).stateno
    ensures YY_MAX_SHIFTREDUCE < Top(c).stateno <= YY_MAX_REDUCE
  {
    assert Known(T, C, c.stack, |c.stack| - 1);
    hide KnownSymbols, KnownGotos;
  }

  /** The deferring machine, settled, is the plain machine: same stack, same log. */
  lemma {:induction false} RunSettles(T: Tables, C: Cert, c: Config, tok: Token)
    requires Certified(T, C) && Inv(T, C, c.stack) && Terminal(tok)
    ensures Settle(T, C, Run(T, C, c, tok)) == EagerRun(T, C, Settle(T, C, c), tok)
    decreases Potential(C, c.stack), 1
  {
    hide *;
    SettleUnfold(T, C, c);
    if Pseudo(Top(c).stateno) {
      PendingAnswer(T, C, c, tok.major);
      var act, next := Unfold(T, C, c, tok);
      RunSettles(T, C, next, tok);
    } else {
      RealRunSettles(T, C, c, tok);
    }
  }

  lemma {:induction false} RealRunSettles(T: Tables, C: Cert, c: Config, tok: Token)
    requires Certified(T, C) && Inv(T, C, c.stack) && Terminal(tok) && !Pseudo(Top(c).stateno)
    ensures Settle(T, C, Run(T, C, c, tok)) == EagerRun(T, C, c, tok)
    decreases Potential(C, c.stack), 0
  {
    hide *;
    var act, next := Unfold(T, C, c, tok);
    var act', next' := EagerUnfold(T, C, c, tok);
    assert act' == act;
    if act <= YY_MAX_SHIFTREDUCE {
    } else if YY_MAX_REDUCE < act {
      SettleUnfold(T, C, Refuse(c, tok));
    } else {
      assert next' == next;
      if |next.stack| == 1 {
        SettleUnfold(T, C, next);
      } else {
        RunSettles(T, C, next, tok);
      }
    }
  }

  /** The plain machine after a whole sequence of tokens. */
  function EagerFeed(T: Tables, C: Cert, toks: seq<Token>): (c: Config)
    requires Certified(T, C) && AllTerminal(toks)
    ensures Inv(T, C, c.stack) && !Pseudo(Top(c).stateno)
  {
    if toks == [] then
      InitialOk(T, C);
      INITIAL
    else
      EagerRun(T, C, EagerFeed(T, C, toks[..|toks| - 1]), toks[|toks| - 1])
  }

  /** Over any input the two machines agree once the pending reduces are settled. */
  lemma {:induction false} FeedSettles(T: Tables, C: Cert, toks: seq<Token>)
    requires Certified(T, C) && AllTerminal(toks)
    ensures Settle(T, C, Feed(T, C, toks)) == EagerFeed(T, C, toks)
  {
    if toks != [] {
      FeedSettles(T, C, toks[..|toks| - 1]);
      RunSettles(T, C, Feed(T, C, toks[..|toks| - 1]), toks[|toks| - 1]);
    }
  }

  /** One step of settling. */
  lemma PendingStep(T: Tables, C: Cert, c: Config) returns (next: Config)
    requires Certified(T, C) && Inv(T, C, c.stack) && Pseudo(Top(c).stateno)
    ensures Inv(T, C, next.stack) && Settle(T, C, c) == Settle(T, C, next)
    ensures 0 <= Potential(C, next.stack) < Potential(C, c.stack)
    ensures |next.log| == |c.log| + 1 && next.log[..|c.log|] == c.log && next.log[|c.log|].Reduced?
  {
    Height(T, C, c.stack);
    hide Certified, Inv, WellFormed, Settle, Reduce, ReduceDue, CanReduce, Sized, ReduceStep, Weigh, Potential;
    var r := Top(c).stateno - YY_MIN_REDUCE;
    SettlePending(T, C, c);
    PendingReduce(T, C, c);
    ReduceCases(T, C, c, r);
    next := Reduce(T, c, r);
    GotoLog(T, C, c, r, next);
  }

  /** A reduce that leaves more than the base entry adds just its own event. */
  lemma GotoLog(T: Tables, C: Cert, c: Config, r: nat, next: Config)
    requires Sized(T) && ReduceStep(T, C, c, r, next) && 2 <= |next.stack|
    ensures |next.log| == |c.log| + 1 && next.log[..|c.log|] == c.log && next.log[|c.log|].Reduced?
  {
    hide TreeOk, Minors, DestroyAll;
  }

  /** Settling adds only reductions: in particular the two machines have accepted, refused and overflowed
      at the same points. */
  lemma {:induction false} SettleOnlyReduces(T: Tables, C: Cert, c: Config)
    requires Certified(T, C) && Inv(T, C, c.stack)
    ensures var log := Settle(T, C, c).log;
      c.log <= log && forall i :: |c.log| <= i < |log| ==> log[i].Reduced?
    decreases Potential(C, c.stack)
  {
    hide *;
    SettleUnfold(T, C, c);
    if Pseudo(Top(c).stateno) {
      var next := PendingStep(T, C, c);
      SettleOnlyReduces(T, C, next);
    }
  }
}
