/** A bound on the work of every run, from the weights of the certificate. */
module Bound {
  import opened Lemon
  import opened Certificate
  import opened Machine
  import opened Invariant
  import opened Runs

  function Reductions(log: seq<Event>): nat {
    if log == [] then 0 else Reductions(log[..|log| - 1]) + (if log[|log| - 1].Reduced? then 1 else 0)
  }

  function Shifts(log: seq<Event>): nat {
    if log == [] then 0 else Shifts(log[..|log| - 1]) + (if log[|log| - 1].Shifted? then 1 else 0)
  }

  function Overflows(log: seq<Event>): nat {
    if log == [] then 0 else Overflows(log[..|log| - 1]) + (if log[|log| - 1].Overflowed? then 1 else 0)
  }

  /** Reductions and the weight on the stack are paid for by shifts, and by the depth of the stack each
      time it overflows. */
  ghost predicate Paid(C: Cert, c: Config) {
    && c.stack != []
    && Reductions(c.log) + Weigh(C, c.stack[1..])
         <= C.tokenWeight * Shifts(c.log) + C.floor * (YYSTACKDEPTH - 1) * Overflows(c.log)
  }

  lemma {:induction false} CountsAppend(a: seq<Event>, b: seq<Event>)
    ensures Reductions(a + b) == Reductions(a) + Reductions(b)
    ensures Shifts(a + b) == Shifts(a) + Shifts(b)
    ensures Overflows(a + b) == Overflows(a) + Overflows(b)
  {
    if b == [] {
      assert a + b == a;
    } else {
      CountsAppend(a, b[..|b| - 1]);
      assert (a + b)[..|a + b| - 1] == a + b[..|b| - 1];
    }
  }

  lemma CountOne(log: seq<Event>, e: Event)
    ensures Reductions(log + [e]) == Reductions(log) + (if e.Reduced? then 1 else 0)
    ensures Shifts(log + [e]) == Shifts(log) + (if e.Shifted? then 1 else 0)
    ensures Overflows(log + [e]) == Overflows(log) + (if e.Overflowed? then 1 else 0)
  {
    assert (log + [e])[..|log|] == log;
  }

  lemma {:induction false} DestroyAllCounts(es: seq<Entry>)
    ensures Reductions(DestroyAll(es)) == Shifts(DestroyAll(es)) == Overflows(DestroyAll(es)) == 0
  {
    if es != [] {
      DestroyAllCounts(es[..|es| - 1]);
      CountsAppend([Destroyed(es[|es| - 1].minor)], DestroyAll(es[..|es| - 1]));
      CountOne([], Destroyed(es[|es| - 1].minor));
      assert [] + [Destroyed(es[|es| - 1].minor)] == [Destroyed(es[|es| - 1].minor)];
    }
  }

  /** Discarding the stack costs at most the depth of the stack times the floor. */
  lemma DiscardPaid(C: Cert, c: Config, log: seq<Event>)
    requires forall x: nat :: 0 <= C.weight(x) + C.floor
    requires Paid(C, c) && |c.stack| <= YYSTACKDEPTH
    requires Reductions(log) == Reductions(c.log) && Shifts(log) == Shifts(c.log) && Overflows(log) == Overflows(c.log)
    ensures Paid(C, Config(c.stack[..1], log + [Overflowed]))
  {
    hide Reductions, Shifts, Overflows, Weigh;
    CountOne(log, Overflowed);
    WeighFloor(C, c.stack[1..], YYSTACKDEPTH - 1);
    NoWeight(C, c.stack);
    OnceMore(C.floor, Overflows(log));
  }

  lemma NoWeight(C: Cert, stack: seq<Entry>)
    requires stack != []
    ensures Weigh(C, stack[..1][1..]) == 0
  {}

  lemma OnceMore(f: int, k: int)
    ensures f * (YYSTACKDEPTH - 1) * (k + 1) == f * (YYSTACKDEPTH - 1) * k + f * (YYSTACKDEPTH - 1)
  {}

  lemma OneWeight(C: Cert, es: seq<Entry>, e: Entry)
    ensures Weigh(C, es + [e]) == Weigh(C, es) + C.weight(e.major)
  {
    assert (es + [e])[..|es|] == es;
  }

  lemma OneToken(w: int, k: int)
    ensures w * (k + 1) == w * k + w
  {}

  lemma PushPaid(C: Cert, c: Config, e: Entry, tok: Token)
    requires Paid(C, c) && C.weight(e.major) == C.tokenWeight
    ensures Paid(C, Config(c.stack + [e], c.log + [Shifted(tok)]))
  {
    hide Reductions, Shifts, Overflows, Weigh;
    assert (c.stack + [e])[1..] == c.stack[1..] + [e];
    OneWeight(C, c.stack[1..], e);
    CountOne(c.log, Shifted(tok));
    OneToken(C.tokenWeight, Shifts(c.log));
  }

  lemma ShiftPaid(T: Tables, C: Cert, c: Config, act: nat, tok: Token)
    requires Certified(T, C) && Paid(C, c) && |c.stack| <= YYSTACKDEPTH && Terminal(tok)
    ensures Paid(C, Shift(c, act, tok))
  {
    assert C.weight(tok.major) == C.tokenWeight;
    assert forall x: nat :: 0 <= C.weight(x) + C.floor;
    hide Certified, Paid, Reductions, Shifts, Overflows, Weigh, DestroyAll;
    if |c.stack| == YYSTACKDEPTH {
      DestroyAllCounts(c.stack[1..]);
      CountsAppend(c.log, DestroyAll(c.stack[1..]));
      DiscardPaid(C, c, c.log + DestroyAll(c.stack[1..]));
    } else {
      PushPaid(C, c, Entry(StoredState(act), tok.major, Leaf(tok)), tok);
    }
  }

  lemma RefusePaid(C: Cert, c: Config, tok: Token)
    requires Paid(C, c)
    ensures Paid(C, Refuse(c, tok))
  {
    hide Reductions, Shifts, Overflows, Weigh;
    CountOne(c.log, SyntaxError(tok));
    CountOne(c.log + [SyntaxError(tok)], Destroyed(Leaf(tok)));
    assert Refuse(c, tok).log == c.log + [SyntaxError(tok)] + [Destroyed(Leaf(tok))];
  }

  /** An overflow before an empty rule. */
  lemma OverflowPaid(C: Cert, c: Config, c': Config)
    requires forall x: nat :: 0 <= C.weight(x) + C.floor
    requires Paid(C, c) && |c.stack| <= YYSTACKDEPTH && OverflowStep(c, c')
    ensures Paid(C, c')
  {
    hide Paid, Reductions, Shifts, Overflows, Weigh, DestroyAll;
    var popped, leak := c.stack[1..|c.stack| - 1], Leaked(Top(c).minor);
    DestroyAllCounts(popped);
    CountOne(c.log, leak);
    CountsAppend(c.log + [leak], DestroyAll(popped));
    DiscardPaid(C, c, c.log + [leak] + DestroyAll(popped));
  }

  lemma ReducePaid(T: Tables, C: Cert, c: Config, r: nat)
    requires Certified(T, C) && Inv(T, C, c.stack) && ReduceDue(T, C, c.stack, r) && Paid(C, c)
    ensures CanReduce(T, c.stack, r) && Paid(C, Reduce(T, c, r))
  {
    assert forall x: nat :: 0 <= C.weight(x) + C.floor;
    Height(T, C, c.stack);
    hide Certified, Inv, WellFormed, ReduceDue, CanReduce, Reduce, ReduceStep, OverflowStep, Sized, Reductions, Shifts,
         Overflows, Weigh;
    ReduceCases(T, C, c, r);
    ReduceWeight(T, C, c, r);
    var c' := Reduce(T, c, r);
    if OverflowStep(c, c') {
      OverflowPaid(C, c, c');
    } else {
      OneReduction(T, C, c, r, c');
    }
  }

  lemma OneReduction(T: Tables, C: Cert, c: Config, r: nat, c': Config)
    requires Sized(T) && ReduceStep(T, C, c, r, c') && !OverflowStep(c, c')
    ensures Reductions(c'.log) == Reductions(c.log) + 1
    ensures Shifts(c'.log) == Shifts(c.log) && Overflows(c'.log) == Overflows(c.log)
  {
    var more := c'.log[|c.log|..];
    CountOne(c.log, more[0]);
    if |more| == 2 {
      CountOne(c.log + [more[0]], more[1]);
      assert c'.log == c.log + [more[0]] + [more[1]];
    } else {
      assert c'.log == c.log + [more[0]];
    }
  }

  lemma {:induction false} RunPaid(T: Tables, C: Cert, c: Config, tok: Token)
    requires Certified(T, C) && Inv(T, C, c.stack) && Terminal(tok) && Paid(C, c)
    ensures Paid(C, Run(T, C, c, tok))
    decreases Potential(C, c.stack)
  {
    hide *;
    var act, next := Unfold(T, C, c, tok);
    if act <= YY_MAX_SHIFTREDUCE {
      ShiftPaid(T, C, c, act, tok);
    } else if act <= YY_MAX_REDUCE {
      ReducePaid(T, C, c, act - YY_MIN_REDUCE);
      if |next.stack| != 1 {
        RunPaid(T, C, next, tok);
      }
    } else {
      RefusePaid(C, c, tok);
    }
  }

  lemma {:induction false} FeedPaid(T: Tables, C: Cert, toks: seq<Token>)
    requires Certified(T, C) && AllTerminal(toks)
    ensures Paid(C, Feed(T, C, toks))
  {
    if toks == [] {
      assert INITIAL.stack[1..] == [];
    } else {
      FeedPaid(T, C, toks[..|toks| - 1]);
      RunPaid(T, C, Feed(T, C, toks[..|toks| - 1]), toks[|toks| - 1]);
    }
  }

  /** The number of reductions over any sequence of calls. */
  lemma ReductionsBounded(T: Tables, C: Cert, toks: seq<Token>)
    requires Certified(T, C) && AllTerminal(toks)
    ensures var log := Feed(T, C, toks).log;
      Reductions(log) <= C.tokenWeight * Shifts(log) + C.floor * (YYSTACKDEPTH - 1) * (Overflows(log) + 1)
  {
    hide Certified, Inv, WellFormed, Reductions, Shifts, Overflows;
    FeedPaid(T, C, toks);
    var c := Feed(T, C, toks);
    Bounds(T, C, c.stack);
    WeighFloor(C, c.stack[1..], YYSTACKDEPTH - 1);
    OnceMore(C.floor, Overflows(c.log));
  }
}
