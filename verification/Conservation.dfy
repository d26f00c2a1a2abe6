/** Ownership of semantic values over whole runs: each value is on the stack, or was given up exactly
    once - consumed by a reduce, destroyed, accepted or leaked - and values leak only when the stack
    overflows while an empty rule is being reduced. */
module Conservation {
  import opened Lemon
  import opened Certificate
  import opened Machine
  import opened Invariant
  import opened Runs

  /** How often v occurs in vs. */
  function Occurs(vs: seq<Tree>, v: Tree): nat {
    if vs == [] then 0 else Occurs(vs[..|vs| - 1], v) + One(vs[|vs| - 1], v)
  }

  function One(u: Tree, v: Tree): nat {
    if u == v then 1 else 0
  }

  function CreatedBy(e: Event, v: Tree): nat {
    match e
    case Shifted(tok) => One(Leaf(tok), v)
    case SyntaxError(tok) => One(Leaf(tok), v)
    case Reduced(r, kids) => One(Node(r, kids), v)
    case _ => 0
  }

  function GivenUpBy(e: Event, v: Tree): nat {
    match e
    case Reduced(_, kids) => Occurs(kids, v)
    case Destroyed(u) => One(u, v)
    case Leaked(u) => One(u, v)
    case Accepted(u) => One(u, v)
    case _ => 0
  }

  /** How often the value v came into being. */
  function Created(log: seq<Event>, v: Tree): nat {
    if log == [] then 0 else Created(log[..|log| - 1], v) + CreatedBy(log[|log| - 1], v)
  }

  /** How often v was consumed, destroyed, accepted or leaked. */
  function GivenUp(log: seq<Event>, v: Tree): nat {
    if log == [] then 0 else GivenUp(log[..|log| - 1], v) + GivenUpBy(log[|log| - 1], v)
  }

  /** How often v is on the stack. */
  function Live(stack: seq<Entry>, v: Tree): nat
    requires stack != []
  {
    Occurs(Minors(stack[1..]), v)
  }

  ghost predicate Conserved(c: Config, v: Tree) {
    c.stack != [] && Created(c.log, v) == GivenUp(c.log, v) + Live(c.stack, v)
  }

  lemma OccursLast(vs: seq<Tree>, v: Tree)
    requires vs != []
    ensures Occurs(vs, v) == Occurs(vs[..|vs| - 1], v) + One(vs[|vs| - 1], v)
  {}

  lemma {:induction false} OccursAppend(a: seq<Tree>, b: seq<Tree>, v: Tree)
    ensures Occurs(a + b, v) == Occurs(a, v) + Occurs(b, v)
  {
    if b == [] {
      assert a + b == a;
    } else {
      hide Occurs, One;
      var n := |b| - 1;
      OccursAppend(a, b[..n], v);
      assert (a + b)[..|a| + n] == a + b[..n];
      OccursLast(a + b, v);
      OccursLast(b, v);
    }
  }

  lemma LedgerLast(log: seq<Event>, v: Tree)
    requires log != []
    ensures Created(log, v) == Created(log[..|log| - 1], v) + CreatedBy(log[|log| - 1], v)
    ensures GivenUp(log, v) == GivenUp(log[..|log| - 1], v) + GivenUpBy(log[|log| - 1], v)
  {
    hide CreatedBy, GivenUpBy;
  }

  lemma {:induction false} LedgerAppend(a: seq<Event>, b: seq<Event>, v: Tree)
    ensures Created(a + b, v) == Created(a, v) + Created(b, v)
    ensures GivenUp(a + b, v) == GivenUp(a, v) + GivenUp(b, v)
  {
    hide CreatedBy, GivenUpBy;
    if b == [] {
      assert a + b == a;
    } else {
      hide Created, GivenUp;
      var n := |b| - 1;
      LedgerAppend(a, b[..n], v);
      assert (a + b)[..|a| + n] == a + b[..n];
      LedgerLast(a + b, v);
      LedgerLast(b, v);
    }
  }

  lemma LedgerOne(log: seq<Event>, e: Event, v: Tree)
    ensures Created(log + [e], v) == Created(log, v) + CreatedBy(e, v)
    ensures GivenUp(log + [e], v) == GivenUp(log, v) + GivenUpBy(e, v)
  {
    hide Created, GivenUp, CreatedBy, GivenUpBy;
    assert (log + [e])[..|log|] == log;
    LedgerLast(log + [e], v);
  }

  lemma OccursOne(vs: seq<Tree>, u: Tree, v: Tree)
    ensures Occurs(vs + [u], v) == Occurs(vs, v) + One(u, v)
  {
    assert (vs + [u])[..|vs|] == vs;
  }

  lemma MinorsMore(es: seq<Entry>, e: Entry)
    ensures Minors(es + [e]) == Minors(es) + [e.minor]
  {}

  lemma OccursNone(v: Tree)
    ensures Occurs(Minors([]), v) == 0
  {}

  lemma OneDestroyed(u: Tree, v: Tree)
    ensures Created([Destroyed(u)], v) == 0 && GivenUp([Destroyed(u)], v) == One(u, v)
  {
    LedgerOne([], Destroyed(u), v);
    assert [] + [Destroyed(u)] == [Destroyed(u)];
  }

  lemma NoneDestroyed(v: Tree)
    ensures DestroyAll([]) == [] && Created([], v) == 0 && GivenUp([], v) == 0
  {}

  lemma DestroyAllMore(es: seq<Entry>, e: Entry)
    ensures DestroyAll(es + [e]) == [Destroyed(e.minor)] + DestroyAll(es)
  {
    assert (es + [e])[..|es|] == es;
  }

  /** Popping a stretch of the stack gives up each of its values once and creates none. */
  lemma {:induction false} DestroyAllLedger(es: seq<Entry>, v: Tree)
    ensures GivenUp(DestroyAll(es), v) == Occurs(Minors(es), v)
    ensures Created(DestroyAll(es), v) == 0
  {
    hide Created, GivenUp, Occurs, Minors, DestroyAll, One;
    if es == [] {
      NoneDestroyed(v);
      OccursNone(v);
    } else {
      var below, last := es[..|es| - 1], es[|es| - 1];
      assert es == below + [last];
      DestroyAllLedger(below, v);
      DestroyAllMore(below, last);
      OneDestroyed(last.minor, v);
      LedgerAppend([Destroyed(last.minor)], DestroyAll(below), v);
      MinorsMore(below, last);
      OccursOne(Minors(below), last.minor, v);
    }
  }

  lemma ShiftConserved(c: Config, act: nat, tok: Token, v: Tree)
    requires Conserved(c, v)
    ensures Conserved(Shift(c, act, tok), v)
  {
    hide Created, GivenUp, Occurs, Minors, DestroyAll, One;
    var above := c.stack[1..];
    var c' := Shift(c, act, tok);
    if |c.stack| == YYSTACKDEPTH {
      OccursNone(v);
      DestroyAllLedger(above, v);
      LedgerAppend(c.log, DestroyAll(above), v);
      LedgerOne(c.log + DestroyAll(above), Overflowed, v);
      assert c'.stack[1..] == [];
    } else {
      LedgerOne(c.log, Shifted(tok), v);
      MinorsMore(above, c'.stack[|c'.stack| - 1]);
      assert c'.stack[1..] == above + [c'.stack[|c'.stack| - 1]];
      OccursOne(Minors(above), Leaf(tok), v);
    }
  }

  lemma RefuseConserved(c: Config, tok: Token, v: Tree)
    requires Conserved(c, v)
    ensures Conserved(Refuse(c, tok), v)
  {
    LedgerOne(c.log, SyntaxError(tok), v);
    LedgerOne(c.log + [SyntaxError(tok)], Destroyed(Leaf(tok)), v);
    assert Refuse(c, tok).log == c.log + [SyntaxError(tok)] + [Destroyed(Leaf(tok))];
  }

  lemma OverflowConserved(c: Config, c': Config, v: Tree)
    requires Conserved(c, v) && OverflowStep(c, c')
    ensures Conserved(c', v)
  {
    hide Created, GivenUp, Occurs, Minors, DestroyAll, One;
    var popped, top := c.stack[1..|c.stack| - 1], Top(c).minor;
    assert c.stack[1..] == popped + [Top(c)];
    MinorsMore(popped, Top(c));
    OccursOne(Minors(popped), top, v);
    OccursNone(v);
    DestroyAllLedger(popped, v);
    LedgerOne(c.log, Leaked(top), v);
    LedgerAppend(c.log + [Leaked(top)], DestroyAll(popped), v);
    LedgerOne(c.log + [Leaked(top)] + DestroyAll(popped), Overflowed, v);
    assert c'.stack[1..] == [];
  }

  lemma GotoConserved(c: Config, n: nat, e: Entry, c': Config, v: Tree)
    requires Conserved(c, v) && GotoStep(c, n, e, c')
    ensures Conserved(c', v)
  {
    assert Minors(c.stack[1..]) == Minors(c.stack[1..|c.stack| - n]) + e.minor.kids;
    hide Created, GivenUp, Occurs, Minors, One;
    var below := c.stack[1..|c.stack| - n];
    OccursAppend(Minors(below), e.minor.kids, v);
    assert c'.stack[1..] == below + [e];
    MinorsMore(below, e);
    OccursOne(Minors(below), e.minor, v);
    LedgerOne(c.log, Reduced(e.minor.rule, e.minor.kids), v);
  }

  lemma AcceptConserved(T: Tables, C: Cert, c: Config, u: Tree, c': Config, v: Tree)
    requires Conserved(c, v) && AcceptStep(T, C, c, u, c')
    ensures Conserved(c', v)
  {
    hide Created, GivenUp, Occurs, Minors, One, TreeOk;
    LedgerOne(c.log, Reduced(u.rule, u.kids), v);
    LedgerOne(c.log + [Reduced(u.rule, u.kids)], Accepted(u), v);
    assert c'.log == c.log + [Reduced(u.rule, u.kids)] + [Accepted(u)];
    OccursNone(v);
    assert c'.stack[1..] == [];
  }

  lemma ReduceConserved(T: Tables, C: Cert, c: Config, r: nat, c': Config, v: Tree)
    requires Sized(T) && Conserved(c, v) && ReduceStep(T, C, c, r, c')
    ensures Conserved(c', v)
  {
    if OverflowStep(c, c') {
      OverflowConserved(c, c', v);
    } else if c'.stack != [] && GotoStep(c, |T.rules[r].rhs|, Top(c'), c') {
      GotoConserved(c, |T.rules[r].rhs|, Top(c'), c', v);
    } else {
      AcceptConserved(T, C, c, Node(r, Minors(c.stack[|c.stack| - |T.rules[r].rhs|..])), c', v);
    }
  }

  lemma {:induction false} RunConserved(T: Tables, C: Cert, c: Config, tok: Token, v: Tree)
    requires Certified(T, C) && Inv(T, C, c.stack) && Terminal(tok) && Conserved(c, v)
    ensures Conserved(Run(T, C, c, tok), v)
    decreases Potential(C, c.stack)
  {
    hide *;
    var act, next := Unfold(T, C, c, tok);
    if act <= YY_MAX_SHIFTREDUCE {
      ShiftConserved(c, act, tok, v);
    } else if act <= YY_MAX_REDUCE {
      var r := act - YY_MIN_REDUCE;
      ReduceCases(T, C, c, r);
      ReduceConserved(T, C, c, r, next, v);
      if |next.stack| != 1 {
        RunConserved(T, C, next, tok, v);
      }
    } else {
      RefuseConserved(c, tok, v);
    }
  }

  /** After any sequence of calls on a new parser, every value was created exactly as often as it was
      given up or is still on the stack.  So none is given up more often than it was created. */
  lemma {:induction false} FeedConserved(T: Tables, C: Cert, toks: seq<Token>, v: Tree)
    requires Certified(T, C) && AllTerminal(toks)
    ensures Conserved(Feed(T, C, toks), v)
  {
    if toks == [] {
      assert INITIAL.stack[1..] == [];
    } else {
      FeedConserved(T, C, toks[..|toks| - 1], v);
      RunConserved(T, C, Feed(T, C, toks[..|toks| - 1]), toks[|toks| - 1], v);
    }
  }

  // ---------------------------------------------------------------------------------------------
  // Disposing of the parser, and leaks

  /** Freeing the parser pops everything above the base. */
  function Free(c: Config): Config
    requires c.stack != []
  {
    Config(c.stack[..1], c.log + DestroyAll(c.stack[1..]))
  }

  /** Once the parser is freed, every value ever created has been given up exactly as often. */
  lemma FreeSettles(T: Tables, C: Cert, toks: seq<Token>, v: Tree)
    requires Certified(T, C) && AllTerminal(toks)
    ensures var log := Free(Feed(T, C, toks)).log; Created(log, v) == GivenUp(log, v)
  {
    var c := Feed(T, C, toks);
    FeedConserved(T, C, toks, v);
    DestroyAllLedger(c.stack[1..], v);
    LedgerAppend(c.log, DestroyAll(c.stack[1..]), v);
  }

  /** The values discarded without a destructor, in order. */
  function Leaks(log: seq<Event>): seq<Tree> {
    if log == [] then []
    else Leaks(log[..|log| - 1]) + (if log[|log| - 1].Leaked? then [log[|log| - 1].value] else [])
  }

  lemma {:induction false} LeaksAppend(a: seq<Event>, b: seq<Event>)
    ensures Leaks(a + b) == Leaks(a) + Leaks(b)
  {
    if b == [] {
      assert a + b == a;
    } else {
      LeaksAppend(a, b[..|b| - 1]);
      assert (a + b)[..|a + b| - 1] == a + b[..|b| - 1];
    }
  }

  lemma {:induction false} DestroyAllLeaksNothing(es: seq<Entry>)
    ensures Leaks(DestroyAll(es)) == []
  {
    if es != [] {
      var first := [Destroyed(es[|es| - 1].minor)];
      DestroyAllLeaksNothing(es[..|es| - 1]);
      LeaksAppend(first, DestroyAll(es[..|es| - 1]));
      assert first[..0] == [];
    }
  }

  /** A shift never leaks, not even one that overflows. */
  lemma ShiftLeaksNothing(c: Config, act: nat, tok: Token)
    requires c.stack != []
    ensures Leaks(Shift(c, act, tok).log) == Leaks(c.log)
  {
    var above := c.stack[1..];
    if |c.stack| == YYSTACKDEPTH {
      DestroyAllLeaksNothing(above);
      LeaksAppend(c.log, DestroyAll(above));
      LeaksOne(c.log + DestroyAll(above), Overflowed);
    } else {
      LeaksOne(c.log, Shifted(tok));
    }
  }

  /** A reduce leaks exactly when its rule is empty and the stack is full, and then it leaks exactly the
      live value on top. */
  lemma ReduceLeak(T: Tables, C: Cert, c: Config, r: nat)
    requires Certified(T, C) && Inv(T, C, c.stack) && ReduceDue(T, C, c.stack, r)
    ensures CanReduce(T, c.stack, r)
    ensures Leaks(Reduce(T, c, r).log) == Leaks(c.log) +
              (if T.rules[r].rhs == [] && |c.stack| == YYSTACKDEPTH then [Top(c).minor] else [])
  {
    ReduceCases(T, C, c, r);
    StepLeak(T, C, c, r, Reduce(T, c, r));
  }

  lemma StepLeak(T: Tables, C: Cert, c: Config, r: nat, c': Config)
    requires Sized(T) && ReduceStep(T, C, c, r, c') && c.stack != []
    ensures Leaks(c'.log) == Leaks(c.log) +
              (if T.rules[r].rhs == [] && |c.stack| == YYSTACKDEPTH then [Top(c).minor] else [])
  {
    if OverflowStep(c, c') {
      OverflowLeak(c);
    } else if c'.stack != [] && GotoStep(c, |T.rules[r].rhs|, Top(c'), c') {
      LeaksOne(c.log, Reduced(r, Top(c').minor.kids));
    } else {
      var kids := Minors(c.stack[|c.stack| - |T.rules[r].rhs|..]);
      LeaksOne(c.log, Reduced(r, kids));
      LeaksOne(c.log + [Reduced(r, kids)], Accepted(Node(r, kids)));
      assert c'.log == c.log + [Reduced(r, kids)] + [Accepted(Node(r, kids))];
    }
  }

  lemma OverflowLeak(c: Config)
    requires |c.stack| == YYSTACKDEPTH
    ensures Leaks(c.log + [Leaked(Top(c).minor)] + DestroyAll(c.stack[1..|c.stack| - 1]) + [Overflowed])
         == Leaks(c.log) + [Top(c).minor]
  {
    var popped := DestroyAll(c.stack[1..|c.stack| - 1]);
    DestroyAllLeaksNothing(c.stack[1..|c.stack| - 1]);
    LeaksOne(c.log, Leaked(Top(c).minor));
    LeaksAppend(c.log + [Leaked(Top(c).minor)], popped);
    LeaksOne(c.log + [Leaked(Top(c).minor)] + popped, Overflowed);
  }

  lemma LeaksOne(log: seq<Event>, e: Event)
    ensures Leaks(log + [e]) == Leaks(log) + (if e.Leaked? then [e.value] else [])
  {
    assert (log + [e])[..|log|] == log;
  }
}
