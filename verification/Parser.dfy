/** The parser object: a fixed stack that is updated in place.  Every method is proved to do to its
    stack and log what the corresponding function of module Machine does to a machine value, so what
    the other modules prove about runs of that machine holds of this object. */
module Parser {
  import opened Lemon
  import opened Certificate
  import opened Machine
  import opened Invariant
  import opened Runs
  import Conservation

  lemma ReduceOverflows(T: Tables, c: Config, r: nat)
    requires Sized(T) && CanReduce(T, c.stack, r) && T.rules[r].rhs == [] && YYSTACKDEPTH <= |c.stack|
    ensures Machine.Reduce(T, c, r) == Config(c.stack[..1],
              c.log + [Leaked(Top(c).minor)] + DestroyAll(c.stack[1..|c.stack| - 1]) + [Overflowed])
  {}

  lemma ReduceGoes(T: Tables, c: Config, r: nat, act: nat, kids: seq<Tree>)
    requires Sized(T) && CanReduce(T, c.stack, r) && (T.rules[r].rhs != [] || |c.stack| < YYSTACKDEPTH)
    requires kids == Minors(c.stack[|c.stack| - |T.rules[r].rhs|..])
    requires act == GotoAction(T, Uncovered(T, c.stack, r).stateno, T.rules[r].lhs)
    ensures var rest := c.stack[..|c.stack| - |T.rules[r].rhs|];
      Machine.Reduce(T, c, r) ==
        if act <= YY_MAX_SHIFTREDUCE then
          Config(rest + [Entry(StoredState(act), T.rules[r].lhs, Node(r, kids))], c.log + [Reduced(r, kids)])
        else
          Config(rest, c.log + [Reduced(r, kids), Accepted(Node(r, kids))])
  {}

  class Parser {
    const tab: Tables
    ghost const cert: Cert
    var yytos: nat
    const yystack: array<Entry>
    ghost var log: seq<Event>

    /** The live part of the stack, base entry first. */
    ghost function State(): Config
      requires yytos < yystack.Length
      reads this, yystack
    {
      Config(yystack[..yytos + 1], log)
    }

    /** The top index stays inside the stack, and the stack satisfies the invariant of all runs. */
    ghost predicate Valid()
      reads this, yystack
    {
      && yystack.Length == YYSTACKDEPTH
      && yytos < YYSTACKDEPTH
      && Certified(tab, cert)
      && Inv(tab, cert, State().stack)
    }

    /** sqlite3ParserAlloc */
    constructor (tab: Tables, ghost cert: Cert)
      requires Certified(tab, cert)
      ensures Valid() && fresh(yystack)
      ensures this.tab == tab && this.cert == cert && State() == INITIAL
    {
      this.tab := tab;
      this.cert := cert;
      yystack := new Entry[YYSTACKDEPTH](_ => BASE);
      yytos := 0;
      log := [];
      new;
      InitialOk(tab, cert);
      assert yystack[..1] == [BASE];
    }

    /** yy_pop_parser_stack: never pops the base entry; the popped value goes to its destructor. */
    method PopParserStack()
      requires 0 < yytos < yystack.Length
      modifies this
      ensures yytos == old(yytos) - 1
      ensures log == old(log) + [Destroyed(yystack[old(yytos)].minor)]
    {
      var top := yystack[yytos];
      yytos := yytos - 1;
      log := log + [Destroyed(top.minor)];
    }

    /** yyStackOverflow: steps down once without a destructor, then pops down to the base entry.  A
        shift calls it with the index one past the stack, a reduce with the index of a live entry. */
    method StackOverflow()
      requires 0 < yytos <= yystack.Length
      modifies this
      ensures yytos == 0
      ensures log == old(log) + DestroyAll(yystack[1..old(yytos)]) + [Overflowed]
    {
      yytos := yytos - 1;
      assert yystack[..yytos + 1][1..] == yystack[1..yytos + 1];
      PopAll();
      log := log + [Overflowed];
    }

    /** Pops everything above the base. */
    method PopAll()
      requires yytos < yystack.Length
      modifies this
      ensures yytos == 0
      ensures log == old(log) + DestroyAll(yystack[1..old(yytos) + 1])
    {
      ghost var above := yystack[1..yytos + 1];
      assert above[..yytos] == above;
      while 0 < yytos
        invariant yytos < yystack.Length && yytos <= |above|
        invariant above == yystack[1..|above| + 1]
        invariant log + DestroyAll(above[..yytos]) == old(log) + DestroyAll(above)
        decreases yytos
      {
        assert above[..yytos][..yytos - 1] == above[..yytos - 1];
        assert above[yytos - 1] == yystack[yytos];
        PopParserStack();
      }
    }

    /** yy_shift */
    method Shift(yyNewState: nat, tok: Token)
      requires yystack.Length == YYSTACKDEPTH && yytos < YYSTACKDEPTH
      modifies this, yystack
      ensures yytos < YYSTACKDEPTH
      ensures State() == Machine.Shift(old(State()), yyNewState, tok)
    {
      yytos := yytos + 1;
      if yystack.Length <= yytos {
        StackOverflow();
        return;
      }
      var state := yyNewState;
      if YY_MAX_SHIFT < state {
        state := state + (YY_MIN_REDUCE - YY_MIN_SHIFTREDUCE);
      }
      yystack[yytos] := Entry(state, tok.major, Leaf(tok));
      log := log + [Shifted(tok)];
    }

    /** yy_reduce.  The slot of an empty rule is one above the top, which the check at the start keeps
        inside the stack. */
    method Reduce(yyruleno: nat)
      requires yystack.Length == YYSTACKDEPTH && yytos < YYSTACKDEPTH && Sized(tab)
      requires CanReduce(tab, State().stack, yyruleno)
      modifies this, yystack
      ensures yytos < YYSTACKDEPTH
      ensures State() == Machine.Reduce(tab, old(State()), yyruleno)
    {
      ghost var before := State();
      hide Sized, GotoDefined, GotoAction, DestroyAll, Minors, Machine.Reduce;
      var yysize := |tab.rules[yyruleno].rhs|;
      if yysize == 0 && YYSTACKDEPTH - 1 <= yytos {
        ReduceOverflows(tab, before, yyruleno);
        LeakTop();
        return;
      }
      var kids := Kids(yytos, yysize);
      var uncovered := yystack[yytos - yysize].stateno;
      GotoDefinedIs(tab, uncovered, tab.rules[yyruleno].lhs);
      var yyact := FindReduceAction(tab, uncovered, tab.rules[yyruleno].lhs);
      ReduceGoes(tab, before, yyruleno, yyact, kids);
      Goto(yyact, tab.rules[yyruleno].lhs, yyruleno, kids);
    }

    /** The end of yy_reduce: on to the next state, or acceptance. */
    method Goto(yyact: nat, lhs: nat, yyruleno: nat, kids: seq<Tree>)
      requires |kids| <= yytos < yystack.Length && yytos + 1 - |kids| < yystack.Length
      modifies this, yystack
      ensures yytos < yystack.Length
      ensures yyact <= YY_MAX_SHIFTREDUCE ==>
        State() == Config(old(State().stack)[..old(yytos) + 1 - |kids|]
                          + [Entry(StoredState(yyact), lhs, Node(yyruleno, kids))],
                          old(log) + [Reduced(yyruleno, kids)])
      ensures YY_MAX_SHIFTREDUCE < yyact ==>
        State() == Config(old(State().stack)[..old(yytos) + 1 - |kids|],
                          old(log) + [Reduced(yyruleno, kids), Accepted(Node(yyruleno, kids))])
    {
      log := log + [Reduced(yyruleno, kids)];
      if yyact <= YY_MAX_SHIFTREDUCE {
        Replace(|kids|, Entry(StoredState(yyact), lhs, Node(yyruleno, kids)));
      } else {
        yytos := yytos - |kids|;
        log := log + [Accepted(Node(yyruleno, kids))];
      }
    }

    /** An empty rule on a full stack: the live top entry goes without a destructor. */
    method LeakTop()
      requires yystack.Length == YYSTACKDEPTH == yytos + 1
      modifies this
      ensures yytos == 0
      ensures log == old(log) + [Leaked(yystack[old(yytos)].minor)]
                     + DestroyAll(old(State().stack)[1..YYSTACKDEPTH - 1]) + [Overflowed]
    {
      log := log + [Leaked(yystack[yytos].minor)];
      StackOverflow();
      assert yystack[..YYSTACKDEPTH][1..YYSTACKDEPTH - 1] == yystack[1..YYSTACKDEPTH - 1];
    }

    /** Replaces the top n entries by one. */
    method Replace(n: nat, e: Entry)
      requires n <= yytos < yystack.Length && yytos + 1 - n < yystack.Length
      requires yytos + 1 - n != 0
      modifies this`yytos, yystack
      ensures yytos < yystack.Length
      ensures State().stack == old(State().stack[..yytos + 1 - n]) + [e]
    {
      yytos := yytos + 1 - n;
      Put(e);
    }

    /** Overwrites the top slot. */
    method Put(e: Entry)
      requires 0 < yytos < yystack.Length
      modifies yystack
      ensures yystack[..yytos + 1] == old(yystack[..yytos]) + [e]
    {
      yystack[yytos] := e;
    }

    /** The semantic values of the top n entries, which the action of a rule consumes. */
    method Kids(top: nat, n: nat) returns (kids: seq<Tree>)
      requires n <= top < yystack.Length
      ensures |kids| == n && kids == Minors(yystack[..top + 1][top + 1 - n..])
    {
      kids := [];
      for k := 0 to n
        invariant |kids| == k
        invariant forall j :: 0 <= j < k ==> kids[j] == yystack[top + 1 - n + j].minor
      {
        kids := kids + [yystack[top + 1 - n + k].minor];
      }
    }

    /** One round of the parser's loop; `done` is the condition on which it stops. */
    method Round(tok: Token) returns (done: bool)
      requires Valid() && Terminal(tok)
      modifies this, yystack
      ensures Valid()
      ensures done ==> State() == Run(tab, cert, old(State()), tok)
      ensures !done ==> Run(tab, cert, State(), tok) == Run(tab, cert, old(State()), tok)
      ensures !done ==> 0 <= Potential(cert, State().stack) < Potential(cert, old(State()).stack)
    {
      hide Certified, Inv, WellFormed, ReduceDue, CanReduce, Sized, Run, Machine.Shift, Machine.Reduce, Potential,
           ShiftAction;
      ghost var c := State();
      ghost var act, next := Unfold(tab, cert, c, tok);
      var yymajor := tok.major;
      var yyact := FindShiftAction(tab, yystack[yytos].stateno, yymajor);
      assert yyact == act;
      if yyact <= YY_MAX_SHIFTREDUCE {
        Shift(yyact, tok);
        yymajor := YYNOCODE;
      } else if yyact <= YY_MAX_REDUCE {
        Reduce(yyact - YY_MIN_REDUCE);
      } else {
        assert yyact == YY_ERROR_ACTION;
        log := log + [SyntaxError(tok), Destroyed(Leaf(tok))];
        yymajor := YYNOCODE;
      }
      done := yymajor == YYNOCODE || yytos == 0;
    }

    /** sqlite3Parser: one token through the loop.  Its assertions hold, it ends, and it leaves the
        parser where Run says. */
    method Parse(tok: Token)
      requires Valid() && Terminal(tok)
      modifies this, yystack
      ensures Valid()
      ensures State() == Run(tab, cert, old(State()), tok)
    {
      var done := Round(tok);
      while !done
        invariant Valid()
        invariant (if done then State() else Run(tab, cert, State(), tok)) == Run(tab, cert, old(State()), tok)
        decreases !done, Potential(cert, State().stack)
      {
        done := Round(tok);
      }
    }

    /** sqlite3ParserFree */
    method Free()
      requires Valid()
      modifies this
      ensures yytos == 0
      ensures Config(yystack[..1], log) == Conservation.Free(old(State()))
    {
      assert State().stack[1..] == yystack[1..yytos + 1];
      PopAll();
    }
  }
}
