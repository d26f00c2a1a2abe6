/** The parser on the growing stack, with memory granted whenever the stack has to grow: it is the machine
    without a depth limit. */
module GrowingParser {
  import opened Lemon
  import opened Certificate
  import opened Machine
  import opened Invariant
  import opened Runs
  import G = GrowingStack
  import U = Unbounded

  lemma ReplacedIs(T: Tables, c: Config, r: nat, act: nat, kids: seq<Tree>)
    requires Sized(T) && CanReduce(T, c.stack, r) && kids == Minors(c.stack[|c.stack| - |T.rules[r].rhs|..])
    requires act == GotoAction(T, Uncovered(T, c.stack, r).stateno, T.rules[r].lhs)
    ensures var rest := c.stack[..|c.stack| - |T.rules[r].rhs|];
      Replaced(T, c, r) ==
        if act <= YY_MAX_SHIFTREDUCE then
          Config(rest + [Entry(StoredState(act), T.rules[r].lhs, Node(r, kids))], c.log + [Reduced(r, kids)])
        else
          Config(rest, c.log + [Reduced(r, kids), Accepted(Node(r, kids))])
  {}

  class GrowingParser {
    const tab: Tables
    ghost const cert: Cert
    const stack: G.GrowingStack
    ghost var log: seq<Event>

    /** The stack itself never gives a value up. */
    ghost predicate Valid()
      reads this, stack, stack.yystack
    {
      stack.Valid() && stack.log == [] && Certified(tab, cert) && WellFormed(tab, cert, stack.State().stack)
    }

    ghost function Now(): Config
      requires stack.Valid()
      reads this, stack, stack.yystack
    {
      Config(stack.State().stack, log)
    }

    constructor (tab: Tables, ghost cert: Cert)
      requires Certified(tab, cert)
      ensures Valid() && fresh(stack) && fresh(stack.yystack)
      ensures this.tab == tab && this.cert == cert && Now() == INITIAL
    {
      this.tab := tab;
      this.cert := cert;
      stack := new G.GrowingStack(BASE);
      log := [];
      new;
      InitialOk(tab, cert);
    }

    /** yy_shift */
    method Shift(act: nat, tok: Token)
      requires stack.Valid() && stack.log == []
      modifies this, stack, stack.yystack
      ensures stack.Valid() && stack.log == [] && Now() == Pushed(old(Now()), act, tok)
      ensures stack.yystack == old(stack.yystack) || fresh(stack.yystack)
    {
      stack.Push(Entry(StoredState(act), tok.major, Leaf(tok)), true);
      log := log + [Shifted(tok)];
    }

    /** The semantic values of the top n entries. */
    method Kids(n: nat) returns (kids: seq<Tree>)
      requires stack.Valid() && n <= stack.yytos
      ensures |kids| == n && kids == Minors(stack.State().stack[stack.yytos + 1 - n..])
    {
      kids := [];
      var top := stack.yytos;
      for k := 0 to n
        invariant |kids| == k
        invariant forall j :: 0 <= j < k ==> kids[j] == stack.yystack[top + 1 - n + j].minor
      {
        kids := kids + [stack.yystack[top + 1 - n + k].minor];
      }
    }

    /** yy_reduce.  An empty rule makes room first; otherwise its right-hand side leaves room. */
    method Reduce(yyruleno: nat)
      requires stack.Valid() && stack.log == [] && Sized(tab) && CanReduce(tab, stack.State().stack, yyruleno)
      modifies this, stack, stack.yystack
      ensures stack.Valid() && stack.log == [] && Now() == Replaced(tab, old(Now()), yyruleno)
      ensures stack.yystack == old(stack.yystack) || fresh(stack.yystack)
    {
      ghost var before := Now();
      assert yyruleno < |tab.rules|;
      hide Sized, CanReduce, Replaced, G.Capacity;
      if |tab.rules[yyruleno].rhs| == 0 {
        Room();
      }
      var kids, yyact := Consult(yyruleno);
      ReplacedIs(tab, before, yyruleno, yyact, kids);
      Finish(yyact, tab.rules[yyruleno].lhs, yyruleno, kids);
    }

    /** The check before an empty rule. */
    method Room()
      requires stack.Valid() && stack.log == []
      modifies stack
      ensures stack.Valid() && stack.log == [] && Now() == old(Now())
      ensures stack.yytos + 1 < stack.yystack.Length
      ensures stack.yystack == old(stack.yystack) || fresh(stack.yystack)
    {
      stack.Reserve(true);
    }

    /** What a reduce consumes, and where it goes. */
    method Consult(yyruleno: nat) returns (kids: seq<Tree>, yyact: nat)
      requires stack.Valid() && Sized(tab) && CanReduce(tab, stack.State().stack, yyruleno)
      ensures |kids| == |tab.rules[yyruleno].rhs| <= stack.yytos
      ensures kids == Minors(stack.State().stack[stack.yytos + 1 - |kids|..])
      ensures yyact == GotoAction(tab, Uncovered(tab, stack.State().stack, yyruleno).stateno, tab.rules[yyruleno].lhs)
    {
      hide Sized, GotoDefined, GotoAction, Minors, G.Capacity;
      var yysize := |tab.rules[yyruleno].rhs|;
      kids := Kids(yysize);
      var uncovered := stack.yystack[stack.yytos - yysize].stateno;
      GotoDefinedIs(tab, uncovered, tab.rules[yyruleno].lhs);
      yyact := FindReduceAction(tab, uncovered, tab.rules[yyruleno].lhs);
    }

    /** The end of yy_reduce: on to the next state, without growing, or acceptance. */
    method Finish(yyact: nat, lhs: nat, yyruleno: nat, kids: seq<Tree>)
      requires stack.Valid() && stack.log == [] && |kids| <= stack.yytos
      requires kids == [] ==> stack.yytos + 1 < stack.yystack.Length
      modifies this, stack, stack.yystack
      ensures stack.Valid() && stack.log == []
      ensures stack.yystack == old(stack.yystack) || fresh(stack.yystack)
      ensures var rest := old(stack.State().stack)[..old(stack.yytos) + 1 - |kids|];
        Now() ==
          if yyact <= YY_MAX_SHIFTREDUCE then
            Config(rest + [Entry(StoredState(yyact), lhs, Node(yyruleno, kids))],
                   old(log) + [Reduced(yyruleno, kids)])
          else
            Config(rest, old(log) + [Reduced(yyruleno, kids), Accepted(Node(yyruleno, kids))])
    {
      stack.Drop(|kids|);
      if yyact <= YY_MAX_SHIFTREDUCE {
        stack.Push(Entry(StoredState(yyact), lhs, Node(yyruleno, kids)), false);
        log := log + [Reduced(yyruleno, kids)];
      } else {
        log := log + [Reduced(yyruleno, kids), Accepted(Node(yyruleno, kids))];
      }
    }

    /** The error branch. */
    method Refuse(tok: Token)
      requires stack.Valid()
      modifies this
      ensures Now() == Machine.Refuse(old(Now()), tok)
    {
      log := log + [SyntaxError(tok), Destroyed(Leaf(tok))];
    }

    method ShiftRound(ghost toks: seq<Token>, tok: Token, act: nat)
      requires Valid() && AllTerminal(toks) && toks != [] && tok == toks[0]
      requires stack.yystack[stack.yytos].stateno < YYNSTATE
      requires act == ShiftAction(tab, stack.yystack[stack.yytos].stateno, tok.major) <= YY_MAX_SHIFTREDUCE
      modifies this, stack, stack.yystack
      ensures Valid()
      ensures stack.yystack == old(stack.yystack) || fresh(stack.yystack)
      ensures U.State(Now(), toks[1..]) == U.Round(tab, cert, U.State(old(Now()), toks))
    {
      assert Sized(tab);
      hide Certified, WellFormed, Sized, Pushed, U.Round, G.Capacity, ShiftAction;
      PushedKeeps(tab, cert, Now(), tok);
      U.RoundShifts(tab, cert, U.State(Now(), toks), act);
      Shift(act, tok);
    }

    method ReduceRound(ghost toks: seq<Token>, tok: Token, r: nat) returns (again: bool)
      requires Valid() && AllTerminal(toks) && toks != [] && tok == toks[0]
      requires var s := stack.yystack[stack.yytos].stateno;
        && (s < YYNSTATE || YY_MIN_REDUCE <= s)
        && ShiftAction(tab, s, tok.major) == YY_MIN_REDUCE + r <= YY_MAX_REDUCE
      requires ReduceDue(tab, cert, stack.State().stack, r)
      modifies this, stack, stack.yystack
      ensures Valid()
      ensures stack.yystack == old(stack.yystack) || fresh(stack.yystack)
      ensures U.State(Now(), if again then toks else toks[1..]) == U.Round(tab, cert, U.State(old(Now()), toks))
    {
      assert Sized(tab);
      hide Certified, WellFormed, Sized, Replaced, U.Round, G.Capacity, ShiftAction, ReduceDue, CanReduce;
      ReplacedKeeps(tab, cert, Now(), r);
      U.RoundReduces(tab, cert, U.State(Now(), toks), r);
      Reduce(r);
      again := stack.yytos != 0;
    }

    method RefuseRound(ghost toks: seq<Token>, tok: Token)
      requires Valid() && AllTerminal(toks) && toks != [] && tok == toks[0]
      requires var s := stack.yystack[stack.yytos].stateno;
        && (s < YYNSTATE || YY_MIN_REDUCE <= s)
        && YY_MAX_REDUCE < ShiftAction(tab, s, tok.major)
      modifies this
      ensures Valid()
      ensures U.State(Now(), toks[1..]) == U.Round(tab, cert, U.State(old(Now()), toks))
    {
      hide Certified, WellFormed, Sized, U.Round, G.Capacity, ShiftAction, Machine.Refuse;
      U.RoundRefuses(tab, cert, U.State(Now(), toks));
      Refuse(tok);
    }

    /** One round of the loop of sqlite3Parser.  The result says whether the call goes on. */
    method Round(ghost toks: seq<Token>, tok: Token) returns (again: bool)
      requires Valid() && AllTerminal(toks) && toks != [] && tok == toks[0]
      modifies this, stack, stack.yystack
      ensures Valid()
      ensures stack.yystack == old(stack.yystack) || fresh(stack.yystack)
      ensures U.State(Now(), if again then toks else toks[1..]) == U.Round(tab, cert, U.State(old(Now()), toks))
    {
      assert Sized(tab) && Terminal(tok) && Top(Now()) == stack.yystack[stack.yytos];
      hide *;
      NextMove(tab, cert, Now(), tok);
      var yyact := FindShiftAction(tab, stack.yystack[stack.yytos].stateno, tok.major);
      again := false;
      if yyact <= YY_MAX_SHIFTREDUCE {
        ShiftRound(toks, tok, yyact);
      } else if yyact <= YY_MAX_REDUCE {
        again := ReduceRound(toks, tok, yyact - YY_MIN_REDUCE);
      } else {
        RefuseRound(toks, tok);
      }
    }

    /** So many rounds on these tokens, over as many calls as it takes. */
    method Run(toks: seq<Token>, n: nat) returns (left: seq<Token>)
      requires Valid() && AllTerminal(toks)
      modifies this, stack, stack.yystack
      ensures Valid() && AllTerminal(left)
      ensures U.State(Now(), left) == U.Rounds(tab, cert, U.State(old(Now()), toks), n)
    {
      left := toks;
      hide Certified, WellFormed, U.Round, U.Rounds, G.Capacity;
      for k := 0 to n
        invariant Valid() && AllTerminal(left)
        invariant stack.yystack == old(stack.yystack) || fresh(stack.yystack)
        invariant U.Rounds(tab, cert, U.State(Now(), left), n - k)
               == U.Rounds(tab, cert, U.State(old(Now()), toks), n)
      {
        U.NextRound(tab, cert, U.State(Now(), left), n - k);
        if left != [] {
          var again := Round(left, left[0]);
          if !again {
            left := left[1..];
          }
        }
      }
      U.NoRounds(tab, cert, U.State(Now(), left));
    }
  }
}
