/** Whatever the machine accepts is a sentence of the grammar, and at every moment the stack spells the
    tokens shifted since it was last down to its base entry. */
module Soundness {
  import opened Lemon
  import opened Certificate
  import opened Machine
  import opened Invariant
  import opened Runs

  /** The tokens shifted since the stack last held only its base entry. */
  function Pending(log: seq<Event>): seq<Token> {
    if log == [] then []
    else
      var earlier := log[..|log| - 1];
      match log[|log| - 1]
      case Shifted(tok) => Pending(earlier) + [tok]
      case Accepted(_) => []
      case Overflowed => []
      case _ => Pending(earlier)
  }

  /** The tokens under the semantic values on the stack, bottom to top. */
  function StackYield(stack: seq<Entry>): seq<Token>
    requires stack != []
  {
    YieldAll(Minors(stack[1..]))
  }

  /** A sentence: some derivation tree of the start symbol has these tokens as its leaves. */
  ghost predicate Sentence(T: Tables, toks: seq<Token>) {
    exists d: Tree :: Derives(T, START, d) && Yield(d) == toks
  }

  /** Every acceptance in the log was of a sentence: exactly the tokens pending at that moment. */
  ghost predicate AcceptsSentences(T: Tables, log: seq<Event>) {
    forall i :: 0 <= i < |log| && log[i].Accepted? ==> Sentence(T, Pending(log[..i]))
  }

  ghost predicate Faithful(T: Tables, c: Config) {
    c.stack != [] && StackYield(c.stack) == Pending(c.log) && AcceptsSentences(T, c.log)
  }

  // ---------------------------------------------------------------------------------------------
  // From semantic values to derivation trees

  /** A semantic value fitting a slot gives a derivation from the slot with the same tokens: the unit
      rules that the generator removed are put back. */
  lemma {:induction false} Derivation(T: Tables, C: Cert, slot: nat, v: Tree) returns (d: Tree)
    requires Certified(T, C) && TreeOk(T, C, v) && Fits(T, C, slot, Root(T, v))
    ensures Derives(T, slot, d) && Yield(d) == Yield(v)
    decreases v, 1
  {
    var z: nat :| StandsFor(T, Root(T, v), z) && C.covers(slot, z);
    assert CoverOk(T, C, slot, z);
    d := OwnDerivation(T, C, z, v);
    if slot == z {
    } else if z < FIRST_NONTERMINAL && SlotHas(T, slot, z) {
      d := v;
    } else {
      var u: nat :| u < |T.rules| && T.rules[u] == Rule(slot, [z]);
      var inner := d;
      d := Node(u, [inner]);
      assert YieldAll([inner]) == Yield(inner) by { assert [inner][..0] == []; }
    }
  }

  /** The same for a symbol the value stands for. */
  lemma {:induction false} OwnDerivation(T: Tables, C: Cert, z: nat, v: Tree) returns (d: Tree)
    requires Certified(T, C) && TreeOk(T, C, v) && StandsFor(T, Root(T, v), z)
    ensures Derives(T, z, d) && Yield(d) == Yield(v)
    decreases v, 0
  {
    match v {
      case Leaf(tok) =>
        assert SlotHas(T, z, z);
        d := v;
      case Node(r, kids) =>
        assert RuleOk(T, C, r);
        var ds := Derivations(T, C, T.rules[r].rhs, kids);
        d := Node(r, ds);
    }
  }

  lemma AllDerive(T: Tables, slots: seq<nat>, init: seq<Tree>, last: Tree)
    requires |slots| == |init| + 1 && Derives(T, slots[|init|], last)
    requires forall i :: 0 <= i < |init| ==> Derives(T, slots[..|init|][i], init[i])
    ensures forall i :: 0 <= i <= |init| ==> Derives(T, slots[i], (init + [last])[i])
  {
    hide Derives;
    forall i | 0 <= i <= |init| ensures Derives(T, slots[i], (init + [last])[i]) {
      if i < |init| {
        assert Derives(T, slots[..|init|][i], init[i]);
      }
    }
  }

  lemma YieldsPair(vs: seq<Tree>, ds: seq<Tree>)
    requires vs != [] && |vs| == |ds|
    requires YieldAll(vs[..|vs| - 1]) == YieldAll(ds[..|ds| - 1]) && Yield(vs[|vs| - 1]) == Yield(ds[|ds| - 1])
    ensures YieldAll(vs) == YieldAll(ds)
  {}

  lemma {:induction false} Derivations(T: Tables, C: Cert, slots: seq<nat>, vs: seq<Tree>) returns (ds: seq<Tree>)
    requires Certified(T, C) && |slots| == |vs|
    requires forall i :: 0 <= i < |vs| ==> TreeOk(T, C, vs[i]) && Fits(T, C, slots[i], Root(T, vs[i]))
    ensures |ds| == |vs| && YieldAll(ds) == YieldAll(vs)
    ensures forall i :: 0 <= i < |ds| ==> Derives(T, slots[i], ds[i])
    decreases vs, 0
  {
    if vs == [] {
      ds := [];
    } else {
      hide Certified, TreeOk, Fits, Derives, YieldAll, Yield;
      var n := |vs| - 1;
      var init := Derivations(T, C, slots[..n], vs[..n]);
      var last := Derivation(T, C, slots[n], vs[n]);
      ds := init + [last];
      assert ds[..n] == init;
      AllDerive(T, slots, init, last);
      YieldsPair(vs, ds);
    }
  }

  // ---------------------------------------------------------------------------------------------
  // Each step keeps the log faithful

  lemma {:induction false} PendingQuiet(log: seq<Event>, more: seq<Event>)
    requires forall i :: 0 <= i < |more| ==> !more[i].Shifted? && !more[i].Accepted? && !more[i].Overflowed?
    ensures Pending(log + more) == Pending(log)
  {
    if more == [] {
      assert log + more == log;
    } else {
      PendingQuiet(log, more[..|more| - 1]);
      assert (log + more)[..|log + more| - 1] == log + more[..|more| - 1];
    }
  }

  lemma AcceptsMore(T: Tables, log: seq<Event>, e: Event)
    requires AcceptsSentences(T, log) && (e.Accepted? ==> Sentence(T, Pending(log)))
    ensures AcceptsSentences(T, log + [e])
  {
    var longer := log + [e];
    assert longer[..|log|] == log;
    forall i | 0 <= i < |log| ensures longer[..i] == log[..i] {
    }
  }

  lemma {:induction false} AcceptsQuiet(T: Tables, log: seq<Event>, more: seq<Event>)
    requires AcceptsSentences(T, log)
    requires forall i :: 0 <= i < |more| ==> !more[i].Accepted?
    ensures AcceptsSentences(T, log + more)
  {
    if more == [] {
      assert log + more == log;
    } else {
      var n := |more| - 1;
      AcceptsQuiet(T, log, more[..n]);
      AcceptsMore(T, log + more[..n], more[n]);
      assert log + more == log + more[..n] + [more[n]];
    }
  }

  lemma {:induction false} DestroyAllQuiet(es: seq<Entry>)
    ensures forall i :: 0 <= i < |DestroyAll(es)| ==> DestroyAll(es)[i].Destroyed?
  {
    if es != [] {
      DestroyAllQuiet(es[..|es| - 1]);
    }
  }

  /** Discarding the whole stack on overflow. */
  lemma DiscardFaithful(T: Tables, base: Entry, log: seq<Event>, more: seq<Event>)
    requires AcceptsSentences(T, log)
    requires forall i :: 0 <= i < |more| ==> !more[i].Accepted?
    ensures Faithful(T, Config([base], log + more + [Overflowed]))
  {
    AcceptsQuiet(T, log, more);
    AcceptsMore(T, log + more, Overflowed);
    assert [base][1..] == [];
    assert (log + more + [Overflowed])[..|log + more|] == log + more;
  }

  lemma ShiftFaithful(T: Tables, c: Config, act: nat, tok: Token)
    requires Faithful(T, c)
    ensures Faithful(T, Shift(c, act, tok))
  {
    var c' := Shift(c, act, tok);
    if |c.stack| == YYSTACKDEPTH {
      DestroyAllQuiet(c.stack[1..]);
      DiscardFaithful(T, c.stack[0], c.log, DestroyAll(c.stack[1..]));
      assert c.stack[..1] == [c.stack[0]];
    } else {
      var leaf := [Leaf(tok)];
      assert Minors(c'.stack[1..]) == Minors(c.stack[1..]) + leaf;
      YieldAllAppend(Minors(c.stack[1..]), leaf);
      assert leaf[..0] == [];
      AcceptsMore(T, c.log, Shifted(tok));
      assert c'.log[..|c.log|] == c.log;
    }
  }

  lemma RefuseFaithful(T: Tables, c: Config, tok: Token)
    requires Faithful(T, c)
    ensures Faithful(T, Refuse(c, tok))
  {
    var more := [SyntaxError(tok), Destroyed(Leaf(tok))];
    PendingQuiet(c.log, more);
    AcceptsQuiet(T, c.log, more);
  }

  /** Replacing entries by one value built from theirs keeps the tokens on the stack. */
  lemma GotoFaithful(T: Tables, c: Config, n: nat, e: Entry, c': Config)
    requires Faithful(T, c) && GotoStep(c, n, e, c')
    ensures Faithful(T, c')
  {
    var below := Minors(c.stack[1..|c.stack| - n]);
    assert Minors(c.stack[1..]) == below + e.minor.kids;
    YieldAllAppend(below, e.minor.kids);
    assert Minors(c'.stack[1..]) == below + [e.minor];
    YieldAllAppend(below, [e.minor]);
    assert [e.minor][..0] == [];
    var more := Reduced(e.minor.rule, e.minor.kids);
    PendingQuiet(c.log, [more]);
    AcceptsMore(T, c.log, more);
  }

  /** Accepting the whole stack accepts exactly the tokens on it. */
  lemma AcceptFaithful(T: Tables, C: Cert, c: Config, v: Tree, c': Config)
    requires Certified(T, C) && Faithful(T, c) && AcceptStep(T, C, c, v, c')
    ensures Faithful(T, c')
  {
    var reduced := Reduced(v.rule, v.kids);
    PendingQuiet(c.log, [reduced]);
    AcceptsMore(T, c.log, reduced);
    assert Sentence(T, Pending(c.log)) by {
      var d := OwnDerivation(T, C, START, v);
    }
    AcceptsMore(T, c.log + [reduced], Accepted(v));
    assert c'.log == c.log + [reduced] + [Accepted(v)];
    assert c'.log[..|c.log| + 1] == c.log + [reduced];
    assert c'.stack[1..] == [];
  }

  lemma OverflowFaithful(T: Tables, c: Config, c': Config)
    requires Faithful(T, c) && OverflowStep(c, c')
    ensures Faithful(T, c')
  {
    var popped := c.stack[1..|c.stack| - 1];
    DestroyAllQuiet(popped);
    DiscardFaithful(T, c.stack[0], c.log, [Leaked(Top(c).minor)] + DestroyAll(popped));
    assert c.stack[..1] == [c.stack[0]];
    assert c.log + [Leaked(Top(c).minor)] + DestroyAll(popped) == c.log + ([Leaked(Top(c).minor)] + DestroyAll(popped));
  }

  /** A reduce keeps the tokens on the stack; a reduce to the start symbol accepts exactly them. */
  lemma ReduceFaithful(T: Tables, C: Cert, c: Config, r: nat, c': Config)
    requires Certified(T, C) && Faithful(T, c) && ReduceStep(T, C, c, r, c')
    ensures Faithful(T, c')
  {
    if OverflowStep(c, c') {
      OverflowFaithful(T, c, c');
    } else if c'.stack != [] && GotoStep(c, |T.rules[r].rhs|, Top(c'), c') {
      GotoFaithful(T, c, |T.rules[r].rhs|, Top(c'), c');
    } else {
      AcceptFaithful(T, C, c, Node(r, Minors(c.stack[|c.stack| - |T.rules[r].rhs|..])), c');
    }
  }

  // ---------------------------------------------------------------------------------------------
  // Whole runs

  /** One call of the parser keeps the log faithful. */
  lemma {:induction false} RunFaithful(T: Tables, C: Cert, c: Config, tok: Token)
    requires Certified(T, C) && Inv(T, C, c.stack) && Terminal(tok) && Faithful(T, c)
    ensures Faithful(T, Run(T, C, c, tok))
    decreases Potential(C, c.stack)
  {
    hide *;
    var act, next := Unfold(T, C, c, tok);
    if act <= YY_MAX_SHIFTREDUCE {
      ShiftFaithful(T, c, act, tok);
    } else if act <= YY_MAX_REDUCE {
      var r := act - YY_MIN_REDUCE;
      ReduceCases(T, C, c, r);
      ReduceFaithful(T, C, c, r, next);
      if |next.stack| != 1 {
        RunFaithful(T, C, next, tok);
      }
    } else {
      RefuseFaithful(T, c, tok);
    }
  }

  /** After any sequence of calls on a new parser, the stack spells the pending tokens and everything
      accepted so far was a sentence. */
  lemma {:induction false} FeedFaithful(T: Tables, C: Cert, toks: seq<Token>)
    requires Certified(T, C) && AllTerminal(toks)
    ensures Faithful(T, Feed(T, C, toks))
  {
    if toks == [] {
      assert INITIAL.stack[1..] == [];
    } else {
      FeedFaithful(T, C, toks[..|toks| - 1]);
      RunFaithful(T, C, Feed(T, C, toks[..|toks| - 1]), toks[|toks| - 1]);
    }
  }

  // ---------------------------------------------------------------------------------------------
  // The whole input

  /** So far no token was refused, nothing overflowed and nothing was accepted. */
  ghost predicate Undisturbed(log: seq<Event>) {
    forall i :: 0 <= i < |log| ==> !log[i].SyntaxError? && !log[i].Overflowed? && !log[i].Accepted?
  }

  lemma ShiftExtends(c: Config, act: nat, tok: Token)
    requires 1 <= |c.stack|
    ensures c.log <= Shift(c, act, tok).log
  {
    hide DestroyAll;
  }

  lemma ReduceExtends(T: Tables, C: Cert, c: Config, r: nat)
    requires Certified(T, C) && Inv(T, C, c.stack) && ReduceDue(T, C, c.stack, r)
    ensures CanReduce(T, c.stack, r) && c.log <= Reduce(T, c, r).log
  {
    hide Certified, Inv, WellFormed, ReduceDue, CanReduce, Reduce, DestroyAll, Minors, TreeOk;
    ReduceCases(T, C, c, r);
  }

  /** A call only adds to the log. */
  lemma {:induction false} RunExtends(T: Tables, C: Cert, c: Config, tok: Token)
    requires Certified(T, C) && Inv(T, C, c.stack) && Terminal(tok)
    ensures c.log <= Run(T, C, c, tok).log
    decreases Potential(C, c.stack)
  {
    hide Certified, Inv, WellFormed, ReduceDue, CanReduce, Reduce, Run, Shift, Sized, Potential, ShiftAction;
    var act, next := Unfold(T, C, c, tok);
    if act <= YY_MAX_SHIFTREDUCE {
      ShiftExtends(c, act, tok);
    } else if act <= YY_MAX_REDUCE {
      ReduceExtends(T, C, c, act - YY_MIN_REDUCE);
      if |next.stack| != 1 {
        RunExtends(T, C, next, tok);
      }
    }
  }

  /** From `before` to `after` the token was shifted undisturbed, or something disturbed the run; if it
      was an acceptance, then of what was pending before. */
  ghost predicate TakenIn(before: seq<Event>, after: seq<Event>, tok: Token) {
    && (Undisturbed(after) ==> Pending(after) == Pending(before) + [tok])
    && (before < after && after[|after| - 1].Accepted? ==> Pending(after[..|after| - 1]) == Pending(before))
  }

  lemma TakenInLater(before: seq<Event>, middle: seq<Event>, after: seq<Event>, tok: Token)
    requires middle != [] && !middle[|middle| - 1].Accepted? && middle <= after
    requires Pending(middle) == Pending(before) && TakenIn(middle, after, tok)
    ensures TakenIn(before, after, tok)
  {
  }

  lemma {:induction false} RunPending(T: Tables, C: Cert, c: Config, tok: Token)
    requires Certified(T, C) && Inv(T, C, c.stack) && Terminal(tok)
    ensures TakenIn(c.log, Run(T, C, c, tok).log, tok)
    decreases Potential(C, c.stack)
  {
    hide *;
    var act, next := Unfold(T, C, c, tok);
    if act <= YY_MAX_SHIFTREDUCE {
      ShiftPending(c, act, tok);
    } else if act <= YY_MAX_REDUCE {
      var r := act - YY_MIN_REDUCE;
      ReduceCases(T, C, c, r);
      ReducePending(T, C, c, r, next, tok);
      if |next.stack| != 1 {
        RunPending(T, C, next, tok);
        RunExtends(T, C, next, tok);
        TakenInLater(c.log, next.log, Run(T, C, c, tok).log, tok);
      }
    } else {
      RefusePending(c, tok);
    }
  }

  lemma ShiftPending(c: Config, act: nat, tok: Token)
    requires c.stack != []
    ensures TakenIn(c.log, Shift(c, act, tok).log, tok)
  {
    var log := Shift(c, act, tok).log;
    if |c.stack| == YYSTACKDEPTH {
      assert log[|log| - 1] == Overflowed;
    } else {
      assert log[..|c.log|] == c.log;
    }
  }

  lemma RefusePending(c: Config, tok: Token)
    ensures TakenIn(c.log, Refuse(c, tok).log, tok)
  {
    assert Refuse(c, tok).log[|c.log|] == SyntaxError(tok);
  }

  lemma ReducePending(T: Tables, C: Cert, c: Config, r: nat, next: Config, tok: Token)
    requires Sized(T) && ReduceStep(T, C, c, r, next)
    ensures next.log != []
    ensures |next.stack| != 1 ==> Pending(next.log) == Pending(c.log) && !next.log[|next.log| - 1].Accepted?
    ensures |next.stack| == 1 ==> TakenIn(c.log, next.log, tok)
  {
    var log := next.log;
    if OverflowStep(c, next) {
      assert log[|log| - 1] == Overflowed;
    } else if next.stack != [] && GotoStep(c, |T.rules[r].rhs|, Top(next), next) {
      PendingQuiet(c.log, [log[|log| - 1]]);
    } else {
      PendingQuiet(c.log, [log[|log| - 2]]);
      assert log[..|log| - 1] == c.log + [log[|log| - 2]];
      assert log[|log| - 1].Accepted?;
    }
  }

  lemma {:induction false} FeedPending(T: Tables, C: Cert, toks: seq<Token>)
    requires Certified(T, C) && AllTerminal(toks)
    requires Undisturbed(Feed(T, C, toks).log)
    ensures Pending(Feed(T, C, toks).log) == toks
  {
    hide Certified, Inv, WellFormed, Run;
    if toks != [] {
      var earlier, last := toks[..|toks| - 1], toks[|toks| - 1];
      var c := Feed(T, C, earlier);
      RunExtends(T, C, c, last);
      FeedPending(T, C, earlier);
      RunPending(T, C, c, last);
      assert toks == earlier + [last];
    }
  }

  predicate Accepts(log: seq<Event>) {
    log != [] && log[|log| - 1].Accepted?
  }

  /** If a new parser takes in all of `toks` undisturbed and the next call ends by accepting, then
      `toks` is a sentence of the grammar. */
  lemma AcceptedInputIsSentence(T: Tables, C: Cert, toks: seq<Token>, next: Token)
    requires Certified(T, C) && AllTerminal(toks) && Terminal(next)
    requires Undisturbed(Feed(T, C, toks).log)
    requires Accepts(Run(T, C, Feed(T, C, toks), next).log)
    ensures Sentence(T, toks)
  {
    hide Certified, Inv, WellFormed, Run;
    var c := Feed(T, C, toks);
    var log := Run(T, C, c, next).log;
    FeedFaithful(T, C, toks);
    RunFaithful(T, C, c, next);
    FeedPending(T, C, toks);
    RunExtends(T, C, c, next);
    RunPending(T, C, c, next);
    var i := |log| - 1;
    assert log[i].Accepted? && Sentence(T, Pending(log[..i]));
    assert c.log < log;
  }
}
