/** Ownership of the single value.  Two values may be equal, such as the values of two empty rules, so here
    each value carries a serial number, the index of the event that created it; and each serial number is
    given up at most once, in last-in first-out order. */
module Identity {
  import opened Lemon
  import opened Certificate
  import opened Machine
  import opened Invariant
  import opened Runs
  import Conservation

  /** A value with its serial number. */
  datatype Held = Held(id: nat, value: Tree)

  /** The values that are held, the newest last, and the serial numbers that were given up, in order. */
  datatype Ledger = Ledger(held: seq<Held>, gone: seq<nat>)

  function Values(hs: seq<Held>): seq<Tree> {
    seq(|hs|, i requires 0 <= i < |hs| => hs[i].value)
  }

  function Ids(hs: seq<Held>): seq<nat> {
    seq(|hs|, i requires 0 <= i < |hs| => hs[i].id)
  }

  /** Giving up the newest values, which have to be the ones in vs. */
  function GiveUp(l: Ledger, vs: seq<Tree>): Option<Ledger> {
    var n := |l.held| - |vs|;
    if 0 <= n && Values(l.held[n..]) == vs then Some(Ledger(l.held[..n], l.gone + Ids(l.held[n..]))) else None
  }

  function Take(l: Ledger, id: nat, v: Tree): Ledger {
    l.(held := l.held + [Held(id, v)])
  }

  /** What event number i does.  A refused token is held until it is destroyed. */
  function Apply(l: Ledger, e: Event, i: nat): Option<Ledger> {
    match e
    case Shifted(tok) => Some(Take(l, i, Leaf(tok)))
    case SyntaxError(tok) => Some(Take(l, i, Leaf(tok)))
    case Reduced(r, kids) =>
      var rest := GiveUp(l, kids);
      if rest.Some? then Some(Take(rest.value, i, Node(r, kids))) else None
    case Destroyed(v) => GiveUp(l, [v])
    case Leaked(v) => GiveUp(l, [v])
    case Accepted(v) => GiveUp(l, [v])
    case Overflowed => Some(l)
  }

  /** The ledger after a log; none if some event gives up a value that is not among the newest held. */
  function Replay(log: seq<Event>): Option<Ledger> {
    if log == [] then Some(Ledger([], []))
    else
      var n := |log| - 1;
      var before := Replay(log[..n]);
      if before.Some? then Apply(before.value, log[n], n) else None
  }

  lemma ReplayOne(log: seq<Event>, e: Event)
    requires Replay(log).Some?
    ensures Replay(log + [e]) == Apply(Replay(log).value, e, |log|)
  {
    hide Apply;
    var more := log + [e];
    assert more[..|log|] == log && more[|log|] == e;
  }

  // ---------------------------------------------------------------------------------------------
  // Serial numbers

  predicate Creates(e: Event) {
    e.Shifted? || e.SyntaxError? || e.Reduced?
  }

  /** How often each serial number was given up or is held. */
  function Total(l: Ledger): multiset<nat> {
    multiset(l.gone) + multiset(Ids(l.held))
  }

  /** The serial numbers are those of the creating events: each is held or was given up, and only once. */
  ghost predicate Serial(l: Ledger, log: seq<Event>) {
    Numbered(Total(l), log)
  }

  /** Just the indices of the creating events, each once. */
  ghost predicate Numbered(ids: multiset<nat>, log: seq<Event>) {
    forall id: nat :: ids[id] == if id < |log| && Creates(log[id]) then 1 else 0
  }

  lemma NumberedMore(ids: multiset<nat>, log: seq<Event>, e: Event)
    requires Numbered(ids, log)
    ensures Numbered(if Creates(e) then ids + multiset{|log|} else ids, log + [e])
  {
    hide Creates;
    var more := if Creates(e) then ids + multiset{|log|} else ids;
    forall id: nat ensures more[id] == if id < |log| + 1 && Creates((log + [e])[id]) then 1 else 0 {
      assert ids[id] == if id < |log| && Creates(log[id]) then 1 else 0;
    }
  }

  lemma GiveUpTotal(l: Ledger, vs: seq<Tree>)
    requires GiveUp(l, vs).Some?
    ensures Total(GiveUp(l, vs).value) == Total(l)
  {
    var n := |l.held| - |vs|;
    assert Ids(l.held) == Ids(l.held[..n]) + Ids(l.held[n..]);
  }

  lemma TakeTotal(l: Ledger, id: nat, v: Tree)
    ensures Total(Take(l, id, v)) == Total(l) + multiset{id}
  {
    assert Ids(l.held + [Held(id, v)]) == Ids(l.held) + [id];
  }

  lemma ApplyTotal(l: Ledger, e: Event, i: nat)
    requires Apply(l, e, i).Some?
    ensures Total(Apply(l, e, i).value) == if Creates(e) then Total(l) + multiset{i} else Total(l)
  {
    hide Total, GiveUp, Take;
    match e {
      case Shifted(tok) => TakeTotal(l, i, Leaf(tok));
      case SyntaxError(tok) => TakeTotal(l, i, Leaf(tok));
      case Reduced(r, kids) =>
        GiveUpTotal(l, kids);
        TakeTotal(GiveUp(l, kids).value, i, Node(r, kids));
      case Destroyed(v) => GiveUpTotal(l, [v]);
      case Leaked(v) => GiveUpTotal(l, [v]);
      case Accepted(v) => GiveUpTotal(l, [v]);
      case Overflowed =>
    }
  }

  lemma ReplayLast(log: seq<Event>)
    requires log != [] && Replay(log).Some?
    ensures var n := |log| - 1; var before := Replay(log[..n]);
      before.Some? && Replay(log) == Apply(before.value, log[n], n)
  {
    hide Apply;
  }

  lemma ReplayNone()
    ensures Replay([]) == Some(Ledger([], []))
  {}

  /** Whatever a log that can be replayed says, no value is given up twice, and none is lost sight of. */
  lemma {:induction false} OnceEach(log: seq<Event>)
    requires Replay(log).Some?
    ensures Serial(Replay(log).value, log)
  {
    if log == [] {
      ReplayNone();
      assert Total(Ledger([], [])) == multiset{};
    } else {
      hide Replay, Apply, Total, Numbered;
      ReplayLast(log);
      var n := |log| - 1;
      OnceEach(log[..n]);
      var l := Replay(log[..n]).value;
      ApplyTotal(l, log[n], n);
      NumberedMore(Total(l), log[..n], log[n]);
      assert log[..n] + [log[n]] == log;
    }
  }

  // ---------------------------------------------------------------------------------------------
  // The machine's log can be replayed

  lemma GiveUpTop(l: Ledger, below: seq<Tree>, vs: seq<Tree>)
    requires Values(l.held) == below + vs
    ensures GiveUp(l, vs).Some? && Values(GiveUp(l, vs).value.held) == below
  {
    var n := |l.held| - |vs|;
    assert |Values(l.held)| == |l.held|;
    assert Values(l.held[n..]) == Values(l.held)[n..] == vs;
    assert Values(l.held[..n]) == Values(l.held)[..n] == below;
  }

  lemma TakeTop(l: Ledger, id: nat, v: Tree)
    ensures Values(Take(l, id, v).held) == Values(l.held) + [v]
  {
  }

  /** The log can be replayed and leaves the values vs. */
  ghost predicate Leaves(log: seq<Event>, vs: seq<Tree>) {
    Replay(log).Some? && Values(Replay(log).value.held) == vs
  }

  lemma LeavesMore(log: seq<Event>, vs: seq<Tree>, e: Event)
    requires Leaves(log, vs) && (e.Shifted? || e.SyntaxError?)
    ensures Leaves(log + [e], vs + [Leaf(e.tok)])
  {
    hide Replay, Values, Ids, GiveUp, Take;
    ReplayOne(log, e);
    TakeTop(Replay(log).value, |log|, Leaf(e.tok));
  }

  lemma LeavesLess(log: seq<Event>, vs: seq<Tree>, v: Tree, e: Event)
    requires Leaves(log, vs + [v]) && e in {Destroyed(v), Leaked(v), Accepted(v)}
    ensures Leaves(log + [e], vs)
  {
    hide Replay, Values, Ids, GiveUp, Take;
    ReplayOne(log, e);
    GiveUpTop(Replay(log).value, vs, [v]);
  }

  lemma LeavesReduced(log: seq<Event>, vs: seq<Tree>, r: nat, kids: seq<Tree>)
    requires Leaves(log, vs + kids)
    ensures Leaves(log + [Reduced(r, kids)], vs + [Node(r, kids)])
  {
    hide Replay, Values, Ids, GiveUp, Take;
    ReplayOne(log, Reduced(r, kids));
    GiveUpTop(Replay(log).value, vs, kids);
    TakeTop(GiveUp(Replay(log).value, kids).value, |log|, Node(r, kids));
  }

  lemma LeavesOverflowed(log: seq<Event>, vs: seq<Tree>)
    requires Leaves(log, vs)
    ensures Leaves(log + [Overflowed], vs)
  {
    hide Replay, Values, Ids, GiveUp, Take;
    ReplayOne(log, Overflowed);
  }

  lemma {:induction false} LeavesDestroyed(log: seq<Event>, es: seq<Entry>)
    requires Leaves(log, Minors(es))
    ensures Leaves(log + DestroyAll(es), [])
    decreases es
  {
    hide Leaves;
    if es == [] {
      assert log + DestroyAll(es) == log && Minors(es) == [];
    } else {
      hide Minors, DestroyAll;
      var below, last := es[..|es| - 1], es[|es| - 1];
      var v := last.minor;
      assert es == below + [last];
      Conservation.MinorsMore(below, last);
      Conservation.DestroyAllMore(below, last);
      LeavesLess(log, Minors(below), v, Destroyed(v));
      LeavesDestroyed(log + [Destroyed(v)], below);
      assert log + [Destroyed(v)] + DestroyAll(below) == log + ([Destroyed(v)] + DestroyAll(below));
    }
  }

  /** The log can be replayed, and leaves just the values on the stack. */
  ghost predicate Matches(c: Config) {
    c.stack != [] && Leaves(c.log, Minors(c.stack[1..]))
  }

  lemma ShiftMatches(c: Config, act: nat, tok: Token)
    requires Matches(c)
    ensures Matches(Shift(c, act, tok))
  {
    hide Leaves;
    var above, c' := c.stack[1..], Shift(c, act, tok);
    if |c.stack| == YYSTACKDEPTH {
      LeavesDestroyed(c.log, above);
      LeavesOverflowed(c.log + DestroyAll(above), []);
      assert Minors(c'.stack[1..]) == [];
    } else {
      LeavesMore(c.log, Minors(above), Shifted(tok));
      assert Minors(c'.stack[1..]) == Minors(above) + [Leaf(tok)];
    }
  }

  lemma RefuseMatches(c: Config, tok: Token)
    requires Matches(c)
    ensures Matches(Refuse(c, tok))
  {
    hide Leaves;
    var vs := Minors(c.stack[1..]);
    LeavesMore(c.log, vs, SyntaxError(tok));
    LeavesLess(c.log + [SyntaxError(tok)], vs, Leaf(tok), Destroyed(Leaf(tok)));
    assert Refuse(c, tok).log == c.log + [SyntaxError(tok)] + [Destroyed(Leaf(tok))];
  }

  lemma OverflowMatches(c: Config, c': Config)
    requires Matches(c) && OverflowStep(c, c')
    ensures Matches(c')
  {
    hide Leaves;
    var popped, top := c.stack[1..|c.stack| - 1], Top(c).minor;
    assert Minors(c.stack[1..]) == Minors(popped) + [top];
    LeavesLess(c.log, Minors(popped), top, Leaked(top));
    LeavesDestroyed(c.log + [Leaked(top)], popped);
    LeavesOverflowed(c.log + [Leaked(top)] + DestroyAll(popped), []);
    assert Minors(c'.stack[1..]) == [];
  }

  lemma GotoMatches(c: Config, n: nat, e: Entry, c': Config)
    requires Matches(c) && GotoStep(c, n, e, c')
    ensures Matches(c')
  {
    hide Leaves;
    var below := Minors(c.stack[1..|c.stack| - n]);
    assert Minors(c.stack[1..]) == below + e.minor.kids;
    LeavesReduced(c.log, below, e.minor.rule, e.minor.kids);
    assert Minors(c'.stack[1..]) == below + [e.minor];
  }

  lemma AcceptMatches(T: Tables, C: Cert, c: Config, u: Tree, c': Config)
    requires Matches(c) && AcceptStep(T, C, c, u, c')
    ensures Matches(c')
  {
    hide Leaves, TreeOk;
    assert Minors(c.stack[1..]) == [] + u.kids;
    LeavesReduced(c.log, [], u.rule, u.kids);
    LeavesLess(c.log + [Reduced(u.rule, u.kids)], [], u, Accepted(u));
    assert c'.log == c.log + [Reduced(u.rule, u.kids)] + [Accepted(u)];
    assert Minors(c'.stack[1..]) == [];
  }

  lemma ReduceMatches(T: Tables, C: Cert, c: Config, r: nat, c': Config)
    requires Sized(T) && Matches(c) && ReduceStep(T, C, c, r, c')
    ensures Matches(c')
  {
    hide Matches, OverflowStep, GotoStep, AcceptStep;
    if OverflowStep(c, c') {
      OverflowMatches(c, c');
    } else if c'.stack != [] && GotoStep(c, |T.rules[r].rhs|, Top(c'), c') {
      GotoMatches(c, |T.rules[r].rhs|, Top(c'), c');
    } else {
      AcceptMatches(T, C, c, Node(r, Minors(c.stack[|c.stack| - |T.rules[r].rhs|..])), c');
    }
  }

  lemma {:induction false} RunMatches(T: Tables, C: Cert, c: Config, tok: Token)
    requires Certified(T, C) && Inv(T, C, c.stack) && Terminal(tok) && Matches(c)
    ensures Matches(Run(T, C, c, tok))
    decreases Potential(C, c.stack)
  {
    hide *;
    var act, next := Unfold(T, C, c, tok);
    if act <= YY_MAX_SHIFTREDUCE {
      ShiftMatches(c, act, tok);
    } else if act <= YY_MAX_REDUCE {
      var r := act - YY_MIN_REDUCE;
      ReduceCases(T, C, c, r);
      ReduceMatches(T, C, c, r, next);
      if |next.stack| != 1 {
        RunMatches(T, C, next, tok);
      }
    } else {
      RefuseMatches(c, tok);
    }
  }

  lemma {:induction false} FeedMatches(T: Tables, C: Cert, toks: seq<Token>)
    requires Certified(T, C) && AllTerminal(toks)
    ensures Matches(Feed(T, C, toks))
  {
    if toks == [] {
      assert Minors(INITIAL.stack[1..]) == [];
    } else {
      hide Certified, Inv, WellFormed, Run, Matches;
      FeedMatches(T, C, toks[..|toks| - 1]);
      RunMatches(T, C, Feed(T, C, toks[..|toks| - 1]), toks[|toks| - 1]);
    }
  }

  /** After any sequence of calls on a new parser, every single value that was created is on the stack or was
      given up, once, and every event gave up the newest values that were held. */
  lemma EachOnce(T: Tables, C: Cert, toks: seq<Token>)
    requires Certified(T, C) && AllTerminal(toks)
    ensures var c := Feed(T, C, toks);
      Replay(c.log).Some? && Serial(Replay(c.log).value, c.log)
      && Values(Replay(c.log).value.held) == Minors(c.stack[1..])
  {
    hide Certified, Inv, WellFormed, Feed, Serial, Replay;
    FeedMatches(T, C, toks);
    OnceEach(Feed(T, C, toks).log);
  }

  /** Once the parser is freed, every single value has been given up, once. */
  lemma FreedOnce(T: Tables, C: Cert, toks: seq<Token>)
    requires Certified(T, C) && AllTerminal(toks)
    ensures var log := Conservation.Free(Feed(T, C, toks)).log;
      && Replay(log).Some?
      && forall id: nat ::
           multiset(Replay(log).value.gone)[id] == if id < |log| && Creates(log[id]) then 1 else 0
  {
    hide Certified, Inv, WellFormed, Feed, Replay;
    FeedMatches(T, C, toks);
    var c := Feed(T, C, toks);
    LeavesDestroyed(c.log, c.stack[1..]);
    var log := c.log + DestroyAll(c.stack[1..]);
    OnceEach(log);
    var l := Replay(log).value;
    assert |Values(l.held)| == 0;
    assert Ids(l.held) == [];
    assert Total(l) == multiset(l.gone);
  }
}
