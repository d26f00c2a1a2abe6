/** The machine without a depth limit, round by round: it never overflows and never loses a value, and it
    does what the limited one does for as long as that does not overflow. */
module Unbounded {
  import opened Lemon
  import opened Certificate
  import opened Machine
  import opened Invariant
  import opened Runs
  import Soundness

  /** The machine, and the tokens that it has yet to take in. */
  datatype State = State(c: Config, toks: seq<Token>)

  ghost predicate Good(T: Tables, C: Cert, s: State) {
    Certified(T, C) && WellFormed(T, C, s.c.stack) && AllTerminal(s.toks)
  }

  /** One round of the loop in one of the calls: a shift, a reduce or a refusal. */
  function Round(T: Tables, C: Cert, s: State): (next: State)
    requires Good(T, C, s)
    ensures Good(T, C, next)
  {
    if s.toks == [] then s
    else
      var tok, rest := s.toks[0], s.toks[1..];
      NextMove(T, C, s.c, tok);
      var act := ShiftAction(T, Top(s.c).stateno, tok.major);
      if act <= YY_MAX_SHIFTREDUCE then
        PushedKeeps(T, C, s.c, tok);
        State(Pushed(s.c, act, tok), rest)
      else if act <= YY_MAX_REDUCE then
        ReplacedKeeps(T, C, s.c, act - YY_MIN_REDUCE);
        var next := Replaced(T, s.c, act - YY_MIN_REDUCE);
        State(next, if |next.stack| == 1 then rest else s.toks)
      else State(Refuse(s.c, tok), rest)
  }

  function Rounds(T: Tables, C: Cert, s: State, n: nat): (next: State)
    requires Good(T, C, s)
    ensures Good(T, C, next)
    decreases n
  {
    if n == 0 then s else Rounds(T, C, Round(T, C, s), n - 1)
  }

  lemma NoRounds(T: Tables, C: Cert, s: State)
    requires Good(T, C, s)
    ensures Rounds(T, C, s, 0) == s
  {
    hide Good, Round;
  }

  /** The next of several rounds. */
  lemma NextRound(T: Tables, C: Cert, s: State, n: nat)
    requires Good(T, C, s) && 0 < n
    ensures s.toks == [] ==> Rounds(T, C, s, n) == Rounds(T, C, s, n - 1)
    ensures Good(T, C, Round(T, C, s)) && Rounds(T, C, s, n) == Rounds(T, C, Round(T, C, s), n - 1)
  {
    hide Good, Certified, WellFormed, ShiftAction, Pushed, Replaced, Refuse;
  }

  /** Nothing is lost and nothing overflows. */
  predicate Quiet(log: seq<Event>) {
    forall i :: 0 <= i < |log| ==> !log[i].Overflowed? && !log[i].Leaked?
  }

  lemma RoundQuiet(T: Tables, C: Cert, s: State)
    requires Good(T, C, s) && Quiet(s.c.log)
    ensures Quiet(Round(T, C, s).c.log)
  {
    hide Good, Certified, WellFormed, ShiftAction, GotoDefined, CanReduce, Minors;
  }

  /** However many rounds are made, the machine without a depth limit never overflows and never loses a value. */
  lemma {:induction false} RoundsQuiet(T: Tables, C: Cert, s: State, n: nat)
    requires Good(T, C, s) && Quiet(s.c.log)
    ensures Quiet(Rounds(T, C, s, n).c.log)
    decreases n
  {
    hide *;
    if n == 0 {
      NoRounds(T, C, s);
    } else {
      NextRound(T, C, s, n);
      RoundQuiet(T, C, s);
      RoundsQuiet(T, C, Round(T, C, s), n - 1);
    }
  }

  lemma {:induction false} RoundsMore(T: Tables, C: Cert, s: State, n: nat, m: nat)
    requires Good(T, C, s)
    ensures Rounds(T, C, Rounds(T, C, s, n), m) == Rounds(T, C, s, n + m)
    decreases n
  {
    hide Good, Round;
    if n != 0 {
      RoundsMore(T, C, Round(T, C, s), n - 1, m);
    }
  }

  // ---------------------------------------------------------------------------------------------
  // The limited machine

  predicate NoOverflow(log: seq<Event>) {
    Overflowed !in log
  }

  lemma ShiftAgrees(c: Config, act: nat, tok: Token)
    requires 1 <= |c.stack| <= YYSTACKDEPTH && NoOverflow(Shift(c, act, tok).log)
    ensures Shift(c, act, tok) == Pushed(c, act, tok)
  {
    hide DestroyAll;
  }

  lemma ReduceAgrees(T: Tables, c: Config, r: nat)
    requires Sized(T) && CanReduce(T, c.stack, r) && |c.stack| <= YYSTACKDEPTH && NoOverflow(Reduce(T, c, r).log)
    ensures Reduce(T, c, r) == Replaced(T, c, r)
  {
    hide DestroyAll, GotoDefined, Replaced;
  }

  lemma PrefixQuiet(a: seq<Event>, b: seq<Event>)
    requires a <= b && NoOverflow(b)
    ensures NoOverflow(a)
  {}

  /** One round, given what the token calls for. */
  lemma RoundShifts(T: Tables, C: Cert, s: State, act: nat)
    requires Good(T, C, s) && s.toks != [] && (Top(s.c).stateno < YYNSTATE || YY_MIN_REDUCE <= Top(s.c).stateno)
    requires act == ShiftAction(T, Top(s.c).stateno, s.toks[0].major) <= YY_MAX_SHIFTREDUCE
    ensures Round(T, C, s) == State(Pushed(s.c, act, s.toks[0]), s.toks[1..])
  {
    hide Certified, WellFormed, ShiftAction;
  }

  lemma RoundReduces(T: Tables, C: Cert, s: State, r: nat)
    requires Good(T, C, s) && s.toks != [] && (Top(s.c).stateno < YYNSTATE || YY_MIN_REDUCE <= Top(s.c).stateno)
    requires ShiftAction(T, Top(s.c).stateno, s.toks[0].major) == YY_MIN_REDUCE + r <= YY_MAX_REDUCE
    requires CanReduce(T, s.c.stack, r)
    ensures var next := Replaced(T, s.c, r);
      Round(T, C, s) == State(next, if |next.stack| == 1 then s.toks[1..] else s.toks)
  {
    hide Certified, WellFormed, ShiftAction, CanReduce, Replaced, Sized;
  }

  lemma RoundRefuses(T: Tables, C: Cert, s: State)
    requires Good(T, C, s) && s.toks != [] && (Top(s.c).stateno < YYNSTATE || YY_MIN_REDUCE <= Top(s.c).stateno)
    requires YY_MAX_REDUCE < ShiftAction(T, Top(s.c).stateno, s.toks[0].major)
    ensures Round(T, C, s) == State(Refuse(s.c, s.toks[0]), s.toks[1..])
  {
    hide Certified, WellFormed, ShiftAction;
  }

  lemma OneRound(T: Tables, C: Cert, s: State)
    requires Good(T, C, s)
    ensures Rounds(T, C, s, 1) == Round(T, C, s)
  {
    hide Good, Round;
    assert Rounds(T, C, Round(T, C, s), 0) == Round(T, C, s);
  }

  lemma InvGood(T: Tables, C: Cert, c: Config, toks: seq<Token>)
    requires Certified(T, C) && Inv(T, C, c.stack) && AllTerminal(toks)
    ensures Good(T, C, State(c, toks))
  {
    hide Certified, WellFormed;
  }

  /** A shift, a reduce and a refusal of the limited machine, as long as nothing overflows. */
  lemma ShiftRound(T: Tables, C: Cert, c: Config, toks: seq<Token>, act: nat)
    requires Good(T, C, State(c, toks)) && toks != [] && 1 <= |c.stack| <= YYSTACKDEPTH
    requires Top(c).stateno < YYNSTATE || YY_MIN_REDUCE <= Top(c).stateno
    requires act == ShiftAction(T, Top(c).stateno, toks[0].major) <= YY_MAX_SHIFTREDUCE
    requires NoOverflow(Shift(c, act, toks[0]).log)
    ensures Round(T, C, State(c, toks)) == State(Shift(c, act, toks[0]), toks[1..])
  {
    hide Certified, WellFormed, Round, Shift, Pushed, ShiftAction, NoOverflow;
    ShiftAgrees(c, act, toks[0]);
    RoundShifts(T, C, State(c, toks), act);
  }

  lemma ReduceRound(T: Tables, C: Cert, c: Config, toks: seq<Token>, r: nat)
    requires Good(T, C, State(c, toks)) && toks != [] && 1 <= |c.stack| <= YYSTACKDEPTH
    requires Top(c).stateno < YYNSTATE || YY_MIN_REDUCE <= Top(c).stateno
    requires ShiftAction(T, Top(c).stateno, toks[0].major) == YY_MIN_REDUCE + r <= YY_MAX_REDUCE
    requires Sized(T) && CanReduce(T, c.stack, r) && NoOverflow(Reduce(T, c, r).log)
    ensures var next := Reduce(T, c, r);
      Round(T, C, State(c, toks)) == State(next, if |next.stack| == 1 then toks[1..] else toks)
  {
    hide Certified, WellFormed, Round, Reduce, Replaced, CanReduce, Sized, ShiftAction, NoOverflow;
    ReduceAgrees(T, c, r);
    RoundReduces(T, C, State(c, toks), r);
  }

  /** The same of a call that shifts, reduces or refuses first. */
  lemma ShiftOfRun(T: Tables, C: Cert, c: Config, toks: seq<Token>)
    requires Certified(T, C) && Inv(T, C, c.stack) && Good(T, C, State(c, toks)) && toks != [] && Terminal(toks[0])
    requires 1 <= |c.stack| <= YYSTACKDEPTH && (Top(c).stateno < YYNSTATE || YY_MIN_REDUCE <= Top(c).stateno)
    requires Sized(T) && ShiftAction(T, Top(c).stateno, toks[0].major) <= YY_MAX_SHIFTREDUCE
    requires NoOverflow(Run(T, C, c, toks[0]).log)
    ensures Round(T, C, State(c, toks)) == State(Run(T, C, c, toks[0]), toks[1..])
  {
    hide *;
    RunShift(T, C, c, toks[0]);
    ShiftRound(T, C, c, toks, ShiftAction(T, Top(c).stateno, toks[0].major));
  }

  lemma RefuseOfRun(T: Tables, C: Cert, c: Config, toks: seq<Token>)
    requires Certified(T, C) && Inv(T, C, c.stack) && Good(T, C, State(c, toks)) && toks != [] && Terminal(toks[0])
    requires 1 <= |c.stack| <= YYSTACKDEPTH && (Top(c).stateno < YYNSTATE || YY_MIN_REDUCE <= Top(c).stateno)
    requires YY_MAX_REDUCE < ShiftAction(T, Top(c).stateno, toks[0].major)
    ensures Round(T, C, State(c, toks)) == State(Run(T, C, c, toks[0]), toks[1..])
  {
    hide *;
    RunRefuse(T, C, c, toks[0]);
    RoundRefuses(T, C, State(c, toks));
  }

  lemma ReduceOfRun(T: Tables, C: Cert, c: Config, toks: seq<Token>, r: nat) returns (next: Config, again: bool)
    requires Certified(T, C) && Inv(T, C, c.stack) && Good(T, C, State(c, toks)) && toks != [] && Terminal(toks[0])
    requires 1 <= |c.stack| <= YYSTACKDEPTH && (Top(c).stateno < YYNSTATE || YY_MIN_REDUCE <= Top(c).stateno)
    requires ShiftAction(T, Top(c).stateno, toks[0].major) == YY_MIN_REDUCE + r <= YY_MAX_REDUCE
    requires Sized(T) && ReduceDue(T, C, c.stack, r)
    requires NoOverflow(Run(T, C, c, toks[0]).log)
    ensures Round(T, C, State(c, toks)) == State(next, if again then toks else toks[1..])
    ensures Inv(T, C, next.stack) && Run(T, C, c, toks[0]) == if again then Run(T, C, next, toks[0]) else next
    ensures again ==> 0 <= Potential(C, next.stack) < Potential(C, c.stack)
  {
    hide *;
    next := RunReduce(T, C, c, toks[0], r);
    again := |next.stack| != 1;
    Lighter(T, C, c, r);
    ReducedQuiet(T, C, c, toks[0], next);
    ReduceRound(T, C, c, toks, r);
  }

  /** One round of a call that does not overflow. */
  lemma RoundOfRun(T: Tables, C: Cert, c: Config, toks: seq<Token>) returns (next: Config, again: bool)
    requires Certified(T, C) && Inv(T, C, c.stack) && AllTerminal(toks) && toks != []
    requires NoOverflow(Run(T, C, c, toks[0]).log)
    ensures Good(T, C, State(c, toks))
    ensures Round(T, C, State(c, toks)) == State(next, if again then toks else toks[1..])
    ensures Inv(T, C, next.stack) && Run(T, C, c, toks[0]) == if again then Run(T, C, next, toks[0]) else next
    ensures again ==> 0 <= Potential(C, next.stack) < Potential(C, c.stack)
  {
    assert Terminal(toks[0]);
    hide *;
    Height(T, C, c.stack);
    InvGood(T, C, c, toks);
    NextAction(T, C, c, toks[0]);
    var act := ShiftAction(T, Top(c).stateno, toks[0].major);
    next, again := Run(T, C, c, toks[0]), false;
    if act <= YY_MAX_SHIFTREDUCE {
      ShiftOfRun(T, C, c, toks);
    } else if act <= YY_MAX_REDUCE {
      next, again := ReduceOfRun(T, C, c, toks, act - YY_MIN_REDUCE);
    } else {
      RefuseOfRun(T, C, c, toks);
    }
  }

  lemma ReducedQuiet(T: Tables, C: Cert, c: Config, tok: Token, next: Config)
    requires Certified(T, C) && Inv(T, C, c.stack) && Inv(T, C, next.stack) && Terminal(tok)
    requires Run(T, C, c, tok) == next || Run(T, C, c, tok) == Run(T, C, next, tok)
    requires NoOverflow(Run(T, C, c, tok).log)
    ensures NoOverflow(next.log)
  {
    hide Certified, Inv, Run, NoOverflow;
    if Run(T, C, c, tok) != next {
      Soundness.RunExtends(T, C, next, tok);
      PrefixQuiet(next.log, Run(T, C, c, tok).log);
    }
  }

  /** One call that does not overflow takes some rounds. */
  lemma {:induction false} RunAgrees(T: Tables, C: Cert, c: Config, toks: seq<Token>) returns (n: nat)
    requires Certified(T, C) && Inv(T, C, c.stack) && AllTerminal(toks) && toks != []
    requires NoOverflow(Run(T, C, c, toks[0]).log)
    ensures Good(T, C, State(c, toks))
    ensures Rounds(T, C, State(c, toks), n) == State(Run(T, C, c, toks[0]), toks[1..])
    decreases Potential(C, c.stack)
  {
    hide *;
    var next, again := RoundOfRun(T, C, c, toks);
    OneRound(T, C, State(c, toks));
    n := 1;
    if again {
      var m := RunAgrees(T, C, next, toks);
      RoundsMore(T, C, State(c, toks), 1, m);
      n := 1 + m;
    }
  }

  lemma {:induction false} FeedFrom(T: Tables, C: Cert, toks: seq<Token>, rest: seq<Token>) returns (n: nat)
    requires Certified(T, C) && AllTerminal(toks) && AllTerminal(rest) && NoOverflow(Feed(T, C, toks).log)
    ensures Good(T, C, State(INITIAL, toks + rest))
    ensures Rounds(T, C, State(INITIAL, toks + rest), n) == State(Feed(T, C, toks), rest)
    decreases toks
  {
    hide Certified, Inv, WellFormed, Good, Round, Run, NoOverflow;
    InitialOk(T, C);
    InvGood(T, C, INITIAL, toks + rest);
    if toks == [] {
      assert toks + rest == rest;
      n := 0;
    } else {
      hide Rounds;
      var k := |toks| - 1;
      var before, last := Feed(T, C, toks[..k]), [toks[k]] + rest;
      Soundness.RunExtends(T, C, before, toks[k]);
      PrefixQuiet(before.log, Feed(T, C, toks).log);
      var m := FeedFrom(T, C, toks[..k], last);
      assert toks[..k] + last == toks + rest;
      var l := RunAgrees(T, C, before, last);
      assert last[1..] == rest;
      RoundsMore(T, C, State(INITIAL, toks + rest), m, l);
      n := m + l;
    }
  }

  /** As long as the machine of fixed depth does not overflow, the machine without a depth limit does the same:
      after some rounds it has taken in the same tokens and has the same stack and log. */
  lemma FeedAgrees(T: Tables, C: Cert, toks: seq<Token>) returns (n: nat)
    requires Certified(T, C) && AllTerminal(toks) && NoOverflow(Feed(T, C, toks).log)
    ensures Good(T, C, State(INITIAL, toks))
    ensures Rounds(T, C, State(INITIAL, toks), n) == State(Feed(T, C, toks), [])
  {
    hide Certified, Good, Rounds, Feed, NoOverflow;
    n := FeedFrom(T, C, toks, []);
    assert toks + [] == toks;
  }
}
