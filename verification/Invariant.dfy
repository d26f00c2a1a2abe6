/** The certificate's local checks make every step of the machine safe. */
module Invariant {
  import opened Lemon
  import opened Certificate
  import opened Machine

  /** A reduce by r is what the top of the stack calls for: a pending one, or one that the table
      allows in this state. */
  ghost predicate ReduceDue(T: Tables, C: Cert, stack: seq<Entry>, r: nat)
    requires Sized(T)
  {
    && stack != []
    && r < YYNRULE
    && var s := stack[|stack| - 1].stateno;
    if Pseudo(s) then s == YY_MIN_REDUCE + r && PendingOk(T, r)
    else s < YYNSTATE && ReduceOk(T, C, s, r)
  }

  /** The parts of the certificate and the invariant that most proofs need. */
  lemma Bounds(T: Tables, C: Cert, stack: seq<Entry>)
    requires Certified(T, C) && Inv(T, C, stack)
    ensures Sized(T) && |T.rules| == YYNRULE && 1 <= |stack| <= YYSTACKDEPTH
    ensures forall x: nat :: 0 <= C.weight(x) + C.floor
  {
  }

  lemma Height(T: Tables, C: Cert, stack: seq<Entry>)
    requires Certified(T, C) && Inv(T, C, stack)
    ensures Sized(T) && |T.rules| == YYNRULE && 1 <= |stack| <= YYSTACKDEPTH && WellFormed(T, C, stack)
  {
    Bounds(T, C, stack);
  }

  lemma RuleFacts(T: Tables, C: Cert, r: nat)
    requires Certified(T, C) && r < YYNRULE
    ensures Sized(T) && |T.rules| == YYNRULE && RuleOk(T, C, r)
  {
  }

  lemma SuffixTrans(a: seq<nat>, b: seq<nat>, c: seq<nat>)
    requires SuffixOf(a, b) && SuffixOf(b, c)
    ensures SuffixOf(a, c)
  {
    forall k | 0 <= k < |a| ensures a[k] == c[|c| - |a| + k] {
      assert a[k] == b[|b| - |a| + k];
    }
  }

  /** Symbols that fill a string of slots fill every suffix of it. */
  lemma FillsSuffix(T: Tables, C: Cert, a: seq<nat>, b: seq<nat>, stack: seq<Entry>, n: nat)
    requires SuffixOf(a, b) && |b| <= n <= |stack|
    requires forall k :: 0 <= k < |b| ==> Fits(T, C, b[k], stack[n - |b| + k].major)
    ensures forall k :: 0 <= k < |a| ==> Fits(T, C, a[k], stack[n - |a| + k].major)
  {
    forall k | 0 <= k < |a| ensures Fits(T, C, a[k], stack[n - |a| + k].major) {
      var j := |b| - |a| + k;
      assert a[k] == b[j];
      assert Fits(T, C, b[j], stack[n - |b| + j].major);
    }
  }

  /** An action read off an entry of the packed table has passed that entry's check. */
  lemma EntryHit(T: Tables, C: Cert, ofst: int, z: nat)
    requires Certified(T, C) && Hit(T, ofst, z)
    ensures EntryOk(T, C, ofst + z)
  {
  }

  /** An action found in state s: a certified move on table symbol z, or a certified reduce. */
  ghost predicate ActionOk(T: Tables, C: Cert, s: nat, z: nat, act: nat)
    requires Sized(T) && s < YYNSTATE
  {
    if act <= YY_MAX_SHIFTREDUCE then
      && StateCode(StoredState(act)) && StoredState(act) != 0
      && TransitionOk(T, C, false, T.shiftOfst[s], z, StoredState(act))
      && (Pseudo(StoredState(act)) ==> PendingOk(T, StoredState(act) - YY_MIN_REDUCE))
    else
      YY_MIN_REDUCE <= act <= YY_MAX_REDUCE && ReduceOk(T, C, s, act - YY_MIN_REDUCE)
  }

  /** Every entry of a state's row is certified for that state. */
  lemma RowAction(T: Tables, C: Cert, s: nat, z: nat)
    requires Certified(T, C) && s < YYNSTATE && z < FIRST_NONTERMINAL
    requires Hit(T, T.shiftOfst[s], z)
    ensures ActionOk(T, C, s, z, T.action[T.shiftOfst[s] + z])
  {
    var act := T.action[T.shiftOfst[s] + z];
    assert StateOk(T, C, s);
    EntryHit(T, C, T.shiftOfst[s], z);
    if YY_MIN_REDUCE <= act <= YY_MAX_REDUCE {
      SuffixTrans(T.rules[act - YY_MIN_REDUCE].rhs, C.rowPast(false, T.shiftOfst[s]), C.past(s));
    }
  }

  /** Every lookup answers with a certified move, a certified reduce or an error. */
  lemma ActionCases(T: Tables, C: Cert, s: nat, x: nat) returns (z: nat)
    requires Certified(T, C) && s < YYNSTATE && x < FIRST_NONTERMINAL
    ensures ShiftAction(T, s, x) != YY_ERROR_ACTION ==>
              ActionOk(T, C, s, z, ShiftAction(T, s, x)) && StandsFor(T, x, z)
  {
    var row := PlainRow(T, s);
    var y := if x < |T.fallback| && T.fallback[x] != 0 then T.fallback[x] else x;
    assert x < FALLBACK_COUNT ==> FallbackSettles(T.fallback, x);
    z := if x in row then x else if y in row then y else YYWILDCARD;
    if x in row || y in row {
      RowAction(T, C, s, z);
    } else if y != 0 && YYWILDCARD in row {
      assert x != 0 by { assert T.fallback[0] == 0; }
      RowAction(T, C, s, z);
    } else {
      z := x;
      assert StateOk(T, C, s);
    }
  }

  /** Symbols that fill a string, and one more that fits one more slot. */
  lemma FillsOneMore(T: Tables, C: Cert, past: seq<nat>, stack: seq<Entry>, e: Entry)
    requires past != [] && |past| - 1 <= |stack|
    requires var rest := past[..|past| - 1];
      forall k :: 0 <= k < |rest| ==> Fits(T, C, rest[k], stack[|stack| - |rest| + k].major)
    requires Fits(T, C, past[|past| - 1], e.major)
    ensures forall k :: 0 <= k < |past| ==> Fits(T, C, past[k], (stack + [e])[|stack| + 1 - |past| + k].major)
  {
    var rest := past[..|past| - 1];
    forall k | 0 <= k < |past|
      ensures Fits(T, C, past[k], (stack + [e])[|stack| + 1 - |past| + k].major)
    {
      if k < |rest| {
        assert Fits(T, C, rest[k], stack[|stack| - |rest| + k].major);
      }
    }
  }

  lemma SymbolsKnown(T: Tables, C: Cert, stack: seq<Entry>, e: Entry, past: seq<nat>)
    requires Sized(T) && StateCode(e.stateno) && past == StatePast(T, C, e.stateno) && |past| <= |stack|
    requires forall k :: 0 <= k < |past| ==> Fits(T, C, past[k], (stack + [e])[|stack| + 1 - |past| + k].major)
    ensures KnownSymbols(T, C, stack + [e], |stack|)
  {
    hide Sized, StatePast, Fits;
    assert (stack + [e])[|stack|] == e;
  }

  /** What fills the past of the top state fills every suffix of it. */
  lemma RestFills(T: Tables, C: Cert, stack: seq<Entry>, rest: seq<nat>)
    requires Sized(T) && stack != [] && stack[|stack| - 1].stateno < YYNSTATE
    requires KnownSymbols(T, C, stack, |stack| - 1) && SuffixOf(rest, C.past(stack[|stack| - 1].stateno))
    ensures |rest| < |stack|
    ensures forall k :: 0 <= k < |rest| ==> Fits(T, C, rest[k], stack[|stack| - |rest| + k].major)
  {
    hide Sized, Fits;
    FillsSuffix(T, C, rest, C.past(stack[|stack| - 1].stateno), stack, |stack|);
  }

  lemma RestInPast(T: Tables, C: Cert, stack: seq<Entry>, nonterminal: bool, ofst: int, z: nat, e: Entry)
    requires Sized(T) && stack != [] && stack[|stack| - 1].stateno < YYNSTATE && StateCode(e.stateno)
    requires SuffixOf(C.rowPast(nonterminal, ofst), C.past(stack[|stack| - 1].stateno))
    requires PastReached(T, C, nonterminal, ofst, z, e.stateno)
    ensures var past := StatePast(T, C, e.stateno);
      past != [] && SuffixOf(past[..|past| - 1], C.past(stack[|stack| - 1].stateno))
  {
    hide Sized, SuffixOf;
    var past := StatePast(T, C, e.stateno);
    SuffixTrans(past[..|past| - 1], C.rowPast(nonterminal, ofst), C.past(stack[|stack| - 1].stateno));
  }

  /** The symbols known below a pushed entry follow from those known below the old top. */
  lemma PushSymbols(T: Tables, C: Cert, stack: seq<Entry>, nonterminal: bool, ofst: int, z: nat, e: Entry)
    requires Sized(T) && stack != []
    requires stack[|stack| - 1].stateno < YYNSTATE && StateCode(e.stateno)
    requires KnownSymbols(T, C, stack, |stack| - 1)
    requires SuffixOf(C.rowPast(nonterminal, ofst), C.past(stack[|stack| - 1].stateno))
    requires PastReached(T, C, nonterminal, ofst, z, e.stateno)
    requires StandsFor(T, e.major, z)
    ensures KnownSymbols(T, C, stack + [e], |stack|)
  {
    var past := StatePast(T, C, e.stateno);
    LastFits(T, C, nonterminal, ofst, z, e);
    RestInPast(T, C, stack, nonterminal, ofst, z, e);
    hide Sized, SuffixOf, StandsFor, PastReached, Fits, KnownSymbols, StatePast;
    RestFills(T, C, stack, past[..|past| - 1]);
    FillsOneMore(T, C, past, stack, e);
    SymbolsKnown(T, C, stack, e, past);
  }

  lemma LastFits(T: Tables, C: Cert, nonterminal: bool, ofst: int, z: nat, e: Entry)
    requires Sized(T) && StateCode(e.stateno) && PastReached(T, C, nonterminal, ofst, z, e.stateno)
    requires StandsFor(T, e.major, z)
    ensures var past := StatePast(T, C, e.stateno); past != [] && Fits(T, C, past[|past| - 1], e.major)
  {
    hide Sized, SuffixOf, StandsFor;
  }

  /** So do the gotos. */
  lemma PushGotos(T: Tables, C: Cert, stack: seq<Entry>, nonterminal: bool, ofst: int, z: nat, e: Entry)
    requires Sized(T) && stack != []
    requires stack[|stack| - 1].stateno < YYNSTATE && StateCode(e.stateno)
    requires KnownGotos(T, C, stack, |stack| - 1)
    requires RowOk(T, C, nonterminal, ofst, stack[|stack| - 1].stateno)
    requires TransitionOk(T, C, nonterminal, ofst, z, e.stateno)
    ensures KnownGotos(T, C, stack + [e], |stack|)
  {
    var n := |stack|;
    var s := stack[n - 1].stateno;
    forall d: nat, a: nat | StateNeed(T, C, e.stateno, d, a)
      ensures 1 <= d <= n && GotoDefined(T, (stack + [e])[n - d].stateno, a)
    {
      assert C.rowNeed(nonterminal, ofst, d - 1, a);
      if d != 1 {
        assert StateNeed(T, C, s, d - 1, a);
      }
    }
  }

  /** A pushed entry leaves what is known further down alone. */
  lemma PushFrame(T: Tables, C: Cert, stack: seq<Entry>, e: Entry, i: nat)
    requires Sized(T) && i < |stack| && Known(T, C, stack, i)
    ensures Known(T, C, stack + [e], i)
  {
  }

  /** The pushed entry itself is known. */
  lemma PushTop(T: Tables, C: Cert, stack: seq<Entry>, nonterminal: bool, ofst: int, z: nat, e: Entry)
    requires Sized(T) && stack != []
    requires stack[|stack| - 1].stateno < YYNSTATE && Known(T, C, stack, |stack| - 1)
    requires StateCode(e.stateno) && e.stateno != 0
    requires Pseudo(e.stateno) ==> PendingOk(T, e.stateno - YY_MIN_REDUCE)
    requires RowOk(T, C, nonterminal, ofst, stack[|stack| - 1].stateno)
    requires TransitionOk(T, C, nonterminal, ofst, z, e.stateno)
    requires StandsFor(T, e.major, z)
    requires TreeOk(T, C, e.minor) && Root(T, e.minor) == e.major
    ensures Known(T, C, stack + [e], |stack|)
  {
    PushSymbols(T, C, stack, nonterminal, ofst, z, e);
    PushGotos(T, C, stack, nonterminal, ofst, z, e);
    hide KnownSymbols, KnownGotos, RowOk, TransitionOk, StandsFor, TreeOk, PendingOk, Sized;
  }

  /** A certified move keeps the invariant. */
  lemma PushKeeps(T: Tables, C: Cert, stack: seq<Entry>, nonterminal: bool, ofst: int, z: nat, e: Entry)
    requires Sized(T) && WellFormed(T, C, stack)
    requires stack[|stack| - 1].stateno < YYNSTATE
    requires StateCode(e.stateno) && e.stateno != 0
    requires Pseudo(e.stateno) ==> PendingOk(T, e.stateno - YY_MIN_REDUCE)
    requires RowOk(T, C, nonterminal, ofst, stack[|stack| - 1].stateno)
    requires TransitionOk(T, C, nonterminal, ofst, z, e.stateno)
    requires StandsFor(T, e.major, z)
    requires TreeOk(T, C, e.minor) && Root(T, e.minor) == e.major
    ensures WellFormed(T, C, stack + [e])
  {
    hide Known, RowOk, TransitionOk, StandsFor, TreeOk, PendingOk, Sized;
    assert Known(T, C, stack, |stack| - 1);
    PushTop(T, C, stack, nonterminal, ofst, z, e);
    forall i | 0 <= i < |stack| ensures Known(T, C, stack + [e], i) {
      PushFrame(T, C, stack, e, i);
    }
  }

  lemma DueNotPseudo(T: Tables, C: Cert, stack: seq<Entry>, r: nat, i: nat)
    requires Sized(T) && WellFormed(T, C, stack) && ReduceDue(T, C, stack, r) && i + 1 + |T.rules[r].rhs| == |stack|
    ensures !Pseudo(stack[i].stateno)
  {
    hide Sized, Known, ReduceOk, TreeOk;
  }

  /** A due reduce finds its right-hand side on the stack and its goto below it. */
  lemma DueCanReduce(T: Tables, C: Cert, stack: seq<Entry>, r: nat)
    requires Sized(T) && WellFormed(T, C, stack) && ReduceDue(T, C, stack, r)
    ensures CanReduce(T, stack, r)
    ensures Uncovered(T, stack, r).stateno < YYNSTATE
    ensures forall k :: 0 <= k < |T.rules[r].rhs| ==>
              Fits(T, C, T.rules[r].rhs[k], stack[|stack| - |T.rules[r].rhs| + k].major)
  {
    hide Sized, KnownSymbols, KnownGotos, GotoDefined, ReduceOk, TreeOk, Fits;
    assert Known(T, C, stack, |stack| - 1);
    KnownCanReduce(T, C, stack, r);
    var i := |stack| - 1 - |T.rules[r].rhs|;
    assert Known(T, C, stack, i);
    DueNotPseudo(T, C, stack, r, i);
  }

  lemma DueInPast(T: Tables, C: Cert, stack: seq<Entry>, r: nat)
    requires Sized(T) && ReduceDue(T, C, stack, r) && StateCode(stack[|stack| - 1].stateno)
    ensures SuffixOf(T.rules[r].rhs, StatePast(T, C, stack[|stack| - 1].stateno))
  {
  }

  lemma DueGoto(T: Tables, C: Cert, stack: seq<Entry>, r: nat)
    requires Sized(T) && ReduceDue(T, C, stack, r) && StateCode(stack[|stack| - 1].stateno)
    requires KnownGotos(T, C, stack, |stack| - 1)
    ensures CanReduce(T, stack, r)
  {
    hide GotoDefined, SuffixOf;
    if T.rules[r].rhs != [] {
      assert StateNeed(T, C, stack[|stack| - 1].stateno, |T.rules[r].rhs|, T.rules[r].lhs);
    }
  }

  lemma KnownCanReduce(T: Tables, C: Cert, stack: seq<Entry>, r: nat)
    requires Sized(T) && ReduceDue(T, C, stack, r) && Known(T, C, stack, |stack| - 1)
    ensures CanReduce(T, stack, r)
    ensures forall k :: 0 <= k < |T.rules[r].rhs| ==>
              Fits(T, C, T.rules[r].rhs[k], stack[|stack| - |T.rules[r].rhs| + k].major)
  {
    hide Sized, StatePast, KnownGotos, GotoDefined, SuffixOf, Fits;
    DueGoto(T, C, stack, r);
    DueInPast(T, C, stack, r);
    FillsSuffix(T, C, T.rules[r].rhs, StatePast(T, C, stack[|stack| - 1].stateno), stack, |stack|);
  }

  /** Cutting the stack back to a nonempty prefix keeps the invariant. */
  lemma PrefixKeeps(T: Tables, C: Cert, stack: seq<Entry>, n: nat)
    requires Sized(T) && WellFormed(T, C, stack) && 1 <= n <= |stack|
    ensures WellFormed(T, C, stack[..n])
  {
    forall i | 0 <= i < n ensures Known(T, C, stack[..n], i) {
      assert Known(T, C, stack, i);
    }
  }

  /** Only the base entry is in state 0, so a reduce to the start symbol empties the stack. */
  lemma AcceptAtBase(T: Tables, C: Cert, stack: seq<Entry>, r: nat)
    requires Certified(T, C) && WellFormed(T, C, stack) && ReduceDue(T, C, stack, r)
    requires CanReduce(T, stack, r)
    requires YY_MAX_SHIFTREDUCE < GotoAction(T, Uncovered(T, stack, r).stateno, T.rules[r].lhs)
    ensures GotoAction(T, Uncovered(T, stack, r).stateno, T.rules[r].lhs) == YY_ACCEPT_ACTION
    ensures T.rules[r].lhs == START && |stack| == 1 + |T.rules[r].rhs| && T.rules[r].rhs != []
  {
    DueCanReduce(T, C, stack, r);
    var s := Uncovered(T, stack, r).stateno;
    assert RuleOk(T, C, r);
    EntryHit(T, C, T.reduceOfst[s], T.rules[r].lhs);
    assert StateOk(T, C, s);
  }

  /** The goto taken by a due reduce is a certified move. */
  lemma GotoMove(T: Tables, C: Cert, s: nat, a: nat)
    requires Certified(T, C) && s < YYNSTATE && FIRST_NONTERMINAL <= a && GotoDefined(T, s, a)
    requires GotoAction(T, s, a) <= YY_MAX_SHIFTREDUCE
    ensures var t := StoredState(GotoAction(T, s, a));
      && StateCode(t) && t != 0
      && RowOk(T, C, true, T.reduceOfst[s], s)
      && TransitionOk(T, C, true, T.reduceOfst[s], a, t)
      && (Pseudo(t) ==> PendingOk(T, t - YY_MIN_REDUCE))
  {
    EntryHit(T, C, T.reduceOfst[s], a);
    assert StateOk(T, C, s);
  }

  /** The value a due reduce builds agrees with its rule. */
  lemma ReducedTree(T: Tables, C: Cert, stack: seq<Entry>, r: nat)
    requires Sized(T) && WellFormed(T, C, stack) && ReduceDue(T, C, stack, r)
    requires FIRST_NONTERMINAL <= T.rules[r].lhs
    ensures CanReduce(T, stack, r)
    ensures TreeOk(T, C, Node(r, Minors(stack[|stack| - |T.rules[r].rhs|..])))
  {
    DueCanReduce(T, C, stack, r);
    var n := |stack| - |T.rules[r].rhs|;
    var kids := Minors(stack[n..]);
    assert forall k :: 0 <= k < |kids| ==> kids[k] == stack[n + k].minor;
  }

  /** Replacing a right-hand side by its left-hand side keeps the invariant. */
  lemma GotoKeeps(T: Tables, C: Cert, rest: seq<Entry>, lhs: nat, value: Tree)
    requires Certified(T, C) && WellFormed(T, C, rest)
    requires rest[|rest| - 1].stateno < YYNSTATE && FIRST_NONTERMINAL <= lhs
    requires GotoDefined(T, rest[|rest| - 1].stateno, lhs)
    requires GotoAction(T, rest[|rest| - 1].stateno, lhs) <= YY_MAX_SHIFTREDUCE
    requires TreeOk(T, C, value) && Root(T, value) == lhs
    ensures WellFormed(T, C, rest + [Entry(StoredState(GotoAction(T, rest[|rest| - 1].stateno, lhs)), lhs, value)])
  {
    var s := rest[|rest| - 1].stateno;
    GotoMove(T, C, s, lhs);
    PushKeeps(T, C, rest, true, T.reduceOfst[s], lhs, Entry(StoredState(GotoAction(T, s, lhs)), lhs, value));
  }

  /** A due reduce with room for it leaves a well-formed stack. */
  lemma ReplacedKeeps(T: Tables, C: Cert, c: Config, r: nat)
    requires Certified(T, C) && WellFormed(T, C, c.stack) && ReduceDue(T, C, c.stack, r)
    ensures CanReduce(T, c.stack, r) && WellFormed(T, C, Replaced(T, c, r).stack)
  {
    RuleFacts(T, C, r);
    assert FIRST_NONTERMINAL <= T.rules[r].lhs;
    hide Certified, Sized, WellFormed, ReduceDue, GotoDefined, RuleOk, TreeOk, Minors;
    var stack := c.stack;
    var n := |T.rules[r].rhs|;
    DueCanReduce(T, C, stack, r);
    PrefixKeeps(T, C, stack, |stack| - n);
    if GotoAction(T, Uncovered(T, stack, r).stateno, T.rules[r].lhs) <= YY_MAX_SHIFTREDUCE {
      ReducedTree(T, C, stack, r);
      GotoKeeps(T, C, stack[..|stack| - n], T.rules[r].lhs, Node(r, Minors(stack[|stack| - n..])));
    }
  }

  /** Every due reduce keeps the invariant. */
  lemma ReduceKeeps(T: Tables, C: Cert, c: Config, r: nat)
    requires Certified(T, C) && Inv(T, C, c.stack) && ReduceDue(T, C, c.stack, r)
    ensures CanReduce(T, c.stack, r)
    ensures Inv(T, C, Reduce(T, c, r).stack)
  {
    Height(T, C, c.stack);
    hide Certified, Sized, WellFormed, ReduceDue, CanReduce, Minors, DestroyAll;
    ReplacedKeeps(T, C, c, r);
    PrefixKeeps(T, C, c.stack, 1);
    ReplacedHeight(T, c, r);
  }

  lemma ReplacedHeight(T: Tables, c: Config, r: nat)
    requires Sized(T) && CanReduce(T, c.stack, r)
    ensures |Replaced(T, c, r).stack| <= |c.stack| + 1 - |T.rules[r].rhs|
  {
    hide GotoDefined, Minors;
  }

  /** A certified shift with room for it leaves a well-formed stack. */
  lemma PushedKeeps(T: Tables, C: Cert, c: Config, tok: Token)
    requires Certified(T, C) && WellFormed(T, C, c.stack) && Top(c).stateno < YYNSTATE && tok.major < FIRST_NONTERMINAL
    requires ShiftAction(T, Top(c).stateno, tok.major) <= YY_MAX_SHIFTREDUCE
    ensures WellFormed(T, C, Pushed(c, ShiftAction(T, Top(c).stateno, tok.major), tok).stack)
  {
    var s := Top(c).stateno;
    var act := ShiftAction(T, s, tok.major);
    var z := ActionCases(T, C, s, tok.major);
    assert StateOk(T, C, s);
    PushKeeps(T, C, c.stack, false, T.shiftOfst[s], z, Entry(StoredState(act), tok.major, Leaf(tok)));
  }

  /** A certified shift keeps the invariant. */
  lemma ShiftKeeps(T: Tables, C: Cert, c: Config, tok: Token)
    requires Certified(T, C) && Inv(T, C, c.stack) && Top(c).stateno < YYNSTATE && tok.major < FIRST_NONTERMINAL
    requires ShiftAction(T, Top(c).stateno, tok.major) <= YY_MAX_SHIFTREDUCE
    ensures Inv(T, C, Shift(c, ShiftAction(T, Top(c).stateno, tok.major), tok).stack)
  {
    Height(T, C, c.stack);
    hide Certified, Sized, WellFormed, ShiftAction;
    if |c.stack| == YYSTACKDEPTH {
      PrefixKeeps(T, C, c.stack, 1);
    } else {
      PushedKeeps(T, C, c, tok);
    }
  }

  /** What the next action on a token can be, however high the stack. */
  lemma NextMove(T: Tables, C: Cert, c: Config, tok: Token)
    requires Certified(T, C) && WellFormed(T, C, c.stack) && tok.major < FIRST_NONTERMINAL
    ensures Top(c).stateno < YYNSTATE || YY_MIN_REDUCE <= Top(c).stateno
    ensures var act := ShiftAction(T, Top(c).stateno, tok.major);
      && (act <= YY_MAX_SHIFTREDUCE ==> Top(c).stateno < YYNSTATE)
      && (YY_MAX_SHIFTREDUCE < act <= YY_MAX_REDUCE ==>
            YY_MIN_REDUCE <= act && ReduceDue(T, C, c.stack, act - YY_MIN_REDUCE))
      && (YY_MAX_REDUCE < act ==> act == YY_ERROR_ACTION)
  {
    assert Known(T, C, c.stack, |c.stack| - 1);
    var s := Top(c).stateno;
    if s < YYNSTATE {
      var _ := ActionCases(T, C, s, tok.major);
    }
  }

  /** The same for the stack of fixed depth. */
  lemma NextAction(T: Tables, C: Cert, c: Config, tok: Token)
    requires Certified(T, C) && Inv(T, C, c.stack) && tok.major < FIRST_NONTERMINAL
    ensures Top(c).stateno < YYNSTATE || YY_MIN_REDUCE <= Top(c).stateno
    ensures var act := ShiftAction(T, Top(c).stateno, tok.major);
      && (act <= YY_MAX_SHIFTREDUCE ==> Inv(T, C, Shift(c, act, tok).stack))
      && (YY_MAX_SHIFTREDUCE < act <= YY_MAX_REDUCE ==>
            YY_MIN_REDUCE <= act && ReduceDue(T, C, c.stack, act - YY_MIN_REDUCE))
      && (YY_MAX_REDUCE < act ==> act == YY_ERROR_ACTION)
  {
    Height(T, C, c.stack);
    hide Certified, Sized, Inv, WellFormed, ShiftAction, Shift, ReduceDue;
    NextMove(T, C, c, tok);
    if ShiftAction(T, Top(c).stateno, tok.major) <= YY_MAX_SHIFTREDUCE {
      ShiftKeeps(T, C, c, tok);
    }
  }

  // ---------------------------------------------------------------------------------------------
  // The three things a due reduce can do

  /** The stack was full and the rule empty: the top value is dropped, the others destroyed. */
  ghost predicate OverflowStep(c: Config, c': Config) {
    && |c.stack| == YYSTACKDEPTH
    && c' == Config(c.stack[..1],
               c.log + [Leaked(Top(c).minor)] + DestroyAll(c.stack[1..|c.stack| - 1]) + [Overflowed])
  }

  /** The top n entries are replaced by one whose value is built from theirs. */
  ghost predicate GotoStep(c: Config, n: nat, e: Entry, c': Config) {
    && n < |c.stack|
    && e.minor.Node?
    && e.minor.kids == Minors(c.stack[|c.stack| - n..])
    && c' == Config(c.stack[..|c.stack| - n] + [e], c.log + [Reduced(e.minor.rule, e.minor.kids)])
  }

  /** The whole stack becomes a value of the start symbol, which is accepted. */
  ghost predicate AcceptStep(T: Tables, C: Cert, c: Config, v: Tree, c': Config) {
    && c.stack != []
    && v.Node?
    && v.kids == Minors(c.stack[1..])
    && v.kids != []
    && TreeOk(T, C, v) && Root(T, v) == START
    && c' == Config(c.stack[..1], c.log + [Reduced(v.rule, v.kids), Accepted(v)])
  }

  ghost predicate ReduceStep(T: Tables, C: Cert, c: Config, r: nat, c': Config)
    requires Sized(T)
  {
    && r < YYNRULE
    && |T.rules[r].rhs| <= |c.stack|
    && (|| (T.rules[r].rhs == [] && OverflowStep(c, c'))
        || (c'.stack != [] && GotoStep(c, |T.rules[r].rhs|, Top(c'), c')
              && Top(c').minor.rule == r && Top(c').major == T.rules[r].lhs
              && (T.rules[r].rhs == [] ==> |c.stack| < YYSTACKDEPTH))
        || AcceptStep(T, C, c, Node(r, Minors(c.stack[|c.stack| - |T.rules[r].rhs|..])), c'))
  }

  lemma ReduceCases(T: Tables, C: Cert, c: Config, r: nat)
    requires Certified(T, C) && Inv(T, C, c.stack) && ReduceDue(T, C, c.stack, r)
    ensures CanReduce(T, c.stack, r) && ReduceStep(T, C, c, r, Reduce(T, c, r))
  {
    var stack, n := c.stack, |T.rules[r].rhs|;
    assert RuleOk(T, C, r);
    DueCanReduce(T, C, stack, r);
    if n == 0 && YYSTACKDEPTH <= |stack| {
      assert OverflowStep(c, Reduce(T, c, r));
    } else if GotoAction(T, Uncovered(T, stack, r).stateno, T.rules[r].lhs) <= YY_MAX_SHIFTREDUCE {
      assert GotoStep(c, n, Top(Reduce(T, c, r)), Reduce(T, c, r));
    } else {
      AcceptAtBase(T, C, stack, r);
      ReducedTree(T, C, stack, r);
      assert stack[..|stack| - n] == stack[..1];
    }
  }
}
