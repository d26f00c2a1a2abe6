/** What has to be known about each automaton state for the machine to be safe, and the local checks
    that establish it.

    A certificate names, for every state, its `past`: the slots that the symbols on top of the stack
    fill whenever that state is on top, the topmost last.  It also lists the gotos that must exist in
    the states below: `need(s, d, a)` says that the state d entries below s has a goto on a.  Table
    rows (all states with the same offset share a row) carry the same information, as what every state
    using the row provides. */
module Certificate {
  import opened Lemon

  datatype Cert = Cert(
    past: nat -> seq<nat>,
    need: (nat, nat, nat) -> bool,
    rowPast: (bool, int) -> seq<nat>,
    rowNeed: (bool, int, nat, nat) -> bool,
    covers: (nat, nat) -> bool,
    weight: nat -> int,
    tokenWeight: nat,
    floor: nat)

  predicate SuffixOf(a: seq<nat>, b: seq<nat>) {
    |a| <= |b| && forall k :: 0 <= k < |a| ==> a[k] == b[|b| - |a| + k]
  }

  /** A real state, or the pseudo-state YY_MIN_REDUCE + r that stands for a pending reduce by r. */
  predicate StateCode(s: nat) {
    s < YYNSTATE || YY_MIN_REDUCE <= s <= YY_MAX_REDUCE
  }

  predicate Pseudo(s: nat) {
    YY_MIN_REDUCE <= s
  }

  function StatePast(T: Tables, C: Cert, s: nat): seq<nat>
    requires Sized(T) && StateCode(s)
  {
    if Pseudo(s) then T.rules[s - YY_MIN_REDUCE].rhs else C.past(s)
  }

  predicate StateNeed(T: Tables, C: Cert, s: nat, d: nat, a: nat)
    requires Sized(T) && StateCode(s)
  {
    if Pseudo(s) then d == |T.rules[s - YY_MIN_REDUCE].rhs| && a == T.rules[s - YY_MIN_REDUCE].lhs
    else C.need(s, d, a)
  }

  // ---------------------------------------------------------------------------------------------
  // The local checks

  /** Symbol z fills the last slot of the past of t, and the row provides the others. */
  predicate PastReached(T: Tables, C: Cert, nonterminal: bool, ofst: int, z: nat, t: nat)
    requires Sized(T) && StateCode(t)
  {
    var past := StatePast(T, C, t);
    && past != []
    && C.covers(past[|past| - 1], z)
    && SuffixOf(past[..|past| - 1], C.rowPast(nonterminal, ofst))
  }

  /** Moving on table symbol z out of a row into state t keeps what is known about t. */
  ghost predicate TransitionOk(T: Tables, C: Cert, nonterminal: bool, ofst: int, z: nat, t: nat)
    requires Sized(T) && StateCode(t)
  {
    && PastReached(T, C, nonterminal, ofst, z, t)
    && forall d: nat, a: nat :: StateNeed(T, C, t, d, a) ==> 1 <= d && C.rowNeed(nonterminal, ofst, d - 1, a)
  }

  /** The rule of a pseudo-state consumes at least one entry and is not the start rule. */
  predicate PendingOk(T: Tables, r: nat)
    requires Sized(T)
  {
    r < YYNRULE && T.rules[r].rhs != [] && T.rules[r].lhs != START
  }

  /** The check on slot i of the packed table. */
  ghost predicate EntryOk(T: Tables, C: Cert, i: nat)
    requires Sized(T) && i < YY_ACTTAB_COUNT
  {
    var z, act := T.lookahead[i], T.action[i];
    var nonterminal := FIRST_NONTERMINAL <= z;
    var ofst := i - z;
    if act <= YY_MAX_SHIFT then
      act != 0 && TransitionOk(T, C, nonterminal, ofst, z, act)
    else if YY_MIN_SHIFTREDUCE <= act <= YY_MAX_SHIFTREDUCE then
      && PendingOk(T, act - YY_MIN_SHIFTREDUCE)
      && TransitionOk(T, C, nonterminal, ofst, z, act - YY_MIN_SHIFTREDUCE + YY_MIN_REDUCE)
    else if YY_MIN_REDUCE <= act <= YY_MAX_REDUCE then
      var rule := T.rules[act - YY_MIN_REDUCE];
      && !nonterminal
      && SuffixOf(rule.rhs, C.rowPast(false, ofst))
      && C.rowNeed(false, ofst, |rule.rhs|, rule.lhs)
    else
      act == YY_ACCEPT_ACTION && z == START && ofst == T.reduceOfst[0]
  }

  /** A state provides whatever its row promises. */
  ghost predicate RowOk(T: Tables, C: Cert, nonterminal: bool, ofst: int, s: nat)
    requires Sized(T) && s < YYNSTATE
  {
    && SuffixOf(C.rowPast(nonterminal, ofst), C.past(s))
    && forall d: nat, a: nat :: C.rowNeed(nonterminal, ofst, d, a) ==>
         if d == 0 then GotoDefined(T, s, a) else C.need(s, d, a)
  }

  /** A reduce by r in real state s finds its right-hand side and, below it, its goto. */
  predicate ReduceOk(T: Tables, C: Cert, s: nat, r: nat)
    requires Sized(T) && s < YYNSTATE && r < YYNRULE
  {
    && SuffixOf(T.rules[r].rhs, C.past(s))
    && if T.rules[r].rhs == [] then GotoDefined(T, s, T.rules[r].lhs)
       else C.need(s, |T.rules[r].rhs|, T.rules[r].lhs)
  }

  ghost predicate StateOk(T: Tables, C: Cert, s: nat)
    requires Sized(T) && s < YYNSTATE
  {
    && RowOk(T, C, false, T.shiftOfst[s], s)
    && (s <= YY_REDUCE_COUNT ==> RowOk(T, C, true, T.reduceOfst[s], s))
    && (0 < s <= YY_REDUCE_COUNT ==> T.reduceOfst[s] != T.reduceOfst[0])
    && (T.dflt[s] != YY_ERROR_ACTION ==>
          YY_MIN_REDUCE <= T.dflt[s] <= YY_MAX_REDUCE && ReduceOk(T, C, s, T.dflt[s] - YY_MIN_REDUCE))
  }

  /** Nothing is known below the initial state. */
  ghost predicate InitialStateOk(C: Cert) {
    C.past(0) == [] && forall d: nat, a: nat :: !C.need(0, d, a)
  }

  /** Total weight of a right-hand side. */
  function SlotWeight(C: Cert, slots: seq<nat>): int {
    if slots == [] then 0 else SlotWeight(C, slots[..|slots| - 1]) + C.weight(slots[|slots| - 1])
  }

  /** A rule rewrites to a nonterminal and makes the stack strictly lighter. */
  predicate RuleOk(T: Tables, C: Cert, r: nat)
    requires Sized(T) && r < YYNRULE
  {
    && FIRST_NONTERMINAL <= T.rules[r].lhs < YYNOCODE
    && C.weight(T.rules[r].lhs) < SlotWeight(C, T.rules[r].rhs)
    && (T.rules[r].lhs == START ==> T.rules[r].rhs != [])
  }

  /** Symbol z may sit where a rule asks for `slot`: it is the slot's symbol, a token of its class, or
      the right-hand side of a unit rule for it.  (The generator removes some unit rules by sending
      their goto straight to where the reduced symbol would have gone.) */
  ghost predicate CoverOk(T: Tables, C: Cert, slot: nat, z: nat) {
    C.covers(slot, z) ==>
      && C.weight(slot) <= C.weight(z)
      && (|| slot == z
          || (z < FIRST_NONTERMINAL && SlotHas(T, slot, z))
          || exists u :: 0 <= u < |T.rules| && T.rules[u] == Rule(slot, [z]))
  }

  ghost predicate Certified(T: Tables, C: Cert) {
    && Sized(T)
    && (forall i :: 0 <= i < YY_ACTTAB_COUNT ==> EntryOk(T, C, i))
    && (forall s :: 0 <= s < YYNSTATE ==> StateOk(T, C, s))
    && InitialStateOk(C)
    && (forall r :: 0 <= r < YYNRULE ==> RuleOk(T, C, r))
    && (forall slot: nat, z: nat :: CoverOk(T, C, slot, z))
    && (forall x: nat :: 0 <= C.weight(x) + C.floor && (x < FIRST_NONTERMINAL ==> C.weight(x) == C.tokenWeight))
    && 0 <= C.weight(START)
  }
}
