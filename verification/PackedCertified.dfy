/** Checked functions make certified tables. */
module PackedCertified {
  import opened Lemon
  import opened Certificate
  import opened Packed

  /** T holds, entry by entry, the values of P's functions. */
  ghost predicate Holds(T: Tables, P: Automaton) {
    && |T.action| == |T.lookahead| == YY_ACTTAB_COUNT
    && |T.shiftOfst| == |T.dflt| == YYNSTATE
    && |T.reduceOfst| == YY_REDUCE_COUNT + 1
    && |T.fallback| == FALLBACK_COUNT
    && |T.rules| == YYNRULE
    && T.classes == P.classes
    && (forall i :: 0 <= i < YY_ACTTAB_COUNT ==>
          T.action[i] == Nat(P.action(i)) && T.lookahead[i] == Nat(P.lookahead(i)))
    && (forall s :: 0 <= s < YYNSTATE ==> T.shiftOfst[s] == P.shiftOfst(s) && T.dflt[s] == Nat(P.dflt(s)))
    && (forall s :: 0 <= s <= YY_REDUCE_COUNT ==> T.reduceOfst[s] == P.reduceOfst(s))
    && (forall x :: 0 <= x < FALLBACK_COUNT ==> T.fallback[x] == Nat(P.fallback(x)))
    && (forall r :: 0 <= r < YYNRULE ==> T.rules[r] == RuleAt(P, r))
  }

  lemma TablesHold(P: Automaton)
    ensures Holds(TablesOf(P), P)
  {}

  lemma IsSized(T: Tables, P: Automaton)
    requires Holds(T, P) && FallbacksSettle(P.fallback) && OffsetsInRange(P.shiftOfst, P.reduceOfst)
    ensures Sized(T)
  {
    forall x: nat | x < FALLBACK_COUNT ensures FallbackSettles(T.fallback, x) {
      assert T.fallback[x] == P.fallback(x);
    }
    assert T.fallback[0] == P.fallback(0);
  }

  ghost predicate RulesBehind(P: Automaton) {
    forall r :: 0 <= r < YYNRULE ==> RuleIsBehind(P, r)
  }

  lemma AllRulesBehind(P: Automaton)
    requires SlotsInRules(P.slot, P.length)
    ensures RulesBehind(P)
  {
    forall r | 0 <= r < YYNRULE ensures RuleIsBehind(P, r) {
      RuleBehind(P, r);
    }
  }

  /** The state code that action `act` leads to. */
  function Target(act: int): nat {
    if act <= YY_MAX_SHIFT then Nat(act) else Nat(act - YY_MIN_SHIFTREDUCE + YY_MIN_REDUCE)
  }

  /** Action `act` moves to a real state, or to the pseudo-state of a rule that is not empty. */
  predicate Moves(P: Automaton, act: int) {
    || 0 <= act <= YY_MAX_SHIFT
    || (YY_MIN_SHIFTREDUCE <= act <= YY_MAX_SHIFTREDUCE && 0 < P.length(act - YY_MIN_SHIFTREDUCE))
  }

  /** What a pending rule vouches for. */
  ghost predicate PendingFacts(P: Automaton, act: int) {
    var r := act - YY_MIN_SHIFTREDUCE;
    && Behind(P.slot, P.item(act)) == RuleAt(P, r).rhs
    && |RuleAt(P, r).rhs| == P.length(r)
    && P.mainKey(act) == 256 * P.length(r) + P.lhs(r)
    && 0 <= P.lhs(r) < YYNOCODE
  }

  lemma PendingIs(P: Automaton, act: int)
    requires Moves(P, act) && YY_MAX_SHIFT < act
    requires PendingKnown(P.item, P.mainKey, P.length, P.lhs) && RulesBehind(P)
    requires RulesShaped(P.length, P.lhs)
    ensures PendingFacts(P, act)
  {
    var r := act - YY_MIN_SHIFTREDUCE;
    assert act == r + YY_MIN_SHIFTREDUCE;
    assert RuleIsBehind(P, r);
  }

  lemma PastIs(T: Tables, P: Automaton, act: int)
    requires Sized(T) && Holds(T, P) && Moves(P, act) && (YY_MAX_SHIFT < act ==> PendingFacts(P, act))
    ensures StatePast(T, CertOf(P), Target(act)) == Behind(P.slot, P.item(act))
  {}

  lemma NeedIs(T: Tables, P: Automaton, act: int, d: nat, a: nat)
    requires Sized(T) && Holds(T, P) && Moves(P, act) && (YY_MAX_SHIFT < act ==> PendingFacts(P, act))
    requires StateNeed(T, CertOf(P), Target(act), d, a)
    ensures 1 <= d && a < 256 && HasKey(P, act, 256 * d + a)
  {
    if YY_MAX_SHIFT < act {
      PendingNeed(T, P, act, d, a);
    } else {
      hide Holds, Sized;
    }
  }

  lemma PendingNeed(T: Tables, P: Automaton, act: int, d: nat, a: nat)
    requires Sized(T) && Holds(T, P) && Moves(P, act) && YY_MAX_SHIFT < act && PendingFacts(P, act)
    requires StateNeed(T, CertOf(P), Target(act), d, a)
    ensures 1 <= d && a < 256 && HasKey(P, act, 256 * d + a)
  {
    hide CertOf, Behind, Slots;
    var r := act - YY_MIN_SHIFTREDUCE;
    RuleHeld(T, P, r);
    assert 256 * d + a == 256 * P.length(r) + P.lhs(r);
  }

  /** What the checks on positions come to: the suffix relation is about the slots behind. */
  ghost predicate SuffixSound(P: Automaton) {
    forall a, b :: P.suffix(a, b) && Valid(P.slot, a) ==> SuffixOf(Behind(P.slot, a), Behind(P.slot, b))
  }

  lemma SuffixIsSound(P: Automaton)
    requires PositionsChecked(P)
    ensures SuffixSound(P)
  {
    forall a, b | P.suffix(a, b) && Valid(P.slot, a) ensures SuffixOf(Behind(P.slot, a), Behind(P.slot, b)) {
      SuffixHolds(P.slot, P.length, P.pair, P.suffix, a, b);
    }
  }

  /** The past half of what an entry that moves to `act` is checked for: the entry's symbol fills the
      last slot behind the position of `act`, and its row vouches for the other slots. */
  ghost predicate EntryPast(P: Automaton, nonterminal: bool, ofst: int, z: int, act: int) {
    var past := Behind(P.slot, P.item(act));
    && past != []
    && P.covers(past[|past| - 1], z)
    && SuffixOf(past[..|past| - 1], Behind(P.slot, RowItem(P, nonterminal, ofst)))
  }

  /** The same in terms of positions, as it is checked. */
  predicate EntryTop(P: Automaton, nonterminal: bool, ofst: int, z: int, act: int) {
    && P.slot(P.item(act)) != 0 && P.covers(P.slot(P.item(act)), z)
    && P.suffix(P.item(act) - 1, RowItem(P, nonterminal, ofst))
  }

  lemma PastReaches(P: Automaton, nonterminal: bool, ofst: int, z: int, act: int)
    requires SlotsInRules(P.slot, P.length) && SuffixSound(P)
    requires EntryTop(P, nonterminal, ofst, z, act)
    ensures EntryPast(P, nonterminal, ofst, z, act)
  {
    var n, q := P.item(act), RowItem(P, nonterminal, ofst);
    OneBack(P.slot, P.length, n);
    assert SuffixOf(Behind(P.slot, n - 1), Behind(P.slot, q));
    BehindGrows(P.slot, n);
    var past := Behind(P.slot, n);
    assert past[..|past| - 1] == Behind(P.slot, n - 1);
    assert past[|past| - 1] == P.slot(n);
  }

  lemma EntryTopKnown(P: Automaton, i: int, nonterminal: bool)
    requires RowsChecked(P) && 0 <= i < YY_ACTTAB_COUNT && P.action(i) < YY_MIN_REDUCE
    requires nonterminal <==> FIRST_NONTERMINAL <= P.lookahead(i)
    ensures EntryTop(P, nonterminal, i - P.lookahead(i), P.lookahead(i), P.action(i))
  {}

  /** The other half: the row vouches, one entry closer, for every goto that `act` needs. */
  ghost predicate EntryNeeds(P: Automaton, nonterminal: bool, ofst: int, act: int) {
    forall k :: HasKey(P, act, k) ==> RowKey(P, nonterminal, ofst, k - 256)
  }

  lemma EntryNeedsKnown(P: Automaton, i: int, nonterminal: bool)
    requires RowsChecked(P) && 0 <= i < YY_ACTTAB_COUNT && P.action(i) < YY_MIN_REDUCE
    requires nonterminal <==> FIRST_NONTERMINAL <= P.lookahead(i)
    ensures EntryNeeds(P, nonterminal, i - P.lookahead(i), P.action(i))
  {}

  lemma PastStep(T: Tables, P: Automaton, nonterminal: bool, ofst: int, z: nat, act: int)
    requires Sized(T) && Holds(T, P) && Moves(P, act) && (YY_MAX_SHIFT < act ==> PendingFacts(P, act))
    requires EntryPast(P, nonterminal, ofst, z, act)
    ensures var past := StatePast(T, CertOf(P), Target(act));
            && past != [] && CertOf(P).covers(past[|past| - 1], z)
            && SuffixOf(past[..|past| - 1], CertOf(P).rowPast(nonterminal, ofst))
  {
    PastIs(T, P, act);
  }

  lemma NeedStep(T: Tables, P: Automaton, nonterminal: bool, ofst: int, act: int)
    requires Sized(T) && Holds(T, P) && Moves(P, act) && (YY_MAX_SHIFT < act ==> PendingFacts(P, act))
    requires EntryNeeds(P, nonterminal, ofst, act)
    ensures forall d: nat, a: nat :: StateNeed(T, CertOf(P), Target(act), d, a) ==>
              1 <= d && CertOf(P).rowNeed(nonterminal, ofst, d - 1, a)
  {
    forall d: nat, a: nat | StateNeed(T, CertOf(P), Target(act), d, a)
      ensures 1 <= d && CertOf(P).rowNeed(nonterminal, ofst, d - 1, a)
    {
      NeedIs(T, P, act, d, a);
      assert RowKey(P, nonterminal, ofst, (256 * d + a) - 256);
      assert (256 * d + a) - 256 == 256 * (d - 1) + a;
    }
  }

  lemma MoveFrom(T: Tables, P: Automaton, nonterminal: bool, ofst: int, z: nat, act: int)
    requires Sized(T) && Holds(T, P) && Moves(P, act) && (YY_MAX_SHIFT < act ==> PendingFacts(P, act))
    requires EntryPast(P, nonterminal, ofst, z, act) && EntryNeeds(P, nonterminal, ofst, act)
    ensures TransitionOk(T, CertOf(P), nonterminal, ofst, z, Target(act))
  {
    PastStep(T, P, nonterminal, ofst, z, act);
    NeedStep(T, P, nonterminal, ofst, act);
  }

  /** Entry i moves, out of a row for nonterminals or not. */
  predicate MovesAt(P: Automaton, i: int, nonterminal: bool) {
    && 0 <= i < YY_ACTTAB_COUNT && P.action(i) < YY_MIN_REDUCE
    && (nonterminal <==> FIRST_NONTERMINAL <= P.lookahead(i))
  }

  ghost predicate AllTops(P: Automaton) {
    forall i, n :: MovesAt(P, i, n) ==> EntryTop(P, n, i - P.lookahead(i), P.lookahead(i), P.action(i))
  }

  ghost predicate AllPasts(P: Automaton) {
    forall i, n :: MovesAt(P, i, n) ==> EntryPast(P, n, i - P.lookahead(i), P.lookahead(i), P.action(i))
  }

  ghost predicate AllNeeds(P: Automaton) {
    forall i, n :: MovesAt(P, i, n) ==> EntryNeeds(P, n, i - P.lookahead(i), P.action(i))
  }

  ghost predicate AllPending(P: Automaton) {
    forall act :: Moves(P, act) && YY_MAX_SHIFT < act ==> PendingFacts(P, act)
  }

  lemma Tops(P: Automaton)
    requires RowsChecked(P)
    ensures AllTops(P)
  {
    forall i, n | MovesAt(P, i, n) ensures EntryTop(P, n, i - P.lookahead(i), P.lookahead(i), P.action(i)) {
      EntryTopKnown(P, i, n);
    }
  }

  lemma Pasts(P: Automaton)
    requires AllTops(P) && SlotsInRules(P.slot, P.length) && SuffixSound(P)
    ensures AllPasts(P)
  {
    hide EntryTop, EntryPast, SlotsInRules, SuffixSound;
    forall i, n | MovesAt(P, i, n) ensures EntryPast(P, n, i - P.lookahead(i), P.lookahead(i), P.action(i)) {
      PastReaches(P, n, i - P.lookahead(i), P.lookahead(i), P.action(i));
    }
  }

  lemma Needs(P: Automaton)
    requires RowsChecked(P)
    ensures AllNeeds(P)
  {
    forall i, n | MovesAt(P, i, n) ensures EntryNeeds(P, n, i - P.lookahead(i), P.action(i)) {
      EntryNeedsKnown(P, i, n);
    }
  }

  lemma Pendings(P: Automaton)
    requires PendingKnown(P.item, P.mainKey, P.length, P.lhs) && RulesBehind(P) && RulesShaped(P.length, P.lhs)
    ensures AllPending(P)
  {
    forall act | Moves(P, act) && YY_MAX_SHIFT < act ensures PendingFacts(P, act) {
      PendingIs(P, act);
    }
  }

  /** The reduces in the table. */
  ghost predicate ReduceFacts(P: Automaton, i: int) {
    var r, o := P.action(i) - YY_MIN_REDUCE, i - P.lookahead(i);
    && P.lookahead(i) < FIRST_NONTERMINAL
    && SuffixOf(RuleAt(P, r).rhs, Behind(P.slot, P.shiftItem(o)))
    && |RuleAt(P, r).rhs| == P.length(r)
    && P.shiftKey(o, 256 * P.length(r) + P.lhs(r))
    && 0 <= P.lhs(r) < YYNOCODE
  }

  ghost predicate AllReduces(P: Automaton) {
    forall i :: 0 <= i < YY_ACTTAB_COUNT && YY_MIN_REDUCE <= P.action(i) <= YY_MAX_REDUCE ==> ReduceFacts(P, i)
  }

  lemma ReduceIs(P: Automaton, i: int)
    requires ReducesKnown(P.action, P.lookahead, P.length, P.lhs, P.shiftItem, P.shiftKey, P.suffix)
    requires RulesBehind(P) && SuffixSound(P) && RulesShaped(P.length, P.lhs)
    requires 0 <= i < YY_ACTTAB_COUNT && YY_MIN_REDUCE <= P.action(i) <= YY_MAX_REDUCE
    ensures ReduceFacts(P, i)
  {
    assert RuleIsBehind(P, P.action(i) - YY_MIN_REDUCE);
  }

  lemma Reduces(P: Automaton)
    requires ReducesKnown(P.action, P.lookahead, P.length, P.lhs, P.shiftItem, P.shiftKey, P.suffix)
    requires RulesBehind(P) && SuffixSound(P) && RulesShaped(P.length, P.lhs)
    ensures AllReduces(P)
  {
    forall i | 0 <= i < YY_ACTTAB_COUNT && YY_MIN_REDUCE <= P.action(i) <= YY_MAX_REDUCE ensures ReduceFacts(P, i) {
      ReduceIs(P, i);
    }
  }

  lemma MoveEntryOk(T: Tables, P: Automaton, i: nat)
    requires Sized(T) && Holds(T, P) && AllPasts(P) && AllNeeds(P) && AllPending(P)
    requires i < YY_ACTTAB_COUNT && 0 <= P.lookahead(i) && Moves(P, P.action(i))
    ensures TransitionOk(T, CertOf(P), FIRST_NONTERMINAL <= P.lookahead(i), i - P.lookahead(i), P.lookahead(i),
        Target(P.action(i)))
  {
    var n := FIRST_NONTERMINAL <= P.lookahead(i);
    assert MovesAt(P, i, n);
    MoveFrom(T, P, n, i - P.lookahead(i), P.lookahead(i), P.action(i));
  }

  lemma RuleHeld(T: Tables, P: Automaton, r: nat)
    requires Holds(T, P) && r < YYNRULE
    ensures r < |T.rules| && T.rules[r] == RuleAt(P, r)
  {
    hide RuleAt;
  }

  lemma ShiftRowOf(P: Automaton, ofst: int, d: nat, a: nat)
    ensures CertOf(P).rowPast(false, ofst) == Behind(P.slot, P.shiftItem(ofst))
    ensures CertOf(P).rowNeed(false, ofst, d, a) <==> a < 256 && P.shiftKey(ofst, 256 * d + a)
  {
    hide Behind;
    assert RowItem(P, false, ofst) == P.shiftItem(ofst);
    assert RowKey(P, false, ofst, 256 * d + a) == P.shiftKey(ofst, 256 * d + a);
  }

  /** A reduce in the table passes the check on its entry. */
  lemma ReduceEntry(T: Tables, P: Automaton, i: nat, z: nat, act: nat)
    requires Sized(T) && Holds(T, P) && i < YY_ACTTAB_COUNT && P.lookahead(i) == z && P.action(i) == act
    requires YY_MIN_REDUCE <= act <= YY_MAX_REDUCE && ReduceFacts(P, i)
    ensures var rule := T.rules[act - YY_MIN_REDUCE];
      && z < FIRST_NONTERMINAL
      && SuffixOf(rule.rhs, CertOf(P).rowPast(false, i - z))
      && CertOf(P).rowNeed(false, i - z, |rule.rhs|, rule.lhs)
  {
    hide SuffixOf, Behind, Slots, CertOf, Holds, Sized;
    var r := act - YY_MIN_REDUCE;
    RuleHeld(T, P, r);
    ShiftRowOf(P, i - z, |RuleAt(P, r).rhs|, RuleAt(P, r).lhs);
  }

  /** A pending rule is neither empty nor the start rule. */
  lemma PendingEntry(T: Tables, P: Automaton, i: nat, act: nat)
    requires Sized(T) && Holds(T, P) && i < YY_ACTTAB_COUNT && P.action(i) == act
    requires ActionKnown(P.action, P.lookahead, P.reduceOfst, P.length, P.lhs, i)
    requires YY_MIN_SHIFTREDUCE <= act <= YY_MAX_SHIFTREDUCE && PendingFacts(P, act)
    ensures PendingOk(T, act - YY_MIN_SHIFTREDUCE)
  {
    hide Behind, Slots;
    var r := act - YY_MIN_SHIFTREDUCE;
    assert T.rules[r] == RuleAt(P, r);
  }

  lemma EntryFrom(T: Tables, P: Automaton, i: nat)
    requires Sized(T) && Holds(T, P) && i < YY_ACTTAB_COUNT
    requires ActionKnown(P.action, P.lookahead, P.reduceOfst, P.length, P.lhs, i)
    requires Moves(P, P.action(i)) ==>
      TransitionOk(T, CertOf(P), FIRST_NONTERMINAL <= P.lookahead(i), i - P.lookahead(i), P.lookahead(i),
          Target(P.action(i)))
    requires Moves(P, P.action(i)) && YY_MAX_SHIFT < P.action(i) ==> PendingFacts(P, P.action(i))
    requires YY_MIN_REDUCE <= P.action(i) <= YY_MAX_REDUCE ==> ReduceFacts(P, i)
    ensures EntryOk(T, CertOf(P), i)
  {
    hide TransitionOk, SuffixOf, Behind, PendingFacts, ReduceFacts, PendingOk, CertOf;
    assert T.action[i] == Nat(P.action(i)) && T.lookahead[i] == Nat(P.lookahead(i));
    assert 0 <= P.action(i) && 0 <= P.lookahead(i);
    var z: nat, act: nat := P.lookahead(i), P.action(i);
    if YY_MIN_SHIFTREDUCE <= act <= YY_MAX_SHIFTREDUCE {
      PendingEntry(T, P, i, act);
    } else if YY_MIN_REDUCE <= act <= YY_MAX_REDUCE {
      ReduceEntry(T, P, i, z, act);
    } else if act == YY_ACCEPT_ACTION {
      assert T.reduceOfst[0] == P.reduceOfst(0);
    }
  }

  lemma EntryIsOk(T: Tables, P: Automaton, i: nat)
    requires Sized(T) && Holds(T, P) && AllPasts(P) && AllNeeds(P) && AllPending(P) && AllReduces(P)
    requires ActionsKnown(P.action, P.lookahead, P.reduceOfst, P.length, P.lhs)
    requires i < YY_ACTTAB_COUNT
    ensures EntryOk(T, CertOf(P), i)
  {
    assert ActionKnown(P.action, P.lookahead, P.reduceOfst, P.length, P.lhs, i);
    if Moves(P, P.action(i)) {
      MoveEntryOk(T, P, i);
    }
    EntryFrom(T, P, i);
  }

  // ---------------------------------------------------------------------------------------------
  // States

  lemma GotoIs(T: Tables, P: Automaton, s: nat, a: nat)
    requires Sized(T) && Holds(T, P) && s < YYNSTATE && HasGoto(P.reduceOfst, P.lookahead, s, a)
    ensures GotoDefined(T, s, a)
  {}

  /** What a row vouches for, state s provides. */
  ghost predicate RowFacts(P: Automaton, nonterminal: bool, ofst: int, s: int) {
    && SuffixOf(Behind(P.slot, RowItem(P, nonterminal, ofst)), Behind(P.slot, P.item(s)))
    && forall k :: RowKey(P, nonterminal, ofst, k) ==>
         (k < 256 ==> HasGoto(P.reduceOfst, P.lookahead, s, k)) && (256 <= k ==> HasKey(P, s, k))
  }

  lemma RowFrom(T: Tables, P: Automaton, nonterminal: bool, ofst: int, s: nat)
    requires Sized(T) && Holds(T, P) && s < YYNSTATE && RowFacts(P, nonterminal, ofst, s)
    ensures RowOk(T, CertOf(P), nonterminal, ofst, s)
  {
    var C := CertOf(P);
    forall d: nat, a: nat | C.rowNeed(nonterminal, ofst, d, a)
      ensures if d == 0 then GotoDefined(T, s, a) else C.need(s, d, a)
    {
      assert RowKey(P, nonterminal, ofst, 256 * d + a);
      if d == 0 {
        GotoIs(T, P, s, a);
      }
    }
  }

  lemma ShiftRowFacts(P: Automaton, s: nat)
    requires StatesChecked(P) && RowItemsValid(P.slot, P.shiftItem) && SuffixSound(P) && s < YYNSTATE
    ensures RowFacts(P, false, P.shiftOfst(s), s)
  {}

  lemma GotoRowFacts(P: Automaton, s: nat)
    requires StatesChecked(P) && RowItemsValid(P.slot, P.gotoItem) && SuffixSound(P) && s <= YY_REDUCE_COUNT
    ensures RowFacts(P, true, P.reduceOfst(s), s)
  {}

  /** The default action of s. */
  ghost predicate DefaultFacts(P: Automaton, s: int) {
    var r := P.dflt(s) - YY_MIN_REDUCE;
    && 0 <= r < YYNRULE
    && SuffixOf(RuleAt(P, r).rhs, Behind(P.slot, P.item(s)))
    && |RuleAt(P, r).rhs| == P.length(r)
    && 0 <= P.lhs(r) < YYNOCODE
    && if P.length(r) == 0 then HasGoto(P.reduceOfst, P.lookahead, s, P.lhs(r))
       else HasKey(P, s, 256 * P.length(r) + P.lhs(r))
  }

  lemma DefaultIs(P: Automaton, s: nat)
    requires StatesChecked(P) && RulesBehind(P) && SuffixSound(P) && RulesShaped(P.length, P.lhs)
    requires s < YYNSTATE && P.dflt(s) != YY_ERROR_ACTION
    ensures DefaultFacts(P, s)
  {
    var r := P.dflt(s) - YY_MIN_REDUCE;
    hide SuffixOf, Behind, Slots, HasGoto, HasKey, Valid;
    DefaultHeld(P, s, r);
    assert RuleIsBehind(P, r);
  }

  lemma DefaultHeld(P: Automaton, s: nat, r: int)
    requires StatesChecked(P) && s < YYNSTATE && P.dflt(s) != YY_ERROR_ACTION && r == P.dflt(s) - YY_MIN_REDUCE
    ensures 0 <= r < YYNRULE && P.suffix(16 * r + P.length(r), P.item(s))
    ensures P.length(r) == 0 ==> HasGoto(P.reduceOfst, P.lookahead, s, P.lhs(r))
    ensures 0 < P.length(r) ==> HasKey(P, s, 256 * P.length(r) + P.lhs(r))
  {
    hide HasGoto;
  }

  lemma DefaultFrom(T: Tables, P: Automaton, s: nat)
    requires Sized(T) && Holds(T, P) && s < YYNSTATE && DefaultFacts(P, s)
    ensures YY_MIN_REDUCE <= T.dflt[s] <= YY_MAX_REDUCE && ReduceOk(T, CertOf(P), s, T.dflt[s] - YY_MIN_REDUCE)
  {}

  ghost predicate StateFacts(P: Automaton, s: int) {
    && RowFacts(P, false, P.shiftOfst(s), s)
    && (s <= YY_REDUCE_COUNT ==> RowFacts(P, true, P.reduceOfst(s), s))
    && (P.dflt(s) != YY_ERROR_ACTION ==> DefaultFacts(P, s))
  }

  lemma AllStates(P: Automaton)
    requires StatesChecked(P) && PositionsChecked(P) && RulesShaped(P.length, P.lhs)
    ensures forall s :: 0 <= s < YYNSTATE ==> StateFacts(P, s)
  {
    SuffixIsSound(P);
    AllRulesBehind(P);
    forall s | 0 <= s < YYNSTATE ensures StateFacts(P, s) {
      ShiftRowFacts(P, s);
      if s <= YY_REDUCE_COUNT {
        GotoRowFacts(P, s);
      }
      if P.dflt(s) != YY_ERROR_ACTION {
        DefaultIs(P, s);
      }
    }
  }

  lemma StateFrom(T: Tables, P: Automaton, s: nat)
    requires Sized(T) && Holds(T, P) && s < YYNSTATE && StateFacts(P, s)
    requires 0 < s <= YY_REDUCE_COUNT ==> P.reduceOfst(s) != P.reduceOfst(0)
    ensures StateOk(T, CertOf(P), s)
  {
    RowFrom(T, P, false, P.shiftOfst(s), s);
    if s <= YY_REDUCE_COUNT {
      RowFrom(T, P, true, P.reduceOfst(s), s);
    }
    if P.dflt(s) != YY_ERROR_ACTION {
      DefaultFrom(T, P, s);
    }
  }

  // ---------------------------------------------------------------------------------------------
  // Weights, and everything together

  lemma {:induction false} WeightIs(C: Cert, slot: Fn, weight: Fn, c: int, l: nat)
    requires forall i :: 0 <= slot(i)
    requires forall x: nat :: C.weight(x) == weight(x)
    ensures SlotWeight(C, Slots(slot, c, l)) == RhsWeight(slot, weight, c, l)
  {
    if l != 0 {
      WeightIs(C, slot, weight, c, l - 1);
      var slots := Slots(slot, c, l);
      assert slots[..l - 1] == Slots(slot, c, l - 1);
      var i := c + (l - 1) + 1;
      assert slots[l - 1] == Nat(slot(i));
      assert i == c + l;
    }
  }

  lemma RuleIsOk(T: Tables, P: Automaton, r: nat)
    requires Sized(T) && Holds(T, P) && r < YYNRULE
    requires forall c :: 0 <= P.slot(c)
    requires RulesShaped(P.length, P.lhs) && 0 <= P.length(r) &&
        P.weight(P.lhs(r)) < RhsWeight(P.slot, P.weight, 16 * r, P.length(r))
    ensures RuleOk(T, CertOf(P), r)
  {
    WeightIs(CertOf(P), P.slot, P.weight, 16 * r, P.length(r));
    assert T.rules[r] == RuleAt(P, r);
  }

  lemma OneSlot(slot: Fn, c: int)
    requires 0 <= slot(c + 1)
    ensures Slots(slot, c, 1) == [slot(c + 1) as nat]
  {
    var one := Slots(slot, c, 1);
    assert one[0] == Nat(slot(c + 0 + 1));
    assert one == [one[0]];
  }

  lemma CoverIsOk(T: Tables, P: Automaton, c: nat, z: nat)
    requires Sized(T) && Holds(T, P)
    requires CoversKnown(P.covers, P.lhs, P.length, P.slot, P.weight, P.classes)
    ensures CoverOk(T, CertOf(P), c, z)
  {
    if u :| P.covers(c, z) && 0 <= u < YYNRULE && P.lhs(u) == c && P.length(u) == 1 && P.slot(16 * u + 1) == z {
      OneSlot(P.slot, 16 * u);
      assert T.rules[u] == RuleAt(P, u);
    }
  }

  lemma EntriesOk(T: Tables, P: Automaton)
    requires Sized(T) && Holds(T, P) && RowsChecked(P) && PositionsChecked(P) && RulesShaped(P.length, P.lhs)
    ensures forall i :: 0 <= i < YY_ACTTAB_COUNT ==> EntryOk(T, CertOf(P), i)
  {
    SuffixIsSound(P);
    AllRulesBehind(P);
    Tops(P);
    Pasts(P);
    Needs(P);
    Pendings(P);
    Reduces(P);
    forall i | 0 <= i < YY_ACTTAB_COUNT ensures EntryOk(T, CertOf(P), i) {
      EntryIsOk(T, P, i);
    }
  }

  lemma StatesOk(T: Tables, P: Automaton)
    requires Sized(T) && Holds(T, P) && StatesChecked(P) && PositionsChecked(P) && RulesShaped(P.length, P.lhs)
    ensures forall s :: 0 <= s < YYNSTATE ==> StateOk(T, CertOf(P), s)
  {
    AllStates(P);
    forall s | 0 <= s < YYNSTATE ensures StateOk(T, CertOf(P), s) {
      StateFrom(T, P, s);
    }
  }

  lemma FirstStateOk(P: Automaton)
    requires FirstStateBare(P.item, P.mainKey, P.extraKey)
    ensures InitialStateOk(CertOf(P))
  {}

  lemma WrittenOnce(slot: Fn, weight: Fn, c: int, l: int)
    requires 1 <= l <= 12
    ensures WrittenOutWeight(slot, weight, c, l) == WrittenOutWeight(slot, weight, c, l - 1) + weight(slot(c + l))
  {}

  lemma {:induction false} WrittenOut(slot: Fn, weight: Fn, c: int, l: int)
    requires 0 <= l <= 12
    ensures RhsWeight(slot, weight, c, l) == WrittenOutWeight(slot, weight, c, l)
    decreases l
  {
    if l != 0 {
      WrittenOut(slot, weight, c, l - 1);
      WrittenOnce(slot, weight, c, l);
    }
  }

  lemma RulesOk(T: Tables, P: Automaton)
    requires Sized(T) && Holds(T, P) && SlotsInRules(P.slot, P.length)
    requires RulesShaped(P.length, P.lhs) && RulesLighten(P.slot, P.length, P.lhs, P.weight)
    ensures forall r :: 0 <= r < YYNRULE ==> RuleOk(T, CertOf(P), r)
  {
    forall r | 0 <= r < YYNRULE ensures RuleOk(T, CertOf(P), r) {
      assert 0 <= P.length(r) && P.weight(P.lhs(r)) < WrittenOutWeight(P.slot, P.weight, 16 * r, P.length(r));
      WrittenOut(P.slot, P.weight, 16 * r, P.length(r));
      RuleIsOk(T, P, r);
    }
  }

  lemma IsCertified(T: Tables, P: Automaton)
    requires Holds(T, P) && Checked(P)
    ensures Certified(T, CertOf(P))
  {
    IsSized(T, P);
    EntriesOk(T, P);
    StatesOk(T, P);
    FirstStateOk(P);
    RulesOk(T, P);
    forall c: nat, z: nat ensures CoverOk(T, CertOf(P), c, z) {
      CoverIsOk(T, P, c, z);
    }
  }

  lemma CheckedCertified(P: Automaton)
    requires Checked(P)
    ensures Certified(TablesOf(P), CertOf(P))
  {
    TablesHold(P);
    IsCertified(TablesOf(P), P);
  }
}
