/** Tables and certificate given as functions on integers, and what has to be checked about those
    functions, entry by entry, for the tables to be certified.

    A position 16 * r + d stands for rule r with d symbols of its right-hand side behind it; such a
    position also stands for the slots behind it, which is how pasts are written down.  A goto needed
    on symbol a in the state d entries down is written as the key 256 * d + a. */
module Packed {
  import opened Lemon
  import opened Certificate

  type Fn = int -> int
  type Rel = (int, int) -> bool

  datatype Automaton = Automaton(
    action: Fn, lookahead: Fn, shiftOfst: Fn, reduceOfst: Fn, dflt: Fn, fallback: Fn,
    lhs: Fn, length: Fn, slot: Fn, classes: seq<set<nat>>,
    item: Fn, mainKey: Fn, extraKey: Rel,
    shiftItem: Fn, gotoItem: Fn, shiftKey: Rel, gotoKey: Rel,
    pair: Rel, suffix: Rel, covers: Rel, weight: Fn, tokenWeight: nat, floor: nat)

  function Nat(x: int): nat {
    if x < 0 then 0 else x
  }

  function Nats(n: nat, f: Fn): (s: seq<nat>)
    ensures |s| == n && forall i :: 0 <= i < n ==> s[i] == Nat(f(i))
  {
    seq<nat>(n, i => Nat(f(i)))
  }

  /** The n slots from position c on. */
  function Slots(slot: Fn, c: int, n: nat): seq<nat> {
    seq<nat>(n, k => Nat(slot(c + k + 1)))
  }

  /** The slots behind a position. */
  function Behind(slot: Fn, c: int): seq<nat> {
    Slots(slot, c - c % 16, c % 16)
  }

  function RuleAt(P: Automaton, r: int): Rule {
    Rule(Nat(P.lhs(r)), Slots(P.slot, 16 * r, Nat(P.length(r))))
  }

  function Ints(n: nat, f: Fn): (s: seq<int>)
    ensures |s| == n && forall i :: 0 <= i < n ==> s[i] == f(i)
  {
    seq<int>(n, i => f(i))
  }

  function RulesOf(P: Automaton): (s: seq<Rule>)
    ensures |s| == YYNRULE && forall r :: 0 <= r < YYNRULE ==> s[r] == RuleAt(P, r)
  {
    seq<Rule>(YYNRULE, r => RuleAt(P, r))
  }

  function TablesOf(P: Automaton): Tables {
    Tables(Nats(YY_ACTTAB_COUNT, P.action),
           Nats(YY_ACTTAB_COUNT, P.lookahead),
           Ints(YYNSTATE, P.shiftOfst),
           Ints(YY_REDUCE_COUNT + 1, P.reduceOfst),
           Nats(YYNSTATE, P.dflt),
           Nats(FALLBACK_COUNT, P.fallback),
           RulesOf(P),
           P.classes)
  }

  predicate HasKey(P: Automaton, s: int, k: int) {
    k == P.mainKey(s) || P.extraKey(s, k)
  }

  function RowItem(P: Automaton, nonterminal: bool, ofst: int): int {
    if nonterminal then P.gotoItem(ofst) else P.shiftItem(ofst)
  }

  predicate RowKey(P: Automaton, nonterminal: bool, ofst: int, k: int) {
    if nonterminal then P.gotoKey(ofst, k) else P.shiftKey(ofst, k)
  }

  function CertOf(P: Automaton): Cert {
    Cert((s: nat) => Behind(P.slot, P.item(s)),
         (s: nat, d: nat, a: nat) => 1 <= d && a < 256 && HasKey(P, s, 256 * d + a),
         (nonterminal: bool, ofst: int) => Behind(P.slot, RowItem(P, nonterminal, ofst)),
         (nonterminal: bool, ofst: int, d: nat, a: nat) => a < 256 && RowKey(P, nonterminal, ofst, 256 * d + a),
         (slot: nat, z: nat) => P.covers(slot, z),
         (x: nat) => P.weight(x),
         P.tokenWeight,
         P.floor)
  }

  // ---------------------------------------------------------------------------------------------
  // What has to be checked.  Each predicate takes just the functions it is about.

  ghost predicate FallbacksSettle(fallback: Fn) {
    && fallback(0) == 0
    && forall x :: 0 <= x < FALLBACK_COUNT ==> 0 <= fallback(x) < FALLBACK_COUNT && fallback(fallback(x)) == 0
  }

  ghost predicate OffsetsInRange(shiftOfst: Fn, reduceOfst: Fn) {
    && (forall s :: 0 <= s < YYNSTATE ==> YY_SHIFT_MIN <= shiftOfst(s))
    && (forall s :: 0 < s <= YY_REDUCE_COUNT ==> reduceOfst(s) != reduceOfst(0))
  }

  /** An entry shifts to a state other than the first, or shifts and reduces by a rule that is neither
      empty nor the start rule, or reduces, or is the accept action of the first state. */
  predicate ActionKnown(action: Fn, lookahead: Fn, reduceOfst: Fn, length: Fn, lhs: Fn, i: int) {
    && 0 <= lookahead(i) < YYNOCODE
    && (|| 0 < action(i) <= YY_MAX_SHIFT
        || (YY_MIN_SHIFTREDUCE <= action(i) <= YY_MAX_SHIFTREDUCE
            && 0 < length(action(i) - YY_MIN_SHIFTREDUCE) && lhs(action(i) - YY_MIN_SHIFTREDUCE) != START)
        || YY_MIN_REDUCE <= action(i) <= YY_MAX_REDUCE
        || (action(i) == YY_ACCEPT_ACTION && lookahead(i) == START && i - START == reduceOfst(0)))
  }

  ghost predicate ActionsKnown(action: Fn, lookahead: Fn, reduceOfst: Fn, length: Fn, lhs: Fn) {
    forall i :: 0 <= i < YY_ACTTAB_COUNT ==> ActionKnown(action, lookahead, reduceOfst, length, lhs, i)
  }

  /** An entry that moves to state t takes a symbol that fills the last slot behind t's position. */
  ghost predicate TopsCovered(action: Fn, lookahead: Fn, item: Fn, slot: Fn, covers: Rel) {
    forall i :: 0 <= i < YY_ACTTAB_COUNT && action(i) < YY_MIN_REDUCE ==>
      slot(item(action(i))) != 0 && covers(slot(item(action(i))), lookahead(i))
  }

  /** Its row vouches for the other slots. */
  ghost predicate RestsKnown(nonterminal: bool, action: Fn, lookahead: Fn, item: Fn, rowItem: Fn, suffix: Rel) {
    forall i ::
      0 <= i < YY_ACTTAB_COUNT && action(i) < YY_MIN_REDUCE
      && (nonterminal <==> FIRST_NONTERMINAL <= lookahead(i)) ==>
      suffix(item(action(i)) - 1, rowItem(i - lookahead(i)))
  }

  /** Its row vouches, one entry closer, for the gotos that t needs. */
  ghost predicate MainNeedsKnown(nonterminal: bool, action: Fn, lookahead: Fn, mainKey: Fn, rowKey: Rel) {
    forall i ::
      0 <= i < YY_ACTTAB_COUNT && action(i) < YY_MIN_REDUCE
      && (nonterminal <==> FIRST_NONTERMINAL <= lookahead(i)) ==>
      rowKey(i - lookahead(i), mainKey(action(i)) - 256)
  }

  ghost predicate ExtraNeedsKnown(nonterminal: bool, action: Fn, lookahead: Fn, extraKey: Rel, rowKey: Rel) {
    forall i, k ::
      0 <= i < YY_ACTTAB_COUNT && action(i) < YY_MIN_REDUCE
      && (nonterminal <==> FIRST_NONTERMINAL <= lookahead(i)) && extraKey(action(i), k) ==>
      rowKey(i - lookahead(i), k - 256)
  }

  /** A reduce in the table is on a terminal, and its row vouches for the whole right-hand side and for
      the goto below it. */
  predicate ReduceKnown(action: Fn, lookahead: Fn, length: Fn, lhs: Fn, shiftItem: Fn, shiftKey: Rel,
      suffix: Rel, i: int) {
    var r := action(i) - YY_MIN_REDUCE;
    && lookahead(i) < FIRST_NONTERMINAL
    && suffix(16 * r + length(r), shiftItem(i - lookahead(i)))
    && shiftKey(i - lookahead(i), 256 * length(r) + lhs(r))
  }

  ghost predicate ReducesKnown(action: Fn, lookahead: Fn, length: Fn, lhs: Fn, shiftItem: Fn, shiftKey: Rel,
      suffix: Rel) {
    forall i :: 0 <= i < YY_ACTTAB_COUNT && YY_MIN_REDUCE <= action(i) <= YY_MAX_REDUCE ==>
      ReduceKnown(action, lookahead, length, lhs, shiftItem, shiftKey, suffix, i)
  }

  /** A state provides the slots its row vouches for. */
  ghost predicate RowPastsHeld(count: int, ofst: Fn, rowItem: Fn, item: Fn, suffix: Rel) {
    forall s :: 0 <= s < count ==> suffix(rowItem(ofst(s)), item(s))
  }

  predicate HasGoto(reduceOfst: Fn, lookahead: Fn, s: int, a: int) {
    && s <= YY_REDUCE_COUNT && reduceOfst(s) != YY_REDUCE_USE_DFLT
    && 0 <= reduceOfst(s) + a < YY_ACTTAB_COUNT && lookahead(reduceOfst(s) + a) == a
  }

  /** It has the gotos its row vouches for in the state itself, */
  ghost predicate RowGotosHeld(count: int, ofst: Fn, rowKey: Rel, reduceOfst: Fn, lookahead: Fn) {
    forall s, k :: 0 <= s < count && rowKey(ofst(s), k) && k < 256 ==> HasGoto(reduceOfst, lookahead, s, k)
  }

  /** and further down it needs the gotos its row vouches for. */
  ghost predicate RowNeedsHeld(count: int, ofst: Fn, rowKey: Rel, mainKey: Fn, extraKey: Rel) {
    forall s, k :: 0 <= s < count && rowKey(ofst(s), k) && 256 <= k ==> k == mainKey(s) || extraKey(s, k)
  }

  /** The default action of a state is the error action or a reduce that the state itself vouches for. */
  ghost predicate DefaultPastsHeld(dflt: Fn, length: Fn, item: Fn, suffix: Rel) {
    forall s :: 0 <= s < YYNSTATE && dflt(s) != YY_ERROR_ACTION ==>
      YY_MIN_REDUCE <= dflt(s) <= YY_MAX_REDUCE
      && var r := dflt(s) - YY_MIN_REDUCE; suffix(16 * r + length(r), item(s))
  }

  ghost predicate DefaultNeedsHeld(dflt: Fn, length: Fn, lhs: Fn, mainKey: Fn, extraKey: Rel) {
    forall s :: 0 <= s < YYNSTATE && dflt(s) != YY_ERROR_ACTION ==>
      var r := dflt(s) - YY_MIN_REDUCE;
      0 < length(r) ==> 256 * length(r) + lhs(r) == mainKey(s) || extraKey(s, 256 * length(r) + lhs(r))
  }

  ghost predicate DefaultGotosHeld(dflt: Fn, length: Fn, lhs: Fn, reduceOfst: Fn, lookahead: Fn) {
    forall s :: 0 <= s < YYNSTATE && dflt(s) != YY_ERROR_ACTION && length(dflt(s) - YY_MIN_REDUCE) == 0 ==>
      HasGoto(reduceOfst, lookahead, s, lhs(dflt(s) - YY_MIN_REDUCE))
  }

  /** Positions: slot(16 * r + d) is the d-th slot of rule r, and zero when there is none. */
  ghost predicate SlotsInRules(slot: Fn, length: Fn) {
    && (forall c :: 0 <= slot(c))
    && (forall c :: slot(c) != 0 <==> 0 <= c < 16 * YYNRULE && 1 <= c % 16 <= length(c / 16))
    && (forall r :: 0 <= r < YYNRULE ==> 0 <= length(r) <= 12)
  }

  /** What a position's slots being the last of another's comes down to. */
  ghost predicate SuffixMeans(slot: Fn, pair: Rel, suffix: Rel) {
    forall a, b :: suffix(a, b) <==> slot(a) == 0 || a == b || pair(a, b)
  }

  ghost predicate PairsUnwind(slot: Fn, pair: Rel, suffix: Rel) {
    forall a, b :: pair(a, b) ==> slot(a) == slot(b) && slot(a) != 0 && suffix(a - 1, b - 1)
  }

  predicate Valid(slot: Fn, c: int) {
    c % 16 == 0 || slot(c) != 0
  }

  ghost predicate RowItemsValid(slot: Fn, rowItem: Fn) {
    forall o :: Valid(slot, rowItem(o))
  }

  /** A pending reduce by r vouches for the whole of r and needs only its goto. */
  ghost predicate PendingKnown(item: Fn, mainKey: Fn, length: Fn, lhs: Fn) {
    forall r :: 0 <= r < YYNRULE && 0 < length(r) ==>
      item(r + YY_MIN_SHIFTREDUCE) == 16 * r + length(r) && mainKey(r + YY_MIN_SHIFTREDUCE) == 256 * length(r) + lhs(r)
  }

  ghost predicate FirstStateBare(item: Fn, mainKey: Fn, extraKey: Rel) {
    && item(0) == 0 && mainKey(0) == 0
    && forall k :: !extraKey(0, k)
  }

  /** Weight of the l slots from position c on. */
  function RhsWeight(slot: Fn, weight: Fn, c: int, l: int): int {
    if l <= 0 then 0 else RhsWeight(slot, weight, c, l - 1) + weight(slot(c + l))
  }

  ghost predicate RulesShaped(length: Fn, lhs: Fn) {
    forall r :: 0 <= r < YYNRULE ==> FIRST_NONTERMINAL <= lhs(r) < YYNOCODE && (lhs(r) == START ==> 0 < length(r))
  }

  /** The same written out; no rule has more than twelve slots. */
  function WrittenOutWeight(slot: Fn, weight: Fn, c: int, l: int): int {
    (if 1 <= l then weight(slot(c + 1)) else 0)
    + (if 2 <= l then weight(slot(c + 2)) else 0)
    + (if 3 <= l then weight(slot(c + 3)) else 0)
    + (if 4 <= l then weight(slot(c + 4)) else 0)
    + (if 5 <= l then weight(slot(c + 5)) else 0)
    + (if 6 <= l then weight(slot(c + 6)) else 0)
    + (if 7 <= l then weight(slot(c + 7)) else 0)
    + (if 8 <= l then weight(slot(c + 8)) else 0)
    + (if 9 <= l then weight(slot(c + 9)) else 0)
    + (if 10 <= l then weight(slot(c + 10)) else 0)
    + (if 11 <= l then weight(slot(c + 11)) else 0)
    + (if 12 <= l then weight(slot(c + 12)) else 0)
  }

  ghost predicate RulesLighten(slot: Fn, length: Fn, lhs: Fn, weight: Fn) {
    forall r :: 0 <= r < YYNRULE ==> weight(lhs(r)) < WrittenOutWeight(slot, weight, 16 * r, length(r))
  }

  ghost predicate CoversKnown(covers: Rel, lhs: Fn, length: Fn, slot: Fn, weight: Fn, classes: seq<set<nat>>) {
    forall c: nat, z: nat :: covers(c, z) ==>
      && weight(c) <= weight(z)
      && (|| c == z
          || (z < FIRST_NONTERMINAL && YYNOCODE <= c < YYNOCODE + |classes| && z in classes[c - YYNOCODE])
          || exists u :: 0 <= u < YYNRULE && lhs(u) == c && length(u) == 1 && slot(16 * u + 1) == z)
  }

  ghost predicate WeightsBounded(weight: Fn, tokenWeight: nat, floor: nat) {
    && (forall x :: 0 <= weight(x) + floor)
    && (forall x :: 0 <= x < FIRST_NONTERMINAL ==> weight(x) == tokenWeight)
    && 0 <= weight(START)
  }

  ghost predicate RowsChecked(P: Automaton) {
    && TopsCovered(P.action, P.lookahead, P.item, P.slot, P.covers)
    && RestsKnown(false, P.action, P.lookahead, P.item, P.shiftItem, P.suffix)
    && RestsKnown(true, P.action, P.lookahead, P.item, P.gotoItem, P.suffix)
    && MainNeedsKnown(false, P.action, P.lookahead, P.mainKey, P.shiftKey)
    && MainNeedsKnown(true, P.action, P.lookahead, P.mainKey, P.gotoKey)
    && ExtraNeedsKnown(false, P.action, P.lookahead, P.extraKey, P.shiftKey)
    && ExtraNeedsKnown(true, P.action, P.lookahead, P.extraKey, P.gotoKey)
    && ReducesKnown(P.action, P.lookahead, P.length, P.lhs, P.shiftItem, P.shiftKey, P.suffix)
    && PendingKnown(P.item, P.mainKey, P.length, P.lhs)
    && ActionsKnown(P.action, P.lookahead, P.reduceOfst, P.length, P.lhs)
  }

  ghost predicate StatesChecked(P: Automaton) {
    && RowPastsHeld(YYNSTATE, P.shiftOfst, P.shiftItem, P.item, P.suffix)
    && RowPastsHeld(YY_REDUCE_COUNT + 1, P.reduceOfst, P.gotoItem, P.item, P.suffix)
    && RowGotosHeld(YYNSTATE, P.shiftOfst, P.shiftKey, P.reduceOfst, P.lookahead)
    && RowGotosHeld(YY_REDUCE_COUNT + 1, P.reduceOfst, P.gotoKey, P.reduceOfst, P.lookahead)
    && RowNeedsHeld(YYNSTATE, P.shiftOfst, P.shiftKey, P.mainKey, P.extraKey)
    && RowNeedsHeld(YY_REDUCE_COUNT + 1, P.reduceOfst, P.gotoKey, P.mainKey, P.extraKey)
    && DefaultPastsHeld(P.dflt, P.length, P.item, P.suffix)
    && DefaultNeedsHeld(P.dflt, P.length, P.lhs, P.mainKey, P.extraKey)
    && DefaultGotosHeld(P.dflt, P.length, P.lhs, P.reduceOfst, P.lookahead)
    && FirstStateBare(P.item, P.mainKey, P.extraKey)
    && OffsetsInRange(P.shiftOfst, P.reduceOfst)
  }

  ghost predicate PositionsChecked(P: Automaton) {
    && SlotsInRules(P.slot, P.length)
    && SuffixMeans(P.slot, P.pair, P.suffix)
    && PairsUnwind(P.slot, P.pair, P.suffix)
    && RowItemsValid(P.slot, P.shiftItem)
    && RowItemsValid(P.slot, P.gotoItem)
  }

  ghost predicate Checked(P: Automaton) {
    && FallbacksSettle(P.fallback)
    && RowsChecked(P)
    && StatesChecked(P)
    && PositionsChecked(P)
    && RulesShaped(P.length, P.lhs)
    && RulesLighten(P.slot, P.length, P.lhs, P.weight)
    && CoversKnown(P.covers, P.lhs, P.length, P.slot, P.weight, P.classes)
    && WeightsBounded(P.weight, P.tokenWeight, P.floor)
  }

  // ---------------------------------------------------------------------------------------------
  // Checked functions make certified tables

  lemma BehindGrows(slot: Fn, c: int)
    requires 1 <= c % 16
    ensures Behind(slot, c) == Behind(slot, c - 1) + [Nat(slot(c))]
  {
    assert (c - 1) % 16 == c % 16 - 1;
  }

  lemma OneBack(slot: Fn, length: Fn, c: int)
    requires SlotsInRules(slot, length) && slot(c) != 0
    ensures 1 <= c % 16 && (c - 1) % 16 == c % 16 - 1
    ensures Valid(slot, c - 1)
  {
    if (c - 1) % 16 != 0 {
      assert (c - 1) / 16 == c / 16;
    }
  }

  lemma SuffixGrows(a: seq<nat>, b: seq<nat>, x: nat)
    requires SuffixOf(a, b)
    ensures SuffixOf(a + [x], b + [x])
  {}

  /** The suffix relation on positions means what it should. */
  lemma {:induction false} SuffixHolds(slot: Fn, length: Fn, pair: Rel, suffix: Rel, a: int, b: int)
    requires SlotsInRules(slot, length) && SuffixMeans(slot, pair, suffix) && PairsUnwind(slot, pair, suffix)
    requires Valid(slot, a) && suffix(a, b)
    ensures SuffixOf(Behind(slot, a), Behind(slot, b))
    decreases a % 16
  {
    if slot(a) == 0 {
      assert Behind(slot, a) == [];
    } else if a != b {
      assert pair(a, b);
      OneBack(slot, length, a);
      OneBack(slot, length, b);
      SuffixHolds(slot, length, pair, suffix, a - 1, b - 1);
      BehindGrows(slot, a);
      BehindGrows(slot, b);
      SuffixGrows(Behind(slot, a - 1), Behind(slot, b - 1), Nat(slot(a)));
    }
  }

  /** The position behind a whole rule has the rule's right-hand side behind it. */
  ghost predicate RuleIsBehind(P: Automaton, r: int) {
    && Valid(P.slot, 16 * r + P.length(r))
    && Behind(P.slot, 16 * r + P.length(r)) == RuleAt(P, r).rhs
    && |RuleAt(P, r).rhs| == P.length(r) <= 12
  }

  lemma Position(r: int, l: int)
    requires 0 <= l < 16
    ensures (16 * r + l) % 16 == l && (16 * r + l) / 16 == r
  {}

  lemma LengthInRange(P: Automaton, r: int)
    requires SlotsInRules(P.slot, P.length) && 0 <= r < YYNRULE
    ensures 0 <= P.length(r) <= 12 && Valid(P.slot, 16 * r + P.length(r))
  {
    Position(r, P.length(r));
  }

  lemma RuleBehind(P: Automaton, r: int)
    requires SlotsInRules(P.slot, P.length) && 0 <= r < YYNRULE
    ensures RuleIsBehind(P, r)
  {
    hide SlotsInRules, Slots, Valid;
    LengthInRange(P, r);
    Position(r, P.length(r));
    assert |Slots(P.slot, 16 * r, P.length(r))| == P.length(r) by {
      SlotsLength(P.slot, 16 * r, P.length(r));
    }
  }

  lemma SlotsLength(slot: Fn, c: int, n: nat)
    ensures |Slots(slot, c, n)| == n
  {}
}
