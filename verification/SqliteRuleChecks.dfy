/** The rules, positions and weights, checked a stretch at a time. */
module SqliteRuleChecks {
  import opened Lemon
  import opened SqliteTables
  import opened SqliteCertificate
  import Packed

  lemma FallbacksDoSettle()
    ensures Packed.FallbacksSettle(Fallback)
  {}

  predicate SlotAt(c: int, r: int, d: int) {
    Slot(c) != 0 && c == 16 * r + d && 0 <= d < 16
  }

  lemma SlotInRule(c: int, r: int, d: int)
    requires SlotAt(c, r, d)
    ensures 0 <= r < YYNRULE && 1 <= d <= Length(r)
  {}

  predicate RuleSlotAt(r: int, d: int, c: int) {
    1 <= d <= Length(r) && c == 16 * r + d
  }

  lemma RuleHasSlots(r: int, d: int, c: int)
    requires 0 <= r < 332 && RuleSlotAt(r, d, c)
    ensures d < 16 && 0 < Slot(c) < 300
  {}

  lemma LengthBounds(r: int)
    requires 0 <= r < YYNRULE
    ensures 0 <= Length(r) <= 12
  {}

  lemma SlotsAreInRules()
    ensures Packed.SlotsInRules(Slot, Length)
  {
    forall c
      ensures 0 <= Slot(c)
      ensures Slot(c) != 0 <==> 0 <= c < 16 * YYNRULE && 1 <= c % 16 <= Length(c / 16)
    {
      var r, d := c / 16, c % 16;
      if Slot(c) != 0 {
        SlotInRule(c, r, d);
      }
      if 0 <= r < YYNRULE && 1 <= d <= Length(r) {
        RuleHasSlots(r, d, c);
      }
    }
    forall r | 0 <= r < YYNRULE ensures 0 <= Length(r) <= 12 {
      LengthBounds(r);
    }
  }

  lemma SuffixDoesMean()
    ensures Packed.SuffixMeans(Slot, SuffixPair, Suffix)
  {}

  predicate PairAt(a: int, b: int, x: int, y: int, c: int, d: int) {
    SuffixPair(a, b) && x == Slot(a) && y == Slot(b) && c == a - 1 && d == b - 1
  }

  lemma PairUnwinds0(a: int, b: int, x: int, y: int, c: int, d: int)
    requires a < 664 && PairAt(a, b, x, y, c, d)
    ensures x == y && x != 0 && Suffix(c, d)
  {}

  lemma PairUnwinds1(a: int, b: int, x: int, y: int, c: int, d: int)
    requires 664 <= a && a < 1594 && PairAt(a, b, x, y, c, d)
    ensures x == y && x != 0 && Suffix(c, d)
  {}

  lemma PairUnwinds2(a: int, b: int, x: int, y: int, c: int, d: int)
    requires 1594 <= a && a < 2506 && PairAt(a, b, x, y, c, d)
    ensures x == y && x != 0 && Suffix(c, d)
  {}

  lemma PairUnwinds3(a: int, b: int, x: int, y: int, c: int, d: int)
    requires 2506 <= a && a < 2943 && PairAt(a, b, x, y, c, d)
    ensures x == y && x != 0 && Suffix(c, d)
  {}

  lemma PairUnwinds4(a: int, b: int, x: int, y: int, c: int, d: int)
    requires 2943 <= a && a < 3402 && PairAt(a, b, x, y, c, d)
    ensures x == y && x != 0 && Suffix(c, d)
  {}

  lemma PairUnwinds5(a: int, b: int, x: int, y: int, c: int, d: int)
    requires 3402 <= a && a < 4045 && PairAt(a, b, x, y, c, d)
    ensures x == y && x != 0 && Suffix(c, d)
  {}

  lemma PairUnwinds6(a: int, b: int, x: int, y: int, c: int, d: int)
    requires 4045 <= a && a < 4946 && PairAt(a, b, x, y, c, d)
    ensures x == y && x != 0 && Suffix(c, d)
  {}

  lemma PairUnwinds7(a: int, b: int, x: int, y: int, c: int, d: int)
    requires 4946 <= a && PairAt(a, b, x, y, c, d)
    ensures x == y && x != 0 && Suffix(c, d)
  {}

  lemma PairUnwinds(a: int, b: int, x: int, y: int, c: int, d: int)
    requires PairAt(a, b, x, y, c, d)
    ensures x == y && x != 0 && Suffix(c, d)
  {
    if a < 664 {
      PairUnwinds0(a, b, x, y, c, d);
    } else if a < 1594 {
      PairUnwinds1(a, b, x, y, c, d);
    } else if a < 2506 {
      PairUnwinds2(a, b, x, y, c, d);
    } else if a < 2943 {
      PairUnwinds3(a, b, x, y, c, d);
    } else if a < 3402 {
      PairUnwinds4(a, b, x, y, c, d);
    } else if a < 4045 {
      PairUnwinds5(a, b, x, y, c, d);
    } else if a < 4946 {
      PairUnwinds6(a, b, x, y, c, d);
    } else {
      PairUnwinds7(a, b, x, y, c, d);
    }
  }

  lemma PairsDoUnwind()
    ensures Packed.PairsUnwind(Slot, SuffixPair, Suffix)
  {
    hide Slot, SuffixPair, Suffix;
    forall a, b | SuffixPair(a, b)
      ensures Slot(a) == Slot(b) && Slot(a) != 0 && Suffix(a - 1, b - 1)
    {
      PairUnwinds(a, b, Slot(a), Slot(b), a - 1, b - 1);
    }
  }

  lemma ShiftRowItemValid(o: int, q: int)
    requires q == ShiftRowItem(o)
    ensures q % 16 == 0 || Slot(q) != 0
  {}

  lemma ShiftRowItemsAreValid()
    ensures Packed.RowItemsValid(Slot, ShiftRowItem)
  {
    forall o ensures Packed.Valid(Slot, ShiftRowItem(o)) {
      ShiftRowItemValid(o, ShiftRowItem(o));
    }
  }

  lemma GotoRowItemValid(o: int, q: int)
    requires q == GotoRowItem(o)
    ensures q % 16 == 0 || Slot(q) != 0
  {}

  lemma GotoRowItemsAreValid()
    ensures Packed.RowItemsValid(Slot, GotoRowItem)
  {
    forall o ensures Packed.Valid(Slot, GotoRowItem(o)) {
      GotoRowItemValid(o, GotoRowItem(o));
    }
  }

  predicate PendingAt(r: int, t: int, l: int) {
    t == r + YY_MIN_SHIFTREDUCE && l == Length(r) && 0 < l
  }

  lemma PendingItem0(r: int, t: int, l: int)
    requires 0 <= r < 41 && PendingAt(r, t, l)
    ensures ItemOf(t) == 16 * r + l && MainKey(t) == 256 * l + Lhs(r)
  {}

  lemma PendingItem1(r: int, t: int, l: int)
    requires 41 <= r < 99 && PendingAt(r, t, l)
    ensures ItemOf(t) == 16 * r + l && MainKey(t) == 256 * l + Lhs(r)
  {}

  lemma PendingItem2(r: int, t: int, l: int)
    requires 99 <= r < 181 && PendingAt(r, t, l)
    ensures ItemOf(t) == 16 * r + l && MainKey(t) == 256 * l + Lhs(r)
  {}

  lemma PendingItem3(r: int, t: int, l: int)
    requires 181 <= r < 296 && PendingAt(r, t, l)
    ensures ItemOf(t) == 16 * r + l && MainKey(t) == 256 * l + Lhs(r)
  {}

  lemma PendingItem4(r: int, t: int, l: int)
    requires 296 <= r < 332 && PendingAt(r, t, l)
    ensures ItemOf(t) == 16 * r + l && MainKey(t) == 256 * l + Lhs(r)
  {}

  lemma PendingItem(r: int, t: int, l: int)
    requires 0 <= r < 332 && PendingAt(r, t, l)
    ensures ItemOf(t) == 16 * r + l && MainKey(t) == 256 * l + Lhs(r)
  {
    if r < 41 {
      PendingItem0(r, t, l);
    } else if r < 99 {
      PendingItem1(r, t, l);
    } else if r < 181 {
      PendingItem2(r, t, l);
    } else if r < 296 {
      PendingItem3(r, t, l);
    } else {
      PendingItem4(r, t, l);
    }
  }

  lemma PendingIsKnown()
    ensures Packed.PendingKnown(ItemOf, MainKey, Length, Lhs)
  {
    hide ItemOf, Length, Lhs, MainKey;
    forall r | 0 <= r < YYNRULE && 0 < Length(r)
      ensures ItemOf(r + YY_MIN_SHIFTREDUCE) == 16 * r + Length(r)
              && MainKey(r + YY_MIN_SHIFTREDUCE) == 256 * Length(r) + Lhs(r)
    {
      PendingItem(r, r + YY_MIN_SHIFTREDUCE, Length(r));
    }
  }

  lemma RuleShape(r: int)
    requires 0 <= r < YYNRULE
    ensures FIRST_NONTERMINAL <= Lhs(r) < YYNOCODE && (Lhs(r) == START ==> r == 276)
  {}

  lemma RulesAreShaped()
    ensures Packed.RulesShaped(Length, Lhs)
  {
    forall r | 0 <= r < YYNRULE ensures FIRST_NONTERMINAL <= Lhs(r) < YYNOCODE && (Lhs(r) == START ==> 0 < Length(r)) {
      RuleShape(r);
    }
  }

  /** Weights are at least -2, and tokens weigh 8. */
  lemma WeightFloor(x: int)
    ensures 0 <= Weight(x) + 2
    ensures x < FIRST_NONTERMINAL ==> Weight(x) == 8
  {}

  lemma WeightsAreBounded()
    ensures Packed.WeightsBounded(Weight, 8, 2)
  {
    forall x ensures 0 <= Weight(x) + 2 && (0 <= x < FIRST_NONTERMINAL ==> Weight(x) == 8) {
      WeightFloor(x);
    }
  }

  lemma CoverLightens(c: int, z: int)
    requires Covers(c, z)
    ensures Weight(c) <= Weight(z)
  {}

  /** The class that a token fills, if the slot is one. */
  lemma CoverClass(c: int, z: int)
    requires Covers(c, z) && YYNOCODE <= c && c != z
    ensures z < FIRST_NONTERMINAL && YYNOCODE <= c < YYNOCODE + |CLASSES| && z in CLASSES[c - YYNOCODE]
  {}

  predicate UnitRule(u: int, c: int, z: int) {
    0 <= u < YYNRULE && Lhs(u) == c && Length(u) == 1 && Slot(16 * u + 1) == z
  }

  /** The optimized-out unit rules. */
  lemma CoverUnit(c: int, z: int) returns (u: int)
    requires Covers(c, z) && c < YYNOCODE && c != z
    ensures UnitRule(u, c, z)
  {
    u := if c == 145 && z == 146 then 278 else if c == 168 && z == 169 then 295 else if c == 168 &&
        z == 170 then 296 else if c == 183 && z == 185 then 302 else if c == 188 &&
        z == 179 then 304 else if c == 190 && z == 191 then 305 else if c == 194 &&
        z == 195 then 306 else if c == 173 && z == 172 then 310 else if c == 230 && z == 169 then 312 else 313;
  }

  lemma CoversAreKnown()
    ensures Packed.CoversKnown(Covers, Lhs, Length, Slot, Weight, CLASSES)
  {
    forall c: nat, z: nat | Covers(c, z)
      ensures Weight(c) <= Weight(z)
      ensures || c == z
              || (z < FIRST_NONTERMINAL && YYNOCODE <= c < YYNOCODE + |CLASSES| && z in CLASSES[c - YYNOCODE])
              || exists u :: 0 <= u < YYNRULE && Lhs(u) == c && Length(u) == 1 && Slot(16 * u + 1) == z
    {
      CoverLightens(c, z);
      if c != z && YYNOCODE <= c {
        CoverClass(c, z);
      } else if c != z {
        var u := CoverUnit(c, z);
        assert UnitRule(u, c, z);
      }
    }
  }

  /** Weight of the first l slots of rule r. */
  function RhsWeight(r: int, l: int): int {
    (if 1 <= l then Weight(Slot(16 * r + 1)) else 0)
    + (if 2 <= l then Weight(Slot(16 * r + 2)) else 0)
    + (if 3 <= l then Weight(Slot(16 * r + 3)) else 0)
    + (if 4 <= l then Weight(Slot(16 * r + 4)) else 0)
    + (if 5 <= l then Weight(Slot(16 * r + 5)) else 0)
    + (if 6 <= l then Weight(Slot(16 * r + 6)) else 0)
    + (if 7 <= l then Weight(Slot(16 * r + 7)) else 0)
    + (if 8 <= l then Weight(Slot(16 * r + 8)) else 0)
    + (if 9 <= l then Weight(Slot(16 * r + 9)) else 0)
    + (if 10 <= l then Weight(Slot(16 * r + 10)) else 0)
    + (if 11 <= l then Weight(Slot(16 * r + 11)) else 0)
    + (if 12 <= l then Weight(Slot(16 * r + 12)) else 0)
  }

  lemma RuleLightens0(r: int, l: int, a: int)
    requires 0 <= r < 41 && l == Length(r) && a == Lhs(r)
    ensures Weight(a) < RhsWeight(r, l)
  {}

  lemma RuleLightens1(r: int, l: int, a: int)
    requires 41 <= r < 99 && l == Length(r) && a == Lhs(r)
    ensures Weight(a) < RhsWeight(r, l)
  {}

  lemma RuleLightens2(r: int, l: int, a: int)
    requires 99 <= r < 140 && l == Length(r) && a == Lhs(r)
    ensures Weight(a) < RhsWeight(r, l)
  {}

  lemma RuleLightens3(r: int, l: int, a: int)
    requires 140 <= r < 181 && l == Length(r) && a == Lhs(r)
    ensures Weight(a) < RhsWeight(r, l)
  {}

  lemma RuleLightens4(r: int, l: int, a: int)
    requires 181 <= r < 225 && l == Length(r) && a == Lhs(r)
    ensures Weight(a) < RhsWeight(r, l)
  {}

  lemma RuleLightens5(r: int, l: int, a: int)
    requires 225 <= r < 262 && l == Length(r) && a == Lhs(r)
    ensures Weight(a) < RhsWeight(r, l)
  {}

  lemma RuleLightens6(r: int, l: int, a: int)
    requires 262 <= r < 296 && l == Length(r) && a == Lhs(r)
    ensures Weight(a) < RhsWeight(r, l)
  {}

  lemma RuleLightens7(r: int, l: int, a: int)
    requires 296 <= r < 332 && l == Length(r) && a == Lhs(r)
    ensures Weight(a) < RhsWeight(r, l)
  {}

  lemma RuleLightens(r: int)
    requires 0 <= r < YYNRULE
    ensures Weight(Lhs(r)) < RhsWeight(r, Length(r))
  {
    var l, a := Length(r), Lhs(r);
    if r < 41 {
      RuleLightens0(r, l, a);
    } else if r < 99 {
      RuleLightens1(r, l, a);
    } else if r < 140 {
      RuleLightens2(r, l, a);
    } else if r < 181 {
      RuleLightens3(r, l, a);
    } else if r < 225 {
      RuleLightens4(r, l, a);
    } else if r < 262 {
      RuleLightens5(r, l, a);
    } else if r < 296 {
      RuleLightens6(r, l, a);
    } else {
      RuleLightens7(r, l, a);
    }
  }

  lemma SameWeight(r: int, l: int)
    ensures Packed.WrittenOutWeight(Slot, Weight, 16 * r, l) == RhsWeight(r, l)
  {}

  lemma RulesDoLighten()
    ensures Packed.RulesLighten(Slot, Length, Lhs, Weight)
  {
    forall r | 0 <= r < YYNRULE
      ensures Weight(Lhs(r)) < Packed.WrittenOutWeight(Slot, Weight, 16 * r, Length(r))
    {
      RuleLightens(r);
      SameWeight(r, Length(r));
    }
  }
}
