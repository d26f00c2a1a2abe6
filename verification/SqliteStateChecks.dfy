/** The states, checked a stretch at a time. */
module SqliteStateChecks {
  import opened Lemon
  import opened SqliteTables
  import opened SqliteCertificate
  import Packed

  predicate ShiftPastAt(s: int, o: int, q: int, n: int) {
    o == ShiftOfst(s) && q == ShiftRowItem(o) && n == ItemOf(s)
  }

  lemma ShiftRowPastHeld0(s: int, o: int, q: int, n: int)
    requires 0 <= s < 230 && ShiftPastAt(s, o, q, n)
    ensures Suffix(q, n)
  {}

  lemma ShiftRowPastHeld1(s: int, o: int, q: int, n: int)
    requires 230 <= s < 460 && ShiftPastAt(s, o, q, n)
    ensures Suffix(q, n)
  {}

  lemma ShiftRowPastHeld(s: int, o: int, q: int, n: int)
    requires 0 <= s < 460 && ShiftPastAt(s, o, q, n)
    ensures Suffix(q, n)
  {
    if s < 230 {
      ShiftRowPastHeld0(s, o, q, n);
    } else {
      ShiftRowPastHeld1(s, o, q, n);
    }
  }

  lemma ShiftRowPastsAreHeld()
    ensures Packed.RowPastsHeld(YYNSTATE, ShiftOfst, ShiftRowItem, ItemOf, Suffix)
  {
    hide Slot, SuffixPair, Suffix, ShiftOfst, ShiftRowItem, ItemOf;
    forall s | 0 <= s < YYNSTATE
      ensures Suffix(ShiftRowItem(ShiftOfst(s)), ItemOf(s))
    {
      ShiftRowPastHeld(s, ShiftOfst(s), ShiftRowItem(ShiftOfst(s)), ItemOf(s));
    }
  }

  predicate ShiftGotoAt(s: int, o: int, k: int, p: int, i: int) {
    o == ShiftOfst(s) && ShiftRowKey(o, k) && k < 256 && p == ReduceOfst(s) && i == p + k
  }

  lemma ShiftRowGotoHeld0(s: int, o: int, k: int, p: int, i: int)
    requires 0 <= s < 57 && ShiftGotoAt(s, o, k, p, i)
    ensures 0 <= k && s <= YY_REDUCE_COUNT && p != YY_REDUCE_USE_DFLT && 0 <= i < YY_ACTTAB_COUNT && Lookahead(i) == k
  {}

  lemma ShiftRowGotoHeld1(s: int, o: int, k: int, p: int, i: int)
    requires 57 <= s < 137 && ShiftGotoAt(s, o, k, p, i)
    ensures 0 <= k && s <= YY_REDUCE_COUNT && p != YY_REDUCE_USE_DFLT && 0 <= i < YY_ACTTAB_COUNT && Lookahead(i) == k
  {}

  lemma ShiftRowGotoHeld2(s: int, o: int, k: int, p: int, i: int)
    requires 137 <= s < 216 && ShiftGotoAt(s, o, k, p, i)
    ensures 0 <= k && s <= YY_REDUCE_COUNT && p != YY_REDUCE_USE_DFLT && 0 <= i < YY_ACTTAB_COUNT && Lookahead(i) == k
  {}

  lemma ShiftRowGotoHeld3(s: int, o: int, k: int, p: int, i: int)
    requires 216 <= s < 300 && ShiftGotoAt(s, o, k, p, i)
    ensures 0 <= k && s <= YY_REDUCE_COUNT && p != YY_REDUCE_USE_DFLT && 0 <= i < YY_ACTTAB_COUNT && Lookahead(i) == k
  {}

  lemma ShiftRowGotoHeld4(s: int, o: int, k: int, p: int, i: int)
    requires 300 <= s < 460 && ShiftGotoAt(s, o, k, p, i)
    ensures 0 <= k && s <= YY_REDUCE_COUNT && p != YY_REDUCE_USE_DFLT && 0 <= i < YY_ACTTAB_COUNT && Lookahead(i) == k
  {}

  lemma ShiftRowGotoHeld(s: int, o: int, k: int, p: int, i: int)
    requires 0 <= s < 460 && ShiftGotoAt(s, o, k, p, i)
    ensures 0 <= k && s <= YY_REDUCE_COUNT && p != YY_REDUCE_USE_DFLT && 0 <= i < YY_ACTTAB_COUNT && Lookahead(i) == k
  {
    if s < 57 {
      ShiftRowGotoHeld0(s, o, k, p, i);
    } else if s < 137 {
      ShiftRowGotoHeld1(s, o, k, p, i);
    } else if s < 216 {
      ShiftRowGotoHeld2(s, o, k, p, i);
    } else if s < 300 {
      ShiftRowGotoHeld3(s, o, k, p, i);
    } else {
      ShiftRowGotoHeld4(s, o, k, p, i);
    }
  }

  lemma ShiftRowGotosAreHeld()
    ensures Packed.RowGotosHeld(YYNSTATE, ShiftOfst, ShiftRowKey, ReduceOfst, Lookahead)
  {
    hide ShiftOfst, ReduceOfst, Lookahead, ShiftRowKey;
    forall s, k | 0 <= s < YYNSTATE && ShiftRowKey(ShiftOfst(s), k) && k < 256
      ensures Packed.HasGoto(ReduceOfst, Lookahead, s, k)
    {
      ShiftRowGotoHeld(s, ShiftOfst(s), k, ReduceOfst(s), ReduceOfst(s) + k);
    }
  }

  predicate ShiftNeedAt(s: int, o: int, k: int, m: int) {
    o == ShiftOfst(s) && ShiftRowKey(o, k) && 256 <= k && m == MainKey(s)
  }

  lemma ShiftRowNeedHeld(s: int, o: int, k: int, m: int)
    requires 0 <= s < 460 && ShiftNeedAt(s, o, k, m)
    ensures k == m || ExtraKey(s, k)
  {}

  lemma ShiftRowNeedsAreHeld()
    ensures Packed.RowNeedsHeld(YYNSTATE, ShiftOfst, ShiftRowKey, MainKey, ExtraKey)
  {
    hide ShiftOfst, ShiftRowKey, MainKey, ExtraKey;
    forall s, k | 0 <= s < YYNSTATE && ShiftRowKey(ShiftOfst(s), k) && 256 <= k
      ensures k == MainKey(s) || ExtraKey(s, k)
    {
      ShiftRowNeedHeld(s, ShiftOfst(s), k, MainKey(s));
    }
  }

  predicate GotoPastAt(s: int, o: int, q: int, n: int) {
    o == ReduceOfst(s) && q == GotoRowItem(o) && n == ItemOf(s)
  }

  lemma GotoRowPastHeld0(s: int, o: int, q: int, n: int)
    requires 0 <= s < 164 && GotoPastAt(s, o, q, n)
    ensures Suffix(q, n)
  {}

  lemma GotoRowPastHeld1(s: int, o: int, q: int, n: int)
    requires 164 <= s < 329 && GotoPastAt(s, o, q, n)
    ensures Suffix(q, n)
  {}

  lemma GotoRowPastHeld(s: int, o: int, q: int, n: int)
    requires 0 <= s < 329 && GotoPastAt(s, o, q, n)
    ensures Suffix(q, n)
  {
    if s < 164 {
      GotoRowPastHeld0(s, o, q, n);
    } else {
      GotoRowPastHeld1(s, o, q, n);
    }
  }

  lemma GotoRowPastsAreHeld()
    ensures Packed.RowPastsHeld(YY_REDUCE_COUNT + 1, ReduceOfst, GotoRowItem, ItemOf, Suffix)
  {
    hide Slot, SuffixPair, Suffix, ReduceOfst, GotoRowItem, ItemOf;
    forall s | 0 <= s < YY_REDUCE_COUNT + 1
      ensures Suffix(GotoRowItem(ReduceOfst(s)), ItemOf(s))
    {
      GotoRowPastHeld(s, ReduceOfst(s), GotoRowItem(ReduceOfst(s)), ItemOf(s));
    }
  }

  predicate GotoGotoAt(s: int, o: int, k: int, p: int, i: int) {
    o == ReduceOfst(s) && GotoRowKey(o, k) && k < 256 && p == ReduceOfst(s) && i == p + k
  }

  lemma GotoRowGotoHeld0(s: int, o: int, k: int, p: int, i: int)
    requires 0 <= s < 41 && GotoGotoAt(s, o, k, p, i)
    ensures 0 <= k && s <= YY_REDUCE_COUNT && p != YY_REDUCE_USE_DFLT && 0 <= i < YY_ACTTAB_COUNT && Lookahead(i) == k
  {}

  lemma GotoRowGotoHeld1(s: int, o: int, k: int, p: int, i: int)
    requires 41 <= s < 99 && GotoGotoAt(s, o, k, p, i)
    ensures 0 <= k && s <= YY_REDUCE_COUNT && p != YY_REDUCE_USE_DFLT && 0 <= i < YY_ACTTAB_COUNT && Lookahead(i) == k
  {}

  lemma GotoRowGotoHeld2(s: int, o: int, k: int, p: int, i: int)
    requires 99 <= s < 181 && GotoGotoAt(s, o, k, p, i)
    ensures 0 <= k && s <= YY_REDUCE_COUNT && p != YY_REDUCE_USE_DFLT && 0 <= i < YY_ACTTAB_COUNT && Lookahead(i) == k
  {}

  lemma GotoRowGotoHeld3(s: int, o: int, k: int, p: int, i: int)
    requires 181 <= s < 329 && GotoGotoAt(s, o, k, p, i)
    ensures 0 <= k && s <= YY_REDUCE_COUNT && p != YY_REDUCE_USE_DFLT && 0 <= i < YY_ACTTAB_COUNT && Lookahead(i) == k
  {}

  lemma GotoRowGotoHeld(s: int, o: int, k: int, p: int, i: int)
    requires 0 <= s < 329 && GotoGotoAt(s, o, k, p, i)
    ensures 0 <= k && s <= YY_REDUCE_COUNT && p != YY_REDUCE_USE_DFLT && 0 <= i < YY_ACTTAB_COUNT && Lookahead(i) == k
  {
    if s < 41 {
      GotoRowGotoHeld0(s, o, k, p, i);
    } else if s < 99 {
      GotoRowGotoHeld1(s, o, k, p, i);
    } else if s < 181 {
      GotoRowGotoHeld2(s, o, k, p, i);
    } else {
      GotoRowGotoHeld3(s, o, k, p, i);
    }
  }

  lemma GotoRowGotosAreHeld()
    ensures Packed.RowGotosHeld(YY_REDUCE_COUNT + 1, ReduceOfst, GotoRowKey, ReduceOfst, Lookahead)
  {
    hide ReduceOfst, Lookahead, GotoRowKey;
    forall s, k | 0 <= s < YY_REDUCE_COUNT + 1 && GotoRowKey(ReduceOfst(s), k) && k < 256
      ensures Packed.HasGoto(ReduceOfst, Lookahead, s, k)
    {
      GotoRowGotoHeld(s, ReduceOfst(s), k, ReduceOfst(s), ReduceOfst(s) + k);
    }
  }

  predicate GotoNeedAt(s: int, o: int, k: int, m: int) {
    o == ReduceOfst(s) && GotoRowKey(o, k) && 256 <= k && m == MainKey(s)
  }

  lemma GotoRowNeedHeld0(s: int, o: int, k: int, m: int)
    requires 0 <= s < 41 && GotoNeedAt(s, o, k, m)
    ensures k == m || ExtraKey(s, k)
  {}

  lemma GotoRowNeedHeld1(s: int, o: int, k: int, m: int)
    requires 41 <= s < 99 && GotoNeedAt(s, o, k, m)
    ensures k == m || ExtraKey(s, k)
  {}

  lemma GotoRowNeedHeld2(s: int, o: int, k: int, m: int)
    requires 99 <= s < 181 && GotoNeedAt(s, o, k, m)
    ensures k == m || ExtraKey(s, k)
  {}

  lemma GotoRowNeedHeld3(s: int, o: int, k: int, m: int)
    requires 181 <= s < 296 && GotoNeedAt(s, o, k, m)
    ensures k == m || ExtraKey(s, k)
  {}

  lemma GotoRowNeedHeld4(s: int, o: int, k: int, m: int)
    requires 296 <= s < 329 && GotoNeedAt(s, o, k, m)
    ensures k == m || ExtraKey(s, k)
  {}

  lemma GotoRowNeedHeld(s: int, o: int, k: int, m: int)
    requires 0 <= s < 329 && GotoNeedAt(s, o, k, m)
    ensures k == m || ExtraKey(s, k)
  {
    if s < 41 {
      GotoRowNeedHeld0(s, o, k, m);
    } else if s < 99 {
      GotoRowNeedHeld1(s, o, k, m);
    } else if s < 181 {
      GotoRowNeedHeld2(s, o, k, m);
    } else if s < 296 {
      GotoRowNeedHeld3(s, o, k, m);
    } else {
      GotoRowNeedHeld4(s, o, k, m);
    }
  }

  lemma GotoRowNeedsAreHeld()
    ensures Packed.RowNeedsHeld(YY_REDUCE_COUNT + 1, ReduceOfst, GotoRowKey, MainKey, ExtraKey)
  {
    hide ReduceOfst, GotoRowKey, MainKey, ExtraKey;
    forall s, k | 0 <= s < YY_REDUCE_COUNT + 1 && GotoRowKey(ReduceOfst(s), k) && 256 <= k
      ensures k == MainKey(s) || ExtraKey(s, k)
    {
      GotoRowNeedHeld(s, ReduceOfst(s), k, MainKey(s));
    }
  }

  predicate DefaultAt(s: int, r: int, n: int, l: int, q: int) {
    r + YY_MIN_REDUCE == Default(s) && Default(s) != YY_ERROR_ACTION && n == ItemOf(s) && l == Length(r) &&
        q == 16 * r + l
  }

  lemma DefaultPastHeld(s: int, r: int, n: int, l: int, q: int)
    requires 0 <= s < 460 && DefaultAt(s, r, n, l, q)
    ensures 0 <= r < YYNRULE && Suffix(q, n)
  {}

  lemma DefaultPastsAreHeld()
    ensures Packed.DefaultPastsHeld(Default, Length, ItemOf, Suffix)
  {
    hide Slot, SuffixPair, Suffix, Default, ItemOf, Length;
    forall s | 0 <= s < YYNSTATE && Default(s) != YY_ERROR_ACTION
      ensures YY_MIN_REDUCE <= Default(s) <= YY_MAX_REDUCE
              && var r := Default(s) - YY_MIN_REDUCE; Suffix(16 * r + Length(r), ItemOf(s))
    {
      var r := Default(s) - YY_MIN_REDUCE;
      DefaultPastHeld(s, r, ItemOf(s), Length(r), 16 * r + Length(r));
    }
  }

  predicate DefaultNeedAt(s: int, r: int, l: int, k: int, m: int) {
    r + YY_MIN_REDUCE == Default(s) && Default(s) != YY_ERROR_ACTION && l == Length(r) && 0 < l &&
        k == 256 * l + Lhs(r) && m == MainKey(s)
  }

  lemma DefaultNeedHeld(s: int, r: int, l: int, k: int, m: int)
    requires 0 <= s < 460 && DefaultNeedAt(s, r, l, k, m)
    ensures k == m || ExtraKey(s, k)
  {}

  lemma DefaultNeedsAreHeld()
    ensures Packed.DefaultNeedsHeld(Default, Length, Lhs, MainKey, ExtraKey)
  {
    hide Default, Length, Lhs, MainKey, ExtraKey;
    forall s | 0 <= s < YYNSTATE && Default(s) != YY_ERROR_ACTION && 0 < Length(Default(s) - YY_MIN_REDUCE)
      ensures var r := Default(s) - YY_MIN_REDUCE;
              256 * Length(r) + Lhs(r) == MainKey(s) || ExtraKey(s, 256 * Length(r) + Lhs(r))
    {
      var r := Default(s) - YY_MIN_REDUCE;
      DefaultNeedHeld(s, r, Length(r), 256 * Length(r) + Lhs(r), MainKey(s));
    }
  }

  predicate DefaultGotoAt(s: int, r: int, a: int, p: int, i: int) {
    r + YY_MIN_REDUCE == Default(s) && Default(s) != YY_ERROR_ACTION && Length(r) == 0 && a == Lhs(r) &&
        p == ReduceOfst(s) && i == p + a
  }

  lemma DefaultGotoHeld0(s: int, r: int, a: int, p: int, i: int)
    requires 0 <= s < 57 && DefaultGotoAt(s, r, a, p, i)
    ensures s <= YY_REDUCE_COUNT && p != YY_REDUCE_USE_DFLT && 0 <= i < YY_ACTTAB_COUNT && Lookahead(i) == a
  {}

  lemma DefaultGotoHeld1(s: int, r: int, a: int, p: int, i: int)
    requires 57 <= s < 137 && DefaultGotoAt(s, r, a, p, i)
    ensures s <= YY_REDUCE_COUNT && p != YY_REDUCE_USE_DFLT && 0 <= i < YY_ACTTAB_COUNT && Lookahead(i) == a
  {}

  lemma DefaultGotoHeld2(s: int, r: int, a: int, p: int, i: int)
    requires 137 <= s < 250 && DefaultGotoAt(s, r, a, p, i)
    ensures s <= YY_REDUCE_COUNT && p != YY_REDUCE_USE_DFLT && 0 <= i < YY_ACTTAB_COUNT && Lookahead(i) == a
  {}

  lemma DefaultGotoHeld3(s: int, r: int, a: int, p: int, i: int)
    requires 250 <= s < 460 && DefaultGotoAt(s, r, a, p, i)
    ensures s <= YY_REDUCE_COUNT && p != YY_REDUCE_USE_DFLT && 0 <= i < YY_ACTTAB_COUNT && Lookahead(i) == a
  {}

  lemma DefaultGotoHeld(s: int, r: int, a: int, p: int, i: int)
    requires 0 <= s < 460 && DefaultGotoAt(s, r, a, p, i)
    ensures s <= YY_REDUCE_COUNT && p != YY_REDUCE_USE_DFLT && 0 <= i < YY_ACTTAB_COUNT && Lookahead(i) == a
  {
    if s < 57 {
      DefaultGotoHeld0(s, r, a, p, i);
    } else if s < 137 {
      DefaultGotoHeld1(s, r, a, p, i);
    } else if s < 250 {
      DefaultGotoHeld2(s, r, a, p, i);
    } else {
      DefaultGotoHeld3(s, r, a, p, i);
    }
  }

  lemma DefaultGotosAreHeld()
    ensures Packed.DefaultGotosHeld(Default, Length, Lhs, ReduceOfst, Lookahead)
  {
    hide Default, Length, Lhs, ReduceOfst, Lookahead;
    forall s | 0 <= s < YYNSTATE && Default(s) != YY_ERROR_ACTION && Length(Default(s) - YY_MIN_REDUCE) == 0
      ensures Packed.HasGoto(ReduceOfst, Lookahead, s, Lhs(Default(s) - YY_MIN_REDUCE))
    {
      var r := Default(s) - YY_MIN_REDUCE;
      DefaultGotoHeld(s, r, Lhs(r), ReduceOfst(s), ReduceOfst(s) + Lhs(r));
    }
  }

  lemma FirstStateIsBare()
    ensures Packed.FirstStateBare(ItemOf, MainKey, ExtraKey)
  {}

  lemma OffsetBounds(s: int)
    requires 0 <= s < YYNSTATE
    ensures YY_SHIFT_MIN <= ShiftOfst(s)
  {}

  lemma OffsetDiffers(s: int)
    requires 0 < s <= YY_REDUCE_COUNT
    ensures ReduceOfst(s) != ReduceOfst(0)
  {}

  lemma OffsetsAreInRange()
    ensures Packed.OffsetsInRange(ShiftOfst, ReduceOfst)
  {
    forall s | 0 <= s < YYNSTATE ensures YY_SHIFT_MIN <= ShiftOfst(s) {
      OffsetBounds(s);
    }
    forall s | 0 < s <= YY_REDUCE_COUNT ensures ReduceOfst(s) != ReduceOfst(0) {
      OffsetDiffers(s);
    }
  }
}
