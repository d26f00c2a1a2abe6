/** The entries of the packed table, checked a stretch at a time. */
module SqliteEntryChecks {
  import opened Lemon
  import opened SqliteTables
  import opened SqliteCertificate
  import Packed

  predicate ActionAt(i: int, z: int, t: int) {
    0 <= i < YY_ACTTAB_COUNT && z == Lookahead(i) && t == Action(i)
  }

  lemma ActionKind0(i: int, z: int, t: int)
    requires 0 <= i < 392 && ActionAt(i, z, t)
    ensures 0 <= z < YYNOCODE
    ensures 0 < t <= YY_MAX_SHIFT || YY_MIN_SHIFTREDUCE <= t <= YY_MAX_REDUCE || (t == YY_ACCEPT_ACTION &&
        i == 115 && z == START)
  {}

  lemma ActionKind1(i: int, z: int, t: int)
    requires 392 <= i < 785 && ActionAt(i, z, t)
    ensures 0 <= z < YYNOCODE
    ensures 0 < t <= YY_MAX_SHIFT || YY_MIN_SHIFTREDUCE <= t <= YY_MAX_REDUCE || (t == YY_ACCEPT_ACTION &&
        i == 115 && z == START)
  {}

  lemma ActionKind2(i: int, z: int, t: int)
    requires 785 <= i < 1178 && ActionAt(i, z, t)
    ensures 0 <= z < YYNOCODE
    ensures 0 < t <= YY_MAX_SHIFT || YY_MIN_SHIFTREDUCE <= t <= YY_MAX_REDUCE || (t == YY_ACCEPT_ACTION &&
        i == 115 && z == START)
  {}

  lemma ActionKind3(i: int, z: int, t: int)
    requires 1178 <= i < 1570 && ActionAt(i, z, t)
    ensures 0 <= z < YYNOCODE
    ensures 0 < t <= YY_MAX_SHIFT || YY_MIN_SHIFTREDUCE <= t <= YY_MAX_REDUCE || (t == YY_ACCEPT_ACTION &&
        i == 115 && z == START)
  {}

  lemma ActionKind(i: int, z: int, t: int)
    requires 0 <= i < 1570 && ActionAt(i, z, t)
    ensures 0 <= z < YYNOCODE
    ensures 0 < t <= YY_MAX_SHIFT || YY_MIN_SHIFTREDUCE <= t <= YY_MAX_REDUCE || (t == YY_ACCEPT_ACTION &&
        i == 115 && z == START)
  {
    if i < 392 {
      ActionKind0(i, z, t);
    } else if i < 785 {
      ActionKind1(i, z, t);
    } else if i < 1178 {
      ActionKind2(i, z, t);
    } else {
      ActionKind3(i, z, t);
    }
  }

  predicate ShiftReduceAt(i: int, t: int, r: int) {
    t == Action(i) && YY_MIN_SHIFTREDUCE <= t < YY_MIN_REDUCE && r == t - YY_MIN_SHIFTREDUCE
  }

  lemma ShiftReduceShape0(i: int, t: int, r: int)
    requires 0 <= i < 392 && ShiftReduceAt(i, t, r)
    ensures 0 < Length(r) && Lhs(r) != START
  {}

  lemma ShiftReduceShape1(i: int, t: int, r: int)
    requires 392 <= i < 785 && ShiftReduceAt(i, t, r)
    ensures 0 < Length(r) && Lhs(r) != START
  {}

  lemma ShiftReduceShape2(i: int, t: int, r: int)
    requires 785 <= i < 1178 && ShiftReduceAt(i, t, r)
    ensures 0 < Length(r) && Lhs(r) != START
  {}

  lemma ShiftReduceShape3(i: int, t: int, r: int)
    requires 1178 <= i < 1570 && ShiftReduceAt(i, t, r)
    ensures 0 < Length(r) && Lhs(r) != START
  {}

  lemma ShiftReduceShape(i: int, t: int, r: int)
    requires 0 <= i < 1570 && ShiftReduceAt(i, t, r)
    ensures 0 < Length(r) && Lhs(r) != START
  {
    if i < 392 {
      ShiftReduceShape0(i, t, r);
    } else if i < 785 {
      ShiftReduceShape1(i, t, r);
    } else if i < 1178 {
      ShiftReduceShape2(i, t, r);
    } else {
      ShiftReduceShape3(i, t, r);
    }
  }

  lemma ActionsAreKnown()
    ensures Packed.ActionsKnown(Action, Lookahead, ReduceOfst, Length, Lhs)
  {
    forall i | 0 <= i < YY_ACTTAB_COUNT ensures Packed.ActionKnown(Action, Lookahead, ReduceOfst, Length, Lhs, i) {
      var z, t := Lookahead(i), Action(i);
      ActionKind(i, z, t);
      if YY_MIN_SHIFTREDUCE <= t < YY_MIN_REDUCE {
        ShiftReduceShape(i, t, t - YY_MIN_SHIFTREDUCE);
      }
      assert ReduceOfst(0) == 115 - START;
    }
  }

  predicate TopAt(i: int, z: int, t: int, n: int, x: int) {
    z == Lookahead(i) && t == Action(i) && t < YY_MIN_REDUCE && n == ItemOf(t) && x == Slot(n)
  }

  lemma TopCovered0(i: int, z: int, t: int, n: int, x: int)
    requires 0 <= i < 98 && TopAt(i, z, t, n, x)
    ensures x != 0 && Covers(x, z)
  {}

  lemma TopCovered1(i: int, z: int, t: int, n: int, x: int)
    requires 98 <= i < 196 && TopAt(i, z, t, n, x)
    ensures x != 0 && Covers(x, z)
  {}

  lemma TopCovered2(i: int, z: int, t: int, n: int, x: int)
    requires 196 <= i < 299 && TopAt(i, z, t, n, x)
    ensures x != 0 && Covers(x, z)
  {}

  lemma TopCovered3(i: int, z: int, t: int, n: int, x: int)
    requires 299 <= i < 402 && TopAt(i, z, t, n, x)
    ensures x != 0 && Covers(x, z)
  {}

  lemma TopCovered4(i: int, z: int, t: int, n: int, x: int)
    requires 402 <= i < 456 && TopAt(i, z, t, n, x)
    ensures x != 0 && Covers(x, z)
  {}

  lemma TopCovered5(i: int, z: int, t: int, n: int, x: int)
    requires 456 <= i < 510 && TopAt(i, z, t, n, x)
    ensures x != 0 && Covers(x, z)
  {}

  lemma TopCovered6(i: int, z: int, t: int, n: int, x: int)
    requires 510 <= i < 564 && TopAt(i, z, t, n, x)
    ensures x != 0 && Covers(x, z)
  {}

  lemma TopCovered7(i: int, z: int, t: int, n: int, x: int)
    requires 564 <= i < 619 && TopAt(i, z, t, n, x)
    ensures x != 0 && Covers(x, z)
  {}

  lemma TopCovered8(i: int, z: int, t: int, n: int, x: int)
    requires 619 <= i < 659 && TopAt(i, z, t, n, x)
    ensures x != 0 && Covers(x, z)
  {}

  lemma TopCovered9(i: int, z: int, t: int, n: int, x: int)
    requires 659 <= i < 700 && TopAt(i, z, t, n, x)
    ensures x != 0 && Covers(x, z)
  {}

  lemma TopCovered10(i: int, z: int, t: int, n: int, x: int)
    requires 700 <= i < 778 && TopAt(i, z, t, n, x)
    ensures x != 0 && Covers(x, z)
  {}

  lemma TopCovered11(i: int, z: int, t: int, n: int, x: int)
    requires 778 <= i < 836 && TopAt(i, z, t, n, x)
    ensures x != 0 && Covers(x, z)
  {}

  lemma TopCovered12(i: int, z: int, t: int, n: int, x: int)
    requires 836 <= i < 894 && TopAt(i, z, t, n, x)
    ensures x != 0 && Covers(x, z)
  {}

  lemma TopCovered13(i: int, z: int, t: int, n: int, x: int)
    requires 894 <= i < 955 && TopAt(i, z, t, n, x)
    ensures x != 0 && Covers(x, z)
  {}

  lemma TopCovered14(i: int, z: int, t: int, n: int, x: int)
    requires 955 <= i < 985 && TopAt(i, z, t, n, x)
    ensures x != 0 && Covers(x, z)
  {}

  lemma TopCovered15(i: int, z: int, t: int, n: int, x: int)
    requires 985 <= i < 1016 && TopAt(i, z, t, n, x)
    ensures x != 0 && Covers(x, z)
  {}

  lemma TopCovered16(i: int, z: int, t: int, n: int, x: int)
    requires 1016 <= i < 1058 && TopAt(i, z, t, n, x)
    ensures x != 0 && Covers(x, z)
  {}

  lemma TopCovered17(i: int, z: int, t: int, n: int, x: int)
    requires 1058 <= i < 1101 && TopAt(i, z, t, n, x)
    ensures x != 0 && Covers(x, z)
  {}

  lemma TopCovered18(i: int, z: int, t: int, n: int, x: int)
    requires 1101 <= i < 1187 && TopAt(i, z, t, n, x)
    ensures x != 0 && Covers(x, z)
  {}

  lemma TopCovered19(i: int, z: int, t: int, n: int, x: int)
    requires 1187 <= i < 1249 && TopAt(i, z, t, n, x)
    ensures x != 0 && Covers(x, z)
  {}

  lemma TopCovered20(i: int, z: int, t: int, n: int, x: int)
    requires 1249 <= i < 1312 && TopAt(i, z, t, n, x)
    ensures x != 0 && Covers(x, z)
  {}

  lemma TopCovered21(i: int, z: int, t: int, n: int, x: int)
    requires 1312 <= i < 1373 && TopAt(i, z, t, n, x)
    ensures x != 0 && Covers(x, z)
  {}

  lemma TopCovered22(i: int, z: int, t: int, n: int, x: int)
    requires 1373 <= i < 1435 && TopAt(i, z, t, n, x)
    ensures x != 0 && Covers(x, z)
  {}

  lemma TopCovered23(i: int, z: int, t: int, n: int, x: int)
    requires 1435 <= i < 1502 && TopAt(i, z, t, n, x)
    ensures x != 0 && Covers(x, z)
  {}

  lemma TopCovered24(i: int, z: int, t: int, n: int, x: int)
    requires 1502 <= i < 1570 && TopAt(i, z, t, n, x)
    ensures x != 0 && Covers(x, z)
  {}

  lemma TopCovered(i: int, z: int, t: int, n: int, x: int)
    requires 0 <= i < 1570 && TopAt(i, z, t, n, x)
    ensures x != 0 && Covers(x, z)
  {
    if i < 98 {
      TopCovered0(i, z, t, n, x);
    } else if i < 196 {
      TopCovered1(i, z, t, n, x);
    } else if i < 299 {
      TopCovered2(i, z, t, n, x);
    } else if i < 402 {
      TopCovered3(i, z, t, n, x);
    } else if i < 456 {
      TopCovered4(i, z, t, n, x);
    } else if i < 510 {
      TopCovered5(i, z, t, n, x);
    } else if i < 564 {
      TopCovered6(i, z, t, n, x);
    } else if i < 619 {
      TopCovered7(i, z, t, n, x);
    } else if i < 659 {
      TopCovered8(i, z, t, n, x);
    } else if i < 700 {
      TopCovered9(i, z, t, n, x);
    } else if i < 778 {
      TopCovered10(i, z, t, n, x);
    } else if i < 836 {
      TopCovered11(i, z, t, n, x);
    } else if i < 894 {
      TopCovered12(i, z, t, n, x);
    } else if i < 955 {
      TopCovered13(i, z, t, n, x);
    } else if i < 985 {
      TopCovered14(i, z, t, n, x);
    } else if i < 1016 {
      TopCovered15(i, z, t, n, x);
    } else if i < 1058 {
      TopCovered16(i, z, t, n, x);
    } else if i < 1101 {
      TopCovered17(i, z, t, n, x);
    } else if i < 1187 {
      TopCovered18(i, z, t, n, x);
    } else if i < 1249 {
      TopCovered19(i, z, t, n, x);
    } else if i < 1312 {
      TopCovered20(i, z, t, n, x);
    } else if i < 1373 {
      TopCovered21(i, z, t, n, x);
    } else if i < 1435 {
      TopCovered22(i, z, t, n, x);
    } else if i < 1502 {
      TopCovered23(i, z, t, n, x);
    } else {
      TopCovered24(i, z, t, n, x);
    }
  }

  lemma TopsAreCovered()
    ensures Packed.TopsCovered(Action, Lookahead, ItemOf, Slot, Covers)
  {
    hide Action, Lookahead, ItemOf, Slot, Covers;
    forall i | 0 <= i < YY_ACTTAB_COUNT && Action(i) < YY_MIN_REDUCE
      ensures Slot(ItemOf(Action(i))) != 0 && Covers(Slot(ItemOf(Action(i))), Lookahead(i))
    {
      TopCovered(i, Lookahead(i), Action(i), ItemOf(Action(i)), Slot(ItemOf(Action(i))));
    }
  }

  predicate ShiftRestAt(i: int, z: int, t: int, n: int, m: int, o: int, q: int) {
    z == Lookahead(i) && z < FIRST_NONTERMINAL && t == Action(i) && t < YY_MIN_REDUCE && n == ItemOf(t) && m == n - 1
    && o == i - z && q == ShiftRowItem(o)
  }

  lemma ShiftRestKnown0(i: int, z: int, t: int, n: int, m: int, o: int, q: int)
    requires 0 <= i < 68 && ShiftRestAt(i, z, t, n, m, o, q)
    ensures Suffix(m, q)
  {}

  lemma ShiftRestKnown1(i: int, z: int, t: int, n: int, m: int, o: int, q: int)
    requires 68 <= i < 137 && ShiftRestAt(i, z, t, n, m, o, q)
    ensures Suffix(m, q)
  {}

  lemma ShiftRestKnown2(i: int, z: int, t: int, n: int, m: int, o: int, q: int)
    requires 137 <= i < 281 && ShiftRestAt(i, z, t, n, m, o, q)
    ensures Suffix(m, q)
  {}

  lemma ShiftRestKnown3(i: int, z: int, t: int, n: int, m: int, o: int, q: int)
    requires 281 <= i < 433 && ShiftRestAt(i, z, t, n, m, o, q)
    ensures Suffix(m, q)
  {}

  lemma ShiftRestKnown4(i: int, z: int, t: int, n: int, m: int, o: int, q: int)
    requires 433 <= i < 507 && ShiftRestAt(i, z, t, n, m, o, q)
    ensures Suffix(m, q)
  {}

  lemma ShiftRestKnown5(i: int, z: int, t: int, n: int, m: int, o: int, q: int)
    requires 507 <= i < 582 && ShiftRestAt(i, z, t, n, m, o, q)
    ensures Suffix(m, q)
  {}

  lemma ShiftRestKnown6(i: int, z: int, t: int, n: int, m: int, o: int, q: int)
    requires 582 <= i < 636 && ShiftRestAt(i, z, t, n, m, o, q)
    ensures Suffix(m, q)
  {}

  lemma ShiftRestKnown7(i: int, z: int, t: int, n: int, m: int, o: int, q: int)
    requires 636 <= i < 691 && ShiftRestAt(i, z, t, n, m, o, q)
    ensures Suffix(m, q)
  {}

  lemma ShiftRestKnown8(i: int, z: int, t: int, n: int, m: int, o: int, q: int)
    requires 691 <= i < 748 && ShiftRestAt(i, z, t, n, m, o, q)
    ensures Suffix(m, q)
  {}

  lemma ShiftRestKnown9(i: int, z: int, t: int, n: int, m: int, o: int, q: int)
    requires 748 <= i < 806 && ShiftRestAt(i, z, t, n, m, o, q)
    ensures Suffix(m, q)
  {}

  lemma ShiftRestKnown10(i: int, z: int, t: int, n: int, m: int, o: int, q: int)
    requires 806 <= i < 887 && ShiftRestAt(i, z, t, n, m, o, q)
    ensures Suffix(m, q)
  {}

  lemma ShiftRestKnown11(i: int, z: int, t: int, n: int, m: int, o: int, q: int)
    requires 887 <= i < 968 && ShiftRestAt(i, z, t, n, m, o, q)
    ensures Suffix(m, q)
  {}

  lemma ShiftRestKnown12(i: int, z: int, t: int, n: int, m: int, o: int, q: int)
    requires 968 <= i < 1053 && ShiftRestAt(i, z, t, n, m, o, q)
    ensures Suffix(m, q)
  {}

  lemma ShiftRestKnown13(i: int, z: int, t: int, n: int, m: int, o: int, q: int)
    requires 1053 <= i < 1139 && ShiftRestAt(i, z, t, n, m, o, q)
    ensures Suffix(m, q)
  {}

  lemma ShiftRestKnown14(i: int, z: int, t: int, n: int, m: int, o: int, q: int)
    requires 1139 <= i < 1229 && ShiftRestAt(i, z, t, n, m, o, q)
    ensures Suffix(m, q)
  {}

  lemma ShiftRestKnown15(i: int, z: int, t: int, n: int, m: int, o: int, q: int)
    requires 1229 <= i < 1319 && ShiftRestAt(i, z, t, n, m, o, q)
    ensures Suffix(m, q)
  {}

  lemma ShiftRestKnown16(i: int, z: int, t: int, n: int, m: int, o: int, q: int)
    requires 1319 <= i < 1452 && ShiftRestAt(i, z, t, n, m, o, q)
    ensures Suffix(m, q)
  {}

  lemma ShiftRestKnown17(i: int, z: int, t: int, n: int, m: int, o: int, q: int)
    requires 1452 <= i < 1511 && ShiftRestAt(i, z, t, n, m, o, q)
    ensures Suffix(m, q)
  {}

  lemma ShiftRestKnown18(i: int, z: int, t: int, n: int, m: int, o: int, q: int)
    requires 1511 <= i < 1570 && ShiftRestAt(i, z, t, n, m, o, q)
    ensures Suffix(m, q)
  {}

  lemma ShiftRestKnown(i: int, z: int, t: int, n: int, m: int, o: int, q: int)
    requires 0 <= i < 1570 && ShiftRestAt(i, z, t, n, m, o, q)
    ensures Suffix(m, q)
  {
    if i < 68 {
      ShiftRestKnown0(i, z, t, n, m, o, q);
    } else if i < 137 {
      ShiftRestKnown1(i, z, t, n, m, o, q);
    } else if i < 281 {
      ShiftRestKnown2(i, z, t, n, m, o, q);
    } else if i < 433 {
      ShiftRestKnown3(i, z, t, n, m, o, q);
    } else if i < 507 {
      ShiftRestKnown4(i, z, t, n, m, o, q);
    } else if i < 582 {
      ShiftRestKnown5(i, z, t, n, m, o, q);
    } else if i < 636 {
      ShiftRestKnown6(i, z, t, n, m, o, q);
    } else if i < 691 {
      ShiftRestKnown7(i, z, t, n, m, o, q);
    } else if i < 748 {
      ShiftRestKnown8(i, z, t, n, m, o, q);
    } else if i < 806 {
      ShiftRestKnown9(i, z, t, n, m, o, q);
    } else if i < 887 {
      ShiftRestKnown10(i, z, t, n, m, o, q);
    } else if i < 968 {
      ShiftRestKnown11(i, z, t, n, m, o, q);
    } else if i < 1053 {
      ShiftRestKnown12(i, z, t, n, m, o, q);
    } else if i < 1139 {
      ShiftRestKnown13(i, z, t, n, m, o, q);
    } else if i < 1229 {
      ShiftRestKnown14(i, z, t, n, m, o, q);
    } else if i < 1319 {
      ShiftRestKnown15(i, z, t, n, m, o, q);
    } else if i < 1452 {
      ShiftRestKnown16(i, z, t, n, m, o, q);
    } else if i < 1511 {
      ShiftRestKnown17(i, z, t, n, m, o, q);
    } else {
      ShiftRestKnown18(i, z, t, n, m, o, q);
    }
  }

  lemma ShiftRestsAreKnown()
    ensures Packed.RestsKnown(false, Action, Lookahead, ItemOf, ShiftRowItem, Suffix)
  {
    hide Action, Lookahead, Slot, SuffixPair, Suffix, ItemOf, ShiftRowItem;
    forall i | 0 <= i < YY_ACTTAB_COUNT && Action(i) < YY_MIN_REDUCE && Lookahead(i) < FIRST_NONTERMINAL
      ensures Suffix(ItemOf(Action(i)) - 1, ShiftRowItem(i - Lookahead(i)))
    {
      var o, n := i - Lookahead(i), ItemOf(Action(i));
      ShiftRestKnown(i, Lookahead(i), Action(i), n, n - 1, o, ShiftRowItem(o));
    }
  }

  predicate ShiftMainAt(i: int, z: int, t: int, k: int, o: int, j: int) {
    z == Lookahead(i) && z < FIRST_NONTERMINAL && t == Action(i) && t < YY_MIN_REDUCE && k == MainKey(t) &&
        o == i - z && j == k - 256
  }

  lemma ShiftMainNeedKnown0(i: int, z: int, t: int, k: int, o: int, j: int)
    requires 0 <= i < 137 && ShiftMainAt(i, z, t, k, o, j)
    ensures ShiftRowKey(o, j) == true
  {}

  lemma ShiftMainNeedKnown1(i: int, z: int, t: int, k: int, o: int, j: int)
    requires 137 <= i < 329 && ShiftMainAt(i, z, t, k, o, j)
    ensures ShiftRowKey(o, j) == true
  {}

  lemma ShiftMainNeedKnown2(i: int, z: int, t: int, k: int, o: int, j: int)
    requires 329 <= i < 531 && ShiftMainAt(i, z, t, k, o, j)
    ensures ShiftRowKey(o, j) == true
  {}

  lemma ShiftMainNeedKnown3(i: int, z: int, t: int, k: int, o: int, j: int)
    requires 531 <= i < 680 && ShiftMainAt(i, z, t, k, o, j)
    ensures ShiftRowKey(o, j) == true
  {}

  lemma ShiftMainNeedKnown4(i: int, z: int, t: int, k: int, o: int, j: int)
    requires 680 <= i < 837 && ShiftMainAt(i, z, t, k, o, j)
    ensures ShiftRowKey(o, j) == true
  {}

  lemma ShiftMainNeedKnown5(i: int, z: int, t: int, k: int, o: int, j: int)
    requires 837 <= i < 1002 && ShiftMainAt(i, z, t, k, o, j)
    ensures ShiftRowKey(o, j) == true
  {}

  lemma ShiftMainNeedKnown6(i: int, z: int, t: int, k: int, o: int, j: int)
    requires 1002 <= i < 1176 && ShiftMainAt(i, z, t, k, o, j)
    ensures ShiftRowKey(o, j) == true
  {}

  lemma ShiftMainNeedKnown7(i: int, z: int, t: int, k: int, o: int, j: int)
    requires 1176 <= i < 1346 && ShiftMainAt(i, z, t, k, o, j)
    ensures ShiftRowKey(o, j) == true
  {}

  lemma ShiftMainNeedKnown8(i: int, z: int, t: int, k: int, o: int, j: int)
    requires 1346 <= i < 1471 && ShiftMainAt(i, z, t, k, o, j)
    ensures ShiftRowKey(o, j) == true
  {}

  lemma ShiftMainNeedKnown9(i: int, z: int, t: int, k: int, o: int, j: int)
    requires 1471 <= i < 1570 && ShiftMainAt(i, z, t, k, o, j)
    ensures ShiftRowKey(o, j) == true
  {}

  lemma ShiftMainNeedKnown(i: int, z: int, t: int, k: int, o: int, j: int)
    requires 0 <= i < 1570 && ShiftMainAt(i, z, t, k, o, j)
    ensures ShiftRowKey(o, j) == true
  {
    if i < 137 {
      ShiftMainNeedKnown0(i, z, t, k, o, j);
    } else if i < 329 {
      ShiftMainNeedKnown1(i, z, t, k, o, j);
    } else if i < 531 {
      ShiftMainNeedKnown2(i, z, t, k, o, j);
    } else if i < 680 {
      ShiftMainNeedKnown3(i, z, t, k, o, j);
    } else if i < 837 {
      ShiftMainNeedKnown4(i, z, t, k, o, j);
    } else if i < 1002 {
      ShiftMainNeedKnown5(i, z, t, k, o, j);
    } else if i < 1176 {
      ShiftMainNeedKnown6(i, z, t, k, o, j);
    } else if i < 1346 {
      ShiftMainNeedKnown7(i, z, t, k, o, j);
    } else if i < 1471 {
      ShiftMainNeedKnown8(i, z, t, k, o, j);
    } else {
      ShiftMainNeedKnown9(i, z, t, k, o, j);
    }
  }

  lemma ShiftMainNeedsAreKnown()
    ensures Packed.MainNeedsKnown(false, Action, Lookahead, MainKey, ShiftRowKey)
  {
    hide Action, Lookahead, MainKey, ShiftRowKey;
    forall i | 0 <= i < YY_ACTTAB_COUNT && Action(i) < YY_MIN_REDUCE && Lookahead(i) < FIRST_NONTERMINAL
      ensures ShiftRowKey(i - Lookahead(i), MainKey(Action(i)) - 256) == true
    {
      var k := MainKey(Action(i));
      ShiftMainNeedKnown(i, Lookahead(i), Action(i), k, i - Lookahead(i), k - 256);
    }
  }

  predicate ShiftExtraAt(i: int, z: int, t: int, k: int, o: int, j: int) {
    z == Lookahead(i) && z < FIRST_NONTERMINAL && t == Action(i) && t < YY_MIN_REDUCE && ExtraKey(t, k) &&
        o == i - z && j == k - 256
  }

  lemma ShiftExtraNeedKnown0(i: int, z: int, t: int, k: int, o: int, j: int)
    requires 0 <= i < 196 && ShiftExtraAt(i, z, t, k, o, j)
    ensures ShiftRowKey(o, j) == true
  {}

  lemma ShiftExtraNeedKnown1(i: int, z: int, t: int, k: int, o: int, j: int)
    requires 196 <= i < 402 && ShiftExtraAt(i, z, t, k, o, j)
    ensures ShiftRowKey(o, j) == true
  {}

  lemma ShiftExtraNeedKnown2(i: int, z: int, t: int, k: int, o: int, j: int)
    requires 402 <= i < 691 && ShiftExtraAt(i, z, t, k, o, j)
    ensures ShiftRowKey(o, j) == true
  {}

  lemma ShiftExtraNeedKnown3(i: int, z: int, t: int, k: int, o: int, j: int)
    requires 691 <= i < 995 && ShiftExtraAt(i, z, t, k, o, j)
    ensures ShiftRowKey(o, j) == true
  {}

  lemma ShiftExtraAbsent(i: int, z: int, t: int, k: int)
    requires 995 <= i < 1315 && z == Lookahead(i) && z < FIRST_NONTERMINAL && t == Action(i) && t < YY_MIN_REDUCE
    ensures !ExtraKey(t, k)
  {}

  lemma ShiftExtraNeedKnown5(i: int, z: int, t: int, k: int, o: int, j: int)
    requires 1315 <= i < 1493 && ShiftExtraAt(i, z, t, k, o, j)
    ensures ShiftRowKey(o, j) == true
  {}

  lemma ShiftExtraNeedKnown6(i: int, z: int, t: int, k: int, o: int, j: int)
    requires 1493 <= i < 1570 && ShiftExtraAt(i, z, t, k, o, j)
    ensures ShiftRowKey(o, j) == true
  {}

  lemma ShiftExtraNeedKnown(i: int, z: int, t: int, k: int, o: int, j: int)
    requires 0 <= i < 1570 && ShiftExtraAt(i, z, t, k, o, j)
    ensures ShiftRowKey(o, j) == true
  {
    if i < 196 {
      ShiftExtraNeedKnown0(i, z, t, k, o, j);
    } else if i < 402 {
      ShiftExtraNeedKnown1(i, z, t, k, o, j);
    } else if i < 691 {
      ShiftExtraNeedKnown2(i, z, t, k, o, j);
    } else if i < 995 {
      ShiftExtraNeedKnown3(i, z, t, k, o, j);
    } else if i < 1315 {
      ShiftExtraAbsent(i, z, t, k);
    } else if i < 1493 {
      ShiftExtraNeedKnown5(i, z, t, k, o, j);
    } else {
      ShiftExtraNeedKnown6(i, z, t, k, o, j);
    }
  }

  lemma ShiftExtraNeedsAreKnown()
    ensures Packed.ExtraNeedsKnown(false, Action, Lookahead, ExtraKey, ShiftRowKey)
  {
    hide Action, Lookahead, ExtraKey, ShiftRowKey;
    forall i, k | 0 <= i < YY_ACTTAB_COUNT && Action(i) < YY_MIN_REDUCE && Lookahead(i) < FIRST_NONTERMINAL &&
        ExtraKey(Action(i), k)
      ensures ShiftRowKey(i - Lookahead(i), k - 256) == true
    {
      ShiftExtraNeedKnown(i, Lookahead(i), Action(i), k, i - Lookahead(i), k - 256);
    }
  }

  predicate GotoRestAt(i: int, z: int, t: int, n: int, m: int, o: int, q: int) {
    z == Lookahead(i) && FIRST_NONTERMINAL <= z && t == Action(i) && t < YY_MIN_REDUCE && n == ItemOf(t) && m == n - 1
    && o == i - z && q == GotoRowItem(o)
  }

  lemma GotoRestKnown0(i: int, z: int, t: int, n: int, m: int, o: int, q: int)
    requires 0 <= i < 196 && GotoRestAt(i, z, t, n, m, o, q)
    ensures Suffix(m, q)
  {}

  lemma GotoRestKnown1(i: int, z: int, t: int, n: int, m: int, o: int, q: int)
    requires 196 <= i < 333 && GotoRestAt(i, z, t, n, m, o, q)
    ensures Suffix(m, q)
  {}

  lemma GotoRestKnown2(i: int, z: int, t: int, n: int, m: int, o: int, q: int)
    requires 333 <= i < 471 && GotoRestAt(i, z, t, n, m, o, q)
    ensures Suffix(m, q)
  {}

  lemma GotoRestKnown3(i: int, z: int, t: int, n: int, m: int, o: int, q: int)
    requires 471 <= i < 612 && GotoRestAt(i, z, t, n, m, o, q)
    ensures Suffix(m, q)
  {}

  lemma GotoRestKnown4(i: int, z: int, t: int, n: int, m: int, o: int, q: int)
    requires 612 <= i < 686 && GotoRestAt(i, z, t, n, m, o, q)
    ensures Suffix(m, q)
  {}

  lemma GotoRestKnown5(i: int, z: int, t: int, n: int, m: int, o: int, q: int)
    requires 686 <= i < 761 && GotoRestAt(i, z, t, n, m, o, q)
    ensures Suffix(m, q)
  {}

  lemma GotoRestKnown6(i: int, z: int, t: int, n: int, m: int, o: int, q: int)
    requires 761 <= i < 839 && GotoRestAt(i, z, t, n, m, o, q)
    ensures Suffix(m, q)
  {}

  lemma GotoRestKnown7(i: int, z: int, t: int, n: int, m: int, o: int, q: int)
    requires 839 <= i < 918 && GotoRestAt(i, z, t, n, m, o, q)
    ensures Suffix(m, q)
  {}

  lemma GotoRestKnown8(i: int, z: int, t: int, n: int, m: int, o: int, q: int)
    requires 918 <= i < 975 && GotoRestAt(i, z, t, n, m, o, q)
    ensures Suffix(m, q)
  {}

  lemma GotoRestKnown9(i: int, z: int, t: int, n: int, m: int, o: int, q: int)
    requires 975 <= i < 1033 && GotoRestAt(i, z, t, n, m, o, q)
    ensures Suffix(m, q)
  {}

  lemma GotoRestKnown10(i: int, z: int, t: int, n: int, m: int, o: int, q: int)
    requires 1033 <= i < 1093 && GotoRestAt(i, z, t, n, m, o, q)
    ensures Suffix(m, q)
  {}

  lemma GotoRestKnown11(i: int, z: int, t: int, n: int, m: int, o: int, q: int)
    requires 1093 <= i < 1154 && GotoRestAt(i, z, t, n, m, o, q)
    ensures Suffix(m, q)
  {}

  lemma GotoRestKnown12(i: int, z: int, t: int, n: int, m: int, o: int, q: int)
    requires 1154 <= i < 1218 && GotoRestAt(i, z, t, n, m, o, q)
    ensures Suffix(m, q)
  {}

  lemma GotoRestKnown13(i: int, z: int, t: int, n: int, m: int, o: int, q: int)
    requires 1218 <= i < 1282 && GotoRestAt(i, z, t, n, m, o, q)
    ensures Suffix(m, q)
  {}

  lemma GotoRestKnown14(i: int, z: int, t: int, n: int, m: int, o: int, q: int)
    requires 1282 <= i < 1329 && GotoRestAt(i, z, t, n, m, o, q)
    ensures Suffix(m, q)
  {}

  lemma GotoRestKnown15(i: int, z: int, t: int, n: int, m: int, o: int, q: int)
    requires 1329 <= i < 1376 && GotoRestAt(i, z, t, n, m, o, q)
    ensures Suffix(m, q)
  {}

  lemma GotoRestKnown16(i: int, z: int, t: int, n: int, m: int, o: int, q: int)
    requires 1376 <= i < 1410 && GotoRestAt(i, z, t, n, m, o, q)
    ensures Suffix(m, q)
  {}

  lemma GotoRestKnown17(i: int, z: int, t: int, n: int, m: int, o: int, q: int)
    requires 1410 <= i < 1445 && GotoRestAt(i, z, t, n, m, o, q)
    ensures Suffix(m, q)
  {}

  lemma GotoRestKnown18(i: int, z: int, t: int, n: int, m: int, o: int, q: int)
    requires 1445 <= i < 1570 && GotoRestAt(i, z, t, n, m, o, q)
    ensures Suffix(m, q)
  {}

  lemma GotoRestKnown(i: int, z: int, t: int, n: int, m: int, o: int, q: int)
    requires 0 <= i < 1570 && GotoRestAt(i, z, t, n, m, o, q)
    ensures Suffix(m, q)
  {
    if i < 196 {
      GotoRestKnown0(i, z, t, n, m, o, q);
    } else if i < 333 {
      GotoRestKnown1(i, z, t, n, m, o, q);
    } else if i < 471 {
      GotoRestKnown2(i, z, t, n, m, o, q);
    } else if i < 612 {
      GotoRestKnown3(i, z, t, n, m, o, q);
    } else if i < 686 {
      GotoRestKnown4(i, z, t, n, m, o, q);
    } else if i < 761 {
      GotoRestKnown5(i, z, t, n, m, o, q);
    } else if i < 839 {
      GotoRestKnown6(i, z, t, n, m, o, q);
    } else if i < 918 {
      GotoRestKnown7(i, z, t, n, m, o, q);
    } else if i < 975 {
      GotoRestKnown8(i, z, t, n, m, o, q);
    } else if i < 1033 {
      GotoRestKnown9(i, z, t, n, m, o, q);
    } else if i < 1093 {
      GotoRestKnown10(i, z, t, n, m, o, q);
    } else if i < 1154 {
      GotoRestKnown11(i, z, t, n, m, o, q);
    } else if i < 1218 {
      GotoRestKnown12(i, z, t, n, m, o, q);
    } else if i < 1282 {
      GotoRestKnown13(i, z, t, n, m, o, q);
    } else if i < 1329 {
      GotoRestKnown14(i, z, t, n, m, o, q);
    } else if i < 1376 {
      GotoRestKnown15(i, z, t, n, m, o, q);
    } else if i < 1410 {
      GotoRestKnown16(i, z, t, n, m, o, q);
    } else if i < 1445 {
      GotoRestKnown17(i, z, t, n, m, o, q);
    } else {
      GotoRestKnown18(i, z, t, n, m, o, q);
    }
  }

  lemma GotoRestsAreKnown()
    ensures Packed.RestsKnown(true, Action, Lookahead, ItemOf, GotoRowItem, Suffix)
  {
    hide Action, Lookahead, Slot, SuffixPair, Suffix, ItemOf, GotoRowItem;
    forall i | 0 <= i < YY_ACTTAB_COUNT && Action(i) < YY_MIN_REDUCE && FIRST_NONTERMINAL <= Lookahead(i)
      ensures Suffix(ItemOf(Action(i)) - 1, GotoRowItem(i - Lookahead(i)))
    {
      var o, n := i - Lookahead(i), ItemOf(Action(i));
      GotoRestKnown(i, Lookahead(i), Action(i), n, n - 1, o, GotoRowItem(o));
    }
  }

  predicate GotoMainAt(i: int, z: int, t: int, k: int, o: int, j: int) {
    z == Lookahead(i) && FIRST_NONTERMINAL <= z && t == Action(i) && t < YY_MIN_REDUCE && k == MainKey(t) &&
        o == i - z && j == k - 256
  }

  lemma GotoMainNeedKnown0(i: int, z: int, t: int, k: int, o: int, j: int)
    requires 0 <= i < 196 && GotoMainAt(i, z, t, k, o, j)
    ensures GotoRowKey(o, j) == true
  {}

  lemma GotoMainNeedKnown1(i: int, z: int, t: int, k: int, o: int, j: int)
    requires 196 <= i < 388 && GotoMainAt(i, z, t, k, o, j)
    ensures GotoRowKey(o, j) == true
  {}

  lemma GotoMainNeedKnown2(i: int, z: int, t: int, k: int, o: int, j: int)
    requires 388 <= i < 590 && GotoMainAt(i, z, t, k, o, j)
    ensures GotoRowKey(o, j) == true
  {}

  lemma GotoMainNeedKnown3(i: int, z: int, t: int, k: int, o: int, j: int)
    requires 590 <= i < 728 && GotoMainAt(i, z, t, k, o, j)
    ensures GotoRowKey(o, j) == true
  {}

  lemma GotoMainNeedKnown4(i: int, z: int, t: int, k: int, o: int, j: int)
    requires 728 <= i < 863 && GotoMainAt(i, z, t, k, o, j)
    ensures GotoRowKey(o, j) == true
  {}

  lemma GotoMainNeedKnown5(i: int, z: int, t: int, k: int, o: int, j: int)
    requires 863 <= i < 996 && GotoMainAt(i, z, t, k, o, j)
    ensures GotoRowKey(o, j) == true
  {}

  lemma GotoMainNeedKnown6(i: int, z: int, t: int, k: int, o: int, j: int)
    requires 996 <= i < 1136 && GotoMainAt(i, z, t, k, o, j)
    ensures GotoRowKey(o, j) == true
  {}

  lemma GotoMainNeedKnown7(i: int, z: int, t: int, k: int, o: int, j: int)
    requires 1136 <= i < 1239 && GotoMainAt(i, z, t, k, o, j)
    ensures GotoRowKey(o, j) == true
  {}

  lemma GotoMainNeedKnown8(i: int, z: int, t: int, k: int, o: int, j: int)
    requires 1239 <= i < 1340 && GotoMainAt(i, z, t, k, o, j)
    ensures GotoRowKey(o, j) == true
  {}

  lemma GotoMainNeedKnown9(i: int, z: int, t: int, k: int, o: int, j: int)
    requires 1340 <= i < 1403 && GotoMainAt(i, z, t, k, o, j)
    ensures GotoRowKey(o, j) == true
  {}

  lemma GotoMainNeedKnown10(i: int, z: int, t: int, k: int, o: int, j: int)
    requires 1403 <= i < 1470 && GotoMainAt(i, z, t, k, o, j)
    ensures GotoRowKey(o, j) == true
  {}

  lemma GotoMainNeedKnown11(i: int, z: int, t: int, k: int, o: int, j: int)
    requires 1470 <= i < 1570 && GotoMainAt(i, z, t, k, o, j)
    ensures GotoRowKey(o, j) == true
  {}

  lemma GotoMainNeedKnown(i: int, z: int, t: int, k: int, o: int, j: int)
    requires 0 <= i < 1570 && GotoMainAt(i, z, t, k, o, j)
    ensures GotoRowKey(o, j) == true
  {
    if i < 196 {
      GotoMainNeedKnown0(i, z, t, k, o, j);
    } else if i < 388 {
      GotoMainNeedKnown1(i, z, t, k, o, j);
    } else if i < 590 {
      GotoMainNeedKnown2(i, z, t, k, o, j);
    } else if i < 728 {
      GotoMainNeedKnown3(i, z, t, k, o, j);
    } else if i < 863 {
      GotoMainNeedKnown4(i, z, t, k, o, j);
    } else if i < 996 {
      GotoMainNeedKnown5(i, z, t, k, o, j);
    } else if i < 1136 {
      GotoMainNeedKnown6(i, z, t, k, o, j);
    } else if i < 1239 {
      GotoMainNeedKnown7(i, z, t, k, o, j);
    } else if i < 1340 {
      GotoMainNeedKnown8(i, z, t, k, o, j);
    } else if i < 1403 {
      GotoMainNeedKnown9(i, z, t, k, o, j);
    } else if i < 1470 {
      GotoMainNeedKnown10(i, z, t, k, o, j);
    } else {
      GotoMainNeedKnown11(i, z, t, k, o, j);
    }
  }

  lemma GotoMainNeedsAreKnown()
    ensures Packed.MainNeedsKnown(true, Action, Lookahead, MainKey, GotoRowKey)
  {
    hide Action, Lookahead, MainKey, GotoRowKey;
    forall i | 0 <= i < YY_ACTTAB_COUNT && Action(i) < YY_MIN_REDUCE && FIRST_NONTERMINAL <= Lookahead(i)
      ensures GotoRowKey(i - Lookahead(i), MainKey(Action(i)) - 256) == true
    {
      var k := MainKey(Action(i));
      GotoMainNeedKnown(i, Lookahead(i), Action(i), k, i - Lookahead(i), k - 256);
    }
  }

  predicate GotoExtraAt(i: int, z: int, t: int, k: int, o: int, j: int) {
    z == Lookahead(i) && FIRST_NONTERMINAL <= z && t == Action(i) && t < YY_MIN_REDUCE && ExtraKey(t, k) &&
        o == i - z && j == k - 256
  }

  lemma GotoExtraNeedKnown0(i: int, z: int, t: int, k: int, o: int, j: int)
    requires 0 <= i < 196 && GotoExtraAt(i, z, t, k, o, j)
    ensures GotoRowKey(o, j) == true
  {}

  lemma GotoExtraNeedKnown1(i: int, z: int, t: int, k: int, o: int, j: int)
    requires 196 <= i < 471 && GotoExtraAt(i, z, t, k, o, j)
    ensures GotoRowKey(o, j) == true
  {}

  lemma GotoExtraNeedKnown2(i: int, z: int, t: int, k: int, o: int, j: int)
    requires 471 <= i < 660 && GotoExtraAt(i, z, t, k, o, j)
    ensures GotoRowKey(o, j) == true
  {}

  lemma GotoExtraNeedKnown3(i: int, z: int, t: int, k: int, o: int, j: int)
    requires 660 <= i < 845 && GotoExtraAt(i, z, t, k, o, j)
    ensures GotoRowKey(o, j) == true
  {}

  lemma GotoExtraNeedKnown4(i: int, z: int, t: int, k: int, o: int, j: int)
    requires 845 <= i < 1040 && GotoExtraAt(i, z, t, k, o, j)
    ensures GotoRowKey(o, j) == true
  {}

  lemma GotoExtraNeedKnown5(i: int, z: int, t: int, k: int, o: int, j: int)
    requires 1040 <= i < 1140 && GotoExtraAt(i, z, t, k, o, j)
    ensures GotoRowKey(o, j) == true
  {}

  lemma GotoExtraNeedKnown6(i: int, z: int, t: int, k: int, o: int, j: int)
    requires 1140 <= i < 1210 && GotoExtraAt(i, z, t, k, o, j)
    ensures GotoRowKey(o, j) == true
  {}

  lemma GotoExtraNeedKnown7(i: int, z: int, t: int, k: int, o: int, j: int)
    requires 1210 <= i < 1419 && GotoExtraAt(i, z, t, k, o, j)
    ensures GotoRowKey(o, j) == true
  {}

  lemma GotoExtraNeedKnown8(i: int, z: int, t: int, k: int, o: int, j: int)
    requires 1419 <= i < 1570 && GotoExtraAt(i, z, t, k, o, j)
    ensures GotoRowKey(o, j) == true
  {}

  lemma GotoExtraNeedKnown(i: int, z: int, t: int, k: int, o: int, j: int)
    requires 0 <= i < 1570 && GotoExtraAt(i, z, t, k, o, j)
    ensures GotoRowKey(o, j) == true
  {
    if i < 196 {
      GotoExtraNeedKnown0(i, z, t, k, o, j);
    } else if i < 471 {
      GotoExtraNeedKnown1(i, z, t, k, o, j);
    } else if i < 660 {
      GotoExtraNeedKnown2(i, z, t, k, o, j);
    } else if i < 845 {
      GotoExtraNeedKnown3(i, z, t, k, o, j);
    } else if i < 1040 {
      GotoExtraNeedKnown4(i, z, t, k, o, j);
    } else if i < 1140 {
      GotoExtraNeedKnown5(i, z, t, k, o, j);
    } else if i < 1210 {
      GotoExtraNeedKnown6(i, z, t, k, o, j);
    } else if i < 1419 {
      GotoExtraNeedKnown7(i, z, t, k, o, j);
    } else {
      GotoExtraNeedKnown8(i, z, t, k, o, j);
    }
  }

  lemma GotoExtraNeedsAreKnown()
    ensures Packed.ExtraNeedsKnown(true, Action, Lookahead, ExtraKey, GotoRowKey)
  {
    hide Action, Lookahead, ExtraKey, GotoRowKey;
    forall i, k | 0 <= i < YY_ACTTAB_COUNT && Action(i) < YY_MIN_REDUCE && FIRST_NONTERMINAL <= Lookahead(i) &&
        ExtraKey(Action(i), k)
      ensures GotoRowKey(i - Lookahead(i), k - 256) == true
    {
      GotoExtraNeedKnown(i, Lookahead(i), Action(i), k, i - Lookahead(i), k - 256);
    }
  }

  /** The entries that reduce. */
  predicate Reduces(i: int) {
    i == 228 || i == 231 || i == 263 || i == 266 || i == 332 || i == 622 || i == 630 || i == 719 || i == 720 ||
        i == 1101 || i == 1317 || i == 1565 || i == 1566
  }

  predicate ReduceAt(i: int, t: int) {
    t == Action(i) && YY_MIN_REDUCE <= t <= YY_MAX_REDUCE
  }

  lemma ReduceIndex0(i: int, t: int)
    requires 0 <= i < 316 && ReduceAt(i, t)
    ensures Reduces(i)
  {}

  lemma ReduceIndex1(i: int, t: int)
    requires 316 <= i < 680 && ReduceAt(i, t)
    ensures Reduces(i)
  {}

  lemma ReduceIndex2(i: int, t: int)
    requires 680 <= i < 1141 && ReduceAt(i, t)
    ensures Reduces(i)
  {}

  lemma ReduceIndex3(i: int, t: int)
    requires 1141 <= i < 1570 && ReduceAt(i, t)
    ensures Reduces(i)
  {}

  lemma ReduceEntry(i: int)
    requires Reduces(i)
    ensures Packed.ReduceKnown(Action, Lookahead, Length, Lhs, ShiftRowItem, ShiftRowKey, Suffix, i) == true
  {}

  lemma ReducesAreKnown()
    ensures Packed.ReducesKnown(Action, Lookahead, Length, Lhs, ShiftRowItem, ShiftRowKey, Suffix)
  {
    forall i | 0 <= i < YY_ACTTAB_COUNT && YY_MIN_REDUCE <= Action(i) <= YY_MAX_REDUCE
      ensures Packed.ReduceKnown(Action, Lookahead, Length, Lhs, ShiftRowItem, ShiftRowKey, Suffix, i)
    {
      if i < 316 {
        ReduceIndex0(i, Action(i));
      } else if i < 680 {
        ReduceIndex1(i, Action(i));
      } else if i < 1141 {
        ReduceIndex2(i, Action(i));
      } else {
        ReduceIndex3(i, Action(i));
      }
      ReduceEntry(i);
    }
  }
}
