/** The parser that parse.c ships: its tables pass every check, so the theorems about certified tables
    hold of it. */
module SqliteParser {
  import opened Lemon
  import opened Certificate
  import opened SqliteTables
  import opened SqliteCertificate
  import opened Runs
  import Bound
  import Packed
  import PackedCertified
  import P = Parser
  import Soundness
  import Entries = SqliteEntryChecks
  import States = SqliteStateChecks
  import Rules = SqliteRuleChecks

  const AUTOMATON: Packed.Automaton := Packed.Automaton(
    Action, Lookahead, ShiftOfst, ReduceOfst, Default, Fallback, Lhs, Length, Slot, CLASSES,
    ItemOf, MainKey, ExtraKey, ShiftRowItem, GotoRowItem, ShiftRowKey, GotoRowKey,
    SuffixPair, Suffix, Covers, Weight, 8, 2)

  const TABLES: Tables := Packed.TablesOf(AUTOMATON)
  ghost const CERT: Cert := Packed.CertOf(AUTOMATON)

  lemma RowsAreChecked()
    ensures Packed.RowsChecked(AUTOMATON)
  {
    hide Action, Lookahead, ShiftOfst, ReduceOfst, Default, Fallback, Lhs, Length, Slot, ItemOf, MainKey, ExtraKey,
         ShiftRowItem, GotoRowItem, ShiftRowKey, GotoRowKey, SuffixPair, Suffix, Covers, Weight;
    Entries.TopsAreCovered();
    Entries.ShiftRestsAreKnown();
    Entries.GotoRestsAreKnown();
    Entries.ShiftMainNeedsAreKnown();
    Entries.GotoMainNeedsAreKnown();
    Entries.ShiftExtraNeedsAreKnown();
    Entries.GotoExtraNeedsAreKnown();
    Entries.ReducesAreKnown();
    Entries.ActionsAreKnown();
    Rules.PendingIsKnown();
  }

  lemma StatesAreChecked()
    ensures Packed.StatesChecked(AUTOMATON)
  {
    hide Action, Lookahead, ShiftOfst, ReduceOfst, Default, Fallback, Lhs, Length, Slot, ItemOf, MainKey, ExtraKey,
         ShiftRowItem, GotoRowItem, ShiftRowKey, GotoRowKey, SuffixPair, Suffix, Covers, Weight;
    States.ShiftRowPastsAreHeld();
    States.GotoRowPastsAreHeld();
    States.ShiftRowGotosAreHeld();
    States.GotoRowGotosAreHeld();
    States.ShiftRowNeedsAreHeld();
    States.GotoRowNeedsAreHeld();
    States.DefaultPastsAreHeld();
    States.DefaultNeedsAreHeld();
    States.DefaultGotosAreHeld();
    States.FirstStateIsBare();
    States.OffsetsAreInRange();
  }

  lemma PositionsAreChecked()
    ensures Packed.PositionsChecked(AUTOMATON)
  {
    hide Action, Lookahead, ShiftOfst, ReduceOfst, Default, Fallback, Lhs, Length, Slot, ItemOf, MainKey, ExtraKey,
         ShiftRowItem, GotoRowItem, ShiftRowKey, GotoRowKey, SuffixPair, Suffix, Covers, Weight;
    Rules.SlotsAreInRules();
    Rules.SuffixDoesMean();
    Rules.PairsDoUnwind();
    Rules.ShiftRowItemsAreValid();
    Rules.GotoRowItemsAreValid();
  }

  lemma AutomatonIsChecked()
    ensures Packed.Checked(AUTOMATON)
  {
    hide Action, Lookahead, ShiftOfst, ReduceOfst, Default, Fallback, Lhs, Length, Slot, ItemOf, MainKey, ExtraKey,
         ShiftRowItem, GotoRowItem, ShiftRowKey, GotoRowKey, SuffixPair, Suffix, Covers, Weight;
    hide Packed.RowsChecked, Packed.StatesChecked, Packed.PositionsChecked;
    RowsAreChecked();
    StatesAreChecked();
    PositionsAreChecked();
    Rules.FallbacksDoSettle();
    Rules.RulesAreShaped();
    Rules.RulesDoLighten();
    Rules.CoversAreKnown();
    Rules.WeightsAreBounded();
  }

  lemma ShippedTablesAreCertified()
    ensures Certified(TABLES, CERT) && CERT.tokenWeight == 8 && CERT.floor == 2
  {
    hide Action, Lookahead, ShiftOfst, ReduceOfst, Default, Fallback, Lhs, Length, Slot, ItemOf, MainKey, ExtraKey,
         ShiftRowItem, GotoRowItem, ShiftRowKey, GotoRowKey, SuffixPair, Suffix, Covers, Weight;
    hide Packed.Checked, Certified;
    AutomatonIsChecked();
    PackedCertified.CheckedCertified(AUTOMATON);
  }

  /** Whatever the shipped parser accepts, having taken it in undisturbed, is a sentence of its grammar. */
  lemma ShippedParserIsSound(toks: seq<Token>, next: Token)
    requires AllTerminal(toks) && Terminal(next)
    ensures Certified(TABLES, CERT) == true
    ensures Soundness.Undisturbed(Feed(TABLES, CERT, toks).log)
            && Soundness.Accepts(Run(TABLES, CERT, Feed(TABLES, CERT, toks), next).log)
            ==> Soundness.Sentence(TABLES, toks)
  {
    hide *;
    ShippedTablesAreCertified();
    if Soundness.Undisturbed(Feed(TABLES, CERT, toks).log)
       && Soundness.Accepts(Run(TABLES, CERT, Feed(TABLES, CERT, toks), next).log) {
      Soundness.AcceptedInputIsSentence(TABLES, CERT, toks, next);
    }
  }

  /** Eight reductions at most for every token shifted, and 198 more for each time the stack overflows. */
  lemma ShippedParserWork(toks: seq<Token>)
    requires AllTerminal(toks)
    ensures Certified(TABLES, CERT) == true
    ensures var log := Feed(TABLES, CERT, toks).log;
            Bound.Reductions(log) <= 8 * Bound.Shifts(log) + 198 * (Bound.Overflows(log) + 1)
  {
    hide Action, Lookahead, ShiftOfst, ReduceOfst, Default, Fallback, Lhs, Length, Slot, ItemOf, MainKey, ExtraKey,
         ShiftRowItem, GotoRowItem, ShiftRowKey, GotoRowKey, SuffixPair, Suffix, Covers, Weight;
    hide Certified, Feed, Bound.Reductions, Bound.Shifts, Bound.Overflows;
    ShippedTablesAreCertified();
    Bound.ReductionsBounded(TABLES, CERT, toks);
  }

  /** sqlite3ParserAlloc with the shipped tables: every method of the object may then be called. */
  method NewParser() returns (p: P.Parser)
    ensures fresh(p) && fresh(p.yystack) && p.Valid()
    ensures p.tab == TABLES && p.State() == INITIAL
  {
    hide *;
    ShippedTablesAreCertified();
    p := new P.Parser(TABLES, CERT);
  }
}
