# The SQL front end of SQLite 3.15.2, as bundled by HoldGold

HoldGold bundles SQLite (inside WCDBOptimizedSQLCipher).  Its front end turns SQL text into syntax trees: a keyword
recogniser names the words, and an LALR(1) push-down machine, generated by Lemon, parses the tokens and runs an action
for every rule it reduces.  This project models that machine, the tables it is shipped with, the actions that rewrite or
link what they build, and the recogniser, and proves what they are for.

## Contents

| file | what it holds |
|---|---|
| Lemon.dfy | the tables, the action lookup, the grammar and its derivation trees |
| Certificate.dfy | what is to be known about each automaton state, and the local checks that establish it |
| Machine.dfy | the machine as a function, with a log of what happens to semantic values; the invariant of all runs |
| Invariant.dfy | every step keeps the invariant, and every assertion in the source holds |
| Runs.dfy, Bound.dfy | whole runs, termination, and a bound on the work |
| Soundness.dfy | what is accepted is a sentence; the stack always spells the pending tokens |
| Conservation.dfy, Identity.dfy | every semantic value is given up exactly once; where one leaks |
| Deferral.dfy | shift-reduce actions against the machine that reduces at once |
| Parser.dfy | the parser object with its fixed stack, updated in place |
| Packed.dfy, PackedCertified.dfy | tables as functions; entry-by-entry checks are enough |
| SqliteTables.dfy, SqliteCertificate.dfy | the shipped tables, and a certificate for them |
| SqliteEntryChecks.dfy, SqliteStateChecks.dfy, SqliteRuleChecks.dfy | the checks, a stretch at a time |
| SqliteParser.dfy | the theorems for the shipped parser |
| KeywordTables.dfy, KeywordIndex.dfy, Keywords.dfy | the keyword recogniser |
| Expressions.dfy, ExpressionActions.dfy, Rewriting.dfy | expression nodes and their values; the actions; that meaning is preserved |
| RewritingLimits.dfy, OrdinaryExpressions.dfy | exactly where it is not; expressions for which it always is |
| Engines.dfy | the same for the conversions and comparisons that the interpreter makes |
| Spans.dfy, SqliteSpans.dfy | source spans of expressions |
| Scenarios.dfy, SqliteScenarios.dfy | two inputs followed step by step: one that leaks, one whose end is short |
| SelectChain.dfy | compound SELECTs |
| ForeignKeyActions.dfy, TriggerSteps.dfy | the folded foreign-key word; trigger step lists |
| GrowingStack.dfy | the stack of the build without a fixed depth |
| Unbounded.dfy, GrowingParser.dfy | the machine without a depth limit, and the parser on that stack |

## How the machine is proved

A certificate says, for every automaton state, which slots of which rule the symbols on top of the stack fill, and which
gotos must exist in the states further down.  Local checks on table entries, table rows, states and rules make the
invariant of all runs inductive; weights on symbols make every reduce lighten the stack.  The theorems hold for all tables
that pass, and the shipped tables pass.  A semantic value is modelled as the rule that built it with the values that the
rule consumed, which is as much as any action can depend on.

Six facts about the code that the proofs depend on or bring out:

* The generator removes some unit rules (`expr ::= term` among them) by sending their goto straight on.  On the stack a
  `term` can therefore sit where a rule asks for an `expr`; a reduce finds its right-hand side up to these rules, and the
  soundness proof puts them back.
* An overflow found while reducing an empty rule discards the live value on top of the stack without its destructor,
  because yyStackOverflow steps down first and here nothing has been pushed (parse.c:1814-1832, 2259-2283).
  An overflow found while shifting loses nothing that was on the stack.
* The comment at parse.c:3415-3422 says that the value of a one-value IN is marked so that it cannot contribute to the
  affinity of the comparison.  It still does when the value is a COLLATE expression or a call of likely(), unlikely() or
  likelihood(), because sqlite3ExprAffinity skips these before it looks at the mark (src/expr.c:45-48, 104-122), and when
  it is a name that stands for another expression, because resolving the name overwrites the mark (src/resolve.c:64-101,
  src/select.c:3118-3146).  The model follows the code.
* The operand of a BETWEEN or CASE is compared from a register, and there the affinity below a COLLATE, a likelihood
  function or a subquery is lost, and so is the collating sequence below a CAST or unary plus (src/expr.c:3268-3273).

  How two values compare is left to the environment, as a function of the affinity and collating sequence of the
  comparison, so "right under every order" means right for every such function.  For each kind of comparison the tree is
  right in this sense if and only if it compares the way SQL says or a side is null.  In Engines the conversions of the
  interpreter are modelled, only collating functions and the conversions themselves are left open, and the condition
  looks at the types of the values as well.  "The way SQL says" is that
  columns, casts and subqueries have an affinity, which parentheses, COLLATE and likelihoods pass on; that the leftmost
  COLLATE decides, and else the column; and that the values of an IN list do not take part.

* NOT, AND and OR as values go by the integer part of their operands, while a jump goes by the real value
  (src/vdbe.c:2265-2315, 2365-2377), and the condition of a WHEN is compiled to jumps that take AND, OR and NOT apart.  The
  meaning of a condition is defined accordingly.
* The recorded end of `expr IN name(arguments)` stops at the name (parse.c:3466-3476).  That is the only way in which a
  recorded span is not exact.  SqliteScenarios gives an input for this and for the leak.

The three-valued meaning of IN, BETWEEN and the null test is that of sections 8.3, 8.4 and 8.6 of ISO/IEC 9075:1992;
the empty list is an extension of SQLite.

`dafny verify dfyconfig.toml` checks everything, and so does
`dafny verify --resource-limit 2000000 --verification-time-limit 0 *.dfy`.

## Model

| member | source | states |
|---|---|---|
| Lemon.FindShiftAction | HoldGold/Pods/WCDBOptimizedSQLCipher/parse.c:1721-1778 | The displacement lookup with its collision check answers what the plain two-dimensional row answers: the token itself, then its fallback, then the wildcard (never for end of input), then the default of the state. Every index it forms is in range, and the fallback loop ends after at most one retry. |
| Lemon.FindReduceAction | HoldGold/Pods/WCDBOptimizedSQLCipher/parse.c:1784-1809 | The goto lookup, which has no collision check at run time, answers the entry of the plain goto row of its state: where the assertions of the source hold, the row has an entry for the nonterminal, and the cell that is read is that entry and not one of another row. |
| Lemon.GotoDefinedIs | HoldGold/Pods/WCDBOptimizedSQLCipher/parse.c:1795-1807 | The assertions hold exactly for the nonterminals that the plain row has an entry for. |
| Invariant.ActionCases | HoldGold/Pods/WCDBOptimizedSQLCipher/parse.c:351-397 | Every answer other than the error action is a certified move or a certified reduce on a terminal that the token stands for. |
| Invariant.NextAction | HoldGold/Pods/WCDBOptimizedSQLCipher/parse.c:4089-4100 | In every reachable state, on every terminal, the action is a shift, a reduce that is due, or exactly the error action, so the assertion on the error branch holds; a shift keeps the invariant. |
| Invariant.DueCanReduce | HoldGold/Pods/WCDBOptimizedSQLCipher/parse.c:3955-3958 | A reduce that is due finds a symbol fitting every slot of its right-hand side on top of the stack, leaves at least the base entry below, and uncovers a real state with a defined goto. |
| Invariant.ReduceKeeps | HoldGold/Pods/WCDBOptimizedSQLCipher/parse.c:2241-3973 | Every due reduce, overflow and acceptance included, keeps the invariant of all runs: known symbols and gotos below each entry, pseudo-states on top only, state 0 at the base only, height 1 to 100. |
| Invariant.ShiftKeeps | HoldGold/Pods/WCDBOptimizedSQLCipher/parse.c:1857-1892 | Every shift that a lookup answers keeps the same invariant. |
| Invariant.AcceptAtBase | HoldGold/Pods/WCDBOptimizedSQLCipher/parse.c:4021-4040 | When the goto of a reduce is not a state, it is the accept action, the rule is the start rule, and exactly the base entry is left: the assertions before and in yy_accept hold. |
| Invariant.ReduceCases | HoldGold/Pods/WCDBOptimizedSQLCipher/parse.c:2259-3973 | A due reduce does one of three things, each given in full: drops the top value and empties a full stack, replaces its right-hand side by one value built from it, or accepts the whole stack. |
| Runs.ReduceWeight | HoldGold/Pods/WCDBOptimizedSQLCipher/parse.c:1897-2233 | Every reduce that does not overflow makes the stack strictly lighter under the weights of the certificate. |
| Runs.Run | HoldGold/Pods/WCDBOptimizedSQLCipher/parse.c:4089-4201 | One call ends, because of that weight, and leaves a stack that satisfies the invariant. |
| Runs.Feed | HoldGold/Pods/WCDBOptimizedSQLCipher/parse.c:4060-4205 | So does any sequence of calls on a new parser. |
| Bound.ReductionsBounded | HoldGold/Pods/WCDBOptimizedSQLCipher/parse.c:4089-4201 | Over any sequence of calls the reductions number at most tokenWeight for each token shifted plus floor * 99 for each overflow and once more. |
| Soundness.Derivation | HoldGold/Pods/WCDBOptimizedSQLCipher/parse.c:3895-3953 | A value that fits a slot gives a derivation tree from the slot with the same tokens; the unit rules that the generator optimized out are put back. |
| Soundness.RefuseFaithful | HoldGold/Pods/WCDBOptimizedSQLCipher/parse.c:4165-4180 | The error branch leaves the tokens spelled by the stack as they were. |
| Soundness.FeedFaithful | HoldGold/Pods/WCDBOptimizedSQLCipher/parse.c:4060-4205 | After any calls the stack spells exactly the tokens shifted since it last held only its base entry, and everything accepted so far was a sentence of the grammar at that moment. |
| Soundness.AcceptedInputIsSentence | HoldGold/Pods/WCDBOptimizedSQLCipher/parse.c:4021-4201 | If a new parser takes in all tokens undisturbed and the next call ends by accepting, the tokens are a sentence derived from the start symbol, each read as itself, its fallback or the wildcard. |
| Conservation.FeedConserved | HoldGold/Pods/WCDBOptimizedSQLCipher/parse.c:1669-1832 | After any calls, overflows included, every value was created exactly as often as it was consumed by a reduce, destroyed, leaked or accepted, or is still on the stack; equal values are counted together here, and told apart in Identity. |
| Conservation.FreeSettles | HoldGold/Pods/WCDBOptimizedSQLCipher/parse.c:1692-1705 | Once the parser is freed, every value ever created was given up exactly as often, equal values counted together. |
| Identity.OnceEach | HoldGold/Pods/WCDBOptimizedSQLCipher/parse.c:1669-1832 | In any log in which every event gives up the newest values held, each creating event has a serial number that is held or was given up, and only once. |
| Identity.EachOnce | HoldGold/Pods/WCDBOptimizedSQLCipher/parse.c:4060-4205 | After any calls, with every single value numbered by the event that created it: every event gave up exactly the newest values held, in last-in first-out order; each numbered value was given up at most once; and those held are, in order, the values on the stack. |
| Identity.FreedOnce | HoldGold/Pods/WCDBOptimizedSQLCipher/parse.c:1692-1705 | Once the parser is freed, each numbered value has been given up exactly once, so values that are equal, such as those of one empty rule, are disposed of one by one. |
| Conservation.ShiftLeaksNothing | HoldGold/Pods/WCDBOptimizedSQLCipher/parse.c:1864-1875 | A shift discards no value without its destructor, not even one that overflows. |
| Conservation.ReduceLeak | HoldGold/Pods/WCDBOptimizedSQLCipher/parse.c:2259-2283 | A reduce discards a value without its destructor exactly when its rule is empty and the stack is full, and then exactly the live value on top. |
| SqliteScenarios.ShippedParserLeaks | HoldGold/Pods/WCDBOptimizedSQLCipher/parse.c:2259-2283 | It happens: for all tokens spelling SELECT, 89 open parentheses, SELECT, a name and a close parenthesis, the log of the shipped parser says that the value of the expression made of the name was discarded without its destructor. |
| Deferral.PendingReduce | HoldGold/Pods/WCDBOptimizedSQLCipher/parse.c:986-988 | A pending reduce of a pseudo-state is always possible, neither overflows nor accepts, and leaves a lighter stack. |
| Deferral.RunSettles | HoldGold/Pods/WCDBOptimizedSQLCipher/parse.c:351-365 | From every reachable state, performing the pending reduces after a call gives exactly the stack and log of the machine that shifts and then reduces at once. |
| Deferral.FeedSettles | HoldGold/Pods/WCDBOptimizedSQLCipher/parse.c:1884-1886 | Over any input the two machines agree once the pending reduces are settled. |
| Deferral.SettleOnlyReduces | HoldGold/Pods/WCDBOptimizedSQLCipher/parse.c:3955-3965 | Settling adds nothing but reductions, so the two machines have accepted, refused and overflowed at the same points. |
| Parser.Parser.constructor | HoldGold/Pods/WCDBOptimizedSQLCipher/parse.c:1516-1540 | A new parser holds only the base entry and satisfies the invariant. |
| Parser.Parser.PopParserStack | HoldGold/Pods/WCDBOptimizedSQLCipher/parse.c:1669-1686 | Pops one entry above the base and hands its value to its destructor. |
| Parser.Parser.StackOverflow | HoldGold/Pods/WCDBOptimizedSQLCipher/parse.c:1814-1832 | Steps down once without a destructor, then destroys everything down to the base, from the top down. |
| Parser.Parser.Shift | HoldGold/Pods/WCDBOptimizedSQLCipher/parse.c:1857-1892 | Does to the array what the shift of module Machine does to a machine value. |
| Parser.Parser.Reduce | HoldGold/Pods/WCDBOptimizedSQLCipher/parse.c:2241-3973 | Does to the array what the reduce of module Machine does; no write is outside the stack, the slot of an empty rule included. |
| Parser.Parser.Parse | HoldGold/Pods/WCDBOptimizedSQLCipher/parse.c:4060-4205 | One call of the parser ends, keeps the top index inside the stack and the invariant, and leaves the state that Run gives. |
| Parser.Parser.Free | HoldGold/Pods/WCDBOptimizedSQLCipher/parse.c:1692-1705 | Destroys everything above the base. |
| PackedCertified.CheckedCertified | HoldGold/Pods/WCDBOptimizedSQLCipher/parse.c:367-399 | Tables and certificate given as functions that pass the entry-by-entry checks satisfy every hypothesis of the theorems. |
| SqliteParser.ShippedTablesAreCertified | HoldGold/Pods/WCDBOptimizedSQLCipher/parse.c:400-971 | The shipped tables (460 states, 332 rules, 1570 entries) pass, with 8 as the weight of a token and -2 as the floor. |
| SqliteParser.ShippedParserIsSound | HoldGold/Pods/WCDBOptimizedSQLCipher/parse.c:1125-1459 | Whatever the shipped parser accepts, taken in undisturbed, is a sentence of the shipped grammar. |
| SqliteParser.ShippedParserWork | HoldGold/Pods/WCDBOptimizedSQLCipher/parse.c:1897-2233 | The shipped parser makes at most 8 reductions for each token shifted, and 198 for each overflow and once more. |
| SqliteParser.NewParser | HoldGold/Pods/WCDBOptimizedSQLCipher/parse.c:1516-1540 | A parser object with the shipped tables satisfies its invariant, so that every method may be called on it. |
| KeywordIndex.OnItsChain | HoldGold/Pods/WCDBOptimizedSQLCipher/keywordhash.h:60-83 | Every keyword is on the chain that its own hash selects. |
| KeywordIndex.NextDescends | HoldGold/Pods/WCDBOptimizedSQLCipher/keywordhash.h:72-83 | Every chain goes strictly down and stays among the keywords. |
| KeywordIndex.KeywordInText | HoldGold/Pods/WCDBOptimizedSQLCipher/keywordhash.h:84-107 | Every keyword lies inside the packed text and has at least two letters. |
| Keywords.SpelledHash | HoldGold/Pods/WCDBOptimizedSQLCipher/keywordhash.h:138 | Bytes that spell a keyword, in any mixture of cases, hash to its chain. |
| Keywords.SpellsOne | HoldGold/Pods/WCDBOptimizedSQLCipher/keywordhash.h:84-107 | No bytes spell two different keywords. |
| Keywords.Compare | HoldGold/Pods/WCDBOptimizedSQLCipher/keywordhash.h:141-149 | The comparison loop decides whether the bytes spell the keyword and reads only inside both texts. |
| Keywords.KeywordCode | HoldGold/Pods/WCDBOptimizedSQLCipher/keywordhash.h:137-279 | For all bytes and lengths, the hashed search sets the code that a linear scan over the 124 keywords finds, leaves the incoming code if there is none, and returns n. |
| Keywords.SqliteKeywordCode | HoldGold/Pods/WCDBOptimizedSQLCipher/keywordhash.h:280-284 | The same, starting from TK_ID. |
| Keywords.ScanDecides | HoldGold/Pods/WCDBOptimizedSQLCipher/keywordhash.h:135-285 | The scan answers the code of a keyword if that keyword is spelled, and the incoming code if none is. |
| Rewriting.PExprMeans | HoldGold/Pods/WCDBOptimizedSQLCipher/src/expr.c:818-905 | A binary node, the AND with a constant false operand that is folded to 0 included, has the three-valued value of its operator. |
| Rewriting.IntegerIs | HoldGold/Pods/WCDBOptimizedSQLCipher/src/expr.c:1814-1843 | When sqlite3ExprIsInteger gives a number, that is the value of the expression. |
| Rewriting.LikeTokenRoundTrip | HoldGold/Pods/WCDBOptimizedSQLCipher/parse.c:3292-3327 | The top bit of the length word carries NOT from one action to the next, and length and flag are both recovered for every length below 2^31. |
| Rewriting.IsValue | HoldGold/Pods/WCDBOptimizedSQLCipher/parse.c:180-190 | IS and IS NOT keep their meaning, whether or not a NULL on the right turns them into ISNULL and NOTNULL, if the operands keep theirs and are compared the way SQL says or one is null. |
| Rewriting.BetweenValue | HoldGold/Pods/WCDBOptimizedSQLCipher/parse.c:3376-3391 | [NOT] BETWEEN means the conjunction of its two comparisons, negated for NOT, if the operands keep their meaning and each comparison, made from a register, is made the way SQL says or involves a null. |
| Rewriting.SearchMeans | HoldGold/Pods/WCDBOptimizedSQLCipher/src/expr.c:2758-2803 | Searching a list (found, or else unknown if the list holds a null) answers the three-valued OR of the equalities. |
| Rewriting.OneItemMeans | HoldGold/Pods/WCDBOptimizedSQLCipher/parse.c:3406-3434 | The comparison that replaces a one-value IN or NOT IN has the same three-valued answer, when it is made the way SQL says or involves a null. |
| Rewriting.CaseMeans | HoldGold/Pods/WCDBOptimizedSQLCipher/parse.c:3489-3519 | A CASE means the result of its first WHEN that holds, else its ELSE, else null, with or without an operand, if every comparison in it is made the way SQL says or involves a null. |
| Rewriting.BuildDecides | HoldGold/Pods/WCDBOptimizedSQLCipher/src/expr.c:4319-4460 | As the condition of a WHEN, under the same proviso, the tree is decided as the expression should be: AND, OR and NOT are taken apart into jumps, which go by the real value of what is left. |
| Rewriting.HalfIsTrueAndNotTrue | HoldGold/Pods/WCDBOptimizedSQLCipher/src/vdbe.c:2306-2377 | The two truth tests differ: NOT, AND and OR as values go by the integer part, so CASE WHEN 0.5 THEN NOT 0.5 END is 1. |
| Rewriting.BuildMeans | HoldGold/Pods/WCDBOptimizedSQLCipher/parse.c:3135-3519 | For every expression and every environment: if each comparison that is made in it is made the way SQL says (affinity and collating sequence) or involves a null, the tree that the actions build evaluates to what the expression means. |
| RewritingLimits.WaysExactly | HoldGold/Pods/WCDBOptimizedSQLCipher/src/expr.c:186-330 | Two ways of comparing two values give the same answer under every order of values if and only if they are the same way or a value is null. |
| RewritingLimits.OperandsExactly | HoldGold/Pods/WCDBOptimizedSQLCipher/parse.c:3415-3431 | For any two operands, negated or not: the comparison that replaces a one-value IN agrees with the IN under every order of values if and only if a side is null or what the value contributes does not change the comparison. |
| RewritingLimits.PairExactly | HoldGold/Pods/WCDBOptimizedSQLCipher/src/expr.c:303-330 | A comparison as written is evaluated rightly under every order of values if and only if the tree makes it the way SQL says or it involves a null. |
| RewritingLimits.IsExactly | HoldGold/Pods/WCDBOptimizedSQLCipher/parse.c:180-190 | The same for IS and IS NOT, turned into a null test or not. |
| RewritingLimits.OneItemExactly | HoldGold/Pods/WCDBOptimizedSQLCipher/parse.c:3406-3434 | The same for the one-value IN and NOT IN, whatever the two sides are: the rewriting is right under every order of values if and only if what its value still contributes does not change how the comparison is made, or a side is null. |
| RewritingLimits.LongListExactly | HoldGold/Pods/WCDBOptimizedSQLCipher/src/expr.c:2488-2560 | The same for IN and NOT IN over two or more values. |
| RewritingLimits.InSelectExactly | HoldGold/Pods/WCDBOptimizedSQLCipher/src/expr.c:2450-2487 | The same for IN and NOT IN over a subquery. |
| RewritingLimits.BetweenExactly | HoldGold/Pods/WCDBOptimizedSQLCipher/src/expr.c:4132-4168 | The same for BETWEEN and NOT BETWEEN, whose operand is compared from a register. |
| RewritingLimits.CaseExactly | HoldGold/Pods/WCDBOptimizedSQLCipher/src/expr.c:3822-3872 | A CASE with an operand, any number of WHENs, with or without ELSE, and results that differ: it is right under every order of values if and only if each of its comparisons is made the way SQL says, involves a null, or has no say because earlier WHENs have the same value compared in the one way and in the other. |
| RewritingLimits.StrayKindIs | HoldGold/Pods/WCDBOptimizedSQLCipher/src/expr.c:45-151 | What the value of a one-value IN still contributes, read off the text: nothing, except the affinity below a COLLATE or a likelihood function, and everything if it is a name for another expression. |
| OrdinaryExpressions.KindIs | HoldGold/Pods/WCDBOptimizedSQLCipher/src/expr.c:45-151 | For every ordinary expression (a condition on the text, given in OrdinaryExpressions.Ordinary) the tree has the affinity, the collating sequence and the explicitness that SQL gives the expression; the leftmost COLLATE wins, however deep it is. |
| OrdinaryExpressions.OrdinaryMeans | HoldGold/Pods/WCDBOptimizedSQLCipher/parse.c:3135-3519 | The tree for an ordinary expression evaluates to what the expression means, in every environment. |
| OrdinaryExpressions.OneItemCondition | HoldGold/Pods/WCDBOptimizedSQLCipher/parse.c:3415-3431 | With an ordinary left side, the one-value IN is right under every order of values if and only if a side is null or the contribution read off the text does not change the comparison. |
| OrdinaryExpressions.DressedFails | HoldGold/Pods/WCDBOptimizedSQLCipher/parse.c:3415-3431 | For a text column x and a numeric column y, both not null, x IN (y COLLATE c), x IN (likely(y)) and x IN (alias of y), negated or not, each go wrong under some order of values; x IN (y) is right. |
| OrdinaryExpressions.CollatedBetweenFails | HoldGold/Pods/WCDBOptimizedSQLCipher/src/expr.c:3268-3273 | For a text column x that is not null, x COLLATE c BETWEEN two numbers goes wrong under some order of values. |
| Engines.EnginesExactly | HoldGold/Pods/WCDBOptimizedSQLCipher/src/vdbe.c:1986-2080 | With the conversions of the interpreter (texts that look like numbers to numbers, numbers to texts, never a blob) and its comparison of what results, two ways of comparing two values give the same answer in every engine if and only if they are indifferent for these values, which is read off the two ways and the types of the values. |
| Engines.PairInEngines | HoldGold/Pods/WCDBOptimizedSQLCipher/src/vdbe.c:1986-2080 | A comparison as written is right in every engine if and only if the way the tree makes it and the way SQL means it are indifferent for the values. |
| Engines.IsInEngines | HoldGold/Pods/WCDBOptimizedSQLCipher/src/vdbe.c:1986-2080 | The same for IS and IS NOT. |
| Engines.OneItemInEngines | HoldGold/Pods/WCDBOptimizedSQLCipher/parse.c:3415-3431 | The same for the one-value IN and NOT IN. |
| Engines.TextColumnsRight | HoldGold/Pods/WCDBOptimizedSQLCipher/parse.c:3415-3431 | For two text columns that hold texts, x IN (y COLLATE c) and x IN (likely(y)), negated or not, are right in every engine. |
| Engines.DressedGoesWrong | HoldGold/Pods/WCDBOptimizedSQLCipher/parse.c:3415-3431 | With the text 1.0 in the text column x and the number 1 in the numeric column y, x IN (y COLLATE c), x IN (likely(y)) and x IN (alias of y) evaluate to 1 where SQL says 0, and their negations to 0 where SQL says 1. |
| Rewriting.OneMoreWhen | HoldGold/Pods/WCDBOptimizedSQLCipher/parse.c:3504-3511 | Each further WHEN appends its condition and its result to the flat list. |
| Rewriting.CaseListInvertible | HoldGold/Pods/WCDBOptimizedSQLCipher/parse.c:3489-3519 | The flat list is of odd length exactly when there is an ELSE, and gives back the pairs in order and the ELSE. |
| Spans.SpanExact | HoldGold/Pods/WCDBOptimizedSQLCipher/parse.c:3135-3501 | For every expression value: it starts where its first token starts, and it ends where its last token ends if and only if its right edge is not an IN with a table name and an argument list; it never ends later. |
| Spans.SpansNest | HoldGold/Pods/WCDBOptimizedSQLCipher/parse.c:112-205 | The span of every operand lies within the span of the expression. |
| Spans.StackSpans | HoldGold/Pods/WCDBOptimizedSQLCipher/parse.c:4060-4205 | After taking in tokens in order undisturbed, every expression on the stack has the right span in that sense. |
| SqliteSpans.ShippedSpanGrammar | HoldGold/Pods/WCDBOptimizedSQLCipher/parse.c:1125-1459 | The shipped grammar has the shape that these span theorems ask for. |
| SqliteSpans.ShippedSpans | HoldGold/Pods/WCDBOptimizedSQLCipher/parse.c:3466-3476 | So the shipped parser has exact spans, the IN with a table name excepted as stated. |
| SqliteScenarios.ShippedParserEndsShort | HoldGold/Pods/WCDBOptimizedSQLCipher/parse.c:3466-3476 | The exception happens: after the tokens SELECT x IN f ( 1 ) + the stack of the shipped parser holds the expression of the six tokens x to ), and its recorded end is that of f, before the end of the close parenthesis. |
| SelectChain.ParserDoubleLinkSelect | HoldGold/Pods/WCDBOptimizedSQLCipher/parse.c:90-105 | For every chain: it ends; with two or more nodes each becomes the pNext of its prior, the newest has none, all are flagged compound, the priors are unchanged; and the error is raised exactly when the limit is positive, the length exceeds it, and the newest node is not flagged as many values. |
| SelectChain.NextRow | HoldGold/Pods/WCDBOptimizedSQLCipher/parse.c:2781-2796 | A further VALUES row moves SF_MultiValue to the new newest node. |
| SelectChain.Wrap | HoldGold/Pods/WCDBOptimizedSQLCipher/parse.c:2706-2716 | A right operand of several rows is linked, without the error ever being raised, and wrapped. |
| SelectChain.SetOperator | HoldGold/Pods/WCDBOptimizedSQLCipher/parse.c:2703-2728 | The chain that results stands for the compound, with no SF_MultiValue anywhere. |
| SelectChain.BuildCompound | HoldGold/Pods/WCDBOptimizedSQLCipher/parse.c:2703-2796 | For every compound, the reductions build a chain with one node per term in which SF_MultiValue is on the newest node exactly if the compound is two or more VALUES rows and nothing else, and on no other node. |
| SelectChain.SelectStatement | HoldGold/Pods/WCDBOptimizedSQLCipher/parse.c:2689-2702 | The term limit spares exactly those, and the finished chain is linked both ways. |
| ForeignKeyActions.WordHoldsLast | HoldGold/Pods/WCDBOptimizedSQLCipher/parse.c:2527-2581 | For every sequence of clauses the folded word has the last ON DELETE action in its low byte and the last ON UPDATE action in the next; MATCH and ON INSERT leave no trace. |
| ForeignKeyActions.WordDecides | HoldGold/Pods/WCDBOptimizedSQLCipher/parse.c:2527-2581 | Two sequences fold to the same word if and only if they name the same last actions. |
| TriggerSteps.AppendStep | HoldGold/Pods/WCDBOptimizedSQLCipher/parse.c:3676-3682 | The new step goes to the end of the list, and the first node again points to the last. |
| TriggerSteps.BuildSteps | HoldGold/Pods/WCDBOptimizedSQLCipher/parse.c:3676-3690 | Reducing any number of steps lists them in source order. |
| GrowingStack.CapacityIs | HoldGold/Pods/WCDBOptimizedSQLCipher/parse.c:1472 | After k growths from none the stack has 100 * (2^k - 1) slots. |
| GrowingStack.GrowingStack.Grow | HoldGold/Pods/WCDBOptimizedSQLCipher/parse.c:1467-1492 | When memory is granted every entry and the top keep their index in a stack of the next size; otherwise nothing changes. |
| GrowingStack.GrowingStack.StackOverflow | HoldGold/Pods/WCDBOptimizedSQLCipher/parse.c:1814-1832 | Steps down once without a destructor, then destroys everything down to the base, from the top down. |
| GrowingStack.GrowingStack.Push | HoldGold/Pods/WCDBOptimizedSQLCipher/parse.c:1876-1883 | A push appends one entry, after growing if the stack is full; if it is full and memory is refused, everything above the base is destroyed. |
| GrowingStack.GrowingStack.Reserve | HoldGold/Pods/WCDBOptimizedSQLCipher/parse.c:2275-2282 | The check before an empty rule makes room for one more entry and moves nothing; if the stack is full and memory is refused, the live top value is lost and the others above the base are destroyed. |
| GrowingStack.GrowingStack.Run | HoldGold/Pods/WCDBOptimizedSQLCipher/parse.c:1467-1492 | Any sequence of pushes, checks and removals, with memory granted or refused at each growth as it may be, leaves the stack, size and log that the operations have on plain sequences. |
| GrowingStack.GrantedUnbounded | HoldGold/Pods/WCDBOptimizedSQLCipher/parse.c:1467-1492 | While memory is granted, any such sequence does to the stack what it does to an unbounded sequence, gives no value up, and grows the stack just as far as the operations call for. |
| GrowingStack.RefusedReduce | HoldGold/Pods/WCDBOptimizedSQLCipher/parse.c:2275-2282 | A refused growth comes to what the fixed stack of the same size does on a reduce by an empty rule; RefusedShift says the same of a shift. |
| Unbounded.RoundsQuiet | HoldGold/Pods/WCDBOptimizedSQLCipher/parse.c:4089-4201 | However many rounds are made on whatever tokens, the machine without a depth limit never overflows and never loses a value. |
| Unbounded.FeedAgrees | HoldGold/Pods/WCDBOptimizedSQLCipher/parse.c:4060-4205 | For every input on which the machine of fixed depth does not overflow, the machine without a depth limit comes, after some rounds, to the same stack and log with all tokens taken in. |
| GrowingParser.GrowingParser.Reduce | HoldGold/Pods/WCDBOptimizedSQLCipher/parse.c:2268-2283 | On the growing stack, with memory granted, a reduce does what the machine without a depth limit does; only the check before an empty rule ever makes the stack grow. |
| GrowingParser.GrowingParser.Run | HoldGold/Pods/WCDBOptimizedSQLCipher/parse.c:1467-1492 | A parser on the growing stack, with memory granted, is after any number of rounds in the state of the machine without a depth limit. |

## Left out

- How the tables are generated, and completeness: that every sentence is accepted is not stated, only that nothing else is.
- The tokenizer; tokens arrive as terminal codes with a start and a length.
- Allocation failure in the actions, and the engine functions that they call, beyond those named in the table.
- Parser.Parser.Parse: the value of a rule is the tree of what it consumed; the storage shared between the members of YYMINORTYPE is not modelled.
- Tracing, high-water marks, and the error recovery that YYNOERRORRECOVERY compiles out.
- The EBCDIC branch of the keyword comparison.
- Rewriting.BuildMeans: row values and RAISE are not expressions of the model, and an expression whose names do not resolve, or whose likelihood() has a bad second argument, is rejected before it has a value.
- Rewriting.BuildMeans: which names stand for other expressions is not worked out; an expression of the model says so itself.
- RewritingLimits.OneItemExactly: the condition is about one comparison, so its operands are taken to make no comparisons themselves; Rewriting.BuildMeans is about any nesting.
- Engines.OneItemInEngines: BETWEEN, CASE and IN over two or more values have their exact conditions in RewritingLimits only, over all orders; real numbers are exact, and how a text reads as a number is a parameter.
- GrowingParser.GrowingParser.Run: rounds are counted; that a call on the growing stack always ends is not stated.
- Rewriting.BuildMeans: nodes are values, so that reusing a node in place, and freeing what a rewriting drops, is not captured.
- Rewriting.BuildMeans: integers are unbounded, and what functions, arithmetic, casts and subqueries compute is left to the environment.
- SelectChain.ParserDoubleLinkSelect: of selFlags only SF_Compound, SF_Values and SF_MultiValue are kept, and the clauses of a SELECT are not modelled.
- SelectChain.SetOperator: the note in the parser that a compound other than UNION ALL was seen.
- GrowingStack.GrowingStack.constructor: when even the first growth is refused the source falls back to a single static slot; that case is not modelled.
- The grammar actions for statements other than those in the table: they call into the engine and keep no state of their own.
- HoldGold's own headers and the other bundled libraries: declarations only.
