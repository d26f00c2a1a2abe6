/** The parsing tables of a Lemon-generated parser, how an action is looked up in them, and the
    grammar they were generated from.

    The numeric limits are the ones the generator wrote into parse.c.  The tables themselves are a
    parameter here; module SqliteTables supplies the shipped ones. */
module Lemon {

  const YYNOCODE: nat := 252
  const YYWILDCARD: nat := 96
  const YYSTACKDEPTH: nat := 100
  const YYNSTATE: nat := 460
  const YYNRULE: nat := 332
  const YY_MAX_SHIFT: nat := 459
  const YY_MIN_SHIFTREDUCE: nat := 672
  const YY_MAX_SHIFTREDUCE: nat := 1003
  const YY_MIN_REDUCE: nat := 1004
  const YY_MAX_REDUCE: nat := 1335
  const YY_ERROR_ACTION: nat := 1336
  const YY_ACCEPT_ACTION: nat := 1337
  const YY_ACTTAB_COUNT: nat := 1570
  const YY_SHIFT_MIN: int := -94
  const YY_REDUCE_COUNT: nat := 328
  const YY_REDUCE_USE_DFLT: int := -130
  const FALLBACK_COUNT: nat := 96

  /** Symbol codes below this are terminals, the others nonterminals; the start symbol comes first. */
  const FIRST_NONTERMINAL: nat := 144
  const START: nat := 144

  datatype Option<T> = None | Some(value: T)

  /** A grammar rule.  Each element of `rhs` is a slot: a symbol code, or YYNOCODE + k for the k-th
      token class of the grammar (a slot such as ID|STRING). */
  datatype Rule = Rule(lhs: nat, rhs: seq<nat>)

  datatype Tables = Tables(
    action: seq<nat>,
    lookahead: seq<nat>,
    shiftOfst: seq<int>,
    reduceOfst: seq<int>,
    dflt: seq<nat>,
    fallback: seq<nat>,
    rules: seq<Rule>,
    classes: seq<set<nat>>)

  /** The fallback of a terminal has no fallback of its own. */
  predicate FallbackSettles(fallback: seq<nat>, x: nat)
    requires x < |fallback|
  {
    fallback[x] < |fallback| && fallback[fallback[x]] == 0
  }

  /** The array bounds and entry ranges that the lookup functions rely on. */
  ghost predicate Sized(T: Tables) {
    && |T.action| == |T.lookahead| == YY_ACTTAB_COUNT
    && |T.shiftOfst| == |T.dflt| == YYNSTATE
    && |T.reduceOfst| == YY_REDUCE_COUNT + 1
    && |T.fallback| == FALLBACK_COUNT
    && |T.rules| == YYNRULE
    && (forall s :: 0 <= s < YYNSTATE ==> YY_SHIFT_MIN <= T.shiftOfst[s])
    && (forall x: nat :: x < FALLBACK_COUNT ==> FallbackSettles(T.fallback, x))
    && T.fallback[0] == 0
  }

  // ---------------------------------------------------------------------------------------------
  // Looking up actions

  /** The collision check: slot `ofst + x` of the packed table exists and belongs to symbol x. */
  predicate Hit(T: Tables, ofst: int, x: nat) {
    0 <= ofst + x < |T.lookahead| && T.lookahead[ofst + x] == x
  }

  /** One row of the two-dimensional action table that the packed arrays encode. */
  function PlainRow(T: Tables, s: nat): map<nat, nat>
    requires Sized(T) && s < YYNSTATE
  {
    map x: nat | x < YYNOCODE && Hit(T, T.shiftOfst[s], x) :: T.action[T.shiftOfst[s] + x]
  }

  /** The documented precedence over a plain row: the token itself, then its fallback, then the
      wildcard (never for end of input), then the default of the state. */
  function PlainAction(row: map<nat, nat>, fallback: seq<nat>, dflt: nat, x: nat): nat {
    if x in row then row[x]
    else
      var y := if x < |fallback| && fallback[x] != 0 then fallback[x] else x;
      if y in row then row[y]
      else if y != 0 && YYWILDCARD in row then row[YYWILDCARD]
      else dflt
  }

  /** The action in state `stateno` on terminal x.  A pseudo-state is itself the action. */
  function ShiftAction(T: Tables, stateno: nat, x: nat): nat
    requires Sized(T)
    requires stateno < YYNSTATE || YY_MIN_REDUCE <= stateno
  {
    if YY_MIN_REDUCE <= stateno then stateno
    else PlainAction(PlainRow(T, stateno), T.fallback, T.dflt[stateno], x)
  }

  /** What the assertions in yy_find_reduce_action demand. */
  predicate GotoDefined(T: Tables, stateno: nat, a: nat) {
    && stateno < |T.reduceOfst|
    && T.reduceOfst[stateno] != YY_REDUCE_USE_DFLT
    && Hit(T, T.reduceOfst[stateno], a)
  }

  function GotoAction(T: Tables, stateno: nat, a: nat): nat
    requires Sized(T) && GotoDefined(T, stateno, a)
  {
    T.action[T.reduceOfst[stateno] + a]
  }

  /** One row of the two-dimensional goto table: what a state does next once a nonterminal is on top.  States
      without a reduce offset have an empty row. */
  function GotoRow(T: Tables, s: nat): map<nat, nat>
    requires Sized(T)
  {
    if s <= YY_REDUCE_COUNT && T.reduceOfst[s] != YY_REDUCE_USE_DFLT then
      map a: nat | a in T.lookahead && Hit(T, T.reduceOfst[s], a) :: T.action[T.reduceOfst[s] + a]
    else map[]
  }

  /** The assertions of yy_find_reduce_action hold exactly where the row has an entry. */
  lemma GotoDefinedIs(T: Tables, s: nat, a: nat)
    requires Sized(T)
    ensures GotoDefined(T, s, a) <==> a in GotoRow(T, s)
    ensures GotoDefined(T, s, a) ==> GotoAction(T, s, a) == GotoRow(T, s)[a]
  {
    if GotoDefined(T, s, a) {
      assert T.lookahead[T.reduceOfst[s] + a] == a;
    }
  }

  /** The packed lookup with its collision check, as the generated code runs it, computes the plain
      table's action, and every index it forms is in range. */
  method FindShiftAction(T: Tables, stateno: nat, major: nat) returns (act: nat)
    requires Sized(T)
    requires stateno < YYNSTATE || YY_MIN_REDUCE <= stateno
    requires major < FIRST_NONTERMINAL
    ensures act == ShiftAction(T, stateno, major)
  {
    if YY_MIN_REDUCE <= stateno {
      return stateno;
    }
    var iLookAhead: nat := major;
    ghost var row := PlainRow(T, stateno);
    while true
      invariant iLookAhead < FIRST_NONTERMINAL
      invariant PlainAction(row, T.fallback, T.dflt[stateno], major)
             == PlainAction(row, T.fallback, T.dflt[stateno], iLookAhead)
      decreases if iLookAhead < FALLBACK_COUNT && T.fallback[iLookAhead] != 0 then 1 else 0
    {
      var i := T.shiftOfst[stateno] + iLookAhead;
      if i < 0 || YY_ACTTAB_COUNT <= i || T.lookahead[i] != iLookAhead {
        assert iLookAhead !in row;
        if iLookAhead < FALLBACK_COUNT && T.fallback[iLookAhead] != 0 {
          assert FallbackSettles(T.fallback, iLookAhead);
          iLookAhead := T.fallback[iLookAhead];
          continue;
        }
        var j := i - iLookAhead + YYWILDCARD;
        if j < YY_ACTTAB_COUNT && T.lookahead[j] == YYWILDCARD && 0 < iLookAhead {
          assert Hit(T, T.shiftOfst[stateno], YYWILDCARD);
          return T.action[j];
        }
        assert 0 < iLookAhead ==> YYWILDCARD !in row;
        return T.dflt[stateno];
      } else {
        assert iLookAhead in row;
        return T.action[i];
      }
    }
  }

  /** The lookup without a collision check finds the row's own entry for a, not another row's. */
  method FindReduceAction(T: Tables, stateno: nat, a: nat) returns (act: nat)
    requires Sized(T)
    requires GotoDefined(T, stateno, a)
    ensures a in GotoRow(T, stateno) && act == GotoRow(T, stateno)[a]
  {
    GotoDefinedIs(T, stateno, a);
    var i := T.reduceOfst[stateno];
    i := i + a;
    return T.action[i];
  }

  // ---------------------------------------------------------------------------------------------
  // Derivations

  /** An input token: its code, and where its text starts and how long it is. */
  datatype Token = Token(major: nat, z: nat, n: nat)

  /** The freest reading of a semantic value: the token it came from, or the rule that built it
      together with the values that rule consumed. */
  datatype Tree = Leaf(tok: Token) | Node(rule: nat, kids: seq<Tree>)

  /** Token x may be read as terminal z: as itself, as its fallback, or as the wildcard. */
  predicate StandsFor(T: Tables, x: nat, z: nat) {
    || x == z
    || (x < |T.fallback| && T.fallback[x] == z && z != 0)
    || (z == YYWILDCARD && 0 < x < FIRST_NONTERMINAL)
  }

  /** Terminal z is what the slot asks for, or one of the tokens of its class. */
  predicate SlotHas(T: Tables, slot: nat, z: nat) {
    slot == z || (YYNOCODE <= slot < YYNOCODE + |T.classes| && z in T.classes[slot - YYNOCODE])
  }

  /** `d` is a derivation tree of the grammar from `slot`. */
  ghost predicate Derives(T: Tables, slot: nat, d: Tree)
    decreases d
  {
    match d
    case Leaf(tok) =>
      tok.major < FIRST_NONTERMINAL && exists z: nat :: StandsFor(T, tok.major, z) && SlotHas(T, slot, z)
    case Node(r, kids) =>
      && r < |T.rules|
      && T.rules[r].lhs == slot
      && |kids| == |T.rules[r].rhs|
      && forall i :: 0 <= i < |kids| ==> Derives(T, T.rules[r].rhs[i], kids[i])
  }

  /** The tokens at the leaves, left to right. */
  function Yield(d: Tree): seq<Token> {
    match d
    case Leaf(tok) => [tok]
    case Node(_, kids) => YieldAll(kids)
  }

  function YieldAll(ds: seq<Tree>): seq<Token> {
    if ds == [] then [] else YieldAll(ds[..|ds| - 1]) + Yield(ds[|ds| - 1])
  }

  lemma {:induction false} YieldAllAppend(a: seq<Tree>, b: seq<Tree>)
    ensures YieldAll(a + b) == YieldAll(a) + YieldAll(b)
  {
    hide Yield;
    if b == [] {
      assert a + b == a;
    } else {
      YieldAllAppend(a, b[..|b| - 1]);
      assert (a + b)[..|a + b| - 1] == a + b[..|b| - 1];
    }
  }
}
