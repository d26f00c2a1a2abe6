/** How the interpreter compares two values: it converts them as the affinity of the comparison says, and
    then compares numbers with numbers, texts under the collating sequence, and blobs.  For orders of this
    kind the exact conditions are weaker: they look at the values too. */
module Engines {
  import opened Lemon
  import opened TokenCodes
  import opened Expressions
  import opened ExpressionActions
  import opened Rewriting
  import opened RewritingLimits
  import opened OrdinaryExpressions

  /** What is left open: the collating functions, how a text reads as a number, if it does, how a number
      prints, and the order of blobs. */
  datatype Engine = Engine(
    collate: (string, string, string) -> int,
    number: string -> Option<real>,
    printed: Value -> string,
    blobs: (int, int) -> int)

  predicate IsNumber(v: Value) {
    v.Num? || v.Real?
  }

  function AsReal(v: Value): real
    requires IsNumber(v)
  {
    if v.Num? then v.n as real else v.r
  }

  /** The conversions of OP_Eq and its kin. */
  function Convert(g: Engine, affinity: Affinity, v: Value): Value {
    if affinity == NumericAffinity && v.Str? && g.number(v.s).Some? then Real(g.number(v.s).value)
    else if affinity == TextAffinity && IsNumber(v) then Str(g.printed(v))
    else v
  }

  function Sign(a: real, b: real): int {
    if a < b then -1 else if a > b then 1 else 0
  }

  /** memcmp, a prefix being less. */
  function MemCmp(s: string, t: string): int {
    if s == t then 0
    else if s == [] then -1
    else if t == [] then 1
    else if s[0] < t[0] then -1
    else if s[0] > t[0] then 1
    else MemCmp(s[1..], t[1..])
  }

  /** A collating sequence finds a text equal to itself. */
  function Collated(g: Engine, c: Option<string>, s: string, t: string): int {
    if s == t then 0 else if c.Some? then g.collate(c.value, s, t) else MemCmp(s, t)
  }

  /** sqlite3MemCompare: numbers before texts before blobs. */
  function MemCompare(g: Engine, c: Option<string>, v: Value, w: Value): int {
    if v == Null || w == Null then 0
    else if IsNumber(v) then if IsNumber(w) then Sign(AsReal(v), AsReal(w)) else -1
    else if IsNumber(w) then 1
    else if v.Str? then if w.Str? then Collated(g, c, v.s, w.s) else -1
    else if w.Str? then 1
    else g.blobs(v.id, w.id)
  }

  function Ordered(g: Engine, way: Way, v: Value, w: Value): int {
    MemCompare(g, way.collation, Convert(g, way.affinity, v), Convert(g, way.affinity, w))
  }

  // ---------------------------------------------------------------------------------------------
  // When two ways come to the same

  predicate ByNumber(way: Way) {
    way.affinity == NumericAffinity
  }

  predicate ByText(way: Way) {
    way.affinity == TextAffinity
  }

  /** Whether two ways of comparing can differ depends on the values: blobs are never converted; two numbers
      differ only as texts, two texts only as numbers or under another collating sequence. */
  predicate Indifferent(a: Way, b: Way, v: Value, w: Value) {
    || v == Null || w == Null || v == w || v.Blob? || w.Blob?
    || (if IsNumber(v) && IsNumber(w) then
          (ByText(a) <==> ByText(b)) && (ByText(a) ==> a.collation == b.collation)
        else if v.Str? && w.Str? then (ByNumber(a) <==> ByNumber(b)) && a.collation == b.collation
        else
          && (ByText(a) <==> ByText(b)) && (ByNumber(a) <==> ByNumber(b))
          && (ByText(a) ==> a.collation == b.collation))
  }

  predicate SameAnswer(op: int, g: Engine, a: Way, b: Way, v: Value, w: Value) {
    v == Null || w == Null || (Satisfies(op, Ordered(g, a, v, w)) <==> Satisfies(op, Ordered(g, b, v, w)))
  }

  lemma IndifferentSame(op: int, g: Engine, a: Way, b: Way, v: Value, w: Value)
    requires Indifferent(a, b, v, w)
    ensures SameAnswer(op, g, a, b, v, w)
  {
    hide Satisfies, MemCmp;
  }

  /** An outcome in which a comparison answers otherwise than in outcome k. */
  function Otherwise(op: int, k: int): int {
    if Satisfies(op, k) then No(op) else Yes(op)
  }

  lemma OtherwiseIs(op: int, k: int)
    requires IsComparison(op)
    ensures Satisfies(op, Otherwise(op, k)) <==> !Satisfies(op, k)
    ensures Otherwise(op, k) == -1 || Otherwise(op, k) == 0 || Otherwise(op, k) == 1
  {
    YesAndNo(op);
  }

  lemma {:induction false} LongerIsMore(s: string)
    ensures MemCmp(s, s + "a") == -1 && MemCmp(s + "a", s) == 1
  {
    if s != [] {
      LongerIsMore(s[1..]);
      assert (s + "a")[1..] == s[1..] + "a";
    }
  }

  /** Texts that compare as one likes, under every collating sequence that is not told apart. */
  function Pick(k: int): (string, string) {
    if k < 0 then ("a", "b") else if k > 0 then ("b", "a") else ("a", "a")
  }

  /** Two numbers, one way compares them as texts: let them print as one likes. */
  lemma NumbersDiffer(op: int, a: Way, b: Way, v: Value, w: Value) returns (g: Engine)
    requires IsComparison(op) && IsNumber(v) && IsNumber(w) && v != w && ByText(a) && !ByText(b)
    ensures !SameAnswer(op, g, a, b, v, w)
  {
    var k := Otherwise(op, Sign(AsReal(v), AsReal(w)));
    OtherwiseIs(op, Sign(AsReal(v), AsReal(w)));
    g := Engine((_, _, _) => k, _ => None, x => if x == v then Pick(k).0 else Pick(k).1, (_, _) => 0);
    assert MemCmp(Pick(k).0, Pick(k).1) == k;
    hide Satisfies, MemCmp;
    assert Ordered(g, b, v, w) == Sign(AsReal(v), AsReal(w));
    assert Ordered(g, a, v, w) == k;
  }

  /** Two texts, one way compares them as numbers: let them read as one likes. */
  lemma TextsDiffer(op: int, a: Way, b: Way, v: Value, w: Value) returns (g: Engine)
    requires IsComparison(op) && v.Str? && w.Str? && v != w && ByNumber(a) && !ByNumber(b)
    ensures !SameAnswer(op, g, a, b, v, w)
  {
    var c := if b.collation.Some? then 0 else MemCmp(v.s, w.s);
    var k := Otherwise(op, c);
    OtherwiseIs(op, c);
    g := Engine((_, _, _) => 0, x => if x == v.s then Some(k as real) else Some(0.0), _ => "", (_, _) => 0);
    hide Satisfies, MemCmp;
    assert Ordered(g, b, v, w) == c;
    assert Ordered(g, a, v, w) == k;
  }

  /** Two texts under two collating sequences. */
  lemma CollationsDiffer(op: int, a: Way, b: Way, v: Value, w: Value) returns (g: Engine)
    requires IsComparison(op) && v.Str? && w.Str? && v != w && a.collation != b.collation
    ensures !SameAnswer(op, g, a, b, v, w)
  {
    var bin := MemCmp(v.s, w.s);
    var k := Otherwise(op, if a.collation == None || b.collation == None then bin else 0);
    OtherwiseIs(op, if a.collation == None || b.collation == None then bin else 0);
    var named := if a.collation.Some? then a.collation.value else b.collation.value;
    g := Engine((c, _, _) => if c == named then k else 0, _ => None, _ => "", (_, _) => 0);
    hide Satisfies, MemCmp;
    assert Ordered(g, a, v, w) == Collated(g, a.collation, v.s, w.s);
    assert Ordered(g, b, v, w) == Collated(g, b.collation, v.s, w.s);
  }

  /** Two numbers compared as texts under two collating sequences. */
  lemma PrintedDiffer(op: int, a: Way, b: Way, v: Value, w: Value) returns (g: Engine)
    requires IsComparison(op) && IsNumber(v) && IsNumber(w) && v != w
    requires ByText(a) && ByText(b) && a.collation != b.collation
    ensures !SameAnswer(op, g, a, b, v, w)
  {
    var k := Otherwise(op, if a.collation == None || b.collation == None then -1 else 0);
    OtherwiseIs(op, if a.collation == None || b.collation == None then -1 else 0);
    var named := if a.collation.Some? then a.collation.value else b.collation.value;
    g := Engine((c, _, _) => if c == named then k else 0, _ => None, x => if x == v then "a" else "b", (_, _) => 0);
    assert MemCmp("a", "b") == -1;
    hide Satisfies, MemCmp;
    assert Ordered(g, a, v, w) == Collated(g, a.collation, "a", "b");
    assert Ordered(g, b, v, w) == Collated(g, b.collation, "a", "b");
  }

  predicate Mixed(v: Value, w: Value) {
    (IsNumber(v) && w.Str?) || (v.Str? && IsNumber(w))
  }

  function TextOne(v: Value, w: Value): string
    requires Mixed(v, w)
  {
    if v.Str? then v.s else w.s
  }

  function NumberOne(v: Value, w: Value): Value
    requires Mixed(v, w)
  {
    if v.Str? then w else v
  }

  /** A number comes before a text. */
  function NumberFirst(v: Value): int {
    if IsNumber(v) then -1 else 1
  }

  /** A number and a text, one way compares them as texts: let the number print as one likes. */
  lemma MixedByText(op: int, a: Way, b: Way, v: Value, w: Value) returns (g: Engine)
    requires IsComparison(op) && Mixed(v, w) && ByText(a) && !ByText(b)
    ensures !SameAnswer(op, g, a, b, v, w)
  {
    var k, t := Otherwise(op, NumberFirst(v)), TextOne(v, w);
    OtherwiseIs(op, NumberFirst(v));
    LongerIsMore(t);
    g := Engine((_, _, _) => k, _ => None, _ => if k == 0 then t else t + "a", (_, _) => 0);
    assert k == 0 || k == -NumberFirst(v);
    hide Satisfies, MemCmp;
    assert Ordered(g, b, v, w) == NumberFirst(v);
    assert Ordered(g, a, v, w) == k;
  }

  /** One way compares them as numbers: let the text read as one likes. */
  lemma MixedByNumber(op: int, a: Way, b: Way, v: Value, w: Value) returns (g: Engine)
    requires IsComparison(op) && Mixed(v, w) && ByNumber(a) && !ByNumber(b) && !ByText(b)
    ensures !SameAnswer(op, g, a, b, v, w)
  {
    var k, n := Otherwise(op, NumberFirst(v)), AsReal(NumberOne(v, w));
    OtherwiseIs(op, NumberFirst(v));
    g := Engine((_, _, _) => 0, _ => Some(if v.Str? then n + k as real else n - k as real), _ => "", (_, _) => 0);
    hide Satisfies, MemCmp;
    assert Ordered(g, b, v, w) == NumberFirst(v);
    assert Ordered(g, a, v, w) == k;
  }

  /** Both compare them as texts, under two collating sequences. */
  lemma MixedCollations(op: int, a: Way, b: Way, v: Value, w: Value) returns (g: Engine)
    requires IsComparison(op) && Mixed(v, w) && ByText(a) && ByText(b) && a.collation != b.collation
    ensures !SameAnswer(op, g, a, b, v, w)
  {
    var t := TextOne(v, w);
    var x, y := if v.Str? then v.s else t + "a", if v.Str? then t + "a" else w.s;
    var other := if a.collation == None || b.collation == None then MemCmp(x, y) else 0;
    var k := Otherwise(op, other);
    OtherwiseIs(op, other);
    var named := if a.collation.Some? then a.collation.value else b.collation.value;
    g := Engine((c, _, _) => if c == named then k else 0, _ => None, _ => t + "a", (_, _) => 0);
    hide Satisfies, MemCmp;
    assert |x| != |y|;
    assert Ordered(g, a, v, w) == Collated(g, a.collation, x, y);
    assert Ordered(g, b, v, w) == Collated(g, b.collation, x, y);
  }

  lemma Symmetric(op: int, g: Engine, a: Way, b: Way, v: Value, w: Value)
    ensures SameAnswer(op, g, a, b, v, w) <==> SameAnswer(op, g, b, a, v, w)
  {}

  /** If two ways are not indifferent, some engine tells them apart. */
  lemma Distinguished(op: int, a: Way, b: Way, v: Value, w: Value) returns (g: Engine)
    requires IsComparison(op) && !Indifferent(a, b, v, w)
    ensures !SameAnswer(op, g, a, b, v, w)
  {
    hide SameAnswer;
    if IsNumber(v) && IsNumber(w) {
      if ByText(a) && ByText(b) {
        g := PrintedDiffer(op, a, b, v, w);
      } else if ByText(a) {
        g := NumbersDiffer(op, a, b, v, w);
      } else {
        g := NumbersDiffer(op, b, a, v, w);
        Symmetric(op, g, a, b, v, w);
      }
    } else if v.Str? && w.Str? {
      if a.collation != b.collation && (ByNumber(a) <==> ByNumber(b)) {
        g := CollationsDiffer(op, a, b, v, w);
      } else if ByNumber(a) {
        g := TextsDiffer(op, a, b, v, w);
      } else {
        g := TextsDiffer(op, b, a, v, w);
        Symmetric(op, g, a, b, v, w);
      }
    } else if ByText(a) && ByText(b) {
      g := MixedCollations(op, a, b, v, w);
    } else if ByText(a) {
      g := MixedByText(op, a, b, v, w);
    } else if ByText(b) {
      g := MixedByText(op, b, a, v, w);
      Symmetric(op, g, a, b, v, w);
    } else if ByNumber(a) {
      g := MixedByNumber(op, a, b, v, w);
    } else {
      g := MixedByNumber(op, b, a, v, w);
      Symmetric(op, g, a, b, v, w);
    }
  }

  /** Two ways of comparing two values give the same answer in every engine if and only if they are
      indifferent for these values. */
  lemma EnginesExactly(op: int, a: Way, b: Way, v: Value, w: Value)
    requires IsComparison(op)
    ensures Indifferent(a, b, v, w) <==> forall g: Engine :: SameAnswer(op, g, a, b, v, w)
  {
    hide SameAnswer, Indifferent;
    if Indifferent(a, b, v, w) {
      forall g: Engine ensures SameAnswer(op, g, a, b, v, w) {
        IndifferentSame(op, g, a, b, v, w);
      }
    } else {
      var g := Distinguished(op, a, b, v, w);
      assert !SameAnswer(op, g, a, b, v, w);
    }
  }

  // ---------------------------------------------------------------------------------------------
  // Statements

  /** The order of an engine, with the rows of subqueries as they are. */
  function OrderOf(env: Environment, g: Engine): Order {
    Order((way, v, w) => Ordered(g, way, v, w), env.among)
  }

  /** The tree for s is right when values compare as engine g has it. */
  predicate RightIn(env: Environment, g: Engine, s: Sql) {
    RightUnder(env, OrderOf(env, g), s)
  }

  lemma TestsSame(env: Environment, g: Engine, op: int, a: Way, b: Way, v: Value, w: Value)
    ensures TestsAgree(env, OrderOf(env, g), op, a, b, v, w) <==> SameAnswer(op, g, a, b, v, w)
  {
    hide Ordered, Satisfies;
  }

  /** A comparison as written is evaluated rightly in every engine if and only if the way the tree makes it
      and the way SQL means it are indifferent for the values. */
  lemma PairInEngines(env: Environment, op: int, l: Sql, r: Sql)
    requires Grammatical(Binary(op, l, r)) && IsComparison(op) && OrderFree(l) && OrderFree(r)
    ensures (forall g: Engine :: RightIn(env, g, Binary(op, l, r))) <==>
      Indifferent(PairWay(env.schema, l, r), MeantWay(env.schema, l, r), Meaning(env, l), Meaning(env, r))
  {
    hide SameAnswer, Indifferent, RightUnder, TestsAgree, PairWay, MeantWay, Meaning, OrderFree, Grammatical;
    var s, v, w := Binary(op, l, r), Meaning(env, l), Meaning(env, r);
    var a, b := PairWay(env.schema, l, r), MeantWay(env.schema, l, r);
    EnginesExactly(op, a, b, v, w);
    forall g: Engine ensures RightIn(env, g, s) <==> SameAnswer(op, g, a, b, v, w) {
      PairUnder(env, OrderOf(env, g), op, l, r);
      TestsSame(env, g, op, a, b, v, w);
    }
  }

  /** The same for IS and IS NOT, */
  lemma IsInEngines(env: Environment, l: Sql, neg: bool, r: Sql)
    requires Grammatical(l) && Grammatical(r) && OrderFree(l) && OrderFree(r)
    ensures (forall g: Engine :: RightIn(env, g, Is(l, neg, r))) <==>
      Indifferent(PairWay(env.schema, l, r), MeantWay(env.schema, l, r), Meaning(env, l), Meaning(env, r))
  {
    hide SameAnswer, Indifferent, RightUnder, TestsAgree, PairWay, MeantWay, Meaning, OrderFree, Grammatical;
    var s, v, w := Is(l, neg, r), Meaning(env, l), Meaning(env, r);
    var a, b := PairWay(env.schema, l, r), MeantWay(env.schema, l, r);
    EnginesExactly(TK_EQ, a, b, v, w);
    forall g: Engine ensures RightIn(env, g, s) <==> SameAnswer(TK_EQ, g, a, b, v, w) {
      IsAnswer(env, OrderOf(env, g), l, neg, r);
      TestsSame(env, g, TK_EQ, a, b, v, w);
    }
  }

  /** and for the one-value IN and NOT IN. */
  lemma OneItemInEngines(env: Environment, e: Sql, neg: bool, item: Sql)
    requires Grammatical(e) && Grammatical(item) && OrderFree(e) && OrderFree(item)
    ensures (forall g: Engine :: RightIn(env, g, InList(e, neg, [item]))) <==>
      Indifferent(ItemWay(env.schema, e, item), MeantItemWay(env.schema, e), Meaning(env, e), Meaning(env, item))
  {
    hide SameAnswer, Indifferent, RightUnder, TestsAgree, ItemWay, MeantItemWay, Meaning, OrderFree, Grammatical;
    var s, v, w := InList(e, neg, [item]), Meaning(env, e), Meaning(env, item);
    var a, b := ItemWay(env.schema, e, item), MeantItemWay(env.schema, e);
    EnginesExactly(TK_EQ, a, b, v, w);
    forall g: Engine ensures RightIn(env, g, s) <==> SameAnswer(TK_EQ, g, a, b, v, w) {
      OneItemUnder(env, OrderOf(env, g), e, neg, item);
      TestsSame(env, g, TK_EQ, a, b, v, w);
    }
  }

  // ---------------------------------------------------------------------------------------------
  // Columns

  lemma DressedMeaning(env: Environment, item: Sql, y: string)
    requires Dressed(env.schema, item, y)
    ensures Meaning(env, item) == env.column(y)
  {
    hide IsHint;
  }

  /** The two ways of x IN (item) for a text column x. */
  lemma DressedWays(env: Environment, x: string, item: Sql, y: string)
    requires Dressed(env.schema, item, y) && env.schema.columnAffinity(x) == TextAffinity
    ensures ItemWay(env.schema, Name(x), item) == CompareWay(SqlKind(env.schema, Name(x)), StrayKind(env.schema, item))
    ensures MeantItemWay(env.schema, Name(x)) == Way(TextAffinity, env.schema.columnCollation(x))
    ensures SqlKind(env.schema, Name(x)) == Kind(TextAffinity, env.schema.columnCollation(x), false)
  {
    DressedKind(env.schema, item, y);
    StrayKindIs(env.schema, item);
    KindIs(env.schema, Name(x));
  }

  lemma NameMeans(env: Environment, x: string)
    ensures Meaning(env, Name(x)) == env.column(x)
  {}

  lemma TextsIndifferent(env: Environment, x: string, item: Sql, y: string, v: Value, w: Value)
    requires Dressed(env.schema, item, y) && !item.Alias?
    requires env.schema.columnAffinity(x) == env.schema.columnAffinity(y) == TextAffinity
    requires v.Str? && w.Str?
    ensures Indifferent(ItemWay(env.schema, Name(x), item), MeantItemWay(env.schema, Name(x)), v, w)
  {
    hide IsHint, ItemWay, MeantItemWay, SqlKind;
    DressedKind(env.schema, item, y);
    DressedWays(env, x, item, y);
  }

  /** For two text columns that hold texts, x IN (y COLLATE c) and x IN (likely(y)) are right in every engine. */
  lemma TextColumnsRight(env: Environment, x: string, neg: bool, item: Sql, y: string)
    requires Dressed(env.schema, item, y) && !item.Alias?
    requires env.schema.columnAffinity(x) == env.schema.columnAffinity(y) == TextAffinity
    requires env.column(x).Str? && env.column(y).Str?
    ensures forall g: Engine :: RightIn(env, g, InList(Name(x), neg, [item]))
  {
    hide Dressed, ItemWay, MeantItemWay, Indifferent, Meaning, RightIn, OrderFree, Grammatical;
    DressedKind(env.schema, item, y);
    DressedMeaning(env, item, y);
    TextsIndifferent(env, x, item, y, env.column(x), env.column(y));
    NameIsFree(x);
    NameMeans(env, x);
    OneItemInEngines(env, Name(x), neg, item);
  }

  lemma NameIsFree(x: string)
    ensures OrderFree(Name(x)) && Grammatical(Name(x))
  {}

  lemma DressedByNumber(env: Environment, x: string, item: Sql, y: string)
    requires Dressed(env.schema, item, y) && env.schema.columnAffinity(x) == TextAffinity
    requires IsNumeric(env.schema.columnAffinity(y))
    ensures ByNumber(ItemWay(env.schema, Name(x), item))
  {
    hide ItemWay, SqlKind, StrayKind, Dressed, CompareCollation;
    DressedKind(env.schema, item, y);
    DressedWays(env, x, item, y);
  }

  lemma OneItemAnswers(env: Environment, e: Sql, neg: bool, item: Sql, a: Way, v: Value, w: Value)
    requires Means(env, e) && Means(env, item) && v == Meaning(env, e) && w == Meaning(env, item)
    requires a == ItemWay(env.schema, e, item)
    ensures Eval(env, Build(InList(e, neg, [item]))) == FromTri(Test(env, if neg then TK_NE else TK_EQ, a, v, w))
  {
    hide Eval, Build, Meaning, ExprKind, CompareWay, PExpr, Test;
    var op := if neg then TK_NE else TK_EQ;
    OneItemBuilt(e, neg, item);
    GenericMeans(env, Build(item));
    PExprMeans(env, op, Build(e), MarkGeneric(Build(item)));
    assert EvalOperand(env, Build(e)) == Operand(v, ExprKind(env.schema, Build(e)));
    assert EvalOperand(env, MarkGeneric(Build(item))) == Operand(w, ExprKind(env.schema, MarkGeneric(Build(item))));
  }

  /** The text 1.0 and the number 1 are equal as numbers and different as texts. */
  lemma OnePointZero(g: Engine, a: Way)
    requires ByNumber(a) && g.number("1.0") == Some(1.0) && g.printed(Num(1)) == "1"
    ensures Ordered(g, a, Str("1.0"), Num(1)) == 0
    ensures Ordered(g, Way(TextAffinity, None), Str("1.0"), Num(1)) == 1
  {
    assert "1.0"[1..] == ".0" && "1"[1..] == "";
    assert MemCmp(".0", "") == 1;
    assert MemCmp("1.0", "1") == 1;
  }

  /** So with '1.0' in the text column x and 1 in the numeric column y, x IN (y COLLATE c), x IN (likely(y)) and
      x IN (alias of y) are true where SQL says false. */
  lemma DressedGoesWrong(env: Environment, g: Engine, x: string, neg: bool, item: Sql, y: string)
    requires Dressed(env.schema, item, y) && env.schema.columnAffinity(x) == TextAffinity
    requires IsNumeric(env.schema.columnAffinity(y)) && env.schema.columnCollation(x) == None
    requires env.column(x) == Str("1.0") && env.column(y) == Num(1)
    requires g.number("1.0") == Some(1.0) && g.printed(Num(1)) == "1"
    ensures var env1 := Reordered(env, OrderOf(env, g)); var s := InList(Name(x), neg, [item]);
      Eval(env1, Build(s)) == Num(if neg then 0 else 1) && Meaning(env1, s) == Num(if neg then 1 else 0)
  {
    var o := OrderOf(env, g);
    var env1 := Reordered(env, o);
    hide ItemWay, MeantItemWay, SqlKind, StrayKind, OrderFree, Grammatical, Dressed, Build, Eval, Ordered, Convert;
    DressedKind(env.schema, item, y);
    DressedMeaning(env, item, y);
    DressedWays(env, x, item, y);
    DressedByNumber(env, x, item, y);
    NameIsFree(x);
    var a := ItemWay(env.schema, Name(x), item);
    OperandFixed(env, o, Name(x));
    OperandFixed(env, o, item);
    OneItemAnswers(env1, Name(x), neg, item, a, Str("1.0"), Num(1));
    OneItemMeaning(env1, Name(x), neg, item);
    OnePointZero(g, a);
  }
}
