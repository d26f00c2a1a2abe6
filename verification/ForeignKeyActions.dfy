/** The actions of a foreign-key clause, folded into one word. */
module ForeignKeyActions {
  datatype Action = NoAction | Restrict | SetNull | SetDefault | Cascade

  datatype RefArg = Match | OnInsert(action: Action) | OnDelete(action: Action) | OnUpdate(action: Action)

  const OE_None: bv32 := 0
  const OE_Restrict: bv32 := 6
  const OE_SetNull: bv32 := 7
  const OE_SetDflt: bv32 := 8
  const OE_Cascade: bv32 := 9

  function Code(a: Action): bv32 {
    match a
    case NoAction => OE_None
    case Restrict => OE_Restrict
    case SetNull => OE_SetNull
    case SetDefault => OE_SetDflt
    case Cascade => OE_Cascade
  }

  /** Rules 46 to 49: the value of one clause, and the bits it may overwrite. */
  datatype Masked = Masked(value: bv32, mask: bv32)

  function Clause(r: RefArg): Masked {
    match r
    case Match => Masked(0, 0)
    case OnInsert(_) => Masked(0, 0)
    case OnDelete(a) => Masked(Code(a), 0x0000ff)
    case OnUpdate(a) => Masked(Code(a) << 8, 0x00ff00)
  }

  function Merge(w: bv32, c: Masked): bv32 {
    (w & !c.mask) | c.value
  }

  /** Rules 44 and 45 */
  function Word(args: seq<RefArg>): bv32 {
    if args == [] then OE_None * 0x0101
    else
      Merge(Word(args[..|args| - 1]), Clause(args[|args| - 1]))
  }

  /** The last ON DELETE action, and the last ON UPDATE action; NO ACTION if there is none. */
  function LastDelete(args: seq<RefArg>): Action {
    if args == [] then NoAction
    else if args[|args| - 1].OnDelete? then args[|args| - 1].action
    else LastDelete(args[..|args| - 1])
  }

  function LastUpdate(args: seq<RefArg>): Action {
    if args == [] then NoAction
    else if args[|args| - 1].OnUpdate? then args[|args| - 1].action
    else LastUpdate(args[..|args| - 1])
  }

  lemma MaskedUpdate(w: bv32, d: bv32, u: bv32, x: bv32)
    requires w == d | (u << 8) && d <= 0xff && u <= 0xff && x <= 0xff
    ensures (w & !0x0000ff) | x == x | (u << 8)
    ensures (w & !0x00ff00) | (x << 8) == d | (x << 8)
    ensures (w & !0) | 0 == w
  {}

  function Pack(d: Action, u: Action): bv32 {
    Code(d) | (Code(u) << 8)
  }

  lemma OneClause(d: Action, u: Action, r: RefArg)
    ensures Merge(Pack(d, u), Clause(r)) ==
        Pack(if r.OnDelete? then r.action else d, if r.OnUpdate? then r.action else u)
  {
    MaskedUpdate(Pack(d, u), Code(d), Code(u), if r.OnDelete? || r.OnUpdate? then Code(r.action) else 0);
  }

  /** The word holds exactly the last ON DELETE action in its low byte and the last ON UPDATE action in the
      next; MATCH and ON INSERT leave no trace. */
  lemma {:induction false} WordHoldsLast(args: seq<RefArg>)
    ensures Word(args) == Pack(LastDelete(args), LastUpdate(args))
  {
    if args == [] {
      assert Pack(NoAction, NoAction) == OE_None * 0x0101;
    } else {
      hide Pack, Clause, Merge, Code;
      var rest, last := args[..|args| - 1], args[|args| - 1];
      WordHoldsLast(rest);
      OneClause(LastDelete(rest), LastUpdate(rest), last);
    }
  }

  lemma CodesDiffer(a: Action, b: Action)
    ensures Code(a) == Code(b) ==> a == b
  {}

  lemma BytesApart(d: bv32, u: bv32)
    requires d <= 0xff && u <= 0xff
    ensures (d | (u << 8)) & 0xff == d && ((d | (u << 8)) >> 8) & 0xff == u
  {}

  /** So two clauses get the same word exactly if they name the same last actions. */
  lemma WordDecides(a: seq<RefArg>, b: seq<RefArg>)
    ensures Word(a) == Word(b) <==> LastDelete(a) == LastDelete(b) && LastUpdate(a) == LastUpdate(b)
  {
    WordHoldsLast(a);
    WordHoldsLast(b);
    BytesApart(Code(LastDelete(a)), Code(LastUpdate(a)));
    BytesApart(Code(LastDelete(b)), Code(LastUpdate(b)));
    CodesDiffer(LastDelete(a), LastDelete(b));
    CodesDiffer(LastUpdate(a), LastUpdate(b));
  }
}
