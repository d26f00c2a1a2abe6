/** The push-down machine as a function from one machine value to the next, with every action it
    takes on semantic values recorded in a log. */
module Machine {
  import opened Lemon
  import opened Certificate

  /** One stack element: state, symbol and semantic value. */
  datatype Entry = Entry(stateno: nat, major: nat, minor: Tree)

  /** What happens to semantic values, in order.  Only `Leaked` leaves no trace in the program: it marks
      a live value that is discarded without its destructor. */
  datatype Event =
    | Shifted(tok: Token)
    | Reduced(rule: nat, kids: seq<Tree>)
    | Destroyed(value: Tree)
    | Leaked(value: Tree)
    | Accepted(value: Tree)
    | Overflowed
    | SyntaxError(tok: Token)

  datatype Config = Config(stack: seq<Entry>, log: seq<Event>)

  function Top(c: Config): Entry
    requires c.stack != []
  {
    c.stack[|c.stack| - 1]
  }

  function Minors(es: seq<Entry>): seq<Tree> {
    seq(|es|, i requires 0 <= i < |es| => es[i].minor)
  }

  /** Popping everything above the base runs the destructors from the top down. */
  function DestroyAll(es: seq<Entry>): seq<Event> {
    if es == [] then [] else [Destroyed(es[|es| - 1].minor)] + DestroyAll(es[..|es| - 1])
  }

  /** The state number to store: a shift-reduce code becomes the pseudo-state of its rule. */
  function StoredState(act: nat): nat {
    if YY_MAX_SHIFT < act then act + (YY_MIN_REDUCE - YY_MIN_SHIFTREDUCE) else act
  }

  /** A shift with room for it. */
  function Pushed(c: Config, act: nat, tok: Token): Config {
    Config(c.stack + [Entry(StoredState(act), tok.major, Leaf(tok))], c.log + [Shifted(tok)])
  }

  function Shift(c: Config, act: nat, tok: Token): Config
    requires c.stack != []
  {
    if |c.stack| == YYSTACKDEPTH
    then Config(c.stack[..1], c.log + DestroyAll(c.stack[1..]) + [Overflowed])
    else Pushed(c, act, tok)
  }

  /** The entry that a reduce by r uncovers. */
  function Uncovered(T: Tables, stack: seq<Entry>, r: nat): Entry
    requires r < |T.rules| && |T.rules[r].rhs| < |stack|
  {
    stack[|stack| - 1 - |T.rules[r].rhs|]
  }

  predicate CanReduce(T: Tables, stack: seq<Entry>, r: nat) {
    && r < |T.rules|
    && |T.rules[r].rhs| < |stack|
    && GotoDefined(T, Uncovered(T, stack, r).stateno, T.rules[r].lhs)
  }

  /** A reduce with room for it. */
  function Replaced(T: Tables, c: Config, r: nat): Config
    requires Sized(T) && CanReduce(T, c.stack, r)
  {
    var n := |T.rules[r].rhs|;
    var rest := c.stack[..|c.stack| - n];
    var kids := Minors(c.stack[|c.stack| - n..]);
    var act := GotoAction(T, Uncovered(T, c.stack, r).stateno, T.rules[r].lhs);
    if act <= YY_MAX_SHIFTREDUCE then
      Config(rest + [Entry(StoredState(act), T.rules[r].lhs, Node(r, kids))], c.log + [Reduced(r, kids)])
    else
      Config(rest, c.log + [Reduced(r, kids), Accepted(Node(r, kids))])
  }

  function Reduce(T: Tables, c: Config, r: nat): Config
    requires Sized(T) && CanReduce(T, c.stack, r)
  {
    if T.rules[r].rhs == [] && YYSTACKDEPTH <= |c.stack| then
      Config(c.stack[..1], c.log + [Leaked(Top(c).minor)] + DestroyAll(c.stack[1..|c.stack| - 1]) + [Overflowed])
    else Replaced(T, c, r)
  }

  function Refuse(c: Config, tok: Token): Config {
    Config(c.stack, c.log + [SyntaxError(tok), Destroyed(Leaf(tok))])
  }

  // ---------------------------------------------------------------------------------------------
  // What every reachable machine satisfies

  /** Symbol x on the stack is acceptable where a rule asks for `slot`. */
  ghost predicate Fits(T: Tables, C: Cert, slot: nat, x: nat) {
    exists z: nat :: StandsFor(T, x, z) && C.covers(slot, z)
  }

  /** A semantic value whose shape agrees with the rules that built it. */
  ghost predicate TreeOk(T: Tables, C: Cert, d: Tree)
    decreases d
  {
    match d
    case Leaf(tok) => tok.major < FIRST_NONTERMINAL
    case Node(r, kids) =>
      && r < |T.rules|
      && |kids| == |T.rules[r].rhs|
      && FIRST_NONTERMINAL <= T.rules[r].lhs
      && forall i :: 0 <= i < |kids| ==>
           TreeOk(T, C, kids[i]) && Fits(T, C, T.rules[r].rhs[i], Root(T, kids[i]))
  }

  function Root(T: Tables, d: Tree): nat {
    match d
    case Leaf(tok) => tok.major
    case Node(r, _) => if r < |T.rules| then T.rules[r].lhs else 0
  }

  /** The symbols that the certificate names are on the stack, entry i on top. */
  ghost predicate KnownSymbols(T: Tables, C: Cert, stack: seq<Entry>, i: nat)
    requires Sized(T) && i < |stack| && StateCode(stack[i].stateno)
  {
    var past := StatePast(T, C, stack[i].stateno);
    && |past| <= i
    && forall k :: 0 <= k < |past| ==> Fits(T, C, past[k], stack[i + 1 - |past| + k].major)
  }

  /** The gotos that the certificate names exist in the states below entry i. */
  ghost predicate KnownGotos(T: Tables, C: Cert, stack: seq<Entry>, i: nat)
    requires Sized(T) && i < |stack| && StateCode(stack[i].stateno)
  {
    forall d: nat, a: nat :: StateNeed(T, C, stack[i].stateno, d, a) ==>
      1 <= d <= i && GotoDefined(T, stack[i - d].stateno, a)
  }

  /** What the certificate says about the state of entry i holds of the entries below it. */
  ghost predicate Known(T: Tables, C: Cert, stack: seq<Entry>, i: nat)
    requires Sized(T) && i < |stack|
  {
    StateCode(stack[i].stateno) && KnownSymbols(T, C, stack, i) && KnownGotos(T, C, stack, i)
  }

  /** What holds of every stack, however high. */
  ghost predicate WellFormed(T: Tables, C: Cert, stack: seq<Entry>)
    requires Sized(T)
  {
    && stack != []
    && stack[0].stateno == 0
    && (forall i :: 0 <= i < |stack| ==> Known(T, C, stack, i))
    && (forall i :: 0 <= i < |stack| - 1 ==> !Pseudo(stack[i].stateno))
    && (Pseudo(stack[|stack| - 1].stateno) ==> PendingOk(T, stack[|stack| - 1].stateno - YY_MIN_REDUCE))
    && (forall i :: 1 <= i < |stack| ==> stack[i].stateno != 0)
    && (forall i :: 1 <= i < |stack| ==>
          TreeOk(T, C, stack[i].minor) && Root(T, stack[i].minor) == stack[i].major)
  }

  /** The invariant of every run. */
  ghost predicate Inv(T: Tables, C: Cert, stack: seq<Entry>)
    requires Sized(T)
  {
    WellFormed(T, C, stack) && |stack| <= YYSTACKDEPTH
  }
}
