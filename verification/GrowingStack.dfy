/** The stack of the build without a fixed depth: it grows when it is full.  As long as memory is granted
    it is an unbounded stack; when growth is refused it overflows as the fixed one does. */
module GrowingStack {
  import opened Lemon
  import opened Machine

  // ---------------------------------------------------------------------------------------------
  // Sizes

  /** The number of slots after so many growths from none. */
  function Capacity(growths: nat): nat {
    if growths == 0 then 0 else Bigger(Capacity(growths - 1))
  }

  function Bigger(size: nat): nat {
    2 * size + 100
  }

  function Power(n: nat): nat {
    if n == 0 then 1 else 2 * Power(n - 1)
  }

  /** Growing doubles the stack and adds a hundred slots, so the sizes are 100, 300, 700, ... */
  lemma {:induction false} CapacityIs(growths: nat)
    ensures Capacity(growths) == 100 * (Power(growths) - 1)
    ensures growths <= Power(growths) - 1
  {
    if growths != 0 {
      CapacityIs(growths - 1);
    }
  }

  // ---------------------------------------------------------------------------------------------
  // What the operations mean

  /** Pushing an entry, making room before an empty rule, and removing entries from the top.  Whether
      memory is granted, should the stack have to grow, is up to the allocator. */
  datatype Op = Push(e: Entry, granted: bool) | Reserve(granted: bool) | Drop(n: nat)

  datatype Plain = Plain(stack: seq<Entry>, size: nat, log: seq<Event>)

  function Step(s: Plain, op: Op): Plain
    requires Legal(s, op)
  {
    var full := |s.stack| == s.size;
    match op
    case Push(e, granted) =>
      if full && !granted then Plain(s.stack[..1], s.size, s.log + DestroyAll(s.stack[1..]) + [Overflowed])
      else Plain(s.stack + [e], if full then Bigger(s.size) else s.size, s.log)
    case Reserve(granted) =>
      if !full then s
      else if granted then s.(size := Bigger(s.size))
      else
        var n := |s.stack| - 1;
        Plain(s.stack[..1], s.size, s.log + [Leaked(s.stack[n].minor)] + DestroyAll(s.stack[1..n]) + [Overflowed])
    case Drop(n) => s.(stack := s.stack[..|s.stack| - n])
  }

  /** The base entry is never removed. */
  predicate Legal(s: Plain, op: Op) {
    1 <= |s.stack| <= s.size && 100 <= s.size && (op.Drop? ==> op.n < |s.stack|)
  }

  function Steps(s: Plain, ops: seq<Op>): Plain
    requires AllLegal(s, ops)
    decreases ops
  {
    if ops == [] then s else Steps(Step(s, ops[0]), ops[1..])
  }

  predicate AllLegal(s: Plain, ops: seq<Op>)
    decreases ops
  {
    ops == [] || (Legal(s, ops[0]) && AllLegal(Step(s, ops[0]), ops[1..]))
  }

  lemma {:induction false} StepsAppend(s: Plain, ops: seq<Op>, op: Op)
    requires AllLegal(s, ops + [op])
    ensures AllLegal(s, ops) && Legal(Steps(s, ops), op) && Steps(s, ops + [op]) == Step(Steps(s, ops), op)
    decreases ops
  {
    hide Step, Legal;
    if ops == [] {
      assert (ops + [op])[1..] == [];
    } else {
      assert (ops + [op])[1..] == ops[1..] + [op];
      StepsAppend(Step(s, ops[0]), ops[1..], op);
    }
  }

  lemma {:induction false} PrefixLegal(s: Plain, ops: seq<Op>, k: nat)
    requires AllLegal(s, ops) && k <= |ops|
    ensures AllLegal(s, ops[..k])
    ensures k < |ops| ==> Legal(Steps(s, ops[..k]), ops[k])
                          && AllLegal(s, ops[..k + 1]) && Steps(s, ops[..k + 1]) == Step(Steps(s, ops[..k]), ops[k])
    decreases |ops| - k
  {
    hide Step, Legal;
    if k < |ops| {
      PrefixLegal(s, ops, k + 1);
      assert ops[..k + 1] == ops[..k] + [ops[k]];
      StepsAppend(s, ops[..k], ops[k]);
    } else {
      assert ops[..k] == ops;
    }
  }

  // ---------------------------------------------------------------------------------------------
  // Memory granted

  predicate Granted(op: Op) {
    op.Drop? || op.granted
  }

  predicate AllGranted(ops: seq<Op>) {
    ops == [] || (Granted(ops[0]) && AllGranted(ops[1..]))
  }

  /** The same operations on a sequence. */
  function Unbounded(stack: seq<Entry>, ops: seq<Op>): seq<Entry>
    decreases ops
  {
    if ops == [] then stack
    else
      var next :=
        match ops[0]
        case Push(e, _) => stack + [e]
        case Reserve(_) => stack
        case Drop(n) => if n <= |stack| then stack[..|stack| - n] else [];
      Unbounded(next, ops[1..])
  }

  /** The greatest number of slots that the operations call for. */
  function Peak(stack: seq<Entry>, ops: seq<Op>): nat
    decreases ops
  {
    if ops == [] then 0
    else
      var rest := Peak(Unbounded(stack, ops[..1]), ops[1..]);
      var need := if ops[0].Drop? then 0 else |stack| + 1;
      if rest < need then need else rest
  }

  /** A size from which growing reaches so many slots. */
  function Grown(size: nat, need: nat): nat
    decreases need - size
  {
    if need <= size then size else Grown(Bigger(size), need)
  }

  lemma OneUnbounded(stack: seq<Entry>, ops: seq<Op>)
    requires ops != []
    ensures Unbounded(stack, ops) == Unbounded(Unbounded(stack, ops[..1]), ops[1..])
  {
    assert ops[..1][1..] == [];
  }

  lemma {:induction false} GrownTwice(size: nat, a: nat, b: nat)
    ensures Grown(Grown(size, a), b) == Grown(size, if a < b then b else a)
    decreases a - size
  {
    if size < a {
      GrownTwice(Bigger(size), a, b);
    } else if a < b {
    } else {
      assert b <= size;
    }
  }

  lemma GrantedStep(s: Plain, op: Op)
    requires Legal(s, op) && Granted(op)
    ensures var next := Step(s, op);
      && next.stack == Unbounded(s.stack, [op]) && next.log == s.log
      && next.size == Grown(s.size, if op.Drop? then 0 else |s.stack| + 1)
  {
    assert [op][1..] == [];
  }

  /** As long as memory is granted, any operations do to the stack what they do to a sequence; nothing is
      given up, and the stack is grown just as far as they call for. */
  lemma {:induction false} GrantedUnbounded(s: Plain, ops: seq<Op>)
    requires AllLegal(s, ops) && AllGranted(ops)
    ensures var next := Steps(s, ops);
      && next.stack == Unbounded(s.stack, ops) && next.log == s.log
      && next.size == Grown(s.size, Peak(s.stack, ops))
    decreases ops
  {
    if ops != [] {
      GrantedStep(s, ops[0]);
      assert ops[..1] == [ops[0]];
      GrantedUnbounded(Step(s, ops[0]), ops[1..]);
      OneUnbounded(s.stack, ops);
      var need := if ops[0].Drop? then 0 else |s.stack| + 1;
      GrownTwice(s.size, need, Peak(Unbounded(s.stack, ops[..1]), ops[1..]));
    }
  }

  /** A refused growth comes to what the fixed stack of the same size does: on a shift, */
  lemma RefusedShift(c: Config, act: nat, tok: Token)
    requires |c.stack| == YYSTACKDEPTH
    ensures var e := Entry(StoredState(act), tok.major, Leaf(tok));
      var s := Step(Plain(c.stack, YYSTACKDEPTH, c.log), Push(e, false));
      Config(s.stack, s.log) == Shift(c, act, tok)
  {}

  /** and on a reduce by an empty rule. */
  lemma RefusedReduce(T: Tables, c: Config, r: nat)
    requires |c.stack| == YYSTACKDEPTH && Sized(T) && CanReduce(T, c.stack, r) && T.rules[r].rhs == []
    ensures var s := Step(Plain(c.stack, YYSTACKDEPTH, c.log), Reserve(false));
      Config(s.stack, s.log) == Reduce(T, c, r)
  {}

  // ---------------------------------------------------------------------------------------------
  // The object

  class GrowingStack {
    var yystack: array<Entry>
    var yytos: nat
    ghost var growths: nat
    ghost var log: seq<Event>

    ghost predicate Valid()
      reads this
    {
      1 <= growths && yystack.Length == Capacity(growths) && yytos < yystack.Length
    }

    ghost function State(): Plain
      reads this, yystack
      requires Valid()
    {
      Plain(yystack[..yytos + 1], yystack.Length, log)
    }

    /** sqlite3ParserAlloc, with memory granted for the first growth. */
    constructor (base: Entry)
      ensures Valid() && fresh(yystack) && State() == Plain([base], 100, [])
    {
      yystack := new Entry[100](_ => base);
      yytos := 0;
      growths := 1;
      log := [];
      new;
      assert Capacity(1) == Bigger(Capacity(0)) == 100;
    }

    /** yyGrowStack.  The entries keep their indices and so does the top, which may be one past the last
        slot here. */
    method Grow(granted: bool) returns (failed: bool)
      requires 1 <= growths && yystack.Length == Capacity(growths) && yytos <= yystack.Length
      modifies this
      ensures failed <==> !granted
      ensures yytos == old(yytos) && log == old(log)
      ensures failed ==> yystack == old(yystack) && growths == old(growths)
      ensures !failed ==> fresh(yystack) && growths == old(growths) + 1
      ensures !failed ==> yystack.Length == Capacity(growths) == Bigger(old(yystack.Length))
      ensures !failed ==> yystack[..old(yystack).Length] == old(yystack[..])
    {
      failed := !granted;
      if granted {
        var newSize := yystack.Length * 2 + 100;
        var pNew := new Entry[newSize](i requires 0 <= i reads this, yystack =>
          if i < yystack.Length then yystack[i] else Entry(0, 0, Node(0, [])));
        assert pNew[..yystack.Length] == yystack[..];
        yystack := pNew;
        growths := growths + 1;
      }
    }

    /** yyStackOverflow: steps down once without a destructor, then pops down to the base entry. */
    method StackOverflow()
      requires 0 < yytos <= yystack.Length
      modifies this`yytos, this`log
      ensures yytos == 0
      ensures log == old(log) + DestroyAll(yystack[1..old(yytos)]) + [Overflowed]
    {
      yytos := yytos - 1;
      ghost var above := yystack[1..yytos + 1];
      assert above[..yytos] == above;
      while 0 < yytos
        invariant yytos < yystack.Length && yytos <= |above|
        invariant above == yystack[1..|above| + 1]
        invariant log + DestroyAll(above[..yytos]) == old(log) + DestroyAll(above)
        decreases yytos
      {
        assert above[..yytos][..yytos - 1] == above[..yytos - 1];
        assert above[yytos - 1] == yystack[yytos];
        log := log + [Destroyed(yystack[yytos].minor)];
        yytos := yytos - 1;
      }
      log := log + [Overflowed];
    }

    /** The part of yy_shift that makes room and stores the entry. */
    method Push(e: Entry, granted: bool)
      requires Valid()
      modifies this, yystack
      ensures Valid() && State() == Step(old(State()), Op.Push(e, granted))
      ensures yystack == old(yystack) || fresh(yystack)
    {
      CapacityIs(growths);
      ghost var before := State();
      yytos := yytos + 1;
      if yystack.Length <= yytos {
        var failed := Grow(granted);
        if failed {
          StackOverflow();
          assert yystack[..1] == before.stack[..1] && yystack[1..] == before.stack[1..];
          return;
        }
      }
      assert yystack[..yytos] == before.stack;
      yystack[yytos] := e;
    }

    /** The check before an empty rule: room for one more entry, with nothing moved. */
    method Reserve(granted: bool)
      requires Valid()
      modifies this
      ensures Valid() && State() == Step(old(State()), Op.Reserve(granted))
      ensures yystack == old(yystack) || fresh(yystack)
    {
      CapacityIs(growths);
      ghost var before := State();
      if yystack.Length - 1 <= yytos {
        var failed := Grow(granted);
        if failed {
          log := log + [Leaked(yystack[yytos].minor)];
          StackOverflow();
          assert yystack[..1] == before.stack[..1];
          assert yystack[1..yystack.Length - 1] == before.stack[1..|before.stack| - 1];
        } else {
          CapacityIs(growths);
          assert yystack[..yytos + 1] == before.stack;
        }
      }
    }

    /** Removing the n entries on top. */
    method Drop(n: nat)
      requires Valid() && n <= yytos
      modifies this`yytos
      ensures Valid() && State() == Step(old(State()), Op.Drop(n))
    {
      CapacityIs(growths);
      yytos := yytos - n;
    }

    /** Any operations one after the other. */
    method Run(ops: seq<Op>)
      requires Valid() && AllLegal(State(), ops)
      modifies this, yystack
      ensures Valid() && State() == Steps(old(State()), ops)
    {
      PrefixLegal(State(), ops, 0);
      for k := 0 to |ops|
        invariant AllLegal(old(State()), ops[..k]) && Valid() && State() == Steps(old(State()), ops[..k])
        invariant yystack == old(yystack) || fresh(yystack)
      {
        PrefixLegal(old(State()), ops, k);
        match ops[k] {
          case Push(e, granted) => Push(e, granted);
          case Reserve(granted) => Reserve(granted);
          case Drop(n) => Drop(n);
        }
      }
      assert ops[..|ops|] == ops;
    }
  }
}
