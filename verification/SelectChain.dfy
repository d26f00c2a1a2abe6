/** The SELECT nodes of a compound, linked newest first through pPrior, and the actions that build and
    link such chains.  What a chain stands for is given as a value of `Compound`, the compound as
    written; the actions keep the chain in step with it. */
module SelectChain {

  /** The bits of selFlags that matter here: SF_Compound, SF_Values and SF_MultiValue. */
  datatype SelFlags = SelFlags(compound: bool, values: bool, multiValue: bool)

  class Select {
    var pPrior: Select?
    var pNext: Select?
    var selFlags: SelFlags
    var pFrom: Select?

    /** sqlite3SelectNew, absent allocation failure. */
    constructor (flags: SelFlags, from: Select?)
      ensures pPrior == null && pNext == null && selFlags == flags && pFrom == from
    {
      pPrior := null;
      pNext := null;
      selFlags := flags;
      pFrom := from;
    }
  }

  /** `nodes` is the whole chain from p back to its oldest node. */
  ghost predicate IsChain(p: Select, nodes: seq<Select>)
    reads nodes
  {
    && nodes != []
    && nodes[0] == p
    && (forall i :: 0 <= i < |nodes| - 1 ==> nodes[i].pPrior == nodes[i + 1])
    && nodes[|nodes| - 1].pPrior == null
    && (forall i, j :: 0 <= i < j < |nodes| ==> nodes[i] != nodes[j])
  }

  /** Each node is the pNext of its prior, and the newest has none. */
  ghost predicate Linked(nodes: seq<Select>)
    reads nodes
  {
    && (forall i :: 1 <= i < |nodes| ==> nodes[i].pNext == nodes[i - 1])
    && (nodes != [] ==> nodes[0].pNext == null)
  }

  /** parserDoubleLinkSelect.  The result says whether the error about too many terms was raised. */
  method ParserDoubleLinkSelect(p: Select, limit: int, ghost nodes: seq<Select>) returns (error: bool)
    requires IsChain(p, nodes)
    modifies nodes
    ensures IsChain(p, nodes)
    ensures |nodes| == 1 ==> p.pNext == old(p.pNext) && p.selFlags == old(p.selFlags)
    ensures 2 <= |nodes| ==> Linked(nodes)
    ensures 2 <= |nodes| ==> forall i :: 0 <= i < |nodes| ==>
        nodes[i].selFlags == old(nodes[i].selFlags).(compound := true)
    ensures forall i :: 0 <= i < |nodes| ==> nodes[i].pFrom == old(nodes[i].pFrom)
    ensures error <==> 2 <= |nodes| && !old(p.selFlags).multiValue && 0 < limit < |nodes|
  {
    error := false;
    assert p.pPrior == if 2 <= |nodes| then nodes[1] else null;
    if p.pPrior != null {
      var pNext: Select? := null;
      var pLoop: Select? := p;
      var cnt := 0;
      while pLoop != null
        invariant 0 <= cnt <= |nodes|
        invariant pLoop == if cnt < |nodes| then nodes[cnt] else null
        invariant pNext == if 0 < cnt then nodes[cnt - 1] else null
        invariant IsChain(p, nodes)
        invariant 0 < cnt ==> nodes[0].pNext == null
        invariant forall i :: 1 <= i < cnt ==> nodes[i].pNext == nodes[i - 1]
        invariant forall i :: 0 <= i < cnt ==> nodes[i].selFlags == old(nodes[i].selFlags).(compound := true)
        invariant forall i :: cnt <= i < |nodes| ==> nodes[i].selFlags == old(nodes[i].selFlags)
        invariant forall i :: 0 <= i < |nodes| ==> nodes[i].pFrom == old(nodes[i].pFrom)
        decreases |nodes| - cnt
      {
        assert forall i :: 0 <= i < |nodes| && i != cnt ==> nodes[i] != pLoop;
        pLoop.pNext := pNext;
        pLoop.selFlags := pLoop.selFlags.(compound := true);
        pNext, pLoop, cnt := pLoop, pLoop.pPrior, cnt + 1;
      }
      assert cnt == |nodes|;
      if !p.selFlags.multiValue && limit > 0 && cnt > limit {
        error := true;
      }
    }
  }

  // ---------------------------------------------------------------------------------------------
  // Compounds as written

  /** A SELECT, or a VALUES clause with so many rows. */
  datatype OneSelect = Query | Values(rows: nat)

  datatype Compound = One(o: OneSelect) | Op(l: Compound, o: OneSelect)

  /** A node of the chain: a SELECT of its own, a row of a VALUES clause, or a SELECT wrapped around a
      VALUES clause of several rows. */
  datatype Term = Plain | Row | Wrapper

  predicate Written(c: Compound) {
    (c.o.Values? ==> 1 <= c.o.rows) && (c.Op? ==> Written(c.l))
  }

  function Terms(c: Compound): (ts: seq<Term>) {
    match c
    case One(Query) => [Plain]
    case One(Values(n)) => seq(n, _ => Row)
    case Op(l, o) => [Joined(o)] + Terms(l)
  }

  /** What the right operand of a set operator contributes. */
  function Joined(o: OneSelect): Term {
    match o
    case Query => Plain
    case Values(n) => if n <= 1 then Row else Wrapper
  }

  /** Two or more rows of VALUES and nothing else. */
  predicate Many(c: Compound) {
    c.One? && c.o.Values? && 2 <= c.o.rows
  }

  ghost function Flags(nodes: seq<Select>): (fs: seq<SelFlags>)
    reads nodes
    ensures |fs| == |nodes| && forall i :: 0 <= i < |nodes| ==> fs[i] == nodes[i].selFlags
  {
    seq(|nodes|, i requires 0 <= i < |nodes| reads nodes => nodes[i].selFlags)
  }

  /** SF_Values marks the rows.  SF_MultiValue is on the newest node exactly if the compound is two or more
      rows and nothing else, and on no other node. */
  ghost predicate FlagsFit(flags: seq<SelFlags>, c: Compound) {
    && |flags| == |Terms(c)|
    && (forall i :: 0 <= i < |flags| ==> (flags[i].values <==> Terms(c)[i] == Row))
    && (forall i :: 0 <= i < |flags| ==> (flags[i].multiValue <==> i == 0 && Many(c)))
  }

  /** The chain of p is the one for c. */
  ghost predicate Stands(p: Select, nodes: seq<Select>, c: Compound)
    reads nodes
  {
    IsChain(p, nodes) && FlagsFit(Flags(nodes), c)
  }

  /** The flags after a node has been put in front of a chain. */
  lemma FlagsJoin(flags: seq<SelFlags>, l: Compound, f: SelFlags, o: OneSelect)
    requires FlagsFit(flags, l) && flags != []
    requires (f.values <==> Joined(o) == Row) && !f.multiValue
    ensures FlagsFit([f] + flags[0 := flags[0].(multiValue := false)], Op(l, o))
  {
    var rest := flags[0 := flags[0].(multiValue := false)];
    var terms := Terms(l);
    forall i | 0 <= i < |rest| ensures (rest[i].values <==> terms[i] == Row) && !rest[i].multiValue {
    }
    hide Terms;
    assert Terms(Op(l, o)) == [Joined(o)] + terms by { JoinedTerms(l, o); }
  }

  lemma JoinedTerms(l: Compound, o: OneSelect)
    ensures Terms(Op(l, o)) == [Joined(o)] + Terms(l)
  {}

  lemma FlagsNextRow(flags: seq<SelFlags>, n: nat, f: SelFlags)
    requires 1 <= n && FlagsFit(flags, One(Values(n)))
    requires f.values && f.multiValue
    ensures FlagsFit([f] + flags[0 := flags[0].(multiValue := false)], One(Values(n + 1)))
  {}

  ghost predicate Disjoint(a: seq<Select>, b: seq<Select>) {
    forall i, j :: 0 <= i < |a| && 0 <= j < |b| ==> a[i] != b[j]
  }

  // ---------------------------------------------------------------------------------------------
  // The actions

  /** Rule 85, as far as the chain goes. */
  method SelectNode() returns (p: Select)
    ensures fresh(p) && Stands(p, [p], One(Query))
  {
    p := new Select(SelFlags(false, false, false), null);
  }

  /** Rule 86 */
  method FirstRow() returns (p: Select)
    ensures fresh(p) && Stands(p, [p], One(Values(1)))
  {
    p := new Select(SelFlags(false, true, false), null);
  }

  lemma FlagsInFront(p: Select, nodes: seq<Select>)
    ensures Flags([p] + nodes) == [p.selFlags] + Flags(nodes)
  {}

  lemma ChainInFront(p: Select, nodes: seq<Select>)
    requires nodes != [] && IsChain(nodes[0], nodes) && p !in nodes && p.pPrior == nodes[0]
    ensures IsChain(p, [p] + nodes)
  {
    assert ([p] + nodes)[1..] == nodes;
  }

  /** Puts p in front of a chain and takes SF_MultiValue off the node that was in front. */
  method Prepend(p: Select, pLeft: Select, ghost nodes: seq<Select>)
    requires IsChain(pLeft, nodes) && p !in nodes
    modifies p`pPrior, pLeft`selFlags
    ensures IsChain(p, [p] + nodes)
    ensures Flags(nodes) == old(Flags(nodes))[0 := old(pLeft.selFlags).(multiValue := false)]
    ensures Flags([p] + nodes) == [p.selFlags] + Flags(nodes)
  {
    ghost var flags := Flags(nodes);
    assert forall i :: 1 <= i < |nodes| ==> nodes[i] != pLeft;
    p.pPrior := pLeft;
    pLeft.selFlags := pLeft.selFlags.(multiValue := false);
    assert Flags(nodes) == flags[0 := pLeft.selFlags];
    hide Flags;
    FlagsInFront(p, nodes);
    ChainInFront(p, nodes);
  }

  /** Rule 87: the new row takes SF_MultiValue over from the row before it. */
  method NextRow(pLeft: Select, ghost n: nat, ghost nodes: seq<Select>) returns (pRight: Select)
    requires 1 <= n && Stands(pLeft, nodes, One(Values(n)))
    modifies pLeft
    ensures fresh(pRight) && Stands(pRight, [pRight] + nodes, One(Values(n + 1)))
  {
    pRight := new Select(SelFlags(false, true, true), null);
    FlagsNextRow(Flags(nodes), n, pRight.selFlags);
    Prepend(pRight, pLeft, nodes);
  }

  /** The first half of rule 81: a right operand of several rows is linked, which never raises the error,
      and wrapped in a SELECT of its own. */
  method Wrap(rhs: Select, limit: int, ghost o: OneSelect, ghost right: seq<Select>) returns (pRhs: Select, error: bool)
    requires Stands(rhs, right, One(o))
    modifies right
    ensures !error && (pRhs.selFlags.values <==> Joined(o) == Row)
    ensures |right| == 1 ==> pRhs == rhs
    ensures 2 <= |right| ==> fresh(pRhs) && pRhs.pFrom == rhs && IsChain(rhs, right) && Linked(right)
  {
    pRhs, error := rhs, false;
    assert rhs.pPrior == if 2 <= |right| then right[1] else null;
    if rhs.pPrior != null {
      error := ParserDoubleLinkSelect(rhs, limit, right);
      pRhs := new Select(SelFlags(false, false, false), rhs);
    }
  }

  /** Rule 81 */
  method SetOperator(pLhs: Select, rhs: Select, limit: int,
                     ghost l: Compound, ghost left: seq<Select>, ghost o: OneSelect, ghost right: seq<Select>)
    returns (pRhs: Select, error: bool)
    requires Stands(pLhs, left, l) && Stands(rhs, right, One(o)) && Disjoint(left, right)
    modifies left, right
    ensures Stands(pRhs, [pRhs] + left, Op(l, o)) && !error
    ensures |right| == 1 ==> pRhs == rhs
    ensures 2 <= |right| ==> fresh(pRhs) && pRhs.pFrom == rhs && IsChain(rhs, right) && Linked(right)
  {
    hide Linked, FlagsFit, Terms, Joined, Many;
    pRhs, error := Wrap(rhs, limit, o, right);
    assert pRhs !in left;
    Join(pLhs, pRhs, l, left, o);
  }

  /** The second half of rule 81: the node for the right operand goes in front. */
  method Join(pLhs: Select, pRhs: Select, ghost l: Compound, ghost left: seq<Select>, ghost o: OneSelect)
    requires Stands(pLhs, left, l) && pRhs !in left
    requires pRhs.selFlags.values <==> Joined(o) == Row
    modifies pLhs`selFlags, pRhs`pPrior, pRhs`selFlags
    ensures Stands(pRhs, [pRhs] + left, Op(l, o))
  {
    pRhs.selFlags := pRhs.selFlags.(multiValue := false);
    FlagsJoin(Flags(left), l, pRhs.selFlags, o);
    Prepend(pRhs, pLhs, left);
  }

  /** All the reductions for one operand, in the order the parser performs them. */
  method BuildOne(o: OneSelect) returns (p: Select, ghost nodes: seq<Select>)
    requires Written(One(o))
    ensures fresh(nodes) && Stands(p, nodes, One(o))
    decreases if o.Values? then o.rows else 0
  {
    match o {
      case Query =>
        p := SelectNode();
        nodes := [p];
      case Values(n) =>
        if n == 1 {
          p := FirstRow();
          nodes := [p];
        } else {
          var earlier;
          earlier, nodes := BuildOne(Values(n - 1));
          p := NextRow(earlier, n - 1, nodes);
          nodes := [p] + nodes;
        }
    }
  }

  /** All the reductions for a compound: every chain that reaches `select` stands for what was written. */
  method BuildCompound(c: Compound, limit: int) returns (p: Select, ghost nodes: seq<Select>)
    requires Written(c)
    ensures fresh(nodes) && Stands(p, nodes, c)
  {
    match c {
      case One(o) =>
        p, nodes := BuildOne(o);
      case Op(l, o) =>
        var pLhs, left := BuildCompound(l, limit);
        var rhs, right := BuildOne(o);
        var error;
        p, error := SetOperator(pLhs, rhs, limit, l, left, o, right);
        nodes := [p] + left;
    }
  }

  /** Rule 80: the term limit spares exactly the compounds that are rows of one VALUES clause. */
  method SelectStatement(c: Compound, limit: int) returns (p: Select, error: bool, ghost nodes: seq<Select>)
    requires Written(c)
    ensures fresh(nodes) && IsChain(p, nodes) && |nodes| == |Terms(c)|
    ensures 2 <= |Terms(c)| ==> Linked(nodes) && forall i :: 0 <= i < |nodes| ==> nodes[i].selFlags.compound
    ensures error <==> !Many(c) && 2 <= |Terms(c)| && 0 < limit < |Terms(c)|
  {
    p, nodes := BuildCompound(c, limit);
    error := ParserDoubleLinkSelect(p, limit, nodes);
  }
}
