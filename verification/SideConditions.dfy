/** What the form checker does not look at although execution depends on it.
    Each clause is decidable on the code before it runs. */
module SideConditions {
  import opened Wasm
  import opened Typing

  /** A branch past all blocks targets the function's own label: the checker gives
      it no types, the engine keeps as many values as there are results. */
  predicate Served(c: Context, labels: seq<seq<VType>>, o: Ops, n: nat) {
    n + 1 == |labels| ==> PopSeq(o, c.results).Some?
  }

  /** The end of the body cannot be reached. */
  predicate NeverEnds(c: Context, labels: seq<seq<VType>>, body: seq<Instr>)
    requires c.Valid()
  {
    var r := CheckSeq(c, labels, NOTHING, body);
    r.Some? && r.value.poly
  }

  predicate CleanOne(c: Context, labels: seq<seq<VType>>, o: Ops, i: Instr)
    requires c.Valid()
    decreases i, 1
  {
    match i
    case Block(bt, body) => CleanSeq(c, [K(bt.Types())] + labels, NOTHING, body)
    // Falling out of a loop erases everything above its label.
    case Loop(bt, body) =>
      (bt.Empty? || NeverEnds(c, [[]] + labels, body)) && CleanSeq(c, [[]] + labels, NOTHING, body)
    // The condition must be there, and both outcomes must leave the results.
    case If(bt, thn, els) =>
      && PopExpect(o, Known(I32)).ok
      && (bt.Empty? || els != [])
      && CleanSeq(c, [K(bt.Types())] + labels, NOTHING, thn)
      && CleanSeq(c, [K(bt.Types())] + labels, NOTHING, els)
    case Br(n) => Served(c, labels, o, n)
    case BrIf(n) => Served(c, labels, PopExpect(o, Known(I32)).rest, n)
    case BrTable(table, n) =>
      var o1 := PopExpect(o, Known(I32)).rest;
      Served(c, labels, o1, n) && forall k :: 0 <= k < |table| ==> Served(c, labels, o1, table[k])
    case _ => true
  }

  /** Code that cannot be reached needs no condition. */
  predicate CleanSeq(c: Context, labels: seq<seq<VType>>, o: Ops, code: seq<Instr>)
    requires c.Valid()
    decreases code, 0
  {
    || code == [] || o.poly
    || (&& CleanOne(c, labels, o, code[0])
        && match CheckOne(c, labels, o, code[0])
           case None => true
           case Some(o1) => CleanSeq(c, labels, o1, code[1..]))
  }

  /** At the end of a function body its results are on top, if the end is reached. */
  predicate Delivers(o: Ops, ts: seq<VType>) {
    o.poly || PopSeq(o, ts).Some?
  }

  /** An accepted body that also meets the side conditions. */
  predicate CleanBody(c: Context, body: seq<Instr>)
    requires c.Valid()
  {
    CheckBody(c, body) && CleanSeq(c, [[]], NOTHING, body)
  }

  /** Such a body that ends with the declared results on top. */
  predicate GoodBody(c: Context, body: seq<Instr>)
    requires c.Valid()
  {
    && CleanBody(c, body)
    && Delivers(CheckSeq(c, [[]], NOTHING, body).value, c.results)
  }
}
