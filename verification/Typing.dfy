/** The verdict of the form checker as a compositional definition: every
    structured instruction is checked on its own operand list, so there is no
    shared stack, no frame height and no truncation. Module FormChecker proves
    that the stack-based checker computes exactly this. */
module Typing {
  import opened Wasm

  datatype VType = Unknown | Known(t: ValType)

  const FUNC_REF: Byte := 0x70

  function K(ts: seq<ValType>): (r: seq<VType>)
    ensures |r| == |ts|
    ensures forall k :: 0 <= k < |ts| ==> r[k] == Known(ts[k])
  {
    seq(|ts|, k requires 0 <= k < |ts| => Known(ts[k]))
  }

  datatype GlobalType = GlobalType(t: VType, mutable: bool)

  /** What a function body is checked against. */
  datatype Context = Context(
    types: seq<Sig<VType>>,
    funcs: seq<nat>,
    tables: seq<Byte>,
    memories: nat,
    globals: seq<GlobalType>,
    locals: seq<VType>,
    results: seq<VType>)
  {
    /** Every function index names a declared type. */
    predicate Valid() {
      forall k :: 0 <= k < |funcs| ==> funcs[k] < |types|
    }
  }

  /** The operands of one control frame (last one on top); `poly` when the code
      that follows cannot be reached, so that any operand may be assumed. */
  datatype Ops = Ops(vals: seq<VType>, poly: bool)

  const NOTHING := Ops([], false)
  const STOPPED := Ops([], true)

  datatype Popped = Popped(ok: bool, t: VType, rest: Ops)

  function PopAny(o: Ops): Popped {
    if o.vals == [] then Popped(o.poly, Unknown, o)
    else Popped(true, o.vals[|o.vals| - 1], Ops(o.vals[..|o.vals| - 1], o.poly))
  }

  function PopExpect(o: Ops, e: VType): Popped {
    var p := PopAny(o);
    if !p.ok then p
    else if p.t == Unknown then Popped(true, e, p.rest)
    else if e == Unknown || p.t == e then p
    else Popped(false, p.t, p.rest)
  }

  /** Pops `ts`, the last type first. */
  function PopSeq(o: Ops, ts: seq<VType>): Option<Ops>
    decreases |ts|
  {
    if ts == [] then Some(o)
    else
      var p := PopExpect(o, ts[|ts| - 1]);
      if p.ok then PopSeq(p.rest, ts[..|ts| - 1]) else None
  }

  function Push(o: Ops, ts: seq<VType>): Ops {
    Ops(o.vals + ts, o.poly)
  }

  function Transfer(o: Ops, s: Sig<VType>): Option<Ops> {
    match PopSeq(o, s.take)
    case None => None
    case Some(r) => Some(Push(r, s.put))
  }

  /** A frame may be closed: its operands are exactly `ts`. */
  predicate EndsWith(o: Ops, ts: seq<VType>) {
    var r := PopSeq(o, ts);
    r.Some? && r.value.vals == []
  }

  /** Instructions whose typing is a plain exchange of operands. */
  function PlainSig(c: Context, i: Instr): Option<Sig<VType>>
    requires c.Valid()
  {
    match i
    case Nop => Some(Sig([], []))
    case Call(f) => if f < |c.funcs| then Some(c.types[c.funcs[f]]) else None
    case CallIndirect(n) =>
      if c.tables != [] && c.tables[0] == FUNC_REF && n < |c.types|
      then Some(Sig(c.types[n].take + [Known(I32)], c.types[n].put))
      else None
    case Drop => Some(Sig([Unknown], []))
    case LocalGet(n) => if n < |c.locals| then Some(Sig([], [c.locals[n]])) else None
    case LocalSet(n) => if n < |c.locals| then Some(Sig([c.locals[n]], [])) else None
    case LocalTee(n) => if n < |c.locals| then Some(Sig([c.locals[n]], [c.locals[n]])) else None
    case GlobalGet(n) => if n < |c.globals| then Some(Sig([], [c.globals[n].t])) else None
    case GlobalSet(n) =>
      if n < |c.globals| && c.globals[n].mutable then Some(Sig([c.globals[n].t], [])) else None
    case Memory(op, align, _) =>
      if c.memories > 0 && AlignmentFits(op, align)
      then Some(Sig(K(MemorySig(op).take), K(MemorySig(op).put)))
      else None
    case Const(v) => Some(Sig([], [Known(v.Type())]))
    case Numeric(op) => Some(Sig(K(NumericSig(op).take), K(NumericSig(op).put)))
    case _ => None
  }

  /** Both selected operands have one type; it may be Unknown in dead code. */
  function CheckSelect(o: Ops): Option<Ops> {
    var cond := PopExpect(o, Known(I32));
    var second := PopAny(cond.rest);
    var first := PopExpect(second.rest, second.t);
    if cond.ok && second.ok && first.ok then Some(Push(first.rest, [first.t])) else None
  }

  predicate TableFits(labels: seq<seq<VType>>, table: seq<U32>, dflt: U32) {
    && dflt < |labels|
    && forall k :: 0 <= k < |table| ==> table[k] < |labels| && labels[table[k]] == labels[dflt]
  }

  /** Typing of one instruction under the label types `labels` (innermost first). */
  function CheckOne(c: Context, labels: seq<seq<VType>>, o: Ops, i: Instr): Option<Ops>
    requires c.Valid()
    decreases i, 1
  {
    match i
    case Unreachable => Some(STOPPED)
    case Return => if PopSeq(o, c.results).Some? then Some(STOPPED) else None
    case Block(bt, body) =>
      if CheckBlock(c, [K(bt.Types())] + labels, body, bt) then Some(Push(o, K(bt.Types()))) else None
    case Loop(bt, body) =>
      if CheckBlock(c, [[]] + labels, body, bt) then Some(Push(o, K(bt.Types()))) else None
    case If(bt, thn, els) =>
      // The outcome of popping the condition is not looked at.
      var o1 := PopExpect(o, Known(I32)).rest;
      if && CheckBlock(c, [K(bt.Types())] + labels, thn, bt)
         && (els == [] || CheckBlock(c, [K(bt.Types())] + labels, els, bt))
      then Some(Push(o1, K(bt.Types()))) else None
    case Br(n) =>
      if n < |labels| && PopSeq(o, labels[n]).Some? then Some(STOPPED) else None
    case BrIf(n) =>
      var p := PopExpect(o, Known(I32));
      if n < |labels| && p.ok then Transfer(p.rest, Sig(labels[n], labels[n])) else None
    case BrTable(table, n) =>
      var p := PopExpect(o, Known(I32));
      if TableFits(labels, table, n) && p.ok && PopSeq(p.rest, labels[n]).Some?
      then Some(STOPPED) else None
    case Select => CheckSelect(o)
    case _ =>
      match PlainSig(c, i)
      case None => None
      case Some(s) => Transfer(o, s)
  }

  /** Typing of an instruction sequence. */
  function CheckSeq(c: Context, labels: seq<seq<VType>>, o: Ops, code: seq<Instr>): Option<Ops>
    requires c.Valid()
    decreases code, 0
  {
    if code == [] then Some(o)
    else
      match CheckOne(c, labels, o, code[0])
      case None => None
      case Some(o1) => CheckSeq(c, labels, o1, code[1..])
  }

  /** A block body starts from no operands and ends with exactly its results. */
  predicate CheckBlock(c: Context, labels: seq<seq<VType>>, body: seq<Instr>, bt: BlockType)
    requires c.Valid()
    decreases body, 1
  {
    var r := CheckSeq(c, labels, NOTHING, body);
    r.Some? && EndsWith(r.value, K(bt.Types()))
  }

  /** A function body as the checker treats it: the outermost label carries no
      types and the operands left at the end are not compared with the results. */
  predicate CheckBody(c: Context, body: seq<Instr>)
    requires c.Valid()
  {
    CheckSeq(c, [[]], NOTHING, body).Some?
  }
}
