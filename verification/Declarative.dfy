/** The typing rules of chapter 3.3 of the WebAssembly Core Specification, as a relation
    between the operand types before and after, and the checker against it: what the
    rules type is accepted, and what is accepted the rules type, but for the two
    liberties that the checker takes with `if`. */
module Declarative {
  import opened Wasm
  import opened Typing
  import opened Subsumption
  import opened Soundness
  import opened Opcodes

  // ----- the rules -----

  predicate EndsIn(ts: seq<ValType>, us: seq<ValType>) {
    |us| <= |ts| && ts[|ts| - |us|..] == us
  }

  /** Instruction `i` has type [take] -> [put]. Unreachable, return, br and br_table are
      polymorphic in the operands below and after them. */
  ghost predicate InstrTyped(c: Context, labels: seq<seq<ValType>>, i: Instr, take: seq<ValType>, put: seq<ValType>)
    requires c.Valid()
    decreases i, 1
  {
    match i
    case Unreachable => true
    case Nop => take == [] && put == []
    case Return => exists us :: EndsIn(take, us) && K(us) == c.results
    case Block(bt, body) =>
      take == [] && put == bt.Types() && SeqTyped(c, [bt.Types()] + labels, body, [], bt.Types())
    case Loop(bt, body) =>
      take == [] && put == bt.Types() && SeqTyped(c, [[]] + labels, body, [], bt.Types())
    case If(bt, thn, els) =>
      && take == [I32] && put == bt.Types()
      && SeqTyped(c, [bt.Types()] + labels, thn, [], bt.Types())
      && SeqTyped(c, [bt.Types()] + labels, els, [], bt.Types())
    case Br(n) => n < |labels| && EndsIn(take, labels[n])
    case BrIf(n) => n < |labels| && take == labels[n] + [I32] && put == labels[n]
    case BrTable(table, n) =>
      && n < |labels| && EndsIn(take, labels[n] + [I32])
      && forall k :: 0 <= k < |table| ==> table[k] < |labels| && labels[table[k]] == labels[n]
    case Call(f) => f < |c.funcs| && c.types[c.funcs[f]] == Sig(K(take), K(put))
    case CallIndirect(x) =>
      && c.tables != [] && c.tables[0] == 0x70 && x < |c.types|
      && exists args :: take == args + [I32] && c.types[x] == Sig(K(args), K(put))
    case Drop => |take| == 1 && put == []
    case Select => |take| == 3 && take[0] == take[1] && take[2] == I32 && put == [take[0]]
    case LocalGet(n) => n < |c.locals| && take == [] && K(put) == [c.locals[n]]
    case LocalSet(n) => n < |c.locals| && K(take) == [c.locals[n]] && put == []
    case LocalTee(n) => n < |c.locals| && K(take) == [c.locals[n]] && put == take
    case GlobalGet(n) => n < |c.globals| && take == [] && K(put) == [c.globals[n].t]
    case GlobalSet(n) => n < |c.globals| && c.globals[n].mutable && K(take) == [c.globals[n].t] && put == []
    case Memory(op, align, _) =>
      c.memories > 0 && Aligned(AccessOf(op), align) && Sig(take, put) == AccessType(AccessOf(op))
    case Const(v) => take == [] && put == [v.Type()]
    case Numeric(op) => exists f :: Belongs(op, f) && Sig(take, put) == FamilyType(f)
  }

  /** The instruction applied below `n` operands that it does not touch. */
  ghost predicate AppliedAt(c: Context, labels: seq<seq<ValType>>, i: Instr, ts: seq<ValType>, us: seq<ValType>, n: nat)
    requires c.Valid()
    decreases i, 2
  {
    n <= |ts| && n <= |us| && ts[..n] == us[..n] && InstrTyped(c, labels, i, ts[n..], us[n..])
  }

  ghost predicate Applied(c: Context, labels: seq<seq<ValType>>, i: Instr, ts: seq<ValType>, us: seq<ValType>)
    requires c.Valid()
    decreases i, 3
  {
    exists n: nat :: AppliedAt(c, labels, i, ts, us, n)
  }

  ghost predicate SeqTyped(c: Context, labels: seq<seq<ValType>>, code: seq<Instr>, ts: seq<ValType>, us: seq<ValType>)
    requires c.Valid()
    decreases code, 0
  {
    if code == [] then ts == us
    else exists mid :: Applied(c, labels, code[0], ts, mid) && SeqTyped(c, labels, code[1..], mid, us)
  }

  // ----- the checker's states -----

  function KL(labels: seq<seq<ValType>>): seq<seq<VType>> {
    seq(|labels|, k requires 0 <= k < |labels| => K(labels[k]))
  }

  lemma KLCons(l: seq<ValType>, labels: seq<seq<ValType>>)
    ensures KL([l] + labels) == [K(l)] + KL(labels)
  {
  }

  function At(ts: seq<ValType>): Ops {
    Ops(K(ts), false)
  }

  /** The types `ts` are an instance of the checker's state `o`. */
  ghost predicate Inst(o: Ops, ts: seq<ValType>) {
    Loosens(o, At(ts))
  }

  lemma LoosensTrans(a: Ops, b: Ops, c: Ops)
    requires Loosens(a, b) && Loosens(b, c)
    ensures Loosens(a, c)
  {
    var d, e, f := |b.vals| - |a.vals|, |c.vals| - |b.vals|, |c.vals| - |a.vals|;
    forall k | 0 <= k < |a.vals| ensures Matches(a.vals[k], c.vals[f + k]) {
      assert Matches(a.vals[k], b.vals[d + k]);
      assert Matches(b.vals[d + k], c.vals[e + (d + k)]);
    }
  }

  lemma InstSelf(ts: seq<ValType>)
    ensures Inst(At(ts), ts)
  {
  }

  /** Every `if` of the code finds a condition, and has an else arm where it promises a
      value. The checker does not look at either. */
  ghost predicate ProperOne(c: Context, labels: seq<seq<VType>>, o: Ops, i: Instr)
    requires c.Valid()
    decreases i, 1
  {
    match i
    case Block(bt, body) => ProperSeq(c, [K(bt.Types())] + labels, NOTHING, body)
    case Loop(_, body) => ProperSeq(c, [[]] + labels, NOTHING, body)
    case If(bt, thn, els) =>
      && PopExpect(o, Known(I32)).ok && (els == [] ==> bt.Empty?)
      && ProperSeq(c, [K(bt.Types())] + labels, NOTHING, thn)
      && ProperSeq(c, [K(bt.Types())] + labels, NOTHING, els)
    case _ => true
  }

  ghost predicate ProperSeq(c: Context, labels: seq<seq<VType>>, o: Ops, code: seq<Instr>)
    requires c.Valid()
    decreases code, 0
  {
    code == []
    || (&& ProperOne(c, labels, o, code[0])
        && var r := CheckOne(c, labels, o, code[0]);
           r.Some? ==> ProperSeq(c, labels, r.value, code[1..]))
  }

  // ----- everything typed is accepted -----

  lemma SmallK(t: ValType)
    ensures K([]) == [] && K([t]) == [Known(t)]
  {
  }

  lemma TransferApplies(ts: seq<ValType>, n: nat, take: seq<ValType>, put: seq<ValType>)
    requires n <= |ts| && ts[n..] == take
    ensures Transfer(At(ts), Sig(K(take), K(put))) == Some(At(ts[..n] + put))
  {
    hide PopSeq, K;
    PopsKnown(ts, take);
    KConcat(ts[..n], put);
  }

  /** Instructions whose typing is one fixed signature, taken from the context. */
  predicate Fixed(i: Instr) {
    || i.Nop? || i.Call? || i.CallIndirect? || i.LocalGet? || i.LocalSet? || i.LocalTee?
    || i.GlobalGet? || i.GlobalSet? || i.Memory? || i.Const? || i.Numeric?
  }

  predicate Structured(i: Instr) {
    i.Block? || i.Loop? || i.If?
  }

  predicate Stops(i: Instr) {
    i.Unreachable? || i.Return? || i.Br? || i.BrTable?
  }

  /** The checker's signature for them is the one of the rules. */
  lemma FixedSig(c: Context, labels: seq<seq<ValType>>, i: Instr, take: seq<ValType>, put: seq<ValType>)
    requires c.Valid() && Fixed(i) && InstrTyped(c, labels, i, take, put)
    ensures PlainSig(c, i) == Some(Sig(K(take), K(put)))
  {
    hide SeqTyped, Aligned, AlignmentFits, NumericSig, MemorySig, Belongs, FamilyType, AccessOf, AccessType;
    SmallK(I32);
    match i
    case CallIndirect(x) =>
      var args :| take == args + [I32] && c.types[x] == Sig(K(args), K(put));
      KConcat(args, [I32]);
    case Memory(op, align, _) =>
      AlignedIff(op, align);
      MemoryAccesses(op);
    case Const(v) => SmallK(v.Type());
    case Nop =>
    case Call(_) =>
    case LocalGet(_) =>
    case LocalSet(_) =>
    case LocalTee(_) =>
    case GlobalGet(_) =>
    case GlobalSet(_) =>
    case Numeric(op) =>
      var f :| Belongs(op, f) && Sig(take, put) == FamilyType(f);
      NumericFamilies(op, f);
  }

  lemma FixedCheck(c: Context, labels: seq<seq<VType>>, o: Ops, i: Instr)
    requires c.Valid() && Fixed(i)
    ensures CheckOne(c, labels, o, i) == match PlainSig(c, i) case None => None case Some(s) => Transfer(o, s)
    ensures ProperOne(c, labels, o, i)
  {
    hide PlainSig, Transfer, CheckBlock, CheckSelect, ProperSeq;
  }

  lemma FixedComplete(c: Context, labels: seq<seq<ValType>>, i: Instr, ts: seq<ValType>, us: seq<ValType>, n: nat)
    requires c.Valid() && AppliedAt(c, labels, i, ts, us, n) && Fixed(i)
    ensures CheckOne(c, KL(labels), At(ts), i) == Some(At(us))
  {
    var take, put := ts[n..], us[n..];
    assert us == ts[..n] + put;
    assert InstrTyped(c, labels, i, take, put);
    hide InstrTyped, CheckOne, PlainSig, Transfer;
    FixedSig(c, labels, i, take, put);
    FixedCheck(c, KL(labels), At(ts), i);
    TransferApplies(ts, n, take, put);
  }

  lemma DropComplete(c: Context, labels: seq<seq<ValType>>, ts: seq<ValType>, us: seq<ValType>, n: nat)
    requires c.Valid() && AppliedAt(c, labels, Drop, ts, us, n)
    ensures CheckOne(c, KL(labels), At(ts), Drop) == Some(At(us))
  {
    hide PopSeq;
    assert us == ts[..|ts| - 1];
    assert K(ts)[..|ts| - 1] == K(us);
    DropCheck(c, KL(labels), At(ts));
  }

  lemma DropCheck(c: Context, labels: seq<seq<VType>>, o: Ops)
    requires c.Valid()
    ensures CheckOne(c, labels, o, Drop) == if PopAny(o).ok then Some(PopAny(o).rest) else None
  {
    var p := PopExpect(o, Unknown);
    assert PopSeq(p.rest, []) == Some(p.rest);
    assert PopSeq(o, [Unknown]) == if p.ok then PopSeq(p.rest, [Unknown][..0]) else None;
    assert p.rest.vals + [] == p.rest.vals;
  }

  lemma SelectKnown(vs: seq<ValType>, t: ValType)
    ensures CheckSelect(At(vs + [t, t, I32])) == Some(At(vs + [t]))
  {
    var ts := vs + [t, t, I32];
    assert K(ts)[..|ts| - 1] == K(vs + [t, t]);
    assert K(vs + [t, t])[..|vs| + 1] == K(vs + [t]);
    assert K(vs + [t])[..|vs|] == K(vs);
    assert K(vs) + [Known(t)] == K(vs + [t]);
  }

  lemma SelectComplete(c: Context, labels: seq<seq<ValType>>, ts: seq<ValType>, us: seq<ValType>, n: nat)
    requires c.Valid() && AppliedAt(c, labels, Select, ts, us, n)
    ensures CheckOne(c, KL(labels), At(ts), Select) == Some(At(us))
  {
    hide CheckSelect;
    var t := us[n];
    assert ts == ts[..n] + ts[n..];
    assert ts[n..] == [t, t, I32];
    assert us == ts[..n] + [t];
    SelectKnown(ts[..n], t);
  }

  lemma IndexedEnd(ts: seq<ValType>, us: seq<ValType>)
    requires EndsIn(ts, us + [I32])
    ensures ts != [] && ts[|ts| - 1] == I32 && EndsIn(ts[..|ts| - 1], us)
    ensures var p := PopExpect(At(ts), Known(I32)); p.ok && p.rest == At(ts[..|ts| - 1])
  {
    assert ts[|ts| - |us| - 1..][|us|] == I32;
    assert K(ts)[..|ts| - 1] == K(ts[..|ts| - 1]);
    assert ts[..|ts| - 1][|ts| - 1 - |us|..] == (us + [I32])[..|us|];
  }

  lemma BrIfCheck(c: Context, labels: seq<seq<VType>>, o: Ops, k: U32)
    requires c.Valid()
    ensures CheckOne(c, labels, o, BrIf(k)) ==
      var p := PopExpect(o, Known(I32));
      if k < |labels| && p.ok then Transfer(p.rest, Sig(labels[k], labels[k])) else None
  {
  }

  lemma BrIfComplete(c: Context, labels: seq<seq<ValType>>, k: U32, ts: seq<ValType>, us: seq<ValType>, n: nat)
    requires c.Valid() && AppliedAt(c, labels, BrIf(k), ts, us, n)
    ensures CheckOne(c, KL(labels), At(ts), BrIf(k)) == Some(At(us))
  {
    var l := labels[k];
    assert us == ts[..n] + l && ts[n..] == l + [I32];
    hide CheckOne, Transfer, K, At, PopExpect;
    IndexedEnd(ts, l);
    var vs := ts[..|ts| - 1];
    assert vs[n..] == l && vs[..n] == ts[..n];
    BrIfCheck(c, KL(labels), At(ts), k);
    TransferApplies(vs, n, l, l);
  }

  /** A frame whose state has `ts` as an instance can be closed with them. */
  lemma ClosesInst(o: Ops, ts: seq<ValType>)
    requires Inst(o, ts)
    ensures EndsWith(o, K(ts))
  {
    hide PopSeq;
    PopsKnown(ts, ts);
    assert ts[0..] == ts && ts[..0] == [] && K([]) == [];
    PopSeqCovers(o, At(ts), K(ts));
  }

  lemma {:induction false} BlockComplete(c: Context, labels: seq<seq<ValType>>, l: seq<ValType>, body: seq<Instr>,
                                         bt: BlockType)
    requires c.Valid() && SeqTyped(c, [l] + labels, body, [], bt.Types())
    ensures CheckBlock(c, [K(l)] + KL(labels), body, bt)
    ensures ProperSeq(c, [K(l)] + KL(labels), NOTHING, body)
    decreases body, 1
  {
    hide CheckSeq, SeqTyped, PopSeq, ProperSeq;
    KLCons(l, labels);
    InstSelf([]);
    assert At([]) == NOTHING;
    SeqComplete(c, [l] + labels, NOTHING, [], body, bt.Types());
    ClosesInst(CheckSeq(c, [K(l)] + KL(labels), NOTHING, body).value, bt.Types());
  }

  lemma {:induction false} StructuredComplete(c: Context, labels: seq<seq<ValType>>, i: Instr, ts: seq<ValType>,
                                              us: seq<ValType>, n: nat)
    requires c.Valid() && AppliedAt(c, labels, i, ts, us, n) && Structured(i)
    ensures CheckOne(c, KL(labels), At(ts), i) == Some(At(us))
    ensures ProperOne(c, KL(labels), At(ts), i)
    decreases i, 1
  {
    hide CheckBlock, SeqTyped, KL, ProperSeq;
    var t := i.bt.Types();
    assert us == us[..n] + t && K([]) == [];
    match i
    case Block(bt, body) =>
      BlockComplete(c, labels, t, body, bt);
      assert ts[n..] == [] && ts == us[..n];
      KConcat(us[..n], t);
    case Loop(bt, body) =>
      BlockComplete(c, labels, [], body, bt);
      assert ts[n..] == [] && ts == us[..n];
      KConcat(us[..n], t);
    case If(bt, thn, els) =>
      BlockComplete(c, labels, t, thn, bt);
      BlockComplete(c, labels, t, els, bt);
      EmptyArm(c, [t] + labels, els, bt);
      assert ts == us[..n] + [I32];
      assert K(ts)[..|ts| - 1] == K(us[..n]);
      KConcat(us[..n], t);
  }

  lemma EmptyArm(c: Context, labels: seq<seq<ValType>>, els: seq<Instr>, bt: BlockType)
    requires c.Valid() && SeqTyped(c, labels, els, [], bt.Types())
    ensures els == [] ==> bt.Empty?
  {
  }

  lemma PopsEnd(ts: seq<ValType>, us: seq<ValType>)
    requires EndsIn(ts, us)
    ensures PopSeq(At(ts), K(us)).Some?
  {
    hide PopSeq;
    PopsKnown(ts, us);
  }

  lemma EndsInLonger(ts: seq<ValType>, n: nat, us: seq<ValType>)
    requires n <= |ts| && EndsIn(ts[n..], us)
    ensures EndsIn(ts, us)
  {
  }

  lemma StopCheck(c: Context, labels: seq<seq<VType>>, o: Ops, i: Instr)
    requires c.Valid() && Stops(i)
    ensures CheckOne(c, labels, o, i) == if StopAllowed(c, labels, o, i) then Some(STOPPED) else None
    ensures ProperOne(c, labels, o, i)
  {
    hide PopSeq, PopExpect;
  }

  /** What the checker asks of an instruction after which the code cannot be reached. */
  predicate StopAllowed(c: Context, labels: seq<seq<VType>>, o: Ops, i: Instr)
    requires c.Valid() && Stops(i)
  {
    match i
    case Unreachable => true
    case Return => PopSeq(o, c.results).Some?
    case Br(n) => n < |labels| && PopSeq(o, labels[n]).Some?
    case BrTable(table, n) =>
      var p := PopExpect(o, Known(I32));
      TableFits(labels, table, n) && p.ok && PopSeq(p.rest, labels[n]).Some?
  }

  lemma StopComplete(c: Context, labels: seq<seq<ValType>>, i: Instr, ts: seq<ValType>, us: seq<ValType>, n: nat)
    requires c.Valid() && AppliedAt(c, labels, i, ts, us, n) && Stops(i)
    ensures CheckOne(c, KL(labels), At(ts), i) == Some(STOPPED)
  {
    hide PopSeq, EndsIn, CheckOne, PopExpect, At, K;
    StopCheck(c, KL(labels), At(ts), i);
    match i
    case Unreachable =>
    case Return =>
      var rs :| EndsIn(ts[n..], rs) && K(rs) == c.results;
      EndsInLonger(ts, n, rs);
      PopsEnd(ts, rs);
    case Br(k) =>
      EndsInLonger(ts, n, labels[k]);
      PopsEnd(ts, labels[k]);
    case BrTable(table, k) =>
      EndsInLonger(ts, n, labels[k] + [I32]);
      IndexedEnd(ts, labels[k]);
      PopsEnd(ts[..|ts| - 1], labels[k]);
  }

  lemma StoppedInst(us: seq<ValType>)
    ensures Inst(STOPPED, us)
  {
  }

  lemma {:induction false} StepComplete(c: Context, labels: seq<seq<ValType>>, i: Instr, ts: seq<ValType>,
                                        us: seq<ValType>)
    requires c.Valid() && Applied(c, labels, i, ts, us)
    ensures CheckOne(c, KL(labels), At(ts), i).Some? && ProperOne(c, KL(labels), At(ts), i)
    ensures Inst(CheckOne(c, KL(labels), At(ts), i).value, us)
    decreases i, 2
  {
    var n: nat :| AppliedAt(c, labels, i, ts, us, n);
    hide AppliedAt, CheckOne, Inst, ProperSeq;
    InstSelf(us);
    StoppedInst(us);
    if Structured(i) {
      StructuredComplete(c, labels, i, ts, us, n);
    } else if Stops(i) {
      StopComplete(c, labels, i, ts, us, n);
    } else if Fixed(i) {
      FixedComplete(c, labels, i, ts, us, n);
    } else if i.Drop? {
      DropComplete(c, labels, ts, us, n);
    } else if i.Select? {
      SelectComplete(c, labels, ts, us, n);
    } else {
      BrIfComplete(c, labels, i.depth, ts, us, n);
    }
  }

  lemma ProperCovers(c: Context, labels: seq<seq<VType>>, u: Ops, o: Ops, i: Instr)
    requires c.Valid() && Loosens(u, o) && ProperOne(c, labels, o, i)
    ensures ProperOne(c, labels, u, i)
  {
    hide ProperSeq;
    if i.If? {
      PopExpectCovers(u, o, Known(I32), Known(I32));
    }
  }

  /** Completeness: what the rules type is accepted, from every state that has the
      types as an instance, and the end state has the resulting types as one. */
  lemma {:induction false} SeqComplete(c: Context, labels: seq<seq<ValType>>, o: Ops, ts: seq<ValType>,
                                       code: seq<Instr>, us: seq<ValType>)
    requires c.Valid() && Inst(o, ts) && SeqTyped(c, labels, code, ts, us)
    ensures CheckSeq(c, KL(labels), o, code).Some? && Inst(CheckSeq(c, KL(labels), o, code).value, us)
    ensures ProperSeq(c, KL(labels), o, code)
    decreases code, 0
  {
    hide CheckOne, Applied, ProperOne;
    if code != [] {
      var mid :| Applied(c, labels, code[0], ts, mid) && SeqTyped(c, labels, code[1..], mid, us);
      StepComplete(c, labels, code[0], ts, mid);
      StepCovers(c, KL(labels), o, At(ts), code[0]);
      ProperCovers(c, KL(labels), o, At(ts), code[0]);
      var o1 := CheckOne(c, KL(labels), o, code[0]).value;
      LoosensTrans(o1, CheckOne(c, KL(labels), At(ts), code[0]).value, At(mid));
      SeqComplete(c, labels, o1, mid, code[1..], us);
    }
  }
}
