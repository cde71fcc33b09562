/** The checker against the typing rules, the other way round: whatever it accepts the
    rules type, provided that every `if` is proper, and the state it computes is the
    most general one, its instances being exactly the types that the rules allow. */
module Principal {
  import opened Wasm
  import opened Typing
  import opened Subsumption
  import opened Soundness
  import opened Declarative
  import opened Opcodes
  import Standard

  predicate AllKnown(ts: seq<VType>) {
    forall k :: 0 <= k < |ts| ==> ts[k].Known?
  }

  /** A context as a module declares it: no type in it is Unknown. */
  ghost predicate KnownContext(c: Context) {
    && c.Valid() && AllKnown(c.locals) && AllKnown(c.results)
    && (forall k :: 0 <= k < |c.globals| ==> c.globals[k].t.Known?)
    && forall k :: 0 <= k < |c.types| ==> AllKnown(c.types[k].take) && AllKnown(c.types[k].put)
  }

  /** The types named by `ts`, any type for an Unknown one. */
  function Names(ts: seq<VType>): seq<ValType> {
    seq(|ts|, k requires 0 <= k < |ts| => if ts[k].Known? then ts[k].t else I32)
  }

  lemma KNames(ts: seq<VType>)
    requires AllKnown(ts)
    ensures K(Names(ts)) == ts && |Names(ts)| == |ts|
  {
  }

  lemma SomeInst(o: Ops)
    ensures Inst(o, Names(o.vals))
  {
  }

  // ----- pops, backwards -----

  lemma UnpopAny(o: Ops, ws: seq<ValType>, t: ValType)
    requires PopAny(o).ok && Matches(PopAny(o).t, Known(t)) && Inst(PopAny(o).rest, ws)
    ensures Inst(o, ws + [t])
  {
    var u, d := K(ws + [t]), |ws| + 1 - |o.vals|;
    if o.vals != [] {
      var r := PopAny(o).rest;
      forall k | 0 <= k < |o.vals| ensures Matches(o.vals[k], u[d + k]) {
        if k < |r.vals| {
          assert Matches(r.vals[k], K(ws)[d + k]);
        }
      }
    }
  }

  lemma Unpop(o: Ops, ws: seq<ValType>, t: ValType)
    requires PopExpect(o, Known(t)).ok && Inst(PopExpect(o, Known(t)).rest, ws)
    ensures Inst(o, ws + [t])
  {
    UnpopAny(o, ws, t);
  }

  lemma PopLast(o: Ops, take: seq<ValType>)
    requires take != [] && PopSeq(o, K(take)).Some?
    ensures var n := |take| - 1;
            var p := PopExpect(o, Known(take[n]));
            p.ok && PopSeq(o, K(take)) == PopSeq(p.rest, K(take[..n]))
  {
    hide PopExpect;
    var n := |take| - 1;
    assert K(take)[n] == Known(take[n]);
    assert K(take)[..n] == K(take[..n]);
  }

  lemma {:induction false} UnpopSeq(o: Ops, take: seq<ValType>, ws: seq<ValType>)
    requires PopSeq(o, K(take)).Some? && Inst(PopSeq(o, K(take)).value, ws)
    ensures Inst(o, ws + take)
    decreases |take|
  {
    hide Inst;
    if take == [] {
      assert ws + take == ws;
    } else {
      hide PopSeq, PopExpect, K;
      var n := |take| - 1;
      var p := PopExpect(o, Known(take[n]));
      PopLast(o, take);
      UnpopSeq(p.rest, take[..n], ws);
      Unpop(o, ws + take[..n], take[n]);
      assert ws + take[..n] + [take[n]] == ws + take;
    }
  }

  lemma Unpushed(r: Ops, t: VType, us: seq<ValType>)
    requires Inst(Push(r, [t]), us)
    ensures us != [] && Matches(t, Known(us[|us| - 1])) && Inst(r, us[..|us| - 1])
  {
    var n := |us| - 1;
    var vals := r.vals + [t];
    var d := |us| - |vals|;
    assert Matches(vals[|r.vals|], K(us)[d + |r.vals|]);
    forall k | 0 <= k < |r.vals| ensures Matches(r.vals[k], K(us[..n])[d + k]) {
      assert Matches(vals[k], K(us)[d + k]);
    }
  }

  lemma PushLast(r: Ops, put: seq<ValType>)
    requires put != []
    ensures Push(r, K(put)) == Push(Push(r, K(put[..|put| - 1])), [Known(put[|put| - 1])])
  {
    assert K(put) == K(put[..|put| - 1]) + [Known(put[|put| - 1])];
  }

  lemma OneMore(us: seq<ValType>, ws: seq<ValType>, put: seq<ValType>)
    requires us != [] && put != [] && us[..|us| - 1] == ws + put[..|put| - 1] && us[|us| - 1] == put[|put| - 1]
    ensures us == ws + put
  {
    assert us == us[..|us| - 1] + [us[|us| - 1]];
  }

  /** An instance of a state with `put` pushed ends in `put`. */
  lemma {:induction false} Unpush(r: Ops, put: seq<ValType>, us: seq<ValType>) returns (ws: seq<ValType>)
    requires Inst(Push(r, K(put)), us)
    ensures us == ws + put && Inst(r, ws)
    decreases |put|
  {
    hide Inst, K, Push;
    if put == [] {
      PushNone(r);
      ws := us;
    } else {
      var n, m := |put| - 1, |us| - 1;
      PushLast(r, put);
      Unpushed(Push(r, K(put[..n])), Known(put[n]), us);
      ws := Unpush(r, put[..n], us[..m]);
      OneMore(us, ws, put);
    }
  }

  lemma PushNone(r: Ops)
    ensures Push(r, K([])) == r
  {
    assert r.vals + K([]) == r.vals;
  }

  lemma Untransfer(o: Ops, take: seq<ValType>, put: seq<ValType>, us: seq<ValType>) returns (ws: seq<ValType>)
    requires var r := Transfer(o, Sig(K(take), K(put))); r.Some? && Inst(r.value, us)
    ensures us == ws + put && Inst(o, ws + take)
  {
    hide Inst, PopSeq;
    var r := PopSeq(o, K(take)).value;
    ws := Unpush(r, put, us);
    UnpopSeq(o, take, ws);
  }

  lemma AppliedBelow(c: Context, labels: seq<seq<ValType>>, i: Instr, ws: seq<ValType>, take: seq<ValType>,
                     put: seq<ValType>)
    requires c.Valid() && InstrTyped(c, labels, i, take, put)
    ensures Applied(c, labels, i, ws + take, ws + put)
  {
    hide InstrTyped;
    var ts, us := ws + take, ws + put;
    assert ts[|ws|..] == take && us[|ws|..] == put && ts[..|ws|] == us[..|ws|];
    assert AppliedAt(c, labels, i, ts, us, |ws|);
  }

  // ----- everything accepted is typed -----

  /** The fixed signature of an accepted instruction, in value types. */
  lemma FixedTyped(c: Context, labels: seq<seq<ValType>>, i: Instr) returns (take: seq<ValType>, put: seq<ValType>)
    requires KnownContext(c) && Fixed(i) && PlainSig(c, i).Some?
    ensures InstrTyped(c, labels, i, take, put) && PlainSig(c, i) == Some(Sig(K(take), K(put)))
  {
    hide SeqTyped, Aligned, AlignmentFits, NumericSig, MemorySig, Belongs, FamilyType, AccessOf, AccessType;
    var s := PlainSig(c, i).value;
    SmallK(I32);
    match i
    case CallIndirect(x) =>
      var args := Names(c.types[x].take);
      take, put := args + [I32], Names(c.types[x].put);
      KNames(c.types[x].take);
      KNames(c.types[x].put);
      KConcat(args, [I32]);
    case Memory(op, align, _) =>
      take, put := MemorySig(op).take, MemorySig(op).put;
      AlignedIff(op, align);
      MemoryAccesses(op);
    case Const(v) =>
      take, put := [], [v.Type()];
      SmallK(v.Type());
    case Numeric(op) =>
      take, put := NumericSig(op).take, NumericSig(op).put;
      NumericFamilies(op, FamilyOf(op));
    case Call(f) =>
      take, put := Names(s.take), Names(s.put);
      KNames(s.take);
      KNames(s.put);
    case _ =>
      take, put := Names(s.take), Names(s.put);
      KNames(s.take);
      KNames(s.put);
  }

  lemma FixedSound(c: Context, labels: seq<seq<ValType>>, o: Ops, i: Instr, us: seq<ValType>) returns (ts: seq<ValType>)
    requires KnownContext(c) && Fixed(i)
    requires var r := CheckOne(c, KL(labels), o, i); r.Some? && Inst(r.value, us)
    ensures Inst(o, ts) && Applied(c, labels, i, ts, us)
  {
    hide Fixed, CheckOne, PlainSig, Transfer, Inst, Applied, InstrTyped;
    FixedCheck(c, KL(labels), o, i);
    var take, put := FixedTyped(c, labels, i);
    var ws := Untransfer(o, take, put, us);
    ts := ws + take;
    AppliedBelow(c, labels, i, ws, take, put);
  }

  lemma DropSound(c: Context, labels: seq<seq<ValType>>, o: Ops, us: seq<ValType>) returns (ts: seq<ValType>)
    requires c.Valid()
    requires var r := CheckOne(c, KL(labels), o, Drop); r.Some? && Inst(r.value, us)
    ensures Inst(o, ts) && Applied(c, labels, Drop, ts, us)
  {
    hide CheckOne, Inst, Applied;
    DropCheck(c, KL(labels), o);
    var t := if PopAny(o).t.Known? then PopAny(o).t.t else I32;
    UnpopAny(o, us, t);
    ts := us + [t];
    AppliedBelow(c, labels, Drop, us, [t], []);
    assert us + [] == us;
  }

  lemma Unselect(o: Ops, us: seq<ValType>)
    requires CheckSelect(o).Some? && Inst(CheckSelect(o).value, us)
    ensures us != [] && var m := |us| - 1; Inst(o, us[..m] + [us[m], us[m], I32])
  {
    hide Inst;
    var cond := PopExpect(o, Known(I32));
    var second := PopAny(cond.rest);
    var first := PopExpect(second.rest, second.t);
    Unpushed(first.rest, first.t, us);
    var m := |us| - 1;
    var ws, t := us[..m], us[m];
    ExpectAgrees(second.rest, second.t, t);
    hide PopExpect, PopAny;
    UnpopAny(second.rest, ws, t);
    UnpopAny(cond.rest, ws + [t], t);
    Unpop(o, ws + [t] + [t], I32);
    assert ws + [t] + [t] + [I32] == ws + [t, t, I32];
  }

  /** A popped operand that is compared with `e` and stands for `t`. */
  lemma ExpectAgrees(o: Ops, e: VType, t: ValType)
    requires PopExpect(o, e).ok && Matches(PopExpect(o, e).t, Known(t))
    ensures PopAny(o).ok && PopAny(o).rest == PopExpect(o, e).rest
    ensures Matches(PopAny(o).t, Known(t)) && Matches(e, Known(t))
  {
  }

  lemma SelectSound(c: Context, labels: seq<seq<ValType>>, o: Ops, us: seq<ValType>) returns (ts: seq<ValType>)
    requires c.Valid()
    requires CheckSelect(o).Some? && Inst(CheckSelect(o).value, us)
    ensures Inst(o, ts) && Applied(c, labels, Select, ts, us)
  {
    hide CheckSelect, Inst, Applied;
    Unselect(o, us);
    var m := |us| - 1;
    var ws, t := us[..m], us[m];
    ts := ws + [t, t, I32];
    AppliedBelow(c, labels, Select, ws, [t, t, I32], [t]);
    assert ws + [t] == us;
  }

  lemma BrIfSound(c: Context, labels: seq<seq<ValType>>, o: Ops, k: U32, us: seq<ValType>) returns (ts: seq<ValType>)
    requires c.Valid()
    requires var r := CheckOne(c, KL(labels), o, BrIf(k)); r.Some? && Inst(r.value, us)
    ensures Inst(o, ts) && Applied(c, labels, BrIf(k), ts, us)
  {
    hide CheckOne, Inst, Applied, Transfer;
    BrIfCheck(c, KL(labels), o, k);
    var p, l := PopExpect(o, Known(I32)), labels[k];
    var ws := Untransfer(p.rest, l, l, us);
    Unpop(o, ws + l, I32);
    ts := ws + (l + [I32]);
    assert ws + l + [I32] == ts;
    AppliedBelow(c, labels, BrIf(k), ws, l + [I32], l);
  }

  lemma PoppedInst(o: Ops, l: seq<ValType>) returns (ts: seq<ValType>)
    requires PopSeq(o, K(l)).Some?
    ensures Inst(o, ts) && EndsIn(ts, l)
  {
    hide Inst, PopSeq;
    var r := PopSeq(o, K(l)).value;
    SomeInst(r);
    UnpopSeq(o, l, Names(r.vals));
    ts := Names(r.vals) + l;
  }

  lemma KInjective(s: seq<ValType>, t: seq<ValType>)
    requires K(s) == K(t)
    ensures s == t
  {
    forall k | 0 <= k < |s| ensures s[k] == t[k] {
      assert K(s)[k] == Known(s[k]) && K(t)[k] == Known(t[k]);
    }
  }

  lemma TableSound(labels: seq<seq<ValType>>, table: seq<U32>, n: U32)
    requires TableFits(KL(labels), table, n)
    ensures n < |labels| && forall k :: 0 <= k < |table| ==> table[k] < |labels| && labels[table[k]] == labels[n]
  {
    forall k | 0 <= k < |table| ensures table[k] < |labels| && labels[table[k]] == labels[n] {
      KInjective(labels[table[k]], labels[n]);
    }
  }

  /** Types that the instruction can take to whatever follows it. */
  lemma StopTyped(c: Context, labels: seq<seq<ValType>>, o: Ops, i: Instr, us: seq<ValType>) returns (ts: seq<ValType>)
    requires KnownContext(c) && Stops(i) && StopAllowed(c, KL(labels), o, i)
    ensures Inst(o, ts) && InstrTyped(c, labels, i, ts, us)
  {
    hide Inst, PopSeq, PopExpect, EndsIn, TableFits;
    match i
    case Unreachable =>
      SomeInst(o);
      ts := Names(o.vals);
    case Return =>
      KNames(c.results);
      ts := PoppedInst(o, Names(c.results));
    case Br(n) => ts := PoppedInst(o, labels[n]);
    case BrTable(table, n) =>
      TableSound(labels, table, n);
      var p := PopExpect(o, Known(I32));
      var ws := PoppedInst(p.rest, labels[n]);
      Unpop(o, ws, I32);
      ts := ws + [I32];
      EndsInOneMore(ws, labels[n], I32);
  }

  lemma EndsInOneMore(ws: seq<ValType>, l: seq<ValType>, t: ValType)
    requires EndsIn(ws, l)
    ensures EndsIn(ws + [t], l + [t])
  {
    var ts := ws + [t];
    assert ts[|ts| - |l| - 1..] == ws[|ws| - |l|..] + [t];
  }

  lemma StopSound(c: Context, labels: seq<seq<ValType>>, o: Ops, i: Instr, us: seq<ValType>) returns (ts: seq<ValType>)
    requires KnownContext(c) && Stops(i) && CheckOne(c, KL(labels), o, i).Some?
    ensures Inst(o, ts) && Applied(c, labels, i, ts, us)
  {
    hide CheckOne, Inst, Applied, InstrTyped, StopAllowed;
    StopCheck(c, KL(labels), o, i);
    ts := StopTyped(c, labels, o, i, us);
    AppliedBelow(c, labels, i, [], ts, us);
    assert [] + ts == ts && [] + us == us;
  }

  lemma ClosedInst(o: Ops, ts: seq<ValType>)
    requires EndsWith(o, K(ts))
    ensures Inst(o, ts)
  {
    hide PopSeq;
    var r := PopSeq(o, K(ts)).value;
    UnpopSeq(o, ts, []);
    assert [] + ts == ts;
  }

  lemma {:induction false} BlockSound(c: Context, labels: seq<seq<ValType>>, l: seq<ValType>, body: seq<Instr>,
                                      bt: BlockType)
    requires KnownContext(c) && CheckBlock(c, [K(l)] + KL(labels), body, bt)
    requires ProperSeq(c, [K(l)] + KL(labels), NOTHING, body)
    ensures SeqTyped(c, [l] + labels, body, [], bt.Types())
    decreases body, 1
  {
    hide CheckSeq, SeqTyped, ProperSeq, EndsWith;
    KLCons(l, labels);
    ClosedInst(CheckSeq(c, [K(l)] + KL(labels), NOTHING, body).value, bt.Types());
    var ts := SeqSound(c, [l] + labels, NOTHING, body, bt.Types());
    assert ts == [];
  }

  /** The bodies of an accepted and proper structured instruction are typed. */
  lemma {:induction false} StructuredTyped(c: Context, labels: seq<seq<ValType>>, o: Ops, i: Instr)
      returns (take: seq<ValType>)
    requires KnownContext(c) && Structured(i) && CheckOne(c, KL(labels), o, i).Some? && ProperOne(c, KL(labels), o, i)
    ensures InstrTyped(c, labels, i, take, i.bt.Types()) && take == if i.If? then [I32] else []
    decreases i, 1
  {
    hide CheckBlock, SeqTyped, ProperSeq, KL, PopExpect;
    assert K([]) == [];
    take := [];
    match i
    case Block(bt, body) => BlockSound(c, labels, bt.Types(), body, bt);
    case Loop(bt, body) => BlockSound(c, labels, [], body, bt);
    case If(bt, thn, els) =>
      take := [I32];
      BlockSound(c, labels, bt.Types(), thn, bt);
      if els == [] {
        EmptyTyped(c, [bt.Types()] + labels);
      } else {
        BlockSound(c, labels, bt.Types(), els, bt);
      }
  }

  lemma EmptyTyped(c: Context, labels: seq<seq<ValType>>)
    requires c.Valid()
    ensures SeqTyped(c, labels, [], [], [])
  {
  }

  lemma StructuredCheck(c: Context, labels: seq<seq<VType>>, o: Ops, i: Instr)
    requires c.Valid() && Structured(i) && CheckOne(c, labels, o, i).Some? && ProperOne(c, labels, o, i)
    ensures i.If? ==> PopExpect(o, Known(I32)).ok
    ensures CheckOne(c, labels, o, i)
         == Some(Push(if i.If? then PopExpect(o, Known(I32)).rest else o, K(i.bt.Types())))
  {
    hide CheckBlock, ProperSeq, PopExpect;
  }

  lemma {:induction false} StructuredSound(c: Context, labels: seq<seq<ValType>>, o: Ops, i: Instr, us: seq<ValType>)
      returns (ts: seq<ValType>)
    requires KnownContext(c) && Structured(i) && ProperOne(c, KL(labels), o, i)
    requires var r := CheckOne(c, KL(labels), o, i); r.Some? && Inst(r.value, us)
    ensures Inst(o, ts) && Applied(c, labels, i, ts, us)
    decreases i, 2
  {
    hide CheckOne, Inst, Applied, InstrTyped, ProperOne;
    var put := i.bt.Types();
    var take := StructuredTyped(c, labels, o, i);
    StructuredCheck(c, KL(labels), o, i);
    var r := if i.If? then PopExpect(o, Known(I32)).rest else o;
    var ws := Unpush(r, put, us);
    ts := ws + take;
    AppliedBelow(c, labels, i, ws, take, put);
    if i.If? {
      Unpop(o, ws, I32);
    } else {
      assert ts == ws;
    }
  }

  lemma {:induction false} StepSound(c: Context, labels: seq<seq<ValType>>, o: Ops, i: Instr, us: seq<ValType>)
      returns (ts: seq<ValType>)
    requires KnownContext(c) && ProperOne(c, KL(labels), o, i)
    requires var r := CheckOne(c, KL(labels), o, i); r.Some? && Inst(r.value, us)
    ensures Inst(o, ts) && Applied(c, labels, i, ts, us)
    decreases i, 3
  {
    hide Inst, Applied, ProperOne;
    if i.Select? {
      ts := SelectSound(c, labels, o, us);
    } else {
      hide CheckOne;
      if Structured(i) {
        ts := StructuredSound(c, labels, o, i, us);
      } else if Stops(i) {
        ts := StopSound(c, labels, o, i, us);
      } else if Fixed(i) {
        ts := FixedSound(c, labels, o, i, us);
      } else if i.Drop? {
        ts := DropSound(c, labels, o, us);
      } else {
        ts := BrIfSound(c, labels, o, i.depth, us);
      }
    }
  }

  /** Soundness: each instance of the end state is reached by the rules from some
      instance of the first state. */
  lemma {:induction false} SeqSound(c: Context, labels: seq<seq<ValType>>, o: Ops, code: seq<Instr>, us: seq<ValType>)
      returns (ts: seq<ValType>)
    requires KnownContext(c) && ProperSeq(c, KL(labels), o, code)
    requires var r := CheckSeq(c, KL(labels), o, code); r.Some? && Inst(r.value, us)
    ensures Inst(o, ts) && SeqTyped(c, labels, code, ts, us)
    decreases code, 0
  {
    hide CheckOne, ProperOne, Applied, Inst;
    if code == [] {
      ts := us;
    } else {
      var o1 := CheckOne(c, KL(labels), o, code[0]).value;
      var mid := SeqSound(c, labels, o1, code[1..], us);
      ts := StepSound(c, labels, o, code[0], mid);
    }
  }

  // ----- the exact verdict -----

  /** The checker accepts a sequence of proper code with an end state that has `us` as an
      instance exactly when the rules take an instance of the first state to `us`. */
  lemma AcceptedIffTyped(c: Context, labels: seq<seq<ValType>>, o: Ops, code: seq<Instr>, us: seq<ValType>)
    requires KnownContext(c)
    ensures (exists ts :: Inst(o, ts) && SeqTyped(c, labels, code, ts, us))
      <==> var r := CheckSeq(c, KL(labels), o, code);
           r.Some? && Inst(r.value, us) && ProperSeq(c, KL(labels), o, code)
  {
    hide CheckSeq, SeqTyped, Inst, ProperSeq;
    if ts :| Inst(o, ts) && SeqTyped(c, labels, code, ts, us) {
      SeqComplete(c, labels, o, ts, code, us);
    }
    var r := CheckSeq(c, KL(labels), o, code);
    if r.Some? && Inst(r.value, us) && ProperSeq(c, KL(labels), o, code) {
      var ts := SeqSound(c, labels, o, code, us);
    }
  }

  /** A block body: it has the type [] -> [ts] exactly when it is accepted, can be closed
      with `ts`, and is proper. */
  lemma ClosedIffTyped(c: Context, labels: seq<seq<ValType>>, body: seq<Instr>, ts: seq<ValType>)
    requires KnownContext(c)
    ensures SeqTyped(c, labels, body, [], ts)
      <==> var r := CheckSeq(c, KL(labels), NOTHING, body);
           r.Some? && EndsWith(r.value, K(ts)) && ProperSeq(c, KL(labels), NOTHING, body)
  {
    hide CheckSeq, SeqTyped, EndsWith, ProperSeq;
    if SeqTyped(c, labels, body, [], ts) {
      InstSelf([]);
      assert At([]) == NOTHING;
      SeqComplete(c, labels, NOTHING, [], body, ts);
      ClosesInst(CheckSeq(c, KL(labels), NOTHING, body).value, ts);
    }
    var r := CheckSeq(c, KL(labels), NOTHING, body);
    if r.Some? && EndsWith(r.value, K(ts)) && ProperSeq(c, KL(labels), NOTHING, body) {
      ClosedInst(r.value, ts);
      var vs := SeqSound(c, labels, NOTHING, body, ts);
      assert vs == [];
    }
  }

  /** A function body as the checker treats it is accepted, and proper, exactly when the
      rules, with a function label that carries nothing, type it with some end. */
  lemma BodyIffTyped(c: Context, body: seq<Instr>)
    requires KnownContext(c)
    ensures (exists us :: SeqTyped(c, [[]], body, [], us))
      <==> CheckBody(c, body) && ProperSeq(c, [[]], NOTHING, body)
  {
    hide CheckSeq, SeqTyped, ProperSeq;
    assert KL([[]]) == [[]];
    if us :| SeqTyped(c, [[]], body, [], us) {
      InstSelf([]);
      assert At([]) == NOTHING;
      SeqComplete(c, [[]], NOTHING, [], body, us);
    }
    if CheckBody(c, body) && ProperSeq(c, [[]], NOTHING, body) {
      var r := CheckSeq(c, [[]], NOTHING, body).value;
      SomeInst(r);
      var vs := SeqSound(c, [[]], NOTHING, body, Names(r.vals));
      assert vs == [];
    }
  }

  /** A body that is valid by the standard, whose function label carries the results. */
  ghost predicate ValidBody(c: Context, rs: seq<ValType>, body: seq<Instr>)
    requires c.Valid()
  {
    SeqTyped(c, [rs], body, [], rs)
  }

  /** Every valid body is accepted, but for br_tables that mix the function label with
      others. */
  lemma ValidBodyAccepted(c: Context, rs: seq<ValType>, body: seq<Instr>)
    requires KnownContext(c) && c.results == K(rs) && ValidBody(c, rs, body) && Standard.Uniform(body, 0)
    ensures CheckBody(c, body)
  {
    hide CheckSeq, SeqTyped, EndsWith, ProperSeq, Standard.Uniform;
    assert KL([rs]) == [c.results];
    ClosedIffTyped(c, [rs], body, rs);
    Standard.ValidIsAccepted(c, body);
  }

  /** Where no branch names the function label, or there are no results, a body is valid
      exactly when it is accepted, its end state can be closed with the results, and
      every `if` is proper. */
  lemma ValidBodyIff(c: Context, rs: seq<ValType>, body: seq<Instr>)
    requires KnownContext(c) && c.results == K(rs) && (Standard.Inner(body, 0) || rs == [])
    ensures ValidBody(c, rs, body)
       <==> CheckBody(c, body) && EndsWith(BodyEnd(c, body), c.results) && ProperSeq(c, [c.results], NOTHING, body)
  {
    hide CheckSeq, SeqTyped, EndsWith, ProperSeq, Standard.Inner;
    assert KL([rs]) == [c.results];
    ClosedIffTyped(c, [rs], body, rs);
    assert Standard.Strict(c, []) == [c.results] && Standard.Loose([]) == [[]];
    Standard.SameSeq(c, [], NOTHING, body);
  }
}
