/** The stack-based form checker. All frames share one operand stack; a frame
    remembers the stack height at its entry. */
module FormChecker {
  import opened Wasm
  import opened Typing
  import Subsumption

  datatype CtrlFrame = CtrlFrame(
    labelTypes: seq<VType>,
    endTypes: seq<VType>,
    height: nat,
    unreachable: bool)

  /** The two running stacks: operands with the top last, frames with the top first. */
  datatype Stacks = Stacks(vals: seq<VType>, ctrls: seq<CtrlFrame>) {

    /** Frame heights are ordered and lie within the operand stack. */
    predicate Wf() {
      && (ctrls != [] ==> ctrls[0].height <= |vals|)
      && forall j :: 0 < j < |ctrls| ==> ctrls[j].height <= ctrls[j - 1].height
    }

    function Below(): seq<VType>
      requires Wf() && ctrls != []
    {
      vals[..ctrls[0].height]
    }

    /** The top frame's own operands and its reachability. */
    function Top(): Ops
      requires Wf() && ctrls != []
    {
      Ops(vals[ctrls[0].height..], ctrls[0].unreachable)
    }

    /** Only the top frame's operands and reachability replaced. */
    function With(o: Ops): Stacks
      requires Wf() && ctrls != []
    {
      Stacks(Below() + o.vals, [ctrls[0].(unreachable := o.poly)] + ctrls[1..])
    }

    function Labels(): seq<seq<VType>> {
      seq(|ctrls|, j requires 0 <= j < |ctrls| => ctrls[j].labelTypes)
    }

    function Pushed(labelTypes: seq<VType>, endTypes: seq<VType>): Stacks {
      Stacks(vals, [CtrlFrame(labelTypes, endTypes, |vals|, false)] + ctrls)
    }
  }

  lemma WithTop(s: Stacks, o: Ops, q: Ops)
    requires s.Wf() && s.ctrls != []
    ensures s.With(o).Wf()
    ensures s.With(o).Top() == o && s.With(o).Labels() == s.Labels()
    ensures s.With(o).With(q) == s.With(q)
    ensures s.With(s.Top()) == s
  {
    var t := s.With(o);
    assert t.vals[..t.ctrls[0].height] == s.Below();
    assert t.vals[t.ctrls[0].height..] == o.vals;
    assert t.ctrls[1..] == s.ctrls[1..];
    assert s.vals[..s.ctrls[0].height] + s.vals[s.ctrls[0].height..] == s.vals;
    assert s.With(s.Top()).ctrls == s.ctrls;
  }

  /** A new frame starts empty, and closing it gives back the frames below. */
  lemma PushedTop(s: Stacks, lt: seq<VType>, et: seq<VType>, o: Ops)
    requires s.Wf()
    ensures s.Pushed(lt, et).Wf() && s.Pushed(lt, et).Top() == NOTHING
    ensures s.Pushed(lt, et).Labels() == [lt] + s.Labels()
    ensures o.vals == [] ==>
      s.Pushed(lt, et).With(o).vals == s.vals && s.Pushed(lt, et).With(o).ctrls[1..] == s.ctrls
  {
  }

  class FormChecker {
    var types: seq<Sig<VType>>
    var funcs: seq<nat>
    var tables: seq<Byte>
    var mems: seq<nat>
    var globals: seq<GlobalType>
    var numImportGlobals: nat
    var locals: seq<VType>
    var results: seq<VType>
    var ctrlStack: seq<CtrlFrame>
    var valStack: seq<VType>

    constructor ()
      ensures Fresh() && types == [] && funcs == [] && tables == [] && mems == [] && globals == []
      ensures numImportGlobals == 0
    {
      types, funcs, tables, mems, globals, numImportGlobals := [], [], [], [], [], 0;
      locals, results, ctrlStack, valStack := [], [], [], [];
    }

    function Ctx(): Context
      reads this
    {
      Context(types, funcs, tables, |mems|, globals, locals, results)
    }

    function Now(): Stacks
      reads this
    {
      Stacks(valStack, ctrlStack)
    }

    predicate Valid()
      reads this
    {
      Ctx().Valid() && Now().Wf()
    }

    /** The state that `Reset` establishes, apart from the module-level context. */
    predicate Fresh()
      reads this
    {
      locals == [] && results == [] && ctrlStack == [] && valStack == []
    }

    predicate Running()
      reads this
    {
      Valid() && ctrlStack != []
    }

    method Reset(cleanGlobal: bool)
      modifies this
      ensures Fresh()
      ensures cleanGlobal ==>
        types == [] && funcs == [] && tables == [] && mems == [] && globals == [] && numImportGlobals == 0
      ensures !cleanGlobal ==>
        && types == old(types) && funcs == old(funcs) && tables == old(tables) && mems == old(mems)
        && globals == old(globals) && numImportGlobals == old(numImportGlobals)
    {
      valStack, ctrlStack, locals, results := [], [], [], [];
      if cleanGlobal {
        types, funcs, tables, mems, globals, numImportGlobals := [], [], [], [], [], 0;
      }
    }

    method AddType(sig: Sig<VType>)
      modifies `types
      ensures types == old(types) + [sig]
    {
      types := types + [sig];
    }

    /** An index that names no type is silently ignored. */
    method AddFunc(typeIdx: nat)
      modifies `funcs
      ensures funcs == if typeIdx < |types| then old(funcs) + [typeIdx] else old(funcs)
      ensures old(Ctx().Valid()) ==> Ctx().Valid()
    {
      if |types| > typeIdx {
        funcs := funcs + [typeIdx];
      }
    }

    method AddTable(elem: Byte)
      modifies `tables
      ensures tables == old(tables) + [elem]
    {
      tables := tables + [elem];
    }

    method AddMemory()
      modifies `mems
      ensures mems == old(mems) + [|old(mems)|]
    {
      mems := mems + [|mems|];
    }

    method AddGlobal(g: GlobalType, isImport: bool)
      modifies `globals, `numImportGlobals
      ensures globals == old(globals) + [g]
      ensures numImportGlobals == old(numImportGlobals) + if isImport then 1 else 0
    {
      globals := globals + [g];
      if isImport {
        numImportGlobals := numImportGlobals + 1;
      }
    }

    method AddLocal(v: VType)
      modifies `locals
      ensures locals == old(locals) + [v]
    {
      locals := locals + [v];
    }

    method PushType(v: VType)
      modifies `valStack
      ensures valStack == old(valStack) + [v]
    {
      valStack := valStack + [v];
    }

    method PushTypes(ts: seq<VType>)
      modifies `valStack
      ensures valStack == old(valStack) + ts
    {
      for k := 0 to |ts|
        invariant valStack == old(valStack) + ts[..k]
      {
        PushType(ts[k]);
        assert ts[..k + 1] == ts[..k] + [ts[k]];
      }
      assert ts[..|ts|] == ts;
    }

    method PopAnyType() returns (ok: bool, t: VType)
      requires Running()
      modifies `valStack
      ensures Running()
      ensures var p := PopAny(old(Now().Top())); ok == p.ok && t == p.t && Now() == old(Now()).With(p.rest)
    {
      WithTop(Now(), Now().Top(), Now().Top());
      if |valStack| == ctrlStack[0].height {
        ok, t := ctrlStack[0].unreachable, Unknown;
      } else {
        ok, t := true, valStack[|valStack| - 1];
        ghost var rest := PopAny(Now().Top()).rest;
        assert Now().Below() + rest.vals == valStack[..|valStack| - 1];
        valStack := valStack[..|valStack| - 1];
        assert ctrlStack == [ctrlStack[0]] + ctrlStack[1..];
      }
    }

    method PopType(e: VType) returns (ok: bool, t: VType)
      requires Running()
      modifies `valStack
      ensures Running()
      ensures var p := PopExpect(old(Now().Top()), e); ok == p.ok && t == p.t && Now() == old(Now()).With(p.rest)
    {
      ok, t := PopAnyType();
      if !ok {
        return;
      }
      if t == Unknown {
        t := e;
      } else if e != Unknown && t != e {
        ok := false;
      }
    }

    method PopTypes(ts: seq<VType>) returns (ok: bool)
      requires Running()
      modifies `valStack
      ensures Running()
      ensures var r := PopSeq(old(Now().Top()), ts); ok == r.Some? && (ok ==> Now() == old(Now()).With(r.value))
    {
      ghost var s0 := Now();
      ghost var cur := s0.Top();
      WithTop(s0, cur, cur);
      var k := |ts|;
      assert ts[..k] == ts;
      while k > 0
        invariant 0 <= k <= |ts|
        invariant Running() && Now() == s0.With(cur) && Now().Top() == cur
        invariant PopSeq(s0.Top(), ts) == PopSeq(cur, ts[..k])
      {
        assert ts[..k][..k - 1] == ts[..k - 1];
        ghost var p := PopExpect(cur, ts[k - 1]);
        WithTop(s0, cur, p.rest);
        WithTop(s0, p.rest, p.rest);
        var t;
        ok, t := PopType(ts[k - 1]);
        if !ok {
          return;
        }
        k := k - 1;
        cur := p.rest;
      }
      ok := true;
    }

    method PushCtrl(labelTypes: seq<VType>, endTypes: seq<VType>)
      modifies `ctrlStack
      ensures Now() == old(Now()).Pushed(labelTypes, endTypes)
    {
      ctrlStack := [CtrlFrame(labelTypes, endTypes, |valStack|, false)] + ctrlStack;
    }

    method PopCtrl() returns (ok: bool, endTypes: seq<VType>)
      requires Valid()
      modifies `valStack, `ctrlStack
      ensures ok <==> old(ctrlStack) != [] && EndsWith(old(Now().Top()), old(ctrlStack[0].endTypes))
      ensures ok ==> endTypes == old(ctrlStack[0].endTypes)
      ensures ok ==> Now() == Stacks(old(Now().Below()), old(ctrlStack[1..]))
    {
      endTypes := [];
      if ctrlStack == [] {
        return false, [];
      }
      var head := ctrlStack[0];
      ok := PopTypes(head.endTypes);
      if !ok {
        return;
      }
      if |valStack| != head.height {
        return false, [];
      }
      ctrlStack := ctrlStack[1..];
      endTypes := head.endTypes;
    }

    method MarkUnreachable()
      requires Running()
      modifies `valStack, `ctrlStack
      ensures Running() && Now() == old(Now()).With(STOPPED)
    {
      ghost var s0 := Now();
      while |valStack| > ctrlStack[0].height
        invariant Running() && ctrlStack == old(ctrlStack)
        invariant valStack[..ctrlStack[0].height] == s0.Below()
      {
        var ok, _ := PopAnyType();
        assert ctrlStack[1..] == old(ctrlStack)[1..];
      }
      ctrlStack := [ctrlStack[0].(unreachable := true)] + ctrlStack[1..];
      WithTop(s0, STOPPED, STOPPED);
    }

    method StackTrans(take: seq<VType>, put: seq<VType>) returns (ok: bool)
      requires Running()
      modifies `valStack
      ensures Running()
      ensures var r := Transfer(old(Now().Top()), Sig(take, put));
              ok == r.Some? && (ok ==> Now() == old(Now()).With(r.value))
    {
      ok := PopTypes(take);
      if ok {
        ghost var r := PopSeq(old(Now().Top()), take).value;
        assert old(Now()).Below() + r.vals + put == old(Now()).Below() + (r.vals + put);
        PushTypes(put);
        WithTop(old(Now()), Push(r, put), r);
      }
    }

    /** The verdict and the new stacks are those of the compositional typing: the
        frames below are untouched, the top frame changes at most in its
        reachability, and no operand below its height is read or removed. */
    method CheckInstr(i: Instr) returns (ok: bool)
      requires Running()
      modifies `valStack, `ctrlStack
      ensures var r := CheckOne(Ctx(), old(Now().Labels()), old(Now().Top()), i);
              ok == r.Some? && (ok ==> Running() && Now() == old(Now()).With(r.value))
      decreases i, 1
    {
      hide CheckSeq, Stacks.With, Stacks.Top, Stacks.Labels;
      ghost var s0 := Now();
      WithTop(s0, s0.Top(), s0.Top());
      match i
      case Unreachable =>
        MarkUnreachable();
        ok := true;
      case Nop =>
        ok := true;
        assert Push(s0.Top(), []) == s0.Top();
      case Return =>
        ok := PopTypes(results);
        ok := FinishStop(ok, s0, PopSeq(s0.Top(), results));
      case Block(bt, body) =>
        ok := CheckBody(K(bt.Types()), bt, body);
      case Loop(bt, body) =>
        ok := CheckBody([], bt, body);
      case If(bt, thn, els) =>
        ok := CheckIf(bt, thn, els);
      case Br(n) =>
        ok := CheckBr(n);
      case BrIf(n) =>
        ok := CheckBrIf(n);
      case BrTable(table, n) =>
        ok := CheckBrTable(table, n);
      case Call(f) =>
        if |funcs| <= f {
          return false;
        }
        ok := StackTrans(types[funcs[f]].take, types[funcs[f]].put);
      case CallIndirect(n) =>
        ok := CheckCallIndirect(n);
      case Drop =>
        ok := StackTrans([Unknown], []);
      case Select =>
        ok := CheckSelectOp();
      case Memory(op, align, _) =>
        if mems == [] || !AlignmentFits(op, align) {
          return false;
        }
        ok := StackTrans(K(MemorySig(op).take), K(MemorySig(op).put));
      case Const(v) =>
        ok := StackTrans([], [Known(v.Type())]);
      case Numeric(op) =>
        ok := StackTrans(K(NumericSig(op).take), K(NumericSig(op).put));
      case _ =>
        ok := CheckVariable(i);
    }

    method CheckInstrs(code: seq<Instr>) returns (ok: bool)
      requires Running()
      modifies `valStack, `ctrlStack
      ensures var r := CheckSeq(Ctx(), old(Now().Labels()), old(Now().Top()), code);
              ok == r.Some? && (ok ==> Running() && Now() == old(Now()).With(r.value))
      decreases code, 0
    {
      ghost var s0 := Now();
      ghost var cur := s0.Top();
      WithTop(s0, cur, cur);
      for k := 0 to |code|
        invariant Running() && Now() == s0.With(cur) && Now().Top() == cur && Now().Labels() == s0.Labels()
        invariant CheckSeq(Ctx(), s0.Labels(), s0.Top(), code) == CheckSeq(Ctx(), s0.Labels(), cur, code[k..])
      {
        assert code[k..][1..] == code[k + 1..];
        ok := CheckInstr(code[k]);
        if !ok {
          return;
        }
        ghost var next := CheckOne(Ctx(), s0.Labels(), cur, code[k]).value;
        WithTop(s0, cur, next);
        WithTop(s0, next, next);
        cur := next;
      }
      ok := true;
    }

    /** Return, br and br_table end by making the rest of the frame unreachable. */
    method FinishStop(popped: bool, ghost s0: Stacks, ghost r: Option<Ops>) returns (ok: bool)
      requires Running() && s0.Wf() && s0.ctrls != []
      requires popped == r.Some? && (popped ==> Now() == s0.With(r.value))
      modifies `valStack, `ctrlStack
      ensures ok == popped
      ensures ok ==> Running() && Now() == s0.With(STOPPED)
    {
      if popped {
        WithTop(s0, r.value, STOPPED);
        MarkUnreachable();
      }
      ok := popped;
    }

    /** Push a frame, check the body, close the frame, push its results. */
    method CheckBody(labelTypes: seq<VType>, bt: BlockType, body: seq<Instr>) returns (ok: bool)
      requires Running()
      modifies `valStack, `ctrlStack
      ensures ok == CheckBlock(Ctx(), [labelTypes] + old(Now().Labels()), body, bt)
      ensures ok ==> Running() && Now() == old(Now()).With(Push(old(Now().Top()), K(bt.Types())))
      decreases body, 2
    {
      ghost var s0 := Now();
      ok := CheckArm(labelTypes, bt, body);
      if ok {
        PushTypes(K(bt.Types()));
        PushedResults(s0, K(bt.Types()));
      }
    }

    /** Push a frame, check one arm and close the frame again. */
    method CheckArm(labelTypes: seq<VType>, bt: BlockType, body: seq<Instr>) returns (ok: bool)
      requires Valid()
      modifies `valStack, `ctrlStack
      ensures ok == CheckBlock(Ctx(), [labelTypes] + old(Now().Labels()), body, bt)
      ensures ok ==> Now() == old(Now())
      decreases body, 1
    {
      ghost var s0 := Now();
      PushCtrl(labelTypes, K(bt.Types()));
      PushedTop(s0, labelTypes, K(bt.Types()), NOTHING);
      ghost var s1 := Now();
      ok := CheckInstrs(body);
      if ok {
        ghost var r := CheckSeq(Ctx(), s1.Labels(), NOTHING, body).value;
        WithTop(s1, r, r);
        var t;
        ok, t := PopCtrl();
        assert s1.With(r).Below() == s0.vals;
        assert s1.With(r).ctrls[1..] == s0.ctrls;
      }
    }

    method CheckIf(bt: BlockType, thn: seq<Instr>, els: seq<Instr>) returns (ok: bool)
      requires Running()
      modifies `valStack, `ctrlStack
      ensures var r := CheckOne(Ctx(), old(Now().Labels()), old(Now().Top()), If(bt, thn, els));
              ok == r.Some? && (ok ==> Running() && Now() == old(Now()).With(r.value))
      decreases If(bt, thn, els), 0
    {
      ghost var s0 := Now();
      ghost var o1 := PopExpect(s0.Top(), Known(I32)).rest;
      var _, _ := PopType(Known(I32));
      WithTop(s0, o1, Push(o1, K(bt.Types())));
      ghost var s1 := Now();
      ok := CheckArm(K(bt.Types()), bt, thn);
      if ok && els != [] {
        ok := CheckArm(K(bt.Types()), bt, els);
      }
      if ok {
        PushTypes(K(bt.Types()));
        PushedResults(s1, K(bt.Types()));
      }
    }

    method CheckBr(n: U32) returns (ok: bool)
      requires Running()
      modifies `valStack, `ctrlStack
      ensures var r := CheckOne(Ctx(), old(Now().Labels()), old(Now().Top()), Br(n));
              ok == r.Some? && (ok ==> Running() && Now() == old(Now()).With(r.value))
    {
      if |ctrlStack| <= n {
        return false;
      }
      ghost var s0 := Now();
      ok := PopTypes(ctrlStack[n].labelTypes);
      ok := FinishStop(ok, s0, PopSeq(s0.Top(), s0.Labels()[n]));
    }

    method CheckBrIf(n: U32) returns (ok: bool)
      requires Running()
      modifies `valStack, `ctrlStack
      ensures var r := CheckOne(Ctx(), old(Now().Labels()), old(Now().Top()), BrIf(n));
              ok == r.Some? && (ok ==> Running() && Now() == old(Now()).With(r.value))
    {
      if |ctrlStack| <= n {
        return false;
      }
      ghost var s0 := Now();
      ghost var p := PopExpect(s0.Top(), Known(I32));
      var t;
      ok, t := PopType(Known(I32));
      if !ok {
        return;
      }
      WithTop(s0, p.rest, p.rest);
      assert Now().Labels() == s0.Labels();
      assert ctrlStack[n].labelTypes == s0.Labels()[n];
      ok := StackTrans(ctrlStack[n].labelTypes, ctrlStack[n].labelTypes);
      if ok {
        WithTop(s0, p.rest, Transfer(p.rest, Sig(s0.Labels()[n], s0.Labels()[n])).value);
      }
    }

    method CheckBrTable(table: LabelVec, n: U32) returns (ok: bool)
      requires Running()
      modifies `valStack, `ctrlStack
      ensures var r := CheckOne(Ctx(), old(Now().Labels()), old(Now().Top()), BrTable(table, n));
              ok == r.Some? && (ok ==> Running() && Now() == old(Now()).With(r.value))
    {
      if |ctrlStack| <= n {
        return false;
      }
      ghost var s0 := Now();
      for k := 0 to |table|
        invariant Now() == s0 && TableFits(s0.Labels(), table[..k], n)
      {
        if |ctrlStack| <= table[k] || ctrlStack[table[k]].labelTypes != ctrlStack[n].labelTypes {
          assert !TableFits(s0.Labels(), table, n) by {
            assert !(table[k] < |s0.Labels()| && s0.Labels()[table[k]] == s0.Labels()[n]);
          }
          return false;
        }
      }
      assert table[..|table|] == table;
      ghost var p := PopExpect(s0.Top(), Known(I32));
      var t;
      ok, t := PopType(Known(I32));
      if !ok {
        return;
      }
      WithTop(s0, p.rest, p.rest);
      assert ctrlStack[n].labelTypes == s0.Labels()[n];
      ok := PopTypes(ctrlStack[n].labelTypes);
      if ok {
        WithTop(s0, p.rest, PopSeq(p.rest, s0.Labels()[n]).value);
      }
      ok := FinishStop(ok, s0, PopSeq(p.rest, s0.Labels()[n]));
    }

    method CheckCallIndirect(n: U32) returns (ok: bool)
      requires Running()
      modifies `valStack
      ensures var r := CheckOne(Ctx(), old(Now().Labels()), old(Now().Top()), CallIndirect(n));
              ok == r.Some? && (ok ==> Running() && Now() == old(Now()).With(r.value))
    {
      if tables == [] || tables[0] != FUNC_REF || |types| <= n {
        return false;
      }
      ghost var s0 := Now();
      ghost var p := PopExpect(s0.Top(), Known(I32));
      ghost var take := types[n].take;
      assert (take + [Known(I32)])[..|take|] == take;
      var t;
      ok, t := PopType(Known(I32));
      if !ok {
        return;
      }
      WithTop(s0, p.rest, p.rest);
      ok := StackTrans(types[n].take, types[n].put);
      if ok {
        WithTop(s0, p.rest, Transfer(p.rest, types[n]).value);
      }
    }

    method CheckSelectOp() returns (ok: bool)
      requires Running()
      modifies `valStack
      ensures var r := CheckSelect(old(Now().Top()));
              ok == r.Some? && (ok ==> Running() && Now() == old(Now()).With(r.value))
    {
      ghost var s0 := Now();
      ghost var cond := PopExpect(s0.Top(), Known(I32));
      ghost var second := PopAny(cond.rest);
      ghost var first := PopExpect(second.rest, second.t);
      WithTop(s0, cond.rest, second.rest);
      WithTop(s0, second.rest, first.rest);
      WithTop(s0, first.rest, Push(first.rest, [first.t]));
      var t;
      ok, t := PopType(Known(I32));
      if !ok {
        return;
      }
      ok, t := PopAnyType();
      if !ok {
        return;
      }
      ok, t := PopType(t);
      if !ok {
        return;
      }
      assert s0.Below() + first.rest.vals + [t] == s0.Below() + (first.rest.vals + [t]);
      PushType(t);
    }

    method CheckVariable(i: Instr) returns (ok: bool)
      requires Running()
      requires i.LocalGet? || i.LocalSet? || i.LocalTee? || i.GlobalGet? || i.GlobalSet?
      modifies `valStack
      ensures var r := CheckOne(Ctx(), old(Now().Labels()), old(Now().Top()), i);
              ok == r.Some? && (ok ==> Running() && Now() == old(Now()).With(r.value))
    {
      hide CheckSeq, PopSeq, Transfer, Stacks.With, Stacks.Top, Stacks.Labels;
      var expected: VType;
      if i.LocalGet? || i.LocalSet? || i.LocalTee? {
        if i.index >= |locals| {
          return false;
        }
        expected := locals[i.index];
      } else {
        if i.index >= |globals| {
          return false;
        }
        expected := globals[i.index].t;
      }
      if i.GlobalSet? && !globals[i.index].mutable {
        return false;
      }
      var take := if i.LocalGet? || i.GlobalGet? then [] else [expected];
      var put := if i.LocalSet? || i.GlobalSet? then [] else [expected];
      ok := StackTrans(take, put);
    }

    /** Checks a body against `rets` in a new outermost frame. */
    method Validate(code: seq<Instr>, rets: seq<VType>) returns (ok: bool)
      requires Valid()
      modifies `results, `valStack, `ctrlStack
      ensures results == old(results) + rets
      ensures ok == CheckSeq(Ctx(), [[]] + old(Now().Labels()), NOTHING, code).Some?
    {
      for k := 0 to |rets|
        invariant results == old(results) + rets[..k]
        invariant Now() == old(Now()) && Valid()
      {
        results := results + [rets[k]];
        assert rets[..k + 1] == rets[..k] + [rets[k]];
      }
      assert rets[..|rets|] == rets;
      PushedTop(Now(), [], results, NOTHING);
      PushCtrl([], results);
      ok := CheckInstrs(code);
    }
  }

  lemma PushedResults(s: Stacks, ts: seq<VType>)
    requires s.Wf() && s.ctrls != []
    ensures Stacks(s.vals + ts, s.ctrls) == s.With(Push(s.Top(), ts))
    ensures s.With(Push(s.Top(), ts)).Wf()
  {
    WithTop(s, s.Top(), s.Top());
    WithTop(s, Push(s.Top(), ts), s.Top());
    assert s.Below() + s.Top().vals + ts == s.Below() + (s.Top().vals + ts);
  }

  /** Checker framing: whatever sequence is accepted, the frames below the top are
      unchanged, the top frame changes at most from reachable to unreachable, no
      operand below its height is touched, and the heights stay in order. */
  lemma Framing(c: Context, s: Stacks, code: seq<Instr>)
    requires c.Valid() && s.Wf() && s.ctrls != []
    requires CheckSeq(c, s.Labels(), s.Top(), code).Some?
    ensures var t := s.With(CheckSeq(c, s.Labels(), s.Top(), code).value);
            && t.Wf() && |t.ctrls| == |s.ctrls| && t.ctrls[1..] == s.ctrls[1..]
            && t.ctrls[0] == s.ctrls[0].(unreachable := t.ctrls[0].unreachable)
            && (s.ctrls[0].unreachable ==> t.ctrls[0].unreachable)
            && t.vals[..s.ctrls[0].height] == s.vals[..s.ctrls[0].height]
  {
    hide CheckSeq;
    var o := CheckSeq(c, s.Labels(), s.Top(), code).value;
    WithTop(s, o, o);
    if s.ctrls[0].unreachable {
      Subsumption.StaysUnreachable(c, s.Labels(), s.Top(), code);
    }
  }
}
