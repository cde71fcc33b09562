/** Progress and preservation of the layered semantics. */
module Preservation {
  import opened Wasm
  import opened Typing
  import opened SideConditions
  import opened Machine
  import opened Layers
  import opened Soundness

  /** A code layer that stands on typed layers. */
  predicate Rooted(p: Program, env: Env, res: seq<ValType>, l: Layer)
    requires p.Valid()
  {
    l.Code? && Linked(p, env, l) && Accepts(p, env, res, l.below, End(p, l))
  }

  /** Code layer `l` is about to execute `i`, already taken out of its code. */
  ghost predicate Ready(p: Program, env: Env, res: seq<ValType>, l: Layer, i: Instr)
    requires p.Valid()
  {
    && Rooted(p, env, res, l)
    && var c, ls, o := Ctx(p, env, FuncOf(l)), Labels(l), Ops(K(Types(l.ops)), false);
    && CleanOne(c, ls, o, i)
    && CheckOne(c, ls, o, i).Some?
    && var o1 := CheckOne(c, ls, o, i).value;
    && CleanSeq(c, ls, o1, l.rest)
    && CheckSeq(c, ls, o1, l.rest).Some?
    && Closes(l.kind, CheckSeq(c, ls, o1, l.rest).value, End(p, l), EndOf(p, env, FuncOf(l)))
  }

  /** The step neither goes wrong nor leaves the typed states. */
  ghost predicate Safe(p: Program, env: Env, res: seq<ValType>, r: Result)
    requires p.Valid()
  {
    !r.Wrong? && (r.Ok? ==> Accepts(p, env, res, r.top, []) && GlobalsTyped(env, r.globals))
  }

  ghost function After(p: Program, env: Env, l: Layer, i: Instr): Ops
    requires p.Valid()
    requires CheckOne(Ctx(p, env, FuncOf(l)), Labels(l), Ops(K(Types(l.ops)), false), i).Some?
  {
    CheckOne(Ctx(p, env, FuncOf(l)), Labels(l), Ops(K(Types(l.ops)), false), i).value
  }

  /** Operands and remaining code do not matter for where a layer stands. */
  lemma {:induction false} SameRoot(p: Program, env: Env, res: seq<ValType>, l: Layer, m: Layer)
    requires p.Valid() && Rooted(p, env, res, l)
    requires m.Code? && m.kind == l.kind && m.below == l.below
    ensures Rooted(p, env, res, m)
    ensures Labels(m) == Labels(l) && FuncOf(m) == FuncOf(l) && End(p, m) == End(p, l)
  {
    hide Continues, Ctx, Accepts, LabelTypes;
  }

  /** The layer goes on when the operands it will have are those the checker computed. */
  lemma {:induction false} Resume(p: Program, env: Env, res: seq<ValType>, l: Layer, i: Instr, ops: seq<Value>,
          extra: seq<ValType>)
    requires p.Valid() && Ready(p, env, res, l, i)
    requires After(p, env, l, i) == Ops(K(Types(ops) + extra), false)
    ensures Accepts(p, env, res, WithOps(l, ops), extra)
  {
    hide CheckOne, CleanOne, CheckSeq, CleanSeq, Ctx, K, Types, Linked, Labels, FuncOf, End;
    SameRoot(p, env, res, l, WithOps(l, ops));
  }

  // ----- operand instructions -----

  lemma {:induction false} ExchangeSafe(p: Program, env: Env, res: seq<ValType>, l: Layer, g: seq<Value>, i: Instr,
          s: Sig<ValType>, o: Oracle)
    requires p.Valid() && Ready(p, env, res, l, i) && GlobalsTyped(env, g)
    requires CheckOne(Ctx(p, env, FuncOf(l)), Labels(l), Ops(K(Types(l.ops)), false), i)
             == Transfer(Ops(K(Types(l.ops)), false), KSig(s))
    ensures Safe(p, env, res, OnOps(l, Exchange(Own(l, g), s, o)))
  {
    hide CheckSeq, CleanSeq, CleanOne, Accepts, PopSeq, Transfer, K, Types, CheckOne, Ctx, Linked;
    var ts := Types(l.ops);
    TransferKnown(ts, s.take, s.put);
    var n := |l.ops| - |s.take|;
    assert Types(l.ops[n..]) == ts[n..];
    if !o.trap {
      var ops := l.ops[..n] + MakeValues(s.put, o.bits);
      assert Types(ops) + [] == ts[..n] + s.put;
      Resume(p, env, res, l, i, ops, []);
    }
  }

  lemma {:induction false} SelectSafe(p: Program, env: Env, res: seq<ValType>, l: Layer, g: seq<Value>)
    requires p.Valid() && Ready(p, env, res, l, Select) && GlobalsTyped(env, g)
    ensures Safe(p, env, res, OnOps(l, StepSelect(Own(l, g))))
  {
    hide CheckSeq, CleanSeq, CleanOne, Accepts, PopSeq, Transfer, K, Types, Ctx, Linked;
    var n := |l.ops|;
    var ts := Types(l.ops);
    var o := Ops(K(ts), false);
    assert n >= 1 && ts[n - 1] == I32;
    var p1 := PopExpect(o, Known(I32));
    assert p1.rest.vals == K(ts)[..n - 1];
    assert n >= 2;
    var p2 := PopAny(p1.rest);
    assert p2.t == Known(ts[n - 2]) && p2.rest.vals == K(ts)[..n - 2];
    assert n >= 3 && ts[n - 3] == ts[n - 2];
    assert CheckSelect(o).value == Ops(K(ts)[..n - 3] + [Known(ts[n - 3])], false);
    var c := StepSelect(Own(l, g)).cfg;
    assert c.vals == l.ops[..n - 3] + [c.vals[n - 3]];
    assert K(Types(c.vals) + []) == K(ts)[..n - 3] + [Known(ts[n - 3])];
    Resume(p, env, res, l, Select, c.vals, []);
  }

  lemma GlobalTyping(p: Program, env: Env, f: nat, g: seq<Value>, labels: seq<seq<VType>>, ts: seq<ValType>, i: Instr)
    requires p.Valid() && env.Valid() && GlobalsTyped(env, g) && (i.GlobalGet? || i.GlobalSet?)
    requires CheckOne(Ctx(p, env, f), labels, Ops(K(ts), false), i).Some?
    ensures i.index < |g|
    ensures var t, r := g[i.index].Type(), CheckOne(Ctx(p, env, f), labels, Ops(K(ts), false), i).value;
            if i.GlobalGet? then r == Ops(K(ts + [t]), false)
            else ts != [] && ts[|ts| - 1] == t && r == Ops(K(ts[..|ts| - 1]), false)
  {
    hide PopSeq, K;
    var t := g[i.index].Type();
    assert K([]) == [] && K([t]) == [Known(t)];
    if i.GlobalGet? {
      TransferKnown(ts, [], [t]);
      assert ts[..|ts|] + [t] == ts + [t];
    } else {
      TransferKnown(ts, [t], []);
      assert ts[|ts| - 1..][0] == t && ts[..|ts| - 1] + [] == ts[..|ts| - 1];
    }
  }

  lemma {:induction false} GlobalSafe(p: Program, env: Env, res: seq<ValType>, l: Layer, g: seq<Value>, i: Instr)
    requires p.Valid() && env.Valid() && Ready(p, env, res, l, i) && GlobalsTyped(env, g)
    requires i.GlobalGet? || i.GlobalSet?
    ensures Safe(p, env, res, OnOps(l, StepGlobal(Own(l, g), i)))
  {
    hide CheckSeq, CheckOne, CleanSeq, CleanOne, Accepts, PopSeq, K, Types, Linked, Ctx;
    var ts := Types(l.ops);
    GlobalTyping(p, env, FuncOf(l), g, Labels(l), ts, i);
    var v := g[i.index];
    var ops := if i.GlobalGet? then l.ops + [v] else Front(l.ops);
    assert Types(ops) + [] == if i.GlobalGet? then ts + [v.Type()] else ts[..|ts| - 1];
    Resume(p, env, res, l, i, ops, []);
  }

  lemma {:induction false} DropSafe(p: Program, env: Env, res: seq<ValType>, l: Layer, g: seq<Value>, i: Instr,
          o: Oracle)
    requires p.Valid() && Ready(p, env, res, l, i) && GlobalsTyped(env, g) && (i.Nop? || i.Drop?)
    ensures Safe(p, env, res, OnOps(l, Exec(p, Own(l, g), i, o)))
  {
    hide CheckSeq, CleanSeq, CleanOne, Accepts, PopSeq, Transfer, K, Types, Linked, Ctx;
    var ts := Types(l.ops);
    assert K([]) == [];
    if i.Nop? {
      TransferKnown(ts, [], []);
      assert Types(l.ops) + [] == ts[..|ts|] + [];
      Resume(p, env, res, l, i, l.ops, []);
    } else {
      DropKnown(ts);
      assert Types(Front(l.ops)) + [] == ts[..|ts| - 1];
      Resume(p, env, res, l, i, Front(l.ops), []);
    }
  }

  lemma {:induction false} ConstSafe(p: Program, env: Env, res: seq<ValType>, l: Layer, g: seq<Value>, v: Value)
    requires p.Valid() && Ready(p, env, res, l, Const(v)) && GlobalsTyped(env, g)
    ensures Safe(p, env, res, Ok(WithOps(l, l.ops + [v]), g))
  {
    hide CheckSeq, CleanSeq, CleanOne, Accepts, PopSeq, Transfer, K, Types, Linked, Ctx;
    var ts := Types(l.ops);
    assert K([]) == [] && K([v.Type()]) == [Known(v.Type())];
    TransferKnown(ts, [], [v.Type()]);
    assert Types(l.ops + [v]) + [] == ts[..|ts|] + [v.Type()];
    Resume(p, env, res, l, Const(v), l.ops + [v], []);
  }

  lemma {:induction false} PlainSafe(p: Program, env: Env, res: seq<ValType>, l: Layer, g: seq<Value>, i: Instr,
          o: Oracle)
    requires p.Valid() && env.Valid() && Ready(p, env, res, l, i) && GlobalsTyped(env, g) && IsPlain(i)
    ensures Safe(p, env, res, OnOps(l, Exec(p, Own(l, g), i, o)))
  {
    hide CheckSeq, CleanSeq, CleanOne, Safe, Transfer, K, Types, Rooted, Ctx, StepSelect, StepGlobal, Exchange;
    match i
    case Nop => DropSafe(p, env, res, l, g, i, o);
    case Drop => DropSafe(p, env, res, l, g, i, o);
    case Select => SelectSafe(p, env, res, l, g);
    case GlobalGet(_) => GlobalSafe(p, env, res, l, g, i);
    case GlobalSet(_) => GlobalSafe(p, env, res, l, g, i);
    case Memory(op, _, _) => ExchangeSafe(p, env, res, l, g, i, MemorySig(op), o);
    case Const(v) => ConstSafe(p, env, res, l, g, v);
    case Numeric(op) => ExchangeSafe(p, env, res, l, g, i, NumericSig(op), o);
  }

  // ----- locals -----

  lemma {:induction false} LocalsTyped(p: Program, env: Env, res: seq<ValType>, l: Layer, extra: seq<ValType>)
    requires p.Valid() && !l.Base? && Accepts(p, env, res, l, extra)
    ensures Locals(l).Some? && Ctx(p, env, FuncOf(l)).locals == K(Types(Locals(l).value))
  {
    hide Continues, K, Types;
    if l.Code? {
      LocalsTyped(p, env, res, l.below, End(p, l));
    }
  }

  lemma {:induction false} LocalsInScope(p: Program, env: Env, res: seq<ValType>, l: Layer)
    requires p.Valid() && Rooted(p, env, res, l)
    ensures Locals(l).Some? && Ctx(p, env, FuncOf(l)).locals == K(Types(Locals(l).value))
  {
    hide Continues, Ctx, Accepts;
    LocalsTyped(p, env, res, l.below, End(p, l));
  }

  lemma {:induction false} SetLocalTyped(p: Program, env: Env, res: seq<ValType>, l: Layer, extra: seq<ValType>,
          k: nat, v: Value)
    requires p.Valid() && Accepts(p, env, res, l, extra)
    requires Locals(l).Some? && k < |Locals(l).value| && v.Type() == Locals(l).value[k].Type()
    ensures Accepts(p, env, res, SetLocal(l, k, v), extra)
    ensures FuncOf(SetLocal(l, k, v)) == FuncOf(l) && Labels(SetLocal(l, k, v)) == Labels(l)
    ensures SetLocal(l, k, v).ops == l.ops
    ensures SetLocal(l, k, v).Code? == l.Code? && SetLocal(l, k, v).Activation? == l.Activation?
  {
    hide Continues, K, Types, Ctx;
    match l
    case Activation(_, _, locals, _, _) => assert Types(locals[k := v]) == Types(locals);
    case Code(_, _, _, below) => SetLocalTyped(p, env, res, below, End(p, l), k, v);
  }

  lemma SetLocalOps(l: Layer, k: nat, v: Value, ops: seq<Value>)
    requires l.Code? && Locals(l).Some? && k < |Locals(l).value|
    ensures Locals(WithOps(l, ops)) == Locals(l)
    ensures WithOps(SetLocal(l, k, v), ops) == SetLocal(WithOps(l, ops), k, v)
    ensures SetLocal(l, k, v) == SetLocal(WithOps(l, l.ops), k, v)
  {
    assert WithOps(l, l.ops) == l;
  }

  lemma {:induction false} LocalGetSafe(p: Program, env: Env, res: seq<ValType>, l: Layer, g: seq<Value>, i: Instr)
    requires p.Valid() && Ready(p, env, res, l, i) && GlobalsTyped(env, g) && i.LocalGet?
    ensures Safe(p, env, res, StepLocals(l, g, i))
  {
    hide CheckSeq, CleanSeq, CleanOne, Accepts, PopSeq, Transfer, K, Types, Linked, Ctx, Locals;
    LocalsInScope(p, env, res, l);
    var ts := Types(l.ops);
    var v := Locals(l).value[i.index];
    var t := v.Type();
    assert K([]) == [] && K([t]) == [Known(t)];
    TransferKnown(ts, [], [t]);
    assert Types(l.ops + [v]) + [] == ts[..|ts|] + [t];
    Resume(p, env, res, l, i, l.ops + [v], []);
  }

  lemma {:induction false} LocalSafe(p: Program, env: Env, res: seq<ValType>, l: Layer, g: seq<Value>, i: Instr)
    requires p.Valid() && Ready(p, env, res, l, i) && GlobalsTyped(env, g)
    requires i.LocalGet? || i.LocalSet? || i.LocalTee?
    ensures Safe(p, env, res, StepLocals(l, g, i))
  {
    hide CheckSeq, CleanSeq, CleanOne, Accepts, PopSeq, Transfer, K, Types, Linked, Ctx, Locals, SetLocal;
    if i.LocalGet? {
      LocalGetSafe(p, env, res, l, g, i);
    } else {
      LocalsInScope(p, env, res, l);
      var ts := Types(l.ops);
      var t := Locals(l).value[i.index].Type();
      assert K([]) == [] && K([t]) == [Known(t)];
      TransferKnown(ts, [t], if i.LocalSet? then [] else [t]);
      assert ts[|ts| - 1..] == [Last(ts)];
      var ops := if i.LocalSet? then Front(l.ops) else l.ops;
      assert Types(ops) + [] == ts[..|ts| - 1] + if i.LocalSet? then [] else [t];
      Resume(p, env, res, l, i, ops, []);
      SetLocalOps(l, i.index, Last(l.ops), ops);
      SetLocalTyped(p, env, res, WithOps(l, ops), [], i.index, Last(l.ops));
    }
  }

  // ----- blocks and branches -----

  lemma {:induction false} EnterSafe(p: Program, env: Env, res: seq<ValType>, l: Layer, k: Kind, body: seq<Instr>)
    requires p.Valid() && l.Code? && Accepts(p, env, res, l, if k.FuncBody? then [] else k.bt.Types())
    requires k.BlockBody? || (k.LoopBody? && k.body == body)
    requires k.LoopBody? ==> k.bt.Empty? || NeverEnds(Ctx(p, env, FuncOf(l)), [LabelTypes(k)] + Labels(l), body)
    requires CheckBlock(Ctx(p, env, FuncOf(l)), [LabelTypes(k)] + Labels(l), body, k.bt)
    requires CleanSeq(Ctx(p, env, FuncOf(l)), [LabelTypes(k)] + Labels(l), NOTHING, body)
    ensures Accepts(p, env, res, Code(k, [], body, l), [])
  {
    hide CheckSeq, CleanSeq, K, Types, Ctx;
    var m := Code(k, [], body, l);
    assert Types([]) + [] == [] && K([]) == [];
    assert Labels(m) == [LabelTypes(k)] + Labels(l);
    assert Continues(Ctx(p, env, FuncOf(m)), Labels(m), [], body, GoalOf(p, env, m));
  }

  /** Label indices below the nesting depth resolve inside the activation, and
      only the last of them is the function's own label. */
  lemma {:induction false} EnclosingTyped(p: Program, env: Env, res: seq<ValType>, l: Layer, n: nat)
    requires p.Valid() && Rooted(p, env, res, l) && n < |Labels(l)|
    ensures Enclosing(l, n).Some?
    ensures var t := Enclosing(l, n).value;
            && Rooted(p, env, res, t) && FuncOf(t) == FuncOf(l)
            && LabelTypes(t.kind) == Labels(l)[n]
            && (n + 1 == |Labels(l)| <==> t.kind.FuncBody?)
    decreases n
  {
    hide Continues, K, Ctx;
    if n > 0 {
      EnclosingTyped(p, env, res, l.below, n - 1);
    }
  }

  lemma {:induction false} BranchSafe(p: Program, env: Env, res: seq<ValType>, l: Layer, g: seq<Value>, n: nat)
    requires p.Valid() && Rooted(p, env, res, l) && GlobalsTyped(env, g)
    requires n < |Labels(l)| && Served(Ctx(p, env, FuncOf(l)), Labels(l), Ops(K(Types(l.ops)), false), n)
    requires PopSeq(Ops(K(Types(l.ops)), false), Labels(l)[n]).Some?
    ensures Safe(p, env, res, StepBranch(l, g, n))
  {
    hide CheckOne, CheckSeq, CleanSeq, Accepts, PopSeq, K, Types, Ctx, Linked;
    EnclosingTyped(p, env, res, l, n);
    var t := Enclosing(l, n).value;
    assert Types([]) == [] && K([]) == [];
    match t.kind
    case FuncBody(_) =>
      ResultsOf(p, env, res, t);
      PopsKnown(Types(l.ops), End(p, t));
      var kept := Keep(l.ops, |End(p, t)|);
      assert Types(kept) == Types(l.ops)[|l.ops| - |End(p, t)|..];
      AddOpsAccepts(p, env, res, t.below, kept);
    case BlockBody(bt) =>
      PopsKnown(Types(l.ops), bt.Types());
      var kept := Keep(l.ops, |bt.Types()|);
      assert Types(kept) == Types(l.ops)[|l.ops| - |bt.Types()|..];
      AddOpsAccepts(p, env, res, t.below, kept);
    case LoopBody(bt, body) =>
      LoopAgain(p, env, res, t);
      assert t.below.ops + Keep(l.ops, 0) == t.below.ops;
      assert AddOps(t.below, Keep(l.ops, 0)) == t.below;
  }

  /** A branch to the function's own label delivers values of the result types to
      the activation exactly when the checker could have popped these, which it does
      not try. */
  lemma {:induction false} FunctionBranchDelivers(p: Program, env: Env, res: seq<ValType>, l: Layer, g: seq<Value>,
          n: nat)
    requires p.Valid() && Rooted(p, env, res, l) && n + 1 == |Labels(l)|
    ensures FuncOf(l) < |p.funcs| && Enclosing(l, n).Some?
    ensures var put, r := p.SigOf(FuncOf(l)).put, StepBranch(l, g, n);
            (&& |put| <= |l.ops| && Types(Keep(l.ops, |put|)) == put
             && r == Ok(AddOps(Enclosing(l, n).value.below, Keep(l.ops, |put|)), g))
            <==> PopSeq(Ops(K(Types(l.ops)), false), Ctx(p, env, FuncOf(l)).results).Some?
  {
    hide CheckOne, CheckSeq, CleanSeq, Accepts, PopSeq, K, Types, Ctx, Linked, Enclosing, LabelTypes, Caller;
    EnclosingTyped(p, env, res, l, n);
    var t := Enclosing(l, n).value;
    ResultsOf(p, env, res, t);
    var put := p.SigOf(FuncOf(l)).put;
    PopsKnown(Types(l.ops), put);
    if |put| <= |l.ops| {
      assert Types(Keep(l.ops, |put|)) == Types(l.ops)[|l.ops| - |put|..];
    }
  }

  /** A loop that is branched to starts over in the same place. */
  lemma {:induction false} LoopAgain(p: Program, env: Env, res: seq<ValType>, t: Layer)
    requires p.Valid() && Rooted(p, env, res, t) && t.kind.LoopBody?
    ensures Accepts(p, env, res, Code(t.kind, [], t.kind.body, t.below), [])
  {
    hide Ctx, CheckSeq, CleanSeq, K, Types;
    var m := Code(t.kind, [], t.kind.body, t.below);
    SameRoot(p, env, res, t, m);
    assert Types([]) + [] == [];
    assert Labels(m) == [[]] + Labels(t.below);
  }

  /** The results of the current function, as the checker knows them. */
  lemma {:induction false} ResultsOf(p: Program, env: Env, res: seq<ValType>, l: Layer)
    requires p.Valid() && Rooted(p, env, res, l)
    ensures Caller(l).Some?
    ensures var a := Caller(l).value;
            && a.func == FuncOf(l) && a.func < |p.funcs| && p.funcs[a.func].Native?
            && a.coarity == |p.SigOf(a.func).put|
            && Ctx(p, env, FuncOf(l)).results == K(p.SigOf(a.func).put)
            && (l.kind.FuncBody? ==> l.kind.arity == |p.SigOf(a.func).put| && End(p, l) == p.SigOf(a.func).put)
            && Accepts(p, env, res, a.below, p.SigOf(a.func).put)
  {
    hide Continues, K;
    if l.below.Code? {
      ResultsOf(p, env, res, l.below);
    }
  }

  lemma {:induction false} ReturnSafe(p: Program, env: Env, res: seq<ValType>, l: Layer, g: seq<Value>)
    requires p.Valid() && Ready(p, env, res, l, Return) && GlobalsTyped(env, g)
    ensures Safe(p, env, res, StepReturn(l, g))
  {
    hide CheckSeq, CleanSeq, CleanOne, Accepts, PopSeq, Transfer, K, Types, Linked, Caller, Ctx;
    ResultsOf(p, env, res, l);
    var a := Caller(l).value;
    var put := p.SigOf(a.func).put;
    PopsKnown(Types(l.ops), put);
    assert Types(Keep(l.ops, a.coarity)) == Types(l.ops)[|l.ops| - |put|..];
    AddOpsAccepts(p, env, res, a.below, Keep(l.ops, a.coarity));
  }

  lemma {:induction false} ActivationParts(p: Program, env: Env, res: seq<ValType>, l: Layer)
    requires p.Valid() && l.Activation? && Accepts(p, env, res, l, [])
    ensures l.func < |p.funcs| && Types(l.ops) == p.SigOf(l.func).put && l.coarity == |l.ops|
    ensures Accepts(p, env, res, l.below, Types(l.ops))
  {
    hide Continues, Ctx, Types, Linked;
    assert Types(l.ops) + [] == Types(l.ops);
  }

  /** The end of a function: its results are all that is left above the locals. */
  lemma {:induction false} FinishSafe(p: Program, env: Env, res: seq<ValType>, l: Layer, g: seq<Value>)
    requires p.Valid() && l.Activation? && Accepts(p, env, res, l, []) && GlobalsTyped(env, g)
    ensures Safe(p, env, res, StepReturn(l, g))
  {
    hide Accepts, Types;
    ActivationParts(p, env, res, l);
    assert Keep(l.ops, l.coarity) == l.ops;
    AddOpsAccepts(p, env, res, l.below, l.ops);
  }

  /** When the end of a function body is reached, the operands are those with which
      the checker left it. */
  lemma {:induction false} BodyEndTyped(p: Program, env: Env, res: seq<ValType>, l: Layer)
    requires p.Valid() && l.Code? && l.kind.FuncBody? && l.rest == [] && Accepts(p, env, res, l, [])
    ensures EndOf(p, env, FuncOf(l)) == Ops(K(Types(l.ops)), false)
  {
    hide K, Types, Ctx, CleanSeq, EndOf;
    assert Types(l.ops) + [] == Types(l.ops);
  }

  /** Then leaving it delivers values of the result types exactly when the checker
      could have popped these, which it does not try. */
  lemma {:induction false} BodyEndDelivers(p: Program, env: Env, res: seq<ValType>, l: Layer)
    requires p.Valid() && l.Code? && l.kind.FuncBody? && l.rest == [] && Accepts(p, env, res, l, [])
    ensures (Exit(l, l).Some? && Types(Keep(l.ops, l.kind.Coarity())) == End(p, l))
       <==> Delivers(EndOf(p, env, FuncOf(l)), K(End(p, l)))
    ensures Exit(l, l).Some? ==> Exit(l, l).value == AddOps(l.below, Keep(l.ops, |End(p, l)|))
  {
    hide K, Types, Ctx, PopSeq, Continues, EndOf;
    BodyEndTyped(p, env, res, l);
    ResultsOf(p, env, res, l);
    var ts, end := Types(l.ops), End(p, l);
    PopsKnown(ts, end);
    if |end| <= |ts| {
      assert Types(Keep(l.ops, |end|)) == ts[|ts| - |end|..];
    }
  }

  /** A block or loop at its end keeps its results. */
  lemma {:induction false} CodeParts(p: Program, env: Env, res: seq<ValType>, l: Layer)
    requires p.Valid() && l.Code? && l.rest == [] && Accepts(p, env, res, l, [])
    ensures Accepts(p, env, res, l.below, End(p, l))
    ensures !l.kind.FuncBody? ==>
      l.kind.Coarity() <= |l.ops| && Types(Keep(l.ops, l.kind.Coarity())) == End(p, l)
  {
    hide K, Types, Ctx, PopSeq, CleanSeq, EndOf, Linked;
    var ts := Types(l.ops) + [];
    assert ts == Types(l.ops);
    if l.kind.BlockBody? {
      EndsKnown(ts, End(p, l));
      assert Keep(l.ops, |l.ops|) == l.ops;
    } else if l.kind.LoopBody? {
      assert Types(Keep(l.ops, 0)) == [];
    }
  }

  /** The end of a block: what it keeps are the promised results. */
  lemma {:induction false} ExitSafe(p: Program, env: Env, res: seq<ValType>, l: Layer)
    requires p.Valid() && l.Code? && l.rest == [] && Accepts(p, env, res, l, [])
    requires l.kind.FuncBody? ==> Delivers(EndOf(p, env, FuncOf(l)), K(End(p, l)))
    ensures Exit(l, l).Some? && Types(Keep(l.ops, l.kind.Coarity())) == End(p, l)
    ensures Accepts(p, env, res, Exit(l, l).value, [])
  {
    hide Accepts, K, Types, PopSeq, EndOf, Delivers, End;
    CodeParts(p, env, res, l);
    if l.kind.FuncBody? {
      BodyEndDelivers(p, env, res, l);
    }
    AddOpsAccepts(p, env, res, l.below, Keep(l.ops, l.kind.Coarity()));
  }

  // ----- conditions -----

  /** An accepted pop of an i32 finds one, and removes it. */
  lemma {:induction false} ConditionTyped(l: Layer, g: seq<Value>)
    requires PopExpect(Ops(K(Types(l.ops)), false), Known(I32)).ok
    ensures l.ops != [] && Last(l.ops).I32Val?
    ensures PopI32(Own(l, g)) == Some((Last(l.ops).i32, Own(l, g).(vals := Front(l.ops))))
    ensures PopExpect(Ops(K(Types(l.ops)), false), Known(I32)).rest == Ops(K(Types(Front(l.ops))), false)
  {
    assert K(Types(Front(l.ops))) == K(Types(l.ops))[..|l.ops| - 1];
  }

  /** An empty accepted arm promises no result. */
  lemma EmptyArm(c: Context, labels: seq<seq<VType>>, bt: BlockType)
    requires c.Valid() && CheckBlock(c, labels, [], bt)
    ensures bt.Empty?
  {
    assert K([]) == [];
    EndsKnown([], bt.Types());
  }

  lemma {:induction false} IfSafe(p: Program, env: Env, res: seq<ValType>, l: Layer, g: seq<Value>, i: Instr, o: Oracle)
    requires p.Valid() && Ready(p, env, res, l, i) && GlobalsTyped(env, g) && i.If?
    ensures Safe(p, env, res, StepInstr(p, l, g, i, o))
  {
    hide CheckSeq, CleanSeq, Accepts, K, Types, Ctx, Linked;
    ConditionTyped(l, g);
    var rt := i.bt.Types();
    var ops := Front(l.ops);
    var arm := if Last(l.ops).i32 != 0 then i.thn else i.els;
    KConcat(Types(ops), rt);
    Resume(p, env, res, l, i, ops, rt);
    if arm == [] {
      if i.bt.Result? {
        EmptyArm(Ctx(p, env, FuncOf(l)), [K(rt)] + Labels(l), i.bt);
        assert false;
      }
    } else {
      EnterSafe(p, env, res, WithOps(l, ops), BlockBody(i.bt), arm);
    }
  }

  lemma {:induction false} BrIfSafe(p: Program, env: Env, res: seq<ValType>, l: Layer, g: seq<Value>, n: U32, o: Oracle)
    requires p.Valid() && Ready(p, env, res, l, BrIf(n)) && GlobalsTyped(env, g)
    ensures Safe(p, env, res, StepInstr(p, l, g, BrIf(n), o))
  {
    hide CheckSeq, CleanSeq, Accepts, PopSeq, K, Types, Ctx, Linked;
    ConditionTyped(l, g);
    var ops := Front(l.ops);
    var m := WithOps(l, ops);
    SameRoot(p, env, res, l, m);
    if Last(l.ops).i32 != 0 {
      BranchSafe(p, env, res, m, g, n);
    } else {
      EnclosingTyped(p, env, res, l, n);
      var k := Enclosing(l, n).value.kind;
      var put := if k.BlockBody? then k.bt.Types() else [];
      assert K([]) == [];
      TransferKnown(Types(ops), put, put);
      assert Types(ops) + [] == Types(ops)[..|ops| - |put|] + put;
      Resume(p, env, res, l, BrIf(n), ops, []);
    }
  }

  lemma {:induction false} BrTableSafe(p: Program, env: Env, res: seq<ValType>, l: Layer, g: seq<Value>, i: Instr,
          o: Oracle)
    requires p.Valid() && Ready(p, env, res, l, i) && GlobalsTyped(env, g) && i.BrTable?
    ensures Safe(p, env, res, StepInstr(p, l, g, i, o))
  {
    hide CheckSeq, CleanSeq, Accepts, PopSeq, K, Types, Ctx, Linked;
    ConditionTyped(l, g);
    var m := WithOps(l, Front(l.ops));
    SameRoot(p, env, res, l, m);
    var k := Last(l.ops).i32;
    BranchSafe(p, env, res, m, g, if k < |i.table| then i.table[k] else i.depth);
  }

  // ----- calls -----

  /** The arguments are on top and the caller is ready for the results. */
  ghost predicate Callable(p: Program, env: Env, res: seq<ValType>, l: Layer, s: Sig<ValType>)
    requires p.Valid()
  {
    && l.Code? && |s.take| <= |l.ops| && Types(l.ops[|l.ops| - |s.take|..]) == s.take
    && Accepts(p, env, res, WithOps(l, l.ops[..|l.ops| - |s.take|]), s.put)
  }

  lemma {:induction false} HostCallSafe(p: Program, env: Env, res: seq<ValType>, l: Layer, g: seq<Value>,
          s: Sig<ValType>, o: Oracle)
    requires p.Valid() && Callable(p, env, res, l, s) && GlobalsTyped(env, g)
    ensures Safe(p, env, res, OnOps(l, Exchange(Own(l, g), s, o)))
  {
    hide Accepts, Types;
    if !o.trap {
      AddOpsAccepts(p, env, res, WithOps(l, l.ops[..|l.ops| - |s.take|]), MakeValues(s.put, o.bits));
    }
  }

  lemma {:induction false} NativeCallSafe(p: Program, env: Env, res: seq<ValType>, a: Layer, f: nat)
    requires Clean(p, env) && f < |p.funcs| && p.funcs[f].Native?
    requires a.Activation? && a.func == f && Accepts(p, env, res, a, p.SigOf(f).put)
    ensures Accepts(p, env, res, Code(FuncBody(|p.SigOf(f).put|), [], p.funcs[f].body, a), [])
  {
    hide Continues, CleanBody, K, Types, Accepts;
    var body, put := p.funcs[f].body, p.SigOf(f).put;
    var m := Code(FuncBody(|put|), [], body, a);
    assert CleanBody(Ctx(p, env, f), body);
    CleanContinues(Ctx(p, env, f), body, FuncBody(|put|), put);
    assert Types([]) + [] == [];
    assert FuncOf(a) == f && FuncOf(m) == f && End(p, m) == put;
    assert Labels(a) == [] && Labels(m) == [[]];
    FuncBodyAccepts(p, env, res, m);
  }

  lemma CleanContinues(c: Context, body: seq<Instr>, k: Kind, put: seq<ValType>)
    requires c.Valid() && CleanBody(c, body) && k.FuncBody?
    ensures Continues(c, [[]], [], body, Goal(k, put, BodyEnd(c, body)))
  {
    hide CheckSeq, CleanSeq;
    assert K([]) == [];
  }

  lemma {:induction false} FuncBodyAccepts(p: Program, env: Env, res: seq<ValType>, m: Layer)
    requires p.Valid() && m.Code? && Linked(p, env, m) && m.ops == []
    requires Continues(Ctx(p, env, FuncOf(m)), Labels(m), [], m.rest, GoalOf(p, env, m))
    requires Accepts(p, env, res, m.below, End(p, m))
    ensures Accepts(p, env, res, m, [])
  {
    hide Continues, Ctx, Linked, GoalOf;
    assert Types([]) + [] == [];
  }

  lemma {:induction false} CallSafe(p: Program, env: Env, res: seq<ValType>, l: Layer, g: seq<Value>, f: nat, o: Oracle)
    requires Clean(p, env) && f < |p.funcs| && Callable(p, env, res, l, p.SigOf(f)) && GlobalsTyped(env, g)
    ensures Safe(p, env, res, StepCall(p, l, g, f, o))
  {
    hide Continues, Ctx, Types;
    var s := p.SigOf(f);
    match p.funcs[f]
    case Host(_, _) =>
      ReduceIsExchange(l, g, s, o);
      HostCallSafe(p, env, res, l, g, s, o);
    case Native(_, locals, body) =>
      var n := |l.ops| - |s.take|;
      var a := Activation(f, |s.put|, l.ops[n..] + MakeValues(locals, 0), [], WithOps(l, l.ops[..n]));
      assert Types(l.ops[n..] + MakeValues(locals, 0)) == s.take + locals;
      assert Types([]) + s.put == s.put;
      assert Accepts(p, env, res, a, s.put);
      NativeCallSafe(p, env, res, a, f);
  }

  lemma CallTyping(p: Program, env: Env, f: nat, labels: seq<seq<VType>>, ts: seq<ValType>, x: U32)
    requires p.Valid() && CheckOne(Ctx(p, env, f), labels, Ops(K(ts), false), Instr.Call(x)).Some?
    ensures x < |p.funcs|
    ensures var s := p.SigOf(x);
            && |s.take| <= |ts| && ts[|ts| - |s.take|..] == s.take
            && CheckOne(Ctx(p, env, f), labels, Ops(K(ts), false), Instr.Call(x)).value
               == Ops(K(ts[..|ts| - |s.take|] + s.put), false)
  {
    hide Transfer, K;
    TransferKnown(ts, p.SigOf(x).take, p.SigOf(x).put);
  }

  lemma IndirectTyping(p: Program, env: Env, f: nat, labels: seq<seq<VType>>, ts: seq<ValType>, x: U32)
    requires p.Valid() && CheckOne(Ctx(p, env, f), labels, Ops(K(ts), false), CallIndirect(x)).Some?
    ensures x < |p.types|
    ensures var s := p.types[x];
            && |s.take| < |ts| && ts[|ts| - |s.take| - 1..] == s.take + [I32]
            && CheckOne(Ctx(p, env, f), labels, Ops(K(ts), false), CallIndirect(x)).value
               == Ops(K(ts[..|ts| - |s.take| - 1] + s.put), false)
  {
    hide Transfer, K;
    var s := p.types[x];
    assert K(s.take + [I32]) == K(s.take) + [Known(I32)];
    TransferKnown(ts, s.take + [I32], s.put);
  }

  lemma {:induction false} DirectCallSafe(p: Program, env: Env, res: seq<ValType>, l: Layer, g: seq<Value>, f: U32,
          o: Oracle)
    requires Clean(p, env) && Ready(p, env, res, l, Instr.Call(f)) && GlobalsTyped(env, g)
    ensures Safe(p, env, res, StepCall(p, l, g, f, o))
  {
    hide CheckOne, CheckSeq, CleanSeq, CleanOne, Accepts, K, Types, Rooted, StepCall, Ctx;
    var ts := Types(l.ops);
    CallTyping(p, env, FuncOf(l), Labels(l), ts, f);
    var s := p.SigOf(f);
    var n := |l.ops| - |s.take|;
    assert Types(l.ops[n..]) == ts[n..];
    assert Types(l.ops[..n]) + s.put == ts[..n] + s.put;
    Resume(p, env, res, l, Instr.Call(f), l.ops[..n], s.put);
    CodeReady(p, env, res, l, Instr.Call(f));
    CallSafe(p, env, res, l, g, f, o);
  }

  lemma {:induction false} CodeReady(p: Program, env: Env, res: seq<ValType>, l: Layer, i: Instr)
    requires p.Valid() && Ready(p, env, res, l, i)
    ensures l.Code?
  {
    hide CheckSeq, CleanSeq, CheckOne, CleanOne, Linked, Accepts;
  }

  lemma IndexOnTop(ops: seq<Value>, take: seq<ValType>)
    requires |take| < |ops| && Types(ops)[|ops| - |take| - 1..] == take + [I32]
    ensures Last(ops).I32Val?
    ensures var n := |ops| - |take| - 1; Types(Front(ops)[n..]) == take && Front(ops)[..n] == ops[..n]
  {
    var n := |ops| - |take| - 1;
    assert Types(ops)[n..][|take|] == Types(ops)[|ops| - 1];
    assert forall k :: 0 <= k < |take| ==> Types(ops)[n..][k] == Front(ops)[n..][k].Type();
  }

  lemma {:induction false} IndirectCallSafe(p: Program, env: Env, res: seq<ValType>, l: Layer, g: seq<Value>, x: U32,
          o: Oracle)
    requires Clean(p, env) && Ready(p, env, res, l, CallIndirect(x)) && GlobalsTyped(env, g)
    ensures Safe(p, env, res, StepInstr(p, l, g, CallIndirect(x), o))
  {
    hide CheckOne, CheckSeq, CleanSeq, CleanOne, Accepts, K, Types, Rooted, StepCall, Ctx;
    var ts := Types(l.ops);
    IndirectTyping(p, env, FuncOf(l), Labels(l), ts, x);
    var s := p.types[x];
    IndexOnTop(l.ops, s.take);
    var ops := Front(l.ops);
    var n := |ops| - |s.take|;
    assert Types(ops[..n]) + s.put == ts[..n] + s.put;
    Resume(p, env, res, l, CallIndirect(x), ops[..n], s.put);
    CodeReady(p, env, res, l, CallIndirect(x));
    var k := Last(l.ops).i32;
    if k < |p.table| && p.table[k].Some? && p.SigOf(p.table[k].value) == s {
      var m := WithOps(l, ops);
      assert WithOps(m, m.ops[..n]) == WithOps(l, ops[..n]);
      CallSafe(p, env, res, m, g, p.table[k].value, o);
    }
  }

  // ----- one step, and whole runs -----

  lemma {:induction false} InstrSafe(p: Program, env: Env, res: seq<ValType>, l: Layer, g: seq<Value>, i: Instr,
          o: Oracle)
    requires Clean(p, env) && Ready(p, env, res, l, i) && GlobalsTyped(env, g)
    ensures Safe(p, env, res, StepInstr(p, l, g, i, o))
  {
    hide CheckSeq, CleanSeq, Accepts, PopSeq, Transfer, K, Types, Ctx, Linked, StepBranch, StepReturn, StepCall,
         StepLocals, Exec;
    match i
    case Unreachable =>
    case Return => ReturnSafe(p, env, res, l, g);
    case Block(bt, body) =>
      KConcat(Types(l.ops), bt.Types());
      Resume(p, env, res, l, i, l.ops, bt.Types());
      EnterSafe(p, env, res, l, BlockBody(bt), body);
    case Loop(bt, body) =>
      KConcat(Types(l.ops), bt.Types());
      Resume(p, env, res, l, i, l.ops, bt.Types());
      EnterSafe(p, env, res, l, LoopBody(bt, body), body);
    case Br(n) => BranchSafe(p, env, res, l, g, n);
    case Call(f) => DirectCallSafe(p, env, res, l, g, f, o);
    case LocalGet(_) => LocalSafe(p, env, res, l, g, i);
    case LocalSet(_) => LocalSafe(p, env, res, l, g, i);
    case LocalTee(_) => LocalSafe(p, env, res, l, g, i);
    case If(_, _, _) => IfSafe(p, env, res, l, g, i, o);
    case BrIf(n) => BrIfSafe(p, env, res, l, g, n, o);
    case BrTable(_, _) => BrTableSafe(p, env, res, l, g, i, o);
    case CallIndirect(x) => IndirectCallSafe(p, env, res, l, g, x, o);
    case _ =>
      PlainIsExec(p, l, g, i, o);
      PlainSafe(p, env, res, l, g, i, o);
  }

  /** A typed layered state is about to leave a function body that does not end
      with the results on top. */
  ghost predicate FallsShort(p: Program, env: Env, l: Layer)
    requires p.Valid()
  {
    l.Code? && l.kind.FuncBody? && l.rest == [] && !Delivers(EndOf(p, env, FuncOf(l)), K(End(p, l)))
  }

  /** A typed state of a program that meets the side conditions can step and stays
      typed, unless it leaves a function body that falls short of its results. */
  lemma {:induction false} CleanStepSafe(p: Program, env: Env, res: seq<ValType>, l: Layer, g: seq<Value>, o: Oracle)
    requires Clean(p, env) && !l.Base? && Accepts(p, env, res, l, []) && GlobalsTyped(env, g)
    requires !FallsShort(p, env, l)
    ensures Safe(p, env, res, StepLayer(p, l, g, o))
  {
    hide CheckOne, CleanOne, K, Types, Ctx, Linked, StepInstr, StepReturn, Exit, EndOf, Delivers;
    if l.Activation? {
      FinishSafe(p, env, res, l, g);
    } else if l.rest == [] {
      ExitSafe(p, env, res, l);
    } else {
      var m := l.(rest := l.rest[1..]);
      assert Types(l.ops) + [] == Types(l.ops);
      SameRoot(p, env, res, l, m);
      assert Ready(p, env, res, m, l.rest[0]);
      InstrSafe(p, env, res, m, g, l.rest[0], o);
    }
  }

  lemma {:induction false} NeverShort(p: Program, env: Env, res: seq<ValType>, l: Layer)
    requires Good(p, env) && Accepts(p, env, res, l, [])
    ensures !FallsShort(p, env, l)
  {
    hide Continues, CheckBody, CleanSeq, PopSeq;
    if l.Code? && l.kind.FuncBody? && l.rest == [] {
      ResultsOf(p, env, res, l);
      assert GoodBody(Ctx(p, env, FuncOf(l)), p.funcs[FuncOf(l)].body);
    }
  }

  /** In a good program every typed state can step and stays typed. */
  lemma {:induction false} StepSafe(p: Program, env: Env, res: seq<ValType>, l: Layer, g: seq<Value>, o: Oracle)
    requires Good(p, env) && !l.Base? && Accepts(p, env, res, l, []) && GlobalsTyped(env, g)
    ensures Safe(p, env, res, StepLayer(p, l, g, o))
  {
    hide Accepts, GlobalsTyped, StepLayer, FallsShort;
    GoodIsClean(p, env);
    NeverShort(p, env, res, l);
    CleanStepSafe(p, env, res, l, g, o);
  }
}
