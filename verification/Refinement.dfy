/** The machine's four flat stacks implement the layered semantics: every step
    that the layers can make, the machine makes, and stays a picture of layers. */
module Refinement {
  import opened Wasm
  import opened Machine
  import opened Layers

  /** A label index resolves to the matching block, whose saved height and label
      and scope counts are exactly what lies below that block. */
  lemma {:induction false} EnclosingOnStacks(l: Layer, g: seq<Value>, n: nat)
    requires Enclosing(l, n).Some?
    ensures var t := Enclosing(l, n).value;
            var c, b := Flatten(l, g), Flatten(t.below, g);
            && n < |c.labels|
            && c.labels[|c.labels| - n - 1] == Label(|b.vals|, t.kind.Coarity(), t.kind.Target())
            && c.labels[..|c.labels| - n - 1] == b.labels
            && c.frames == b.frames && c.globals == b.globals
            && DropScopes(c.scopes, n + 1) == b.scopes
            && |b.vals| + |l.ops| <= |c.vals| && c.vals[..|b.vals|] == b.vals
    decreases n
  {
    FlattenOps(l, g, l.ops);
    if n > 0 {
      EnclosingOnStacks(l.below, g, n - 1);
      var t := Enclosing(l, n).value;
      var c, d, b := Flatten(l, g), Flatten(l.below, g), Flatten(t.below, g);
      assert c.labels[..|c.labels| - n - 1] == d.labels[..|d.labels| - n];
      assert DropScopes(c.scopes, n + 1) == DropScopes(d.scopes, n);
    }
  }

  /** The innermost frame belongs to the current activation. */
  lemma {:induction false} CallerOnStacks(l: Layer, g: seq<Value>)
    requires Caller(l).Some?
    ensures var a := Caller(l).value;
            var c, b := Flatten(l, g), Flatten(a.below, g);
            && c.frames == b.frames + [Frame(|b.vals|, |b.labels|, a.coarity)]
            && |b.labels| <= |c.labels| && c.labels[..|b.labels|] == b.labels
            && DropScopes(c.scopes, |c.labels| - |b.labels| + 1) == b.scopes
            && |b.vals| + |l.ops| <= |c.vals| && c.vals[..|b.vals|] == b.vals
            && c.globals == b.globals
  {
    FlattenOps(l, g, l.ops);
    if l.Code? {
      CallerOnStacks(l.below, g);
      var a := Caller(l).value;
      var c, d, b := Flatten(l, g), Flatten(l.below, g), Flatten(a.below, g);
      assert c.labels[..|b.labels|] == d.labels[..|b.labels|];
      assert DropScopes(c.scopes, |c.labels| - |b.labels| + 1) == DropScopes(d.scopes, |d.labels| - |b.labels| + 1);
    }
  }

  lemma UpdateMiddle(b: seq<Value>, mid: seq<Value>, ops: seq<Value>, k: nat, v: Value)
    requires k < |mid|
    ensures (b + mid)[|b| + k] == (b + mid + ops)[|b| + k] == mid[k]
    ensures (b + mid)[|b| + k := v] == b + mid[k := v]
    ensures (b + mid + ops)[|b| + k := v] == b + mid[k := v] + ops
  {
  }

  lemma UpdateLower(b: seq<Value>, ops: seq<Value>, k: nat, v: Value)
    requires k < |b|
    ensures (b + ops)[k] == b[k] && (b + ops)[k := v] == b[k := v] + ops
  {
  }

  /** Local slots sit directly above the frame's base, below every label height. */
  lemma {:induction false} LocalOnStacks(l: Layer, g: seq<Value>, k: nat, v: Value)
    requires Locals(l).Some? && k < |Locals(l).value|
    ensures var c := Flatten(l, g);
            && c.frames != []
            && var at := Last(c.frames).vheight + k;
            && at < |Under(l, g)| <= |c.vals| && c.vals[at] == Locals(l).value[k]
            && Flatten(SetLocal(l, k, v), g) == c.(vals := c.vals[at := v])
            && Under(SetLocal(l, k, v), g) == Under(l, g)[at := v]
    ensures SetLocal(l, k, v).ops == l.ops
  {
    match l
    case Activation(_, _, locals, ops, below) =>
      UpdateMiddle(Flatten(below, g).vals, locals, ops, k, v);
    case Code(_, ops, _, below) =>
      LocalOnStacks(below, g, k, v);
      FlattenOps(below, g, below.ops);
      var b := Flatten(below, g);
      UpdateLower(b.vals, ops, Last(b.frames).vheight + k, v);
  }

  /** Operand exchange does not depend on what lies below the operands. */
  lemma {:induction false} ExchangeLifted(c: Config, under: seq<Value>, ops: seq<Value>, s: Sig<ValType>, o: Oracle)
    requires c.vals == under + ops
    ensures match Exchange(Config(ops, [], [], [], c.globals), s, o)
            case Next(d) => Exchange(c, s, o) == Next(c.(vals := under + d.vals, globals := d.globals))
            case Trap => Exchange(c, s, o) == Trap
            case Stuck => true
  {
    var n := |ops| - |s.take|;
    if n >= 0 {
      assert c.vals[|under| + n..] == ops[n..];
      assert c.vals[..|under| + n] == under + ops[..n];
      assert under + (ops[..n] + MakeValues(s.put, o.bits)) == under + ops[..n] + MakeValues(s.put, o.bits);
    }
  }

  lemma {:induction false} PopLifted(c: Config, under: seq<Value>, ops: seq<Value>)
    requires c.vals == under + ops
    ensures match PopVal(Config(ops, [], [], [], c.globals))
            case None => true
            case Some((v, d)) => PopVal(c) == Some((v, c.(vals := under + d.vals)))
    ensures match PopI32(Config(ops, [], [], [], c.globals))
            case None => true
            case Some((v, d)) => PopI32(c) == Some((v, c.(vals := under + d.vals)))
  {
    if ops != [] {
      assert Front(c.vals) == under + Front(ops);
    }
  }

  lemma {:induction false} SelectLifted(c: Config, under: seq<Value>, ops: seq<Value>)
    requires c.vals == under + ops
    ensures match StepSelect(Config(ops, [], [], [], c.globals))
            case Next(d) => StepSelect(c) == Next(c.(vals := under + d.vals)) && d.globals == c.globals
            case _ => true
  {
    PopLifted(c, under, ops);
    if |ops| >= 3 {
      var a, b := Front(ops), Front(c.vals);
      assert b == under + a;
      assert Front(Front(b)) == under + Front(Front(a));
    }
  }

  lemma {:induction false} PlainLifted(p: Program, c: Config, under: seq<Value>, ops: seq<Value>, i: Instr, o: Oracle)
    requires p.Valid() && IsPlain(i) && c.vals == under + ops
    ensures match Exec(p, Config(ops, [], [], [], c.globals), i, o)
            case Next(d) => Exec(p, c, i, o) == Next(c.(vals := under + d.vals, globals := d.globals))
            case Trap => Exec(p, c, i, o) == Trap
            case Stuck => true
  {
    match i
    case Nop =>
    case Drop => PopLifted(c, under, ops);
    case Select => SelectLifted(c, under, ops);
    case GlobalGet(n) =>
      if n < |c.globals| {
        assert under + (ops + [c.globals[n]]) == under + ops + [c.globals[n]];
      }
    case GlobalSet(_) => PopLifted(c, under, ops);
    case Memory(op, _, _) => ExchangeLifted(c, under, ops, MemorySig(op), o);
    case Const(v) => assert under + (ops + [v]) == under + ops + [v];
    case Numeric(op) => ExchangeLifted(c, under, ops, NumericSig(op), o);
  }

  /** The outcome the machine must have when the layers step to `r`. */
  ghost predicate Agrees(r: Result, m: Outcome) {
    match r
    case Ok(l, g) => m == Next(Flatten(l, g))
    case Trapped => m == Trap
    case Wrong => true
  }

  lemma {:induction false} KeptOnTop(l: Layer, g: seq<Value>, n: nat)
    requires n <= |l.ops|
    ensures var c := Flatten(l, g); |l.ops| <= |c.vals| && c.vals[|c.vals| - n..] == Keep(l.ops, n)
  {
    hide Flatten, Under;
    FlattenOps(l, g, l.ops);
  }

  lemma {:induction false} EnterRefines(l: Layer, g: seq<Value>, k: Kind, body: seq<Instr>)
    ensures Flatten(Code(k, [], body, l), g) == EnterBlock(Flatten(l, g), k.Coarity(), k.Target(), body)
  {
  }

  lemma {:induction false} BranchRefines(l: Layer, g: seq<Value>, n: nat)
    ensures Agrees(StepBranch(l, g, n), Branch(Flatten(l, g), n))
  {
    hide Flatten;
    if Enclosing(l, n).Some? {
      var t := Enclosing(l, n).value;
      EnclosingOnStacks(l, g, n);
      if t.kind.Coarity() <= |l.ops| {
        KeptOnTop(l, g, t.kind.Coarity());
        FlattenAdd(t.below, g, Keep(l.ops, t.kind.Coarity()));
        if t.kind.LoopBody? {
          EnterRefines(AddOps(t.below, Keep(l.ops, 0)), g, t.kind, t.kind.body);
        }
      }
    }
  }

  lemma {:induction false} ExitRefines(l: Layer, g: seq<Value>)
    requires l.Code? && l.rest == [] && Exit(l, l).Some?
    ensures LeaveBlock(Flatten(l, g)) == Next(Flatten(Exit(l, l).value, g))
  {
    var b, c, n := Flatten(l.below, g), Flatten(l, g), l.kind.Coarity();
    assert c.vals == b.vals + l.ops && c.labels == b.labels + [Label(|b.vals|, n, l.kind.Target())];
    assert c.frames == b.frames && c.scopes == b.scopes + [Scope(BlockScope, [])];
    hide Flatten;
    ErasedTop(b.vals, l.ops, n);
    assert c.labels[..|c.labels| - 1] == b.labels && DropScopes(c.scopes, 1) == b.scopes;
    FlattenAdd(l.below, g, Keep(l.ops, n));
  }

  lemma ErasedTop(vals: seq<Value>, ops: seq<Value>, n: nat)
    requires n <= |ops|
    ensures Erased(vals + ops, |vals|, n) == vals + Keep(ops, n)
  {
  }

  lemma {:induction false} ReturnRefines(l: Layer, g: seq<Value>)
    ensures Agrees(StepReturn(l, g), LeaveFunction(Flatten(l, g)))
  {
    hide Flatten;
    if Caller(l).Some? {
      var a := Caller(l).value;
      CallerOnStacks(l, g);
      if a.coarity <= |l.ops| {
        KeptOnTop(l, g, a.coarity);
        FlattenAdd(a.below, g, Keep(l.ops, a.coarity));
        var c, b := Flatten(l, g), Flatten(a.below, g);
        assert Front(c.frames) == b.frames;
      }
    }
  }

  lemma ArgumentsStay(u: seq<Value>, ops: seq<Value>, n: nat, zeros: seq<Value>)
    requires n <= |ops|
    ensures u + ops[..n] + (ops[n..] + zeros) + [] == u + ops + zeros
  {
    assert ops == ops[..n] + ops[n..];
  }

  /** The arguments stay where they are and become the first local slots. */
  lemma {:induction false} FrameRefines(l: Layer, g: seq<Value>, f: nat, s: Sig<ValType>, zeros: seq<Value>)
    requires |s.take| <= |l.ops|
    ensures var n := |l.ops| - |s.take|;
            var c := Flatten(l, g);
            && |s.take| <= |c.vals|
            && Flatten(Activation(f, |s.put|, l.ops[n..] + zeros, [], WithOps(l, l.ops[..n])), g)
               == c.(vals := c.vals + zeros,
                     frames := c.frames + [Frame(|c.vals| - |s.take|, |c.labels|, |s.put|)],
                     scopes := c.scopes + [Scope(FunctionCall, [])])
  {
    var n := |l.ops| - |s.take|;
    var c, b := Flatten(l, g), Flatten(WithOps(l, l.ops[..n]), g);
    FlattenOps(l, g, l.ops[..n]);
    assert b == c.(vals := Under(l, g) + l.ops[..n]);
    ArgumentsStay(Under(l, g), l.ops, n, zeros);
    assert b.vals + (l.ops[n..] + zeros) + [] == c.vals + zeros;
  }

  lemma {:induction false} CallRefines(p: Program, l: Layer, g: seq<Value>, f: nat, o: Oracle)
    requires p.Valid()
    ensures Agrees(StepCall(p, l, g, f, o), EnterFunction(p, Flatten(l, g), f, o))
  {
    hide Flatten, Under;
    FlattenOps(l, g, l.ops);
    if f < |p.funcs| {
      var s := p.SigOf(f);
      match p.funcs[f]
      case Host(_, _) =>
        ExchangeLifted(Flatten(l, g), Under(l, g), l.ops, s, o);
        ReduceIsExchange(l, g, s, o);
        OnOpsRefines(l, g, Exchange(Own(l, g), s, o), Exchange(Flatten(l, g), s, o));
      case Native(_, locals, body) =>
        if |s.take| <= |l.ops| {
          var n, zeros := |l.ops| - |s.take|, MakeValues(locals, 0);
          FrameRefines(l, g, f, s, zeros);
          EnterRefines(Activation(f, |s.put|, l.ops[n..] + zeros, [], WithOps(l, l.ops[..n])), g,
                       FuncBody(|s.put|), body);
        }
    }
  }

  lemma {:induction false} OnOpsRefines(l: Layer, g: seq<Value>, r: Outcome, m: Outcome)
    requires match r
             case Next(d) => m == Next(Flatten(l, g).(vals := Under(l, g) + d.vals, globals := d.globals))
             case Trap => m == Trap
             case Stuck => true
    ensures Agrees(OnOps(l, r), m)
  {
    hide Flatten, Under;
    if r.Next? {
      FlattenOps(l, g, r.cfg.vals);
      FlattenGlobals(WithOps(l, r.cfg.vals), g, r.cfg.globals);
    }
  }

  lemma {:induction false} LocalGetRefines(l: Layer, g: seq<Value>, k: U32)
    ensures Agrees(StepLocals(l, g, LocalGet(k)), StepLocal(Flatten(l, g), LocalGet(k)))
  {
    hide Flatten, Under;
    if Locals(l).Some? && k < |Locals(l).value| {
      var v := Locals(l).value[k];
      LocalOnStacks(l, g, k, v);
      FlattenAdd(l, g, [v]);
    }
  }

  lemma UpdateUnder(u: seq<Value>, ops: seq<Value>, at: nat, v: Value)
    requires at < |u| && ops != []
    ensures Front(u + ops)[at := v] == u[at := v] + Front(ops) && Last(u + ops) == Last(ops)
  {
  }

  lemma {:induction false} LocalTeeRefines(l: Layer, g: seq<Value>, k: U32)
    ensures Agrees(StepLocals(l, g, LocalTee(k)), StepLocal(Flatten(l, g), LocalTee(k)))
  {
    hide Flatten, Under;
    if Locals(l).Some? && k < |Locals(l).value| && l.ops != [] {
      LocalOnStacks(l, g, k, Last(l.ops));
      FlattenOps(l, g, l.ops);
    }
  }

  lemma {:induction false} LocalSetRefines(l: Layer, g: seq<Value>, k: U32)
    ensures Agrees(StepLocals(l, g, LocalSet(k)), StepLocal(Flatten(l, g), LocalSet(k)))
  {
    hide Flatten, Under;
    if Locals(l).Some? && k < |Locals(l).value| && l.ops != [] {
      var v := Last(l.ops);
      var l1, c := SetLocal(l, k, v), Flatten(l, g);
      LocalOnStacks(l, g, k, v);
      FlattenOps(l, g, l.ops);
      var at := Last(c.frames).vheight + k;
      UpdateUnder(Under(l, g), l.ops, at, v);
      FlattenOps(l1, g, Front(l.ops));
      assert Flatten(WithOps(l1, Front(l.ops)), g) == c.(vals := Under(l1, g) + Front(l.ops));
    }
  }

  /** The machine after popping the condition is a picture of the layer after it. */
  lemma {:induction false} ConditionRefines(l: Layer, g: seq<Value>)
    ensures match PopI32(Own(l, g))
            case None => true
            case Some((n, c)) => PopI32(Flatten(l, g)) == Some((n, Flatten(WithOps(l, c.vals), g)))
  {
    hide Flatten, Under;
    FlattenOps(l, g, l.ops);
    PopLifted(Flatten(l, g), Under(l, g), l.ops);
    match PopI32(Own(l, g))
    case None =>
    case Some((n, c)) => FlattenOps(l, g, c.vals);
  }

  lemma {:induction false} ConditionalRefines(p: Program, l: Layer, g: seq<Value>, i: Instr, o: Oracle)
    requires p.Valid() && (i.If? || i.BrIf? || i.BrTable? || i.CallIndirect?)
    ensures Agrees(StepInstr(p, l, g, i, o), Exec(p, Flatten(l, g), i, o))
  {
    hide Flatten;
    ConditionRefines(l, g);
    if PopI32(Own(l, g)).Some? {
      var (k, c) := PopI32(Own(l, g)).value;
      var m := WithOps(l, c.vals);
      match i
      case If(bt, thn, els) => EnterRefines(m, g, BlockBody(bt), if k != 0 then thn else els);
      case BrIf(n) => BranchRefines(m, g, n);
      case BrTable(table, n) => BranchRefines(m, g, if k < |table| then table[k] else n);
      case CallIndirect(n) =>
        if k < |p.table| && p.table[k].Some? {
          CallRefines(p, m, g, p.table[k].value, o);
        }
    }
  }

  lemma {:induction false} PlainRefines(p: Program, l: Layer, g: seq<Value>, i: Instr, o: Oracle)
    requires p.Valid() && IsPlain(i)
    ensures Agrees(OnOps(l, Exec(p, Own(l, g), i, o)), Exec(p, Flatten(l, g), i, o))
  {
    hide Flatten, Under, Exec;
    FlattenOps(l, g, l.ops);
    PlainLifted(p, Flatten(l, g), Under(l, g), l.ops, i, o);
    OnOpsRefines(l, g, Exec(p, Own(l, g), i, o), Exec(p, Flatten(l, g), i, o));
  }

  lemma {:induction false} InstrRefines(p: Program, l: Layer, g: seq<Value>, i: Instr, o: Oracle)
    requires p.Valid()
    ensures Agrees(StepInstr(p, l, g, i, o), Exec(p, Flatten(l, g), i, o))
  {
    hide Flatten, StepReturn, StepBranch, StepCall, StepLocals, LeaveFunction, Branch, EnterFunction, StepLocal;
    match i
    case Unreachable =>
    case Return => ReturnRefines(l, g);
    case Block(bt, body) => EnterRefines(l, g, BlockBody(bt), body);
    case Loop(bt, body) => EnterRefines(l, g, LoopBody(bt, body), body);
    case Br(n) => BranchRefines(l, g, n);
    case Call(f) => CallRefines(p, l, g, f, o);
    case LocalGet(k) => LocalGetRefines(l, g, k);
    case LocalSet(k) => LocalSetRefines(l, g, k);
    case LocalTee(k) => LocalTeeRefines(l, g, k);
    case If(_, _, _) => ConditionalRefines(p, l, g, i, o);
    case BrIf(_) => ConditionalRefines(p, l, g, i, o);
    case BrTable(_, _) => ConditionalRefines(p, l, g, i, o);
    case CallIndirect(_) => ConditionalRefines(p, l, g, i, o);
    case _ =>
      PlainIsExec(p, l, g, i, o);
      PlainRefines(p, l, g, i, o);
  }

  /** One turn of the execute loop on the stacks of a layered state is one step
      of its innermost layer. */
  lemma {:induction false} StepRefines(p: Program, l: Layer, g: seq<Value>, o: Oracle)
    requires p.Valid() && !l.Base?
    ensures Flatten(l, g).scopes != []
    ensures Agrees(StepLayer(p, l, g, o), Step(p, Flatten(l, g), o))
  {
    var c := Flatten(l, g);
    match l
    case Activation(_, _, _, _, _) => ReturnRefines(l, g);
    case Code(_, _, rest, _) =>
      if rest == [] {
        if Exit(l, l).Some? {
          ExitRefines(l, g);
        }
      } else {
        var l1 := l.(rest := rest[1..]);
        assert Fetched(c) == Flatten(l1, g);
        InstrRefines(p, l1, g, rest[0], o);
      }
  }
}
