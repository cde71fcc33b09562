/** The reference semantics: nested activations and blocks, each with its own
    operands, as in section 4.4 of the WebAssembly Core Specification. A layer
    cannot reach the operands of the layers below it, and a branch can only
    resolve to a block of the same activation. */
module Layers {
  import opened Wasm
  import opened Machine

  /** Why a code layer exists; decides what a branch to it keeps and restarts. */
  datatype Kind =
    | FuncBody(arity: nat)
    | BlockBody(bt: BlockType)
    | LoopBody(bt: BlockType, body: seq<Instr>)
  {
    function Coarity(): nat {
      match this
      case FuncBody(n) => n
      case BlockBody(bt) => |bt.Types()|
      case LoopBody(_, _) => 0
    }

    function Target(): Option<Instr> {
      if LoopBody? then Some(Loop(bt, body)) else None
    }
  }

  datatype Layer =
    | Base(ops: seq<Value>)
    | Activation(func: nat, coarity: nat, locals: seq<Value>, ops: seq<Value>, below: Layer)
    | Code(kind: Kind, ops: seq<Value>, rest: seq<Instr>, below: Layer)

  datatype Result = Ok(top: Layer, globals: seq<Value>) | Trapped | Wrong

  function WithOps(l: Layer, ops: seq<Value>): Layer {
    l.(ops := ops)
  }

  function AddOps(l: Layer, vs: seq<Value>): Layer {
    WithOps(l, l.ops + vs)
  }

  /** The `n`-th enclosing block, counted from the innermost, of this activation. */
  function Enclosing(l: Layer, n: nat): (t: Option<Layer>)
    ensures t.Some? ==> t.value.Code?
  {
    if !l.Code? then None
    else if n == 0 then Some(l)
    else Enclosing(l.below, n - 1)
  }

  function Caller(l: Layer): (a: Option<Layer>)
    ensures a.Some? ==> a.value.Activation?
  {
    match l
    case Base(_) => None
    case Activation(_, _, _, _, _) => Some(l)
    case Code(_, _, _, below) => Caller(below)
  }

  function Locals(l: Layer): Option<seq<Value>> {
    match l
    case Base(_) => None
    case Activation(_, _, locals, _, _) => Some(locals)
    case Code(_, _, _, below) => Locals(below)
  }

  function SetLocal(l: Layer, k: nat, v: Value): Layer
    requires Locals(l).Some? && k < |Locals(l).value|
  {
    match l
    case Activation(_, _, locals, _, _) => l.(locals := locals[k := v])
    case Code(kind, ops, rest, below) => Code(kind, ops, rest, SetLocal(below, k, v))
  }

  function Keep(ops: seq<Value>, n: nat): seq<Value>
    requires n <= |ops|
  {
    ops[|ops| - n..]
  }

  /** Ending a block, by falling through or by a branch to it. */
  function Exit(l: Layer, t: Layer): Option<Layer>
    requires t.Code?
  {
    if |l.ops| < t.kind.Coarity() then None
    else Some(AddOps(t.below, Keep(l.ops, t.kind.Coarity())))
  }

  function StepBranch(l: Layer, g: seq<Value>, n: nat): Result {
    match Enclosing(l, n)
    case None => Wrong
    case Some(t) =>
      match Exit(l, t)
      case None => Wrong
      case Some(b) => if t.kind.LoopBody? then Ok(Code(t.kind, [], t.kind.body, b), g) else Ok(b, g)
  }

  function StepReturn(l: Layer, g: seq<Value>): Result {
    match Caller(l)
    case None => Wrong
    case Some(a) =>
      if |l.ops| < a.coarity then Wrong
      else Ok(AddOps(a.below, Keep(l.ops, a.coarity)), g)
  }

  function StepCall(p: Program, l: Layer, g: seq<Value>, f: nat, o: Oracle): Result
    requires p.Valid()
  {
    if f >= |p.funcs| then Wrong
    else
      var s := p.SigOf(f);
      match p.funcs[f]
      case Host(_, _) => Reduce(l, g, s, o)
      case Native(_, locals, body) =>
        if |l.ops| < |s.take| then Wrong
        else
          var n := |l.ops| - |s.take|;
          Ok(Code(FuncBody(|s.put|), [], body,
                  Activation(f, |s.put|, l.ops[n..] + MakeValues(locals, 0), [], WithOps(l, l.ops[..n]))), g)
  }

  /** The machine restricted to the operands of one layer. */
  function Own(l: Layer, g: seq<Value>): Config {
    Config(l.ops, [], [], [], g)
  }

  function OnOps(l: Layer, r: Outcome): Result {
    match r
    case Next(c) => Ok(WithOps(l, c.vals), c.globals)
    case Trap => Trapped
    case Stuck => Wrong
  }

  /** Instructions that only exchange operands and globals. */
  predicate IsPlain(i: Instr) {
    i.Nop? || i.Drop? || i.Select? || i.GlobalGet? || i.GlobalSet? || i.Memory? || i.Const? || i.Numeric?
  }

  /** Operands of the taken types give way to results of the put types, or trap. */
  function Reduce(l: Layer, g: seq<Value>, s: Sig<ValType>, o: Oracle): Result {
    var n := |l.ops| - |s.take|;
    if n < 0 || Types(l.ops[n..]) != s.take then Wrong
    else if o.trap then Trapped
    else Ok(WithOps(l, l.ops[..n] + MakeValues(s.put, o.bits)), g)
  }

  /** The reduction rules of sections 4.4.1 to 4.4.4: parametric, constant, global,
      memory and numeric instructions on the operands of one layer. */
  function StepPlain(l: Layer, g: seq<Value>, i: Instr, o: Oracle): Result
    requires IsPlain(i)
  {
    var vs, n := l.ops, |l.ops|;
    match i
    case Nop => Ok(l, g)
    case Drop => if n < 1 then Wrong else Ok(WithOps(l, vs[..n - 1]), g)
    case Select =>
      if n < 3 || !vs[n - 1].I32Val? then Wrong
      else Ok(WithOps(l, vs[..n - 3] + [if vs[n - 1].i32 != 0 then vs[n - 3] else vs[n - 2]]), g)
    case Const(v) => Ok(WithOps(l, vs + [v]), g)
    case GlobalGet(k) => if k < |g| then Ok(WithOps(l, vs + [g[k]]), g) else Wrong
    case GlobalSet(k) => if k < |g| && n > 0 then Ok(WithOps(l, vs[..n - 1]), g[k := vs[n - 1]]) else Wrong
    case Memory(op, _, _) => Reduce(l, g, MemorySig(op), o)
    case Numeric(op) => Reduce(l, g, NumericSig(op), o)
  }

  lemma SelectIsExec(l: Layer, g: seq<Value>, o: Oracle)
    ensures StepPlain(l, g, Select, o) == OnOps(l, StepSelect(Own(l, g)))
  {
    var vs, n := l.ops, |l.ops|;
    if n >= 3 {
      assert Front(Front(Front(vs))) == vs[..n - 3];
      assert Last(Front(vs)) == vs[n - 2] && Last(Front(Front(vs))) == vs[n - 3];
    }
  }

  lemma ReduceIsExchange(l: Layer, g: seq<Value>, s: Sig<ValType>, o: Oracle)
    ensures Reduce(l, g, s, o) == OnOps(l, Exchange(Own(l, g), s, o))
  {
    hide Types, MakeValues;
  }

  /** The machine follows these rules on a layer's own operands. */
  lemma PlainIsExec(p: Program, l: Layer, g: seq<Value>, i: Instr, o: Oracle)
    requires p.Valid() && IsPlain(i)
    ensures StepPlain(l, g, i, o) == OnOps(l, Exec(p, Own(l, g), i, o))
  {
    hide StepSelect, Exchange, Reduce, Types;
    match i
    case Nop => assert WithOps(l, l.ops) == l;
    case Select => SelectIsExec(l, g, o);
    case Memory(op, _, _) => ReduceIsExchange(l, g, MemorySig(op), o);
    case Numeric(op) => ReduceIsExchange(l, g, NumericSig(op), o);
    case _ =>
  }

  function StepLocals(l: Layer, g: seq<Value>, i: Instr): Result
    requires i.LocalGet? || i.LocalSet? || i.LocalTee?
  {
    if Locals(l).None? || i.index >= |Locals(l).value| then Wrong
    else if i.LocalGet? then Ok(AddOps(l, [Locals(l).value[i.index]]), g)
    else if l.ops == [] then Wrong
    else
      var l1 := SetLocal(l, i.index, Last(l.ops));
      if i.LocalSet? then Ok(WithOps(l1, Front(l.ops)), g) else Ok(l1, g)
  }

  function StepInstr(p: Program, l: Layer, g: seq<Value>, i: Instr, o: Oracle): Result
    requires p.Valid()
  {
    match i
    case Unreachable => Trapped
    case Return => StepReturn(l, g)
    case Block(bt, body) => Ok(Code(BlockBody(bt), [], body, l), g)
    case Loop(bt, body) => Ok(Code(LoopBody(bt, body), [], body, l), g)
    case Br(n) => StepBranch(l, g, n)
    case Call(f) => StepCall(p, l, g, f, o)
    case LocalGet(_) => StepLocals(l, g, i)
    case LocalSet(_) => StepLocals(l, g, i)
    case LocalTee(_) => StepLocals(l, g, i)
    case If(bt, thn, els) =>
      (match PopI32(Own(l, g))
       case None => Wrong
       case Some((cond, c)) =>
         var l1 := WithOps(l, c.vals);
         var arm := if cond != 0 then thn else els;
         if arm == [] then Ok(l1, g) else Ok(Code(BlockBody(bt), [], arm, l1), g))
    case BrIf(n) =>
      (match PopI32(Own(l, g))
       case None => Wrong
       case Some((cond, c)) =>
         var l1 := WithOps(l, c.vals);
         if cond != 0 then StepBranch(l1, g, n) else Ok(l1, g))
    case BrTable(table, n) =>
      (match PopI32(Own(l, g))
       case None => Wrong
       case Some((k, c)) => StepBranch(WithOps(l, c.vals), g, if k < |table| then table[k] else n))
    case CallIndirect(n) =>
      (if n >= |p.types| then Wrong else
       match PopI32(Own(l, g))
       case None => Wrong
       case Some((k, c)) =>
         if k >= |p.table| || p.table[k].None? || p.SigOf(p.table[k].value) != p.types[n] then Trapped
         else StepCall(p, WithOps(l, c.vals), g, p.table[k].value, o))
    case _ => StepPlain(l, g, i, o)
  }

  /** One step of the innermost layer. */
  function StepLayer(p: Program, l: Layer, g: seq<Value>, o: Oracle): Result
    requires p.Valid() && !l.Base?
  {
    match l
    case Activation(_, _, _, _, _) => StepReturn(l, g)
    case Code(_, _, rest, _) =>
      if rest == [] then
        match Exit(l, l)
        case None => Wrong
        case Some(b) => Ok(b, g)
      else StepInstr(p, l.(rest := rest[1..]), g, rest[0], o)
  }

  // ----- the four stacks of a layered state -----

  /** Where the layers lie on the machine's stacks. */
  function Flatten(l: Layer, g: seq<Value>): (c: Config)
    ensures c.globals == g
  {
    match l
    case Base(ops) => Config(ops, [], [], [], g)
    case Activation(_, coarity, locals, ops, below) =>
      var b := Flatten(below, g);
      Config(b.vals + locals + ops, b.labels,
             b.frames + [Frame(|b.vals|, |b.labels|, coarity)],
             b.scopes + [Scope(FunctionCall, [])], g)
    case Code(kind, ops, rest, below) =>
      var b := Flatten(below, g);
      Config(b.vals + ops, b.labels + [Label(|b.vals|, kind.Coarity(), kind.Target())],
             b.frames, b.scopes + [Scope(BlockScope, rest)], g)
  }

  /** Everything on the value stack below the top layer's operands. */
  function Under(l: Layer, g: seq<Value>): seq<Value> {
    match l
    case Base(_) => []
    case Activation(_, _, locals, _, below) => Flatten(below, g).vals + locals
    case Code(_, _, _, below) => Flatten(below, g).vals
  }

  lemma {:induction false} FlattenOps(l: Layer, g: seq<Value>, ops: seq<Value>)
    ensures Flatten(l, g).vals == Under(l, g) + l.ops
    ensures Flatten(WithOps(l, ops), g) == Flatten(l, g).(vals := Under(l, g) + ops)
  {
    match l
    case Base(_) => assert [] + ops == ops && [] + l.ops == l.ops;
    case Activation(_, _, _, _, _) =>
    case Code(_, _, _, _) =>
  }

  lemma {:induction false} FlattenAdd(l: Layer, g: seq<Value>, vs: seq<Value>)
    ensures Flatten(AddOps(l, vs), g) == Flatten(l, g).(vals := Flatten(l, g).vals + vs)
  {
    hide Flatten, Under;
    FlattenOps(l, g, l.ops + vs);
    assert Under(l, g) + (l.ops + vs) == Under(l, g) + l.ops + vs;
  }

  lemma {:induction false} FlattenGlobals(l: Layer, g: seq<Value>, h: seq<Value>)
    ensures Flatten(l, h) == Flatten(l, g).(globals := h)
    ensures Under(l, h) == Under(l, g)
  {
    if !l.Base? {
      FlattenGlobals(l.below, g, h);
    }
  }
}
