/** The execution engine: one value stack, one label stack, one frame stack and
    one stack of instruction scopes, moved together by every control transfer.
    The operations are those of the unchecked stack manager: where the C++ code
    would read outside a vector or a variant the model is `Stuck`. */
module Machine {
  import opened Wasm

  datatype FuncInst =
    | Native(typeIdx: nat, locals: seq<ValType>, body: seq<Instr>)
    | Host(typeIdx: nat, cost: U64)

  /** An instantiated module: its types, functions and function table. */
  datatype Program = Program(types: seq<Sig<ValType>>, funcs: seq<FuncInst>, table: seq<Option<nat>>) {
    predicate Valid() {
      && (forall k :: 0 <= k < |funcs| ==> funcs[k].typeIdx < |types|)
      && (forall k :: 0 <= k < |table| && table[k].Some? ==> table[k].value < |funcs|)
    }

    function SigOf(f: nat): Sig<ValType>
      requires Valid() && f < |funcs|
    {
      types[funcs[f].typeIdx]
    }
  }

  datatype Label = Label(height: nat, coarity: nat, target: Option<Instr>)

  datatype Frame = Frame(vheight: nat, lheight: nat, coarity: nat)

  datatype ScopeKind = Expression | BlockScope | FunctionCall

  /** An instruction sequence being executed, as the instructions still to come. */
  datatype Scope = Scope(kind: ScopeKind, rest: seq<Instr>)

  datatype Config = Config(
    vals: seq<Value>,
    labels: seq<Label>,
    frames: seq<Frame>,
    scopes: seq<Scope>,
    globals: seq<Value>)

  datatype Outcome = Next(cfg: Config) | Trap | Stuck

  /** What the world decides in one step: numeric results, memory contents, host
      results, and whether the operation traps. */
  datatype Oracle = Oracle(trap: bool, bits: U64)

  function MakeValue(t: ValType, bits: U64): (v: Value)
    ensures v.Type() == t && (bits == 0 ==> v == Zero(t))
  {
    match t
    case I32 => I32Val(bits % 0x1_0000_0000)
    case I64 => I64Val(bits)
    case F32 => F32Val(bits % 0x1_0000_0000)
    case F64 => F64Val(bits)
  }

  /** The value of a local variable that has not been set. */
  function Zero(t: ValType): Value {
    match t case I32 => I32Val(0) case I64 => I64Val(0) case F32 => F32Val(0) case F64 => F64Val(0)
  }

  function MakeValues(ts: seq<ValType>, bits: U64): (r: seq<Value>)
    ensures Types(r) == ts && (bits == 0 ==> forall k :: 0 <= k < |ts| ==> r[k] == Zero(ts[k]))
  {
    seq(|ts|, k requires 0 <= k < |ts| => MakeValue(ts[k], bits))
  }

  function Types(vs: seq<Value>): (r: seq<ValType>)
    ensures |r| == |vs|
    ensures forall k :: 0 <= k < |vs| ==> r[k] == vs[k].Type()
  {
    seq(|vs|, k requires 0 <= k < |vs| => vs[k].Type())
  }

  /** The stack with everything between `height` and the top `keep` values erased. */
  function Erased<T>(vals: seq<T>, height: nat, keep: nat): seq<T>
    requires height + keep <= |vals|
  {
    vals[..height] + vals[|vals| - keep..]
  }

  function Last<T>(s: seq<T>): T
    requires s != []
  {
    s[|s| - 1]
  }

  function Front<T>(s: seq<T>): seq<T>
    requires s != []
  {
    s[..|s| - 1]
  }

  /** Popping from the scope stack never fails: an empty stack stays empty. */
  function DropScopes(scopes: seq<Scope>, n: nat): seq<Scope> {
    if n <= |scopes| then scopes[..|scopes| - n] else []
  }

  // ----- control transfers -----

  function EnterBlock(cfg: Config, coarity: nat, target: Option<Instr>, body: seq<Instr>): Config {
    cfg.(labels := cfg.labels + [Label(|cfg.vals|, coarity, target)],
         scopes := cfg.scopes + [Scope(BlockScope, body)])
  }

  function EnterLoop(cfg: Config, loop: Instr): Config
    requires loop.Loop?
  {
    EnterBlock(cfg, 0, Some(loop), loop.body)
  }

  /** Popping `n` labels at once: only the outermost of them decides what is kept. */
  function PopLabels(cfg: Config, n: nat): Outcome
    requires n > 0
  {
    if n > |cfg.labels| then Stuck
    else
      var l := cfg.labels[|cfg.labels| - n];
      if |cfg.vals| < l.height + l.coarity then Stuck
      else Next(cfg.(vals := Erased(cfg.vals, l.height, l.coarity),
                     labels := cfg.labels[..|cfg.labels| - n]))
  }

  function LeaveBlock(cfg: Config): Outcome {
    match PopLabels(cfg, 1)
    case Next(c) => Next(c.(scopes := DropScopes(c.scopes, 1)))
    case r => r
  }

  function Branch(cfg: Config, n: nat): Outcome {
    match PopLabels(cfg, n + 1)
    case Next(c) =>
      var target := cfg.labels[|cfg.labels| - n - 1].target;
      var d := c.(scopes := DropScopes(c.scopes, n + 1));
      if target.Some? && target.value.Loop? then Next(EnterLoop(d, target.value)) else Next(d)
    case r => r
  }

  function EnterFunction(p: Program, cfg: Config, f: nat, o: Oracle): Outcome
    requires p.Valid()
  {
    if f >= |p.funcs| then Stuck
    else
      var s := p.SigOf(f);
      match p.funcs[f]
      case Host(_, _) => Exchange(cfg, s, o)
      case Native(_, locals, body) =>
        if |cfg.vals| < |s.take| then Stuck
        else
          var c := cfg.(frames := cfg.frames + [Frame(|cfg.vals| - |s.take|, |cfg.labels|, |s.put|)],
                        vals := cfg.vals + MakeValues(locals, 0),
                        scopes := cfg.scopes + [Scope(FunctionCall, [])]);
          Next(EnterBlock(c, |s.put|, None, body))
  }

  function LeaveFunction(cfg: Config): Outcome {
    if cfg.frames == [] then Stuck
    else
      var f := Last(cfg.frames);
      if |cfg.labels| < f.lheight || |cfg.vals| < f.vheight + f.coarity then Stuck
      else Next(cfg.(vals := Erased(cfg.vals, f.vheight, f.coarity),
                     labels := cfg.labels[..f.lheight],
                     frames := Front(cfg.frames),
                     scopes := DropScopes(cfg.scopes, |cfg.labels| - f.lheight + 1)))
  }

  // ----- operand instructions -----

  function PopVal(cfg: Config): Option<(Value, Config)> {
    if cfg.vals == [] then None else Some((Last(cfg.vals), cfg.(vals := Front(cfg.vals))))
  }

  /** Pops a value that is read as a 32-bit integer. */
  function PopI32(cfg: Config): Option<(U32, Config)> {
    match PopVal(cfg)
    case Some((I32Val(n), c)) => Some((n, c))
    case _ => None
  }

  /** Takes operands of given types and puts results of given types. */
  function Exchange(cfg: Config, s: Sig<ValType>, o: Oracle): Outcome {
    var n := |cfg.vals| - |s.take|;
    if n < 0 || Types(cfg.vals[n..]) != s.take then Stuck
    else if o.trap then Trap
    else Next(cfg.(vals := cfg.vals[..n] + MakeValues(s.put, o.bits)))
  }

  function StepSelect(cfg: Config): Outcome {
    match PopI32(cfg)
    case None => Stuck
    case Some((cond, c)) =>
      if |c.vals| < 2 then Stuck
      else
        var second, first := Last(c.vals), Last(Front(c.vals));
        Next(c.(vals := Front(Front(c.vals)) + [if cond == 0 then second else first]))
  }

  /** Locals live on the value stack, at fixed offsets above the frame's base. */
  function StepLocal(cfg: Config, i: Instr): Outcome
    requires i.LocalGet? || i.LocalSet? || i.LocalTee?
  {
    if cfg.frames == [] then Stuck
    else
      var at := Last(cfg.frames).vheight + i.index;
      if i.LocalGet? then
        if at < |cfg.vals| then Next(cfg.(vals := cfg.vals + [cfg.vals[at]])) else Stuck
      else if i.LocalSet? then
        if cfg.vals != [] && at < |cfg.vals| - 1
        then Next(cfg.(vals := Front(cfg.vals)[at := Last(cfg.vals)])) else Stuck
      else
        if at < |cfg.vals| then Next(cfg.(vals := cfg.vals[at := Last(cfg.vals)])) else Stuck
  }

  function StepGlobal(cfg: Config, i: Instr): Outcome
    requires i.GlobalGet? || i.GlobalSet?
  {
    if i.index >= |cfg.globals| then Stuck
    else if i.GlobalGet? then Next(cfg.(vals := cfg.vals + [cfg.globals[i.index]]))
    else
      match PopVal(cfg)
      case None => Stuck
      case Some((v, c)) => Next(c.(globals := c.globals[i.index := v]))
  }

  function StepIf(cfg: Config, i: Instr): Outcome
    requires i.If?
  {
    match PopI32(cfg)
    case None => Stuck
    case Some((cond, c)) =>
      var arm := if cond != 0 then i.thn else i.els;
      if arm == [] then Next(c) else Next(EnterBlock(c, |i.bt.Types()|, None, arm))
  }

  function StepBrTable(cfg: Config, table: seq<U32>, dflt: U32): Outcome {
    match PopI32(cfg)
    case None => Stuck
    case Some((n, c)) => Branch(c, if n < |table| then table[n] else dflt)
  }

  function StepCallIndirect(p: Program, cfg: Config, typeIdx: U32, o: Oracle): Outcome
    requires p.Valid()
  {
    if typeIdx >= |p.types| then Stuck
    else
      match PopI32(cfg)
      case None => Stuck
      case Some((n, c)) =>
        if n >= |p.table| || p.table[n].None? then Trap
        else if p.SigOf(p.table[n].value) != p.types[typeIdx] then Trap
        else EnterFunction(p, c, p.table[n].value, o)
  }

  /** One instruction, already fetched from its scope. */
  function Exec(p: Program, cfg: Config, i: Instr, o: Oracle): Outcome
    requires p.Valid()
  {
    match i
    case Unreachable => Trap
    case Nop => Next(cfg)
    case Return => LeaveFunction(cfg)
    case Block(bt, body) => Next(EnterBlock(cfg, |bt.Types()|, None, body))
    case Loop(_, _) => Next(EnterLoop(cfg, i))
    case If(_, _, _) => StepIf(cfg, i)
    case Br(n) => Branch(cfg, n)
    case BrIf(n) =>
      (match PopI32(cfg)
       case None => Stuck
       case Some((cond, c)) => if cond != 0 then Branch(c, n) else Next(c))
    case BrTable(table, n) => StepBrTable(cfg, table, n)
    case Call(f) => EnterFunction(p, cfg, f, o)
    case CallIndirect(n) => StepCallIndirect(p, cfg, n, o)
    case Drop => (match PopVal(cfg) case None => Stuck case Some((_, c)) => Next(c))
    case Select => StepSelect(cfg)
    case LocalGet(_) => StepLocal(cfg, i)
    case LocalSet(_) => StepLocal(cfg, i)
    case LocalTee(_) => StepLocal(cfg, i)
    case GlobalGet(_) => StepGlobal(cfg, i)
    case GlobalSet(_) => StepGlobal(cfg, i)
    case Memory(op, _, _) => Exchange(cfg, MemorySig(op), o)
    case Const(v) => Next(cfg.(vals := cfg.vals + [v]))
    case Numeric(op) => Exchange(cfg, NumericSig(op), o)
  }

  /** The top scope has no instruction left. */
  function LeaveScope(cfg: Config): Outcome
    requires cfg.scopes != []
  {
    match Last(cfg.scopes).kind
    case FunctionCall => LeaveFunction(cfg)
    case BlockScope => LeaveBlock(cfg)
    case Expression => Next(cfg.(scopes := DropScopes(cfg.scopes, 1)))
  }

  /** The next instruction is taken out of the top scope before it is executed. */
  function Fetched(cfg: Config): Config
    requires cfg.scopes != [] && Last(cfg.scopes).rest != []
  {
    var s := Last(cfg.scopes);
    cfg.(scopes := Front(cfg.scopes) + [s.(rest := s.rest[1..])])
  }

  /** One turn of the execute loop. */
  function Step(p: Program, cfg: Config, o: Oracle): Outcome
    requires p.Valid() && cfg.scopes != []
  {
    if Last(cfg.scopes).rest == [] then LeaveScope(cfg)
    else Exec(p, Fetched(cfg), Last(cfg.scopes).rest[0], o)
  }

  /** Turns of the loop, one per oracle, until no scope is left. */
  function Run(p: Program, cfg: Config, os: seq<Oracle>): Outcome
    requires p.Valid()
    decreases |os|
  {
    if os == [] || cfg.scopes == [] then Next(cfg)
    else
      match Step(p, cfg, os[0])
      case Next(c) => Run(p, c, os[1..])
      case r => r
  }
}
