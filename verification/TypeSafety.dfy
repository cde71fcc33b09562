/** Whole runs of the machine on validated modules. */
module TypeSafety {
  import opened Wasm
  import opened Typing
  import opened SideConditions
  import opened Machine
  import opened Layers
  import opened Refinement
  import opened Soundness
  import opened Preservation
  import opened Lockstep
  import opened Gas

  /** The bottom layer: the values that were there before the call. */
  function Bottom(l: Layer): seq<Value> {
    if l.Base? then l.ops else Bottom(l.below)
  }

  /** The machine's stacks are a picture of typed layers standing on `under`. */
  ghost predicate Pictured(p: Program, env: Env, under: seq<Value>, res: seq<ValType>, c: Config)
    requires p.Valid()
  {
    exists l :: c == Flatten(l, c.globals) && Standing(p, env, under, res, l) && GlobalsTyped(env, c.globals)
  }

  ghost predicate Standing(p: Program, env: Env, under: seq<Value>, res: seq<ValType>, l: Layer)
    requires p.Valid()
  {
    && Accepts(p, env, Types(under) + res, l, [])
    && under <= Bottom(l) && (!l.Base? ==> Bottom(l) == under)
  }

  // ----- the bottom layer changes only when the outermost call returns -----

  lemma {:induction false} BottomOf(l: Layer)
    ensures forall ops :: !l.Base? ==> Bottom(WithOps(l, ops)) == Bottom(l)
    ensures forall vs :: Bottom(AddOps(l, vs)) == if l.Base? then Bottom(l) + vs else Bottom(l)
  {
  }

  lemma {:induction false} EnclosingBottom(l: Layer, n: nat)
    requires Enclosing(l, n).Some?
    ensures Bottom(Enclosing(l, n).value.below) == Bottom(l)
    decreases n
  {
    if n > 0 {
      EnclosingBottom(l.below, n - 1);
    }
  }

  lemma {:induction false} CallerBottom(l: Layer)
    requires Caller(l).Some?
    ensures Bottom(Caller(l).value.below) == Bottom(l)
  {
    if l.Code? {
      CallerBottom(l.below);
    }
  }

  lemma {:induction false} SetLocalBottom(l: Layer, k: nat, v: Value)
    requires Locals(l).Some? && k < |Locals(l).value|
    ensures Bottom(SetLocal(l, k, v)) == Bottom(l) && !SetLocal(l, k, v).Base?
  {
    if l.Code? {
      SetLocalBottom(l.below, k, v);
    }
  }

  ghost predicate BottomKept(l: Layer, r: Result) {
    r.Ok? ==> Bottom(l) <= Bottom(r.top) && (!r.top.Base? ==> Bottom(r.top) == Bottom(l))
  }

  lemma {:induction false} BranchBottom(l: Layer, g: seq<Value>, n: nat)
    ensures BottomKept(l, StepBranch(l, g, n))
  {
    if StepBranch(l, g, n).Ok? {
      EnclosingBottom(l, n);
      BottomOf(Enclosing(l, n).value.below);
    }
  }

  lemma {:induction false} ReturnBottom(l: Layer, g: seq<Value>)
    ensures BottomKept(l, StepReturn(l, g))
  {
    if StepReturn(l, g).Ok? {
      CallerBottom(l);
      BottomOf(Caller(l).value.below);
    }
  }

  lemma {:induction false} CallBottom(p: Program, l: Layer, g: seq<Value>, f: nat, o: Oracle)
    requires p.Valid() && l.Code?
    ensures BottomKept(l, StepCall(p, l, g, f, o))
  {
    hide Exchange, Types;
    BottomOf(l);
    var r := StepCall(p, l, g, f, o);
    if r.Ok? && p.funcs[f].Native? {
      assert Bottom(r.top.below) == Bottom(r.top.below.below);
    }
  }

  lemma {:induction false} InstrBottom(p: Program, l: Layer, g: seq<Value>, i: Instr, o: Oracle)
    requires p.Valid() && l.Code?
    ensures BottomKept(l, StepInstr(p, l, g, i, o))
  {
    hide Exec, StepBranch, StepReturn, StepCall, Types, Locals, SetLocal;
    BottomOf(l);
    match i
    case Return => ReturnBottom(l, g);
    case Br(n) => BranchBottom(l, g, n);
    case Call(f) => CallBottom(p, l, g, f, o);
    case LocalGet(_) =>
    case LocalSet(k) => LocalBottom(l, g, i);
    case LocalTee(k) => LocalBottom(l, g, i);
    case BrIf(n) =>
      if PopI32(Own(l, g)).Some? {
        BranchBottom(WithOps(l, PopI32(Own(l, g)).value.1.vals), g, n);
      }
    case BrTable(table, n) =>
      if PopI32(Own(l, g)).Some? {
        var (k, c) := PopI32(Own(l, g)).value;
        BranchBottom(WithOps(l, c.vals), g, if k < |table| then table[k] else n);
      }
    case CallIndirect(x) =>
      if PopI32(Own(l, g)).Some? {
        var (k, c) := PopI32(Own(l, g)).value;
        if k < |p.table| && p.table[k].Some? {
          CallBottom(p, WithOps(l, c.vals), g, p.table[k].value, o);
        }
      }
    case _ =>
  }

  lemma {:induction false} LocalBottom(l: Layer, g: seq<Value>, i: Instr)
    requires l.Code? && (i.LocalSet? || i.LocalTee?)
    ensures BottomKept(l, StepLocals(l, g, i))
  {
    hide Locals, SetLocal;
    if StepLocals(l, g, i).Ok? {
      SetLocalBottom(l, i.index, Last(l.ops));
      BottomOf(SetLocal(l, i.index, Last(l.ops)));
    }
  }

  lemma {:induction false} StepBottom(p: Program, l: Layer, g: seq<Value>, o: Oracle)
    requires p.Valid() && !l.Base?
    ensures BottomKept(l, StepLayer(p, l, g, o))
  {
    hide StepInstr;
    if l.Activation? {
      ReturnBottom(l, g);
    } else if l.rest == [] {
      BottomOf(l.below);
    } else {
      var m := l.(rest := l.rest[1..]);
      assert Bottom(m) == Bottom(l);
      InstrBottom(p, m, g, l.rest[0], o);
    }
  }

  // ----- steps and runs of the machine -----

  lemma {:induction false} PicturedStep(p: Program, env: Env, under: seq<Value>, res: seq<ValType>, c: Config,
          o: Oracle)
    requires Good(p, env) && Pictured(p, env, under, res, c) && c.scopes != []
    ensures !Step(p, c, o).Stuck?
    ensures Step(p, c, o).Next? ==> Pictured(p, env, under, res, Step(p, c, o).cfg)
  {
    hide Step, StepLayer, Accepts, GlobalsTyped, Types;
    var l :| c == Flatten(l, c.globals) && Standing(p, env, under, res, l) && GlobalsTyped(env, c.globals);
    assert !l.Base?;
    StepSafe(p, env, Types(under) + res, l, c.globals, o);
    StepRefines(p, l, c.globals, o);
    StepBottom(p, l, c.globals, o);
    var r := StepLayer(p, l, c.globals, o);
    if r.Ok? {
      assert Standing(p, env, under, res, r.top);
    }
  }

  lemma {:induction false} PicturedRun(p: Program, env: Env, under: seq<Value>, res: seq<ValType>, c: Config,
          os: seq<Oracle>)
    requires Good(p, env) && Pictured(p, env, under, res, c)
    ensures !Run(p, c, os).Stuck?
    ensures Run(p, c, os).Next? ==> Pictured(p, env, under, res, Run(p, c, os).cfg)
    decreases |os|
  {
    hide Step, Pictured;
    if os != [] && c.scopes != [] {
      PicturedStep(p, env, under, res, c, os[0]);
      if Step(p, c, os[0]).Next? {
        PicturedRun(p, env, under, res, Step(p, c, os[0]).cfg, os[1..]);
      }
    }
  }

  /** The same for the metered loop, for any number of turns. */
  lemma {:induction false} MeteredSafe(p: Program, env: Env, under: seq<Value>, res: seq<ValType>, c: Config, m: Meter,
                                       os: nat -> Oracle, from: nat, n: nat)
    requires Good(p, env) && Pictured(p, env, under, res, c) && m.Valid()
    ensures var r := MeteredRun(p, c, m, os, from, n);
            !r.Undefined? && (r.Going? ==> Pictured(p, env, under, res, r.cfg))
    decreases n
  {
    hide Step, Pictured, MeteredStep;
    if n > 0 && c.scopes != [] {
      PicturedStep(p, env, under, res, c, os(from));
      MeteringOnlyStops(p, c, m, os(from));
      match MeteredStep(p, c, m, os(from))
      case Going(d, m1) => MeteredSafe(p, env, under, res, d, m1, os, from + 1, n - 1);
      case _ =>
    }
  }

  /** A finished typed run leaves the values that were there and typed results. */
  lemma {:induction false} PicturedEnd(p: Program, env: Env, under: seq<Value>, res: seq<ValType>, c: Config)
    requires p.Valid() && Pictured(p, env, under, res, c) && c.scopes == []
    ensures c.labels == [] && c.frames == []
    ensures |c.vals| == |under| + |res| && c.vals[..|under|] == under && Types(c.vals[|under|..]) == res
  {
    hide Types;
    var l :| c == Flatten(l, c.globals) && Standing(p, env, under, res, l) && GlobalsTyped(env, c.globals);
    assert l.Base?;
    assert Types(c.vals) + [] == Types(under) + res;
    assert Types(c.vals) + [] == Types(c.vals);
    assert (Types(under) + res)[|under|..] == res;
    assert Types(c.vals[|under|..]) == Types(c.vals)[|under|..];
  }

  /** The stacks after the engine has pushed the arguments and entered `f`. */
  lemma {:induction false} EntryPictured(p: Program, env: Env, under: seq<Value>, args: seq<Value>, g: seq<Value>,
          f: nat, o: Oracle)
    requires Good(p, env) && f < |p.funcs| && p.funcs[f].Native? && Types(args) == p.SigOf(f).take
          && GlobalsTyped(env, g)
    ensures EnterFunction(p, Config(under + args, [], [], [], g), f, o).Next?
    ensures Pictured(p, env, under, p.SigOf(f).put, EnterFunction(p, Config(under + args, [], [], [], g), f, o).cfg)
  {
    hide Types, GlobalsTyped, Continues, Ctx;
    var s := p.SigOf(f);
    var b := Base(under + args);
    var zeros := MakeValues(p.funcs[f].locals, 0);
    var n := |under|;
    assert (under + args)[..n] == under && (under + args)[n..] == args;
    CallRefines(p, b, g, f, o);
    var a := Activation(f, |s.put|, args + zeros, [], Base(under));
    var l := Code(FuncBody(|s.put|), [], p.funcs[f].body, a);
    assert StepCall(p, b, g, f, o) == Ok(l, g);
    var res := Types(under) + s.put;
    assert Types(args + zeros) == s.take + p.funcs[f].locals;
    assert Types([]) + s.put == s.put;
    assert Accepts(p, env, res, Base(under), s.put);
    assert Accepts(p, env, res, a, s.put);
    GoodIsClean(p, env);
    NativeCallSafe(p, env, res, a, f);
    assert Bottom(a) == Bottom(Base(under)) == under;
    assert Bottom(l) == Bottom(a);
    assert Standing(p, env, under, s.put, l);
  }

  /** The call of `f` enters its body, its run is never Stuck, and when the run has
      ended the values that were there before are followed by exactly the results. */
  ghost predicate SafeCall(p: Program, under: seq<Value>, args: seq<Value>, g: seq<Value>, f: nat, os: seq<Oracle>)
    requires p.Valid() && f < |p.funcs| && os != []
  {
    var entry, put := EnterFunction(p, Config(under + args, [], [], [], g), f, os[0]), p.SigOf(f).put;
    && entry.Next?
    && var r := Run(p, entry.cfg, os[1..]);
    && !r.Stuck?
    && (r.Next? && r.cfg.scopes == [] ==>
          && r.cfg.labels == [] && r.cfg.frames == []
          && |r.cfg.vals| == |under| + |put| && r.cfg.vals[..|under|] == under
          && Types(r.cfg.vals[|under|..]) == put)
  }

  /** Type safety: calling a function of a validated module that meets the side
      conditions, with arguments of its parameter types, never reads outside a
      stack or a value of another type. It traps, is still running, or has ended
      with exactly its results on top of the values that were there before. */
  lemma {:induction false} CallIsSafe(p: Program, env: Env, under: seq<Value>, args: seq<Value>, g: seq<Value>,
          f: nat, os: seq<Oracle>)
    requires Good(p, env) && f < |p.funcs| && p.funcs[f].Native? && Types(args) == p.SigOf(f).take
    requires GlobalsTyped(env, g) && os != []
    ensures SafeCall(p, under, args, g, f, os)
  {
    hide Pictured, Run, EnterFunction;
    EntryPictured(p, env, under, args, g, f, os[0]);
    var entry := EnterFunction(p, Config(under + args, [], [], [], g), f, os[0]);
    PicturedRun(p, env, under, p.SigOf(f).put, entry.cfg, os[1..]);
    var r := Run(p, entry.cfg, os[1..]);
    if r.Next? && r.cfg.scopes == [] {
      PicturedEnd(p, env, under, p.SigOf(f).put, r.cfg);
    }
  }

  // ----- accepted modules, without the side conditions -----

  /** The validator's own verdict on all function bodies. */
  ghost predicate Accepted(p: Program, env: Env) {
    p.Valid() && forall f :: 0 <= f < |p.funcs| && p.funcs[f].Native? ==> CheckBody(Ctx(p, env, f), p.funcs[f].body)
  }

  lemma AcceptedIsClosed(p: Program, env: Env)
    requires Accepted(p, env)
    ensures Closed(p)
  {
    hide BranchesBelow;
    forall f | 0 <= f < |p.funcs| && p.funcs[f].Native? ensures BranchesBelow(p.funcs[f].body, 1) {
      AcceptedBranches(Ctx(p, env, f), [[]], NOTHING, p.funcs[f].body);
    }
  }

  /** The checker's verdict alone already keeps every branch inside its function
      and the three control stacks in lockstep on every run. */
  lemma {:induction false} AcceptedRunsLocked(p: Program, env: Env, c: Config, os: seq<Oracle>, base: seq<Frame>)
    requires Accepted(p, env) && LockedConfig(c, base)
    ensures Run(p, c, os).Next? ==>
      var d := Run(p, c, os).cfg; LockedConfig(d, base) && (d.scopes == [] ==> d.labels == [] && d.frames == base)
  {
    hide Run, LockedConfig, Closed;
    AcceptedIsClosed(p, env);
    RunLocked(p, c, os, base);
  }
}
