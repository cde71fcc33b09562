/** The interpreter with its stack manager and instruction provider as objects
    whose vectors are pushed, erased and popped in place. */
module Engine {
  import opened Wasm
  import opened Machine
  import opened Gas
  import Soundness
  import TypeSafety

  /** Value, label and frame stack. The operations are unchecked: their
      preconditions are what a validated module guarantees. */
  class StackManager {
    var valueStack: seq<Value>
    var labelStack: seq<Label>
    var frameStack: seq<Frame>

    constructor ()
      ensures valueStack == [] && labelStack == [] && frameStack == []
    {
      valueStack, labelStack, frameStack := [], [], [];
    }

    function View(scopes: seq<Scope>, globals: seq<Value>): Config
      reads this
    {
      Config(valueStack, labelStack, frameStack, scopes, globals)
    }

    method Push(v: Value)
      modifies `valueStack
      ensures valueStack == old(valueStack) + [v]
    {
      valueStack := valueStack + [v];
    }

    method Pop() returns (v: Value)
      requires valueStack != []
      modifies `valueStack
      ensures old(valueStack) == valueStack + [v]
    {
      v := valueStack[|valueStack| - 1];
      valueStack := valueStack[..|valueStack| - 1];
    }

    method PushFrame(arity: nat, coarity: nat)
      requires arity <= |valueStack|
      modifies `frameStack
      ensures frameStack == old(frameStack) + [Frame(|valueStack| - arity, |labelStack|, coarity)]
    {
      frameStack := frameStack + [Frame(|valueStack| - arity, |labelStack|, coarity)];
    }

    /** Removes the frame with its labels and everything between its base and its
        results; tells how many labels went. */
    method PopFrame(ghost scopes: seq<Scope>, ghost globals: seq<Value>) returns (labelPopped: nat)
      requires LeaveFunction(View(scopes, globals)).Next?
      modifies this
      ensures labelPopped == |old(labelStack)| - |labelStack|
      ensures View(DropScopes(scopes, labelPopped + 1), globals) == LeaveFunction(old(View(scopes, globals))).cfg
    {
      var f := frameStack[|frameStack| - 1];
      labelPopped := |labelStack| - f.lheight;
      labelStack := labelStack[..f.lheight];
      valueStack := valueStack[..f.vheight] + valueStack[|valueStack| - f.coarity..];
      frameStack := frameStack[..|frameStack| - 1];
    }

    method PushLabel(coarity: nat, target: Option<Instr>)
      modifies `labelStack
      ensures labelStack == old(labelStack) + [Label(|valueStack|, coarity, target)]
    {
      labelStack := labelStack + [Label(|valueStack|, coarity, target)];
    }

    function GetLabelWithCount(count: nat): Label
      requires count < |labelStack|
      reads this
    {
      labelStack[|labelStack| - count - 1]
    }

    method PopLabel(cnt: nat, ghost scopes: seq<Scope>, ghost globals: seq<Value>)
      requires 0 < cnt && PopLabels(View(scopes, globals), cnt).Next?
      modifies `valueStack, `labelStack
      ensures View(scopes, globals) == PopLabels(old(View(scopes, globals)), cnt).cfg
    {
      var l := GetLabelWithCount(cnt - 1);
      valueStack := valueStack[..l.height] + valueStack[|valueStack| - l.coarity..];
      for i := 0 to cnt
        invariant labelStack == old(labelStack)[..|old(labelStack)| - i]
        invariant cnt <= |old(labelStack)|
        invariant valueStack == Erased(old(valueStack), l.height, l.coarity)
      {
        labelStack := labelStack[..|labelStack| - 1];
      }
    }

    function GetOffset(idx: nat): nat
      requires frameStack != []
      reads this
    {
      frameStack[|frameStack| - 1].vheight + idx
    }
  }

  /** The stack of instruction sequences being executed. */
  class InstrProvider {
    var iters: seq<Scope>

    constructor ()
      ensures iters == []
    {
      iters := [];
    }

    /** The next instruction of the top scope, which advances past it. */
    method GetNextInstr() returns (i: Option<Instr>)
      modifies this
      ensures i.None? <==> old(iters) == [] || Last(old(iters)).rest == []
      ensures i.None? ==> iters == old(iters)
      ensures i.Some? ==>
        var s := Last(old(iters));
        s.rest == [i.value] + s.rest[1..] && iters == Front(old(iters)) + [s.(rest := s.rest[1..])]
    {
      if |iters| == 0 || iters[|iters| - 1].rest == [] {
        return None;
      }
      var s := iters[|iters| - 1];
      i := Some(s.rest[0]);
      iters := iters[..|iters| - 1] + [s.(rest := s.rest[1..])];
    }

    function TopScopeType(): ScopeKind
      reads this
    {
      if iters != [] then iters[|iters| - 1].kind else Expression
    }

    method PushInstrs(kind: ScopeKind, code: seq<Instr>)
      modifies this
      ensures iters == old(iters) + [Scope(kind, code)]
    {
      iters := iters + [Scope(kind, code)];
    }

    method PopInstrs() returns (ok: bool)
      modifies this
      ensures iters == DropScopes(old(iters), 1) && ok == (old(iters) != [])
    {
      if |iters| == 0 {
        return false;
      }
      iters := iters[..|iters| - 1];
      ok := true;
    }

    method PopMany(n: nat)
      modifies this
      ensures iters == DropScopes(old(iters), n)
    {
      for i := 0 to n
        invariant iters == DropScopes(old(iters), i)
      {
        var _ := PopInstrs();
      }
    }
  }

  datatype Status = Finished | CostLimitExceeded | Trapped

  class Interpreter {
    const stack: StackManager
    const provider: InstrProvider
    var globals: seq<Value>
    var meter: Meter

    constructor (g: seq<Value>, m: Meter)
      ensures fresh(stack) && fresh(provider) && globals == g && meter == m
      ensures Cfg() == Config([], [], [], [], g)
    {
      stack := new StackManager();
      provider := new InstrProvider();
      globals, meter := g, m;
    }

    function Cfg(): Config
      reads this, stack, provider
    {
      stack.View(provider.iters, globals)
    }

    method EnterBlockOp(arity: nat, target: Option<Instr>, code: seq<Instr>)
      modifies stack, provider
      ensures Cfg() == EnterBlock(old(Cfg()), arity, target, code)
    {
      stack.PushLabel(arity, target);
      provider.PushInstrs(BlockScope, code);
    }

    method LeaveBlockOp()
      requires LeaveBlock(Cfg()).Next?
      modifies stack, provider
      ensures Cfg() == LeaveBlock(old(Cfg())).cfg
    {
      stack.PopLabel(1, provider.iters, globals);
      var _ := provider.PopInstrs();
    }

    method LeaveFunctionOp()
      requires LeaveFunction(Cfg()).Next?
      modifies stack, provider
      ensures Cfg() == LeaveFunction(old(Cfg())).cfg
    {
      var n := stack.PopFrame(provider.iters, globals);
      provider.PopMany(n);
      var _ := provider.PopInstrs();
    }

    /** Unwinds to the label and, for a loop, enters it again. */
    method BranchToLabel(cnt: nat)
      requires Branch(Cfg(), cnt).Next?
      modifies stack, provider
      ensures Cfg() == Branch(old(Cfg()), cnt).cfg
    {
      var target := stack.GetLabelWithCount(cnt).target;
      stack.PopLabel(cnt + 1, provider.iters, globals);
      provider.PopMany(cnt + 1);
      if target.Some? && target.value.Loop? {
        EnterBlockOp(0, target, target.value.body);
      }
    }

    /** Pushes the frame over the arguments, then the zeroed locals, then the body. */
    method EnterNative(s: Sig<ValType>, locals: seq<ValType>, body: seq<Instr>, ghost p: Program, ghost f: nat,
            ghost o: Oracle)
      requires p.Valid() && f < |p.funcs| && p.SigOf(f) == s
      requires p.funcs[f].Native? && p.funcs[f].locals == locals && p.funcs[f].body == body
      requires |s.take| <= |stack.valueStack|
      modifies stack, provider
      ensures Next(Cfg()) == EnterFunction(p, old(Cfg()), f, o)
    {
      stack.PushFrame(|s.take|, |s.put|);
      ghost var args := stack.valueStack;
      ghost var zeros := MakeValues(locals, 0);
      for i := 0 to |locals|
        invariant stack.valueStack == args + zeros[..i]
        invariant stack.labelStack == old(stack.labelStack) && provider.iters == old(provider.iters)
        invariant stack.frameStack == old(stack.frameStack) + [Frame(|args| - |s.take|, |stack.labelStack|, |s.put|)]
      {
        stack.Push(MakeValue(locals[i], 0));
        assert zeros[..i + 1] == zeros[..i] + [zeros[i]];
      }
      assert zeros[..|locals|] == zeros;
      provider.PushInstrs(FunctionCall, []);
      EnterBlockOp(|s.put|, None, body);
    }

    /** The control instructions run on the objects; operand instructions are
        taken from the machine's definition. */
    method ExecuteInstr(p: Program, i: Instr, o: Oracle) returns (trapped: bool)
      requires p.Valid() && !Exec(p, Cfg(), i, o).Stuck?
      modifies this`globals, stack, provider
      ensures trapped <==> Exec(p, old(Cfg()), i, o).Trap?
      ensures !trapped ==> Cfg() == Exec(p, old(Cfg()), i, o).cfg
    {
      trapped := false;
      match i
      case Return => LeaveFunctionOp();
      case Block(bt, body) => EnterBlockOp(|bt.Types()|, None, body);
      case Loop(_, body) => EnterBlockOp(0, Some(i), body);
      case Br(n) => BranchToLabel(n);
      case If(_, _, _) => ExecuteConditional(p, i, o);
      case BrIf(_) => ExecuteConditional(p, i, o);
      case BrTable(_, _) => ExecuteConditional(p, i, o);
      case _ => trapped := ExecuteOther(p, i, o);
    }

    /** The instructions that pop a condition or an index first. */
    method ExecuteConditional(p: Program, i: Instr, o: Oracle)
      requires p.Valid() && (i.If? || i.BrIf? || i.BrTable?) && !Exec(p, Cfg(), i, o).Stuck?
      modifies stack, provider
      ensures Exec(p, old(Cfg()), i, o) == Next(Cfg())
    {
      assert PopI32(Cfg()).Some?;
      var v := stack.Pop();
      assert PopI32(old(Cfg())) == Some((v.i32, Cfg()));
      if i.If? {
        var arm := if v.i32 != 0 then i.thn else i.els;
        if arm != [] {
          EnterBlockOp(|i.bt.Types()|, None, arm);
        }
      } else if i.BrTable? {
        BranchToLabel(if v.i32 < |i.table| then i.table[v.i32] else i.depth);
      } else if v.i32 != 0 {
        BranchToLabel(i.depth);
      }
    }

    method ExecuteOther(p: Program, i: Instr, o: Oracle) returns (trapped: bool)
      requires p.Valid() && !Exec(p, Cfg(), i, o).Stuck?
      modifies this`globals, stack, provider
      ensures trapped <==> Exec(p, old(Cfg()), i, o).Trap?
      ensures !trapped ==> Cfg() == Exec(p, old(Cfg()), i, o).cfg
    {
      trapped := false;
      if i.Call? && p.funcs[i.index].Native? {
        EnterNative(p.SigOf(i.index), p.funcs[i.index].locals, p.funcs[i.index].body, p, i.index, o);
      } else {
        var r := Exec(p, Config(stack.valueStack, stack.labelStack, stack.frameStack, provider.iters, globals), i, o);
        match r
        case Next(c) =>
          stack.valueStack, stack.labelStack, stack.frameStack := c.vals, c.labels, c.frames;
          provider.iters := c.scopes;
          globals := c.globals;
        case Trap => trapped := true;
        case Stuck => assert false;
      }
    }

    /** One turn of the loop: leave an exhausted scope, or charge for the next
        instruction and execute it. */
    method Turn(p: Program, o: Oracle) returns (s: Option<Status>)
      requires p.Valid() && meter.Valid() && provider.iters != []
      requires !MeteredStep(p, Cfg(), meter, o).Undefined?
      modifies this, stack, provider
      ensures meter.Valid()
      ensures match MeteredStep(p, old(Cfg()), old(meter), o)
              case Going(c, m) => s == None && Cfg() == c && meter == m
              case OutOfGas(m) => s == Some(CostLimitExceeded) && meter == m
              case Halted(m) => s == Some(Trapped) && meter == m
              case Undefined => true
    {
      s := None;
      var next := provider.GetNextInstr();
      match next
      case None =>
        if provider.TopScopeType() == FunctionCall {
          LeaveFunctionOp();
        } else if provider.TopScopeType() == BlockScope {
          LeaveBlockOp();
        } else {
          var _ := provider.PopInstrs();
        }
      case Some(i) =>
        assert Cfg() == Fetched(old(Cfg()));
        var c := AddCost(meter.(count := meter.count + 1), meter.table[Opcode(i)]);
        meter := c.m;
        if !c.ok {
          return Some(CostLimitExceeded);
        }
        var d := AddCost(meter, Surcharge(p, stack.View(provider.iters, globals), i, meter));
        meter := d.m;
        if !d.ok {
          return Some(CostLimitExceeded);
        }
        var trapped := ExecuteInstr(p, i, o);
        if trapped {
          s := Some(Trapped);
        }
    }

    /** The first turns of the execute loop with any cost table and any limit, also
        those with which it need not end. */
    method ExecuteAtMost(p: Program, os: nat -> Oracle, turns: nat) returns (s: Option<Status>)
      requires p.Valid() && meter.Valid() && !MeteredRun(p, Cfg(), meter, os, 0, turns).Undefined?
      modifies this, stack, provider
      ensures meter.Valid()
      ensures match MeteredRun(p, old(Cfg()), old(meter), os, 0, turns)
              case Going(c, m) => Cfg() == c && meter == m && s == if c.scopes == [] then Some(Finished) else None
              case OutOfGas(m) => s == Some(CostLimitExceeded) && meter == m
              case Halted(m) => s == Some(Trapped) && meter == m
              case Undefined => true
    {
      hide MeteredStep;
      ghost var all := MeteredRun(p, Cfg(), meter, os, 0, turns);
      var turn := 0;
      while turn < turns && provider.iters != []
        invariant turn <= turns && meter.Valid()
        invariant all == MeteredRun(p, Cfg(), meter, os, turn, turns - turn)
        decreases turns - turn
      {
        var r := Turn(p, os(turn));
        turn := turn + 1;
        if r.Some? {
          return r;
        }
      }
      s := if provider.iters == [] then Some(Finished) else None;
    }

    /** The execute loop. It ends because every turn uses gas or leaves a scope; it
        follows the metered machine turn by turn. */
    method Execute(p: Program, os: nat -> Oracle) returns (s: Status, ghost n: nat)
      requires p.Valid() && Priced(p, meter)
      requires forall k: nat :: !MeteredRun(p, Cfg(), meter, os, 0, k).Undefined?
      modifies this, stack, provider
      ensures n <= Potential(old(Cfg()), old(meter))
      ensures match s
              case Finished =>
                MeteredRun(p, old(Cfg()), old(meter), os, 0, n) == Going(Cfg(), meter) && provider.iters == []
              case CostLimitExceeded => MeteredRun(p, old(Cfg()), old(meter), os, 0, n) == OutOfGas(meter)
              case Trapped => MeteredRun(p, old(Cfg()), old(meter), os, 0, n) == Halted(meter)
    {
      hide MeteredStep;
      n := 0;
      var turn := 0;
      assert MeteredRun(p, Cfg(), meter, os, 0, n) == Going(Cfg(), meter);
      hide MeteredRun;
      while provider.iters != []
        invariant n == turn && Priced(p, meter)
        invariant n + Potential(Cfg(), meter) <= Potential(old(Cfg()), old(meter))
        invariant MeteredRun(p, old(Cfg()), old(meter), os, 0, n) == Going(Cfg(), meter)
        decreases Potential(Cfg(), meter)
      {
        RunExtends(p, old(Cfg()), old(meter), os, 0, n);
        TurnDecreases(p, Cfg(), meter, os(n));
        var r := Turn(p, os(turn));
        turn := turn + 1;
        n := n + 1;
        if r.Some? {
          return r.value, n;
        }
      }
      s := Finished;
    }

    /** Pops the results one by one, the last one first. */
    method PopResults(count: nat) returns (results: seq<Value>)
      requires count <= |stack.valueStack|
      modifies stack`valueStack
      ensures |results| == count && old(stack.valueStack) == stack.valueStack + results
    {
      results := [];
      for i := 0 to count
        invariant |results| == i && old(stack.valueStack) == stack.valueStack + results
      {
        var v := stack.Pop();
        results := [v] + results;
      }
    }

    /** A host function is charged for, takes its arguments and leaves its results. */
    method InvokeHost(cost: U64, put: seq<ValType>, o: Oracle) returns (s: Status, results: seq<Value>)
      requires meter.Valid()
      modifies this`meter, stack`valueStack
      ensures meter == AddCost(old(meter), cost).m
      ensures s == if !AddCost(old(meter), cost).ok then CostLimitExceeded else if o.trap then Trapped else Finished
      ensures results == if s == Finished then MakeValues(put, o.bits) else []
      ensures s == Finished ==> stack.valueStack == []
    {
      var c := AddCost(meter, cost);
      meter := c.m;
      if !c.ok {
        return CostLimitExceeded, [];
      } else if o.trap {
        return Trapped, [];
      }
      stack.valueStack := MakeValues(put, o.bits);
      results := PopResults(|put|);
      s := Finished;
    }

    /** What an invocation of a native function answers is what the metered machine
        comes to after `n` turns, from the function's entry on its arguments alone. */
    ghost predicate Answered(p: Program, f: nat, args: seq<Value>, g: seq<Value>, m: Meter, os: nat -> Oracle,
                             s: Status, results: seq<Value>, n: nat)
      requires p.Valid() && m.Valid()
      reads this
    {
      var entry := EnterFunction(p, Config(args, [], [], [], g), f, os(0));
      && entry.Next?
      && var r := MeteredRun(p, entry.cfg, m, os, 0, n);
      && match s
         case Finished => r == Going(Config(results, [], [], [], globals), meter)
         case CostLimitExceeded => r == OutOfGas(meter) && results == []
         case Trapped => r == Halted(meter) && results == []
    }

    /** What an invocation of a host function answers. */
    ghost predicate HostAnswered(p: Program, f: nat, args: seq<Value>, g: seq<Value>, m: Meter, o: Oracle,
                                 s: Status, results: seq<Value>)
      requires p.Valid() && m.Valid() && f < |p.funcs| && p.funcs[f].Host?
      reads this
    {
      var c, r := AddCost(m, p.funcs[f].cost), EnterFunction(p, Config(args, [], [], [], g), f, o);
      && meter == c.m
      && (!c.ok ==> s == CostLimitExceeded && results == [])
      && (c.ok && r.Trap? ==> s == Trapped && results == [])
      && (c.ok && !r.Trap? ==> s == Finished && r == Next(Config(results, [], [], [], globals)))
    }

    /** Calling an exported function of a validated module: the precondition of the
        unchecked stacks is discharged by the validator's verdict. What comes back
        is what the metered run of the call leaves, one value of each result type, and
        the stacks end empty. */
    method Invoke(p: Program, ghost env: Soundness.Env, f: nat, args: seq<Value>, os: nat -> Oracle)
      returns (s: Option<Status>, results: seq<Value>, ghost n: nat)
      requires Soundness.Good(p, env) && f < |p.funcs| && Priced(p, meter)
      requires Soundness.GlobalsTyped(env, globals)
      requires |args| == |p.SigOf(f).take| ==> Types(args) == p.SigOf(f).take
      modifies this, stack, provider
      ensures s.None? <==> |args| != |p.SigOf(f).take|
      ensures s.Some? && p.funcs[f].Native? ==>
        Answered(p, f, args, old(globals), old(meter), os, s.value, results, n)
      ensures s.Some? && p.funcs[f].Host? ==>
        HostAnswered(p, f, args, old(globals), old(meter), os(0), s.value, results)
      ensures s == Some(Finished) ==>
        && Types(results) == p.SigOf(f).put
        && stack.valueStack == [] && stack.labelStack == [] && stack.frameStack == [] && provider.iters == []
    {
      assert p.Valid() && meter.Valid();
      hide Soundness.Good, Soundness.GlobalsTyped, MeteredRun, Priced, Potential;
      results, n := [], 0;
      var t := p.SigOf(f);
      if |t.take| != |args| {
        return None, [], 0;
      }
      provider.iters := [];
      stack.valueStack, stack.labelStack, stack.frameStack := args, [], [];
      if p.funcs[f].Host? {
        HostEntry(p, f, args, globals, os(0));
        var status: Status;
        status, results := InvokeHost(p.funcs[f].cost, t.put, os(0));
        s := Some(status);
        return;
      }
      assert [] + args == args;
      TypeSafety.EntryPictured(p, env, [], args, globals, f, os(0));
      hide EnterFunction;
      EnterNative(t, p.funcs[f].locals, p.funcs[f].body, p, f, os(0));
      forall k: nat ensures !MeteredRun(p, Cfg(), meter, os, 0, k).Undefined? {
        TypeSafety.MeteredSafe(p, env, [], t.put, Cfg(), meter, os, 0, k);
      }
      ghost var entry, m := Cfg(), meter;
      var status: Status;
      status, n := Execute(p, os);
      if status == Finished {
        TypeSafety.MeteredSafe(p, env, [], t.put, entry, m, os, 0, n);
        TypeSafety.PicturedEnd(p, env, [], t.put, Cfg());
        results := PopResults(|t.put|);
      }
      s := Some(status);
    }
  }

  lemma HostEntry(p: Program, f: nat, args: seq<Value>, g: seq<Value>, o: Oracle)
    requires p.Valid() && f < |p.funcs| && p.funcs[f].Host? && Types(args) == p.SigOf(f).take
    ensures EnterFunction(p, Config(args, [], [], [], g), f, o)
         == if o.trap then Trap else Next(Config(MakeValues(p.SigOf(f).put, o.bits), [], [], [], g))
  {
    assert args[0..] == args;
  }
}
