/** Call discipline: from the push of a frame to its pop, nothing of the caller
    changes, and what comes back is the caller's stack plus the results. */
module Calls {
  import opened Wasm
  import opened Machine
  import opened Layers
  import opened Typing
  import opened SideConditions
  import opened Soundness
  import opened Refinement
  import opened Preservation
  import opened Regions

  /** A call of `f`, returning `n` values to `below`, with `slots` parameters and
      locals. */
  datatype Activated = Activated(f: nat, n: nat, slots: nat, below: Layer)

  /** The call is still going on in `l`. */
  predicate Within(l: Layer, a: Activated) {
    match l
    case Base(_) => false
    case Activation(f, n, locals, _, below) =>
      (f == a.f && n == a.n && |locals| == a.slots && below == a.below) || Within(below, a)
    case Code(_, _, _, below) => Within(below, a)
  }

  /** The call has just ended: the caller as it was, plus the results. */
  predicate Back(l: Layer, a: Activated, vs: seq<Value>) {
    |vs| == a.n && l == AddOps(a.below, vs)
  }

  predicate Stays(r: Result, a: Activated) {
    r.Ok? ==> Within(r.top, a)
  }

  predicate Delivered(p: Program, a: Activated, vs: seq<Value>)
    requires p.Valid()
  {
    a.f < |p.funcs| && Types(vs) == p.SigOf(a.f).put
  }

  /** A return stays within the call or ends it; if the operands are those of a typed
      return, with values of the result types. */
  ghost predicate StaysOrBack(p: Program, l: Layer, r: Result, a: Activated)
    requires p.Valid()
  {
    r.Ok? ==>
      || Within(r.top, a)
      || exists vs: seq<Value> :: Back(r.top, a, vs) && (ReturnTyped(p, l) ==> Delivered(p, a, vs))
  }

  lemma WithinOps(l: Layer, a: Activated)
    requires Within(l, a)
    ensures forall ops :: Within(WithOps(l, ops), a)
    ensures forall vs :: Within(AddOps(l, vs), a)
  {
  }

  lemma {:induction false} WithinEnclosing(l: Layer, a: Activated, n: nat)
    requires Within(l, a) && Enclosing(l, n).Some?
    ensures Within(Enclosing(l, n).value.below, a)
    decreases n
  {
    if n > 0 {
      WithinEnclosing(l.below, a, n - 1);
    }
  }

  lemma {:induction false} BranchWithin(l: Layer, g: seq<Value>, n: nat, a: Activated)
    requires Within(l, a)
    ensures Stays(StepBranch(l, g, n), a)
  {
    hide Enclosing;
    if StepBranch(l, g, n).Ok? {
      WithinEnclosing(l, a, n);
      WithinOps(Enclosing(l, n).value.below, a);
    }
  }

  lemma {:induction false} CallerWithin(l: Layer, a: Activated)
    requires Within(l, a)
    ensures Caller(l).Some?
    ensures var c := Caller(l).value;
            (c.func == a.f && c.coarity == a.n && c.below == a.below) || Within(c.below, a)
  {
    if l.Code? {
      CallerWithin(l.below, a);
    }
  }

  lemma {:induction false} ReturnWithin(p: Program, l: Layer, g: seq<Value>, a: Activated)
    requires p.Valid() && Within(l, a)
    ensures StaysOrBack(p, l, StepReturn(l, g), a)
  {
    hide Caller, Types;
    CallerWithin(l, a);
    var c := Caller(l).value;
    if |l.ops| >= c.coarity {
      var vs := Keep(l.ops, c.coarity);
      if c.func == a.f && c.coarity == a.n && c.below == a.below {
        assert Back(AddOps(c.below, vs), a, vs);
      } else {
        WithinOps(c.below, a);
      }
    }
  }

  lemma {:induction false} SetLocalWithin(l: Layer, k: nat, v: Value, a: Activated)
    requires Within(l, a) && Locals(l).Some? && k < |Locals(l).value|
    ensures Within(SetLocal(l, k, v), a)
  {
    if l.Code? {
      SetLocalWithin(l.below, k, v, a);
    }
  }

  lemma {:induction false} LocalsWithin(l: Layer, g: seq<Value>, i: Instr, a: Activated)
    requires Within(l, a) && (i.LocalGet? || i.LocalSet? || i.LocalTee?)
    ensures Stays(StepLocals(l, g, i), a)
  {
    hide Locals, SetLocal;
    WithinOps(l, a);
    if StepLocals(l, g, i).Ok? && !i.LocalGet? {
      SetLocalWithin(l, i.index, Last(l.ops), a);
      WithinOps(SetLocal(l, i.index, Last(l.ops)), a);
    }
  }

  lemma {:induction false} CallWithin(p: Program, l: Layer, g: seq<Value>, f: nat, o: Oracle, a: Activated)
    requires p.Valid() && Within(l, a)
    ensures Stays(StepCall(p, l, g, f, o), a)
  {
    hide Exchange;
    WithinOps(l, a);
    var r := StepCall(p, l, g, f, o);
    if r.Ok? && p.funcs[f].Native? {
      assert Within(r.top.below.below, a);
      assert Within(r.top.below, a);
    }
  }

  lemma {:induction false} InstrWithin(p: Program, l: Layer, g: seq<Value>, i: Instr, o: Oracle, a: Activated)
    requires p.Valid() && Within(l, a) && !i.Return?
    ensures Stays(StepInstr(p, l, g, i, o), a)
  {
    WithinOps(l, a);
    hide Exec, StepBranch, StepReturn, StepCall, StepLocals;
    match i
    case Br(n) => BranchWithin(l, g, n, a);
    case Call(f) => CallWithin(p, l, g, f, o, a);
    case LocalGet(_) => LocalsWithin(l, g, i, a);
    case LocalSet(_) => LocalsWithin(l, g, i, a);
    case LocalTee(_) => LocalsWithin(l, g, i, a);
    case BrIf(n) =>
      if PopI32(Own(l, g)).Some? {
        BranchWithin(WithOps(l, PopI32(Own(l, g)).value.1.vals), g, n, a);
      }
    case BrTable(table, n) =>
      if PopI32(Own(l, g)).Some? {
        var (k, c) := PopI32(Own(l, g)).value;
        BranchWithin(WithOps(l, c.vals), g, if k < |table| then table[k] else n, a);
      }
    case CallIndirect(_) =>
      if PopI32(Own(l, g)).Some? {
        var (k, c) := PopI32(Own(l, g)).value;
        if k < |p.table| && p.table[k].Some? {
          CallWithin(p, WithOps(l, c.vals), g, p.table[k].value, o, a);
        }
      }
    case _ =>
  }

  lemma {:induction false} OtherStepWithin(p: Program, l: Layer, g: seq<Value>, o: Oracle, a: Activated)
    requires p.Valid() && Within(l, a) && l.Code? && (l.rest == [] || !l.rest[0].Return?)
    ensures Stays(StepLayer(p, l, g, o), a)
  {
    hide StepInstr;
    if l.rest == [] {
      WithinOps(l.below, a);
    } else {
      InstrWithin(p, l.(rest := l.rest[1..]), g, l.rest[0], o, a);
    }
  }

  lemma {:induction false} ReturnStepWithin(p: Program, l: Layer, g: seq<Value>, o: Oracle, a: Activated)
    requires p.Valid() && Within(l, a) && (l.Activation? || (l.rest != [] && l.rest[0].Return?))
    ensures StaysOrBack(p, l, StepLayer(p, l, g, o), a)
  {
    hide StepInstr, StepReturn, ReturnTyped;
    if l.Activation? {
      ReturnWithin(p, l, g, a);
    } else {
      var m := l.(rest := l.rest[1..]);
      ReturnStep(p, m, g, o);
      ReturnWithin(p, m, g, a);
      SameReturn(p, l, m);
    }
  }

  lemma ReturnStep(p: Program, l: Layer, g: seq<Value>, o: Oracle)
    requires p.Valid()
    ensures StepInstr(p, l, g, Return, o) == StepReturn(l, g)
  {
  }

  lemma SameReturn(p: Program, l: Layer, m: Layer)
    requires p.Valid() && l.Code? && m.Code? && m.ops == l.ops && m.below == l.below
    ensures ReturnTyped(p, m) == ReturnTyped(p, l)
  {
  }

  // ----- whole runs of the machine -----

  /** The call is still going on: the caller's values, labels and frames are a prefix
      of the machine's stacks, its frame comes next, and every label pushed since
      lies above the parameter and local slots. */
  ghost predicate Open(c: Config, b: Config, n: nat, slots: nat) {
    && b.vals <= c.vals && b.labels <= c.labels && b.frames < c.frames
    && c.frames[|b.frames|] == Frame(|b.vals|, |b.labels|, n)
    && |b.vals| + slots <= |c.vals|
    && forall k :: |b.labels| <= k < |c.labels| ==> c.labels[k].height >= |b.vals| + slots
  }

  /** The call has just ended: the caller's stacks, with values of types `put` on top. */
  ghost predicate Closed(c: Config, b: Config, put: seq<ValType>) {
    && c.labels == b.labels && c.frames == b.frames && c.scopes == b.scopes
    && b.vals <= c.vals && Types(c.vals[|b.vals|..]) == put
  }

  /** A state of the machine in which a typed call is going on. */
  ghost predicate Calling(p: Program, env: Env, res: seq<ValType>, a: Activated, c: Config)
    requires p.Valid()
  {
    GlobalsTyped(env, c.globals)
    && exists l :: c == Flatten(l, c.globals) && Accepts(p, env, res, l, []) && Within(l, a)
  }

  lemma {:induction false} ReturnIsTyped(p: Program, env: Env, res: seq<ValType>, l: Layer)
    requires p.Valid() && !l.Base? && Accepts(p, env, res, l, [])
    requires l.Activation? || (l.rest != [] && l.rest[0].Return?)
    ensures ReturnTyped(p, l)
  {
    hide CheckOne, CleanOne, K, Types, Ctx, Linked, ReturnTyped;
    if l.Activation? {
      FinishTypes(p, env, res, l);
    } else {
      var m := l.(rest := l.rest[1..]);
      assert Types(l.ops) + [] == Types(l.ops);
      SameRoot(p, env, res, l, m);
      assert Ready(p, env, res, m, Return);
      ReturnTypes(p, env, res, m);
      SameReturn(p, l, m);
    }
  }

  /** The step that ends a typed call delivers values of the result types. */
  lemma {:induction false} TypedBack(p: Program, env: Env, res: seq<ValType>, l: Layer, g: seq<Value>, o: Oracle,
          a: Activated)
    returns (vs: seq<Value>)
    requires p.Valid() && Accepts(p, env, res, l, []) && Within(l, a)
    requires StepLayer(p, l, g, o).Ok? && !Within(StepLayer(p, l, g, o).top, a)
    ensures a.f < |p.funcs| && Back(StepLayer(p, l, g, o).top, a, vs) && Types(vs) == p.SigOf(a.f).put
  {
    hide Accepts, StepLayer, Types, Within;
    if l.Code? && (l.rest == [] || !l.rest[0].Return?) {
      OtherStepWithin(p, l, g, o, a);
    }
    assert !l.Base? by {
      NotBase(l, a);
    }
    ReturnIsTyped(p, env, res, l);
    ReturnStepWithin(p, l, g, o, a);
    vs :| Back(StepLayer(p, l, g, o).top, a, vs) && Delivered(p, a, vs);
  }

  lemma NotBase(l: Layer, a: Activated)
    requires Within(l, a)
    ensures !l.Base?
  {
  }

  /** While the call goes on. */
  lemma {:induction false} WithinOnStacks(l: Layer, a: Activated, g: seq<Value>)
    requires Within(l, a)
    ensures Open(Flatten(l, g), Flatten(a.below, g), a.n, a.slots)
  {
    FlattenOps(l, g, l.ops);
    if l.Code? {
      WithinOnStacks(l.below, a, g);
    } else if Within(l.below, a) {
      WithinOnStacks(l.below, a, g);
    }
  }

  /** When it has ended. */
  lemma BackOnStacks(l: Layer, a: Activated, vs: seq<Value>, g: seq<Value>)
    requires Back(l, a, vs)
    ensures Closed(Flatten(l, g), Flatten(a.below, g), Types(vs))
  {
    hide Flatten, Types;
    FlattenAdd(a.below, g, vs);
    var b := Flatten(a.below, g);
    assert (b.vals + vs)[|b.vals|..] == vs;
  }

  /** The caller's stacks; the globals may change meanwhile. */
  lemma SameCaller(a: Activated, c: Config, g: seq<Value>, h: seq<Value>)
    ensures Open(c, Flatten(a.below, g), a.n, a.slots) == Open(c, Flatten(a.below, h), a.n, a.slots)
    ensures forall put :: Closed(c, Flatten(a.below, g), put) == Closed(c, Flatten(a.below, h), put)
  {
    hide Flatten;
    FlattenGlobals(a.below, g, h);
  }

  lemma {:induction false} CallingStep(p: Program, env: Env, res: seq<ValType>, a: Activated, c: Config, o: Oracle,
          g: seq<Value>)
    requires Good(p, env) && Calling(p, env, res, a, c)
    ensures c.scopes != [] && Open(c, Flatten(a.below, g), a.n, a.slots)
    ensures a.f < |p.funcs|
    ensures var r := Step(p, c, o);
            && !r.Stuck?
            && (r.Next? ==> Calling(p, env, res, a, r.cfg) || Closed(r.cfg, Flatten(a.below, g), p.SigOf(a.f).put))
  {
    var l :| c == Flatten(l, c.globals) && Accepts(p, env, res, l, []) && Within(l, a);
    hide Step, StepLayer, Accepts, GlobalsTyped, Types, Within, Open, Closed;
    NotBase(l, a);
    assert c.scopes != [];
    hide Flatten;
    WithinOnStacks(l, a, c.globals);
    SameCaller(a, c, g, c.globals);
    CalledExists(p, env, res, l, [], a);
    StepSafe(p, env, res, l, c.globals, o);
    StepRefines(p, l, c.globals, o);
    var r := StepLayer(p, l, c.globals, o);
    if r.Ok? && !Within(r.top, a) {
      var vs := TypedBack(p, env, res, l, c.globals, o, a);
      BackOnStacks(r.top, a, vs, r.globals);
      SameCaller(a, Flatten(r.top, r.globals), g, r.globals);
    }
  }

  lemma {:induction false} CalledExists(p: Program, env: Env, res: seq<ValType>, l: Layer, extra: seq<ValType>,
          a: Activated)
    requires p.Valid() && Accepts(p, env, res, l, extra) && Within(l, a)
    ensures a.f < |p.funcs|
    decreases l
  {
    hide Continues, Ctx, Types, Linked;
    if l.Code? {
      CalledExists(p, env, res, l.below, End(p, l), a);
    } else if Within(l.below, a) {
      CalledExists(p, env, res, l.below, p.SigOf(l.func).put, a);
    }
  }

  /** Call discipline on every run of the machine: there is a first moment `e` at which
      the call has ended, with the caller's stacks as they were before the arguments
      were pushed and values of exactly the result types on top, or the run traps;
      before it, and in a run without such a moment, the call is open. */
  lemma {:induction false} CallDiscipline(p: Program, env: Env, res: seq<ValType>, a: Activated, c: Config,
          os: seq<Oracle>, g: seq<Value>)
    returns (e: nat)
    requires Good(p, env) && Calling(p, env, res, a, c)
    ensures 0 < e <= |os| + 1 && a.f < |p.funcs|
    ensures forall i :: 0 <= i < e ==>
              Run(p, c, os[..i]).Next? && Open(Run(p, c, os[..i]).cfg, Flatten(a.below, g), a.n, a.slots)
    ensures e <= |os| ==>
              var r := Run(p, c, os[..e]);
              r.Trap? || (r.Next? && Closed(r.cfg, Flatten(a.below, g), p.SigOf(a.f).put))
    decreases |os|
  {
    hide Step, Calling, Open, Closed, Flatten;
    var o := if os == [] then Oracle(false, 0) else os[0];
    CallingStep(p, env, res, a, c, o, g);
    assert Run(p, c, os[..0]) == Next(c);
    if os == [] {
      e := 1;
    } else {
      var r := Step(p, c, o);
      if r.Next? && Calling(p, env, res, a, r.cfg) {
        var k := CallDiscipline(p, env, res, a, r.cfg, os[1..], g);
        e := k + 1;
        forall i | 0 < i <= |os| ensures Run(p, c, os[..i]) == Run(p, r.cfg, os[1..][..i - 1]) {
          assert os[..i][1..] == os[1..][..i - 1];
        }
      } else {
        e := 1;
        assert os[..1][1..] == [];
        assert Run(p, c, os[..1]) == r;
      }
    }
  }

  // ----- where calls begin -----

  /** A call that was just entered is going on. */
  lemma EnteredWithin(p: Program, l: Layer, g: seq<Value>, f: nat, o: Oracle)
    requires p.Valid() && f < |p.funcs| && p.funcs[f].Native? && |p.SigOf(f).take| <= |l.ops|
    ensures var s := p.SigOf(f);
            var below := WithOps(l, l.ops[..|l.ops| - |s.take|]);
            var r := StepCall(p, l, g, f, o);
            r.Ok? && Within(r.top, Activated(f, |s.put|, |s.take| + |p.funcs[f].locals|, below))
  {
    var s := p.SigOf(f);
    var a := Activated(f, |s.put|, |s.take| + |p.funcs[f].locals|, WithOps(l, l.ops[..|l.ops| - |s.take|]));
    var r := StepCall(p, l, g, f, o);
    assert |MakeValues(p.funcs[f].locals, 0)| == |p.funcs[f].locals|;
    assert Within(r.top.below, a);
  }

  /** Executing a call of a native function in a typed state of the machine begins a
      call to which the discipline applies. */
  lemma {:induction false} CallBegins(p: Program, env: Env, res: seq<ValType>, l: Layer, g: seq<Value>, f: U32,
          o: Oracle)
    requires Good(p, env) && Accepts(p, env, res, l, []) && GlobalsTyped(env, g)
    requires l.Code? && l.rest != [] && l.rest[0] == Instr.Call(f) && f < |p.funcs| && p.funcs[f].Native?
    ensures |p.SigOf(f).take| <= |l.ops|
    ensures var s := p.SigOf(f);
            var below := l.(rest := l.rest[1..], ops := l.ops[..|l.ops| - |s.take|]);
            var r := Step(p, Flatten(l, g), o);
            r.Next? && Calling(p, env, res, Activated(f, |s.put|, |s.take| + |p.funcs[f].locals|, below), r.cfg)
  {
    hide Step, Accepts, GlobalsTyped, Flatten, Types, Within;
    var m := l.(rest := l.rest[1..]);
    StepSafe(p, env, res, l, g, o);
    StepRefines(p, l, g, o);
    assert StepLayer(p, l, g, o) == StepCall(p, m, g, f, o);
    EnteredWithin(p, m, g, f, o);
  }
}
