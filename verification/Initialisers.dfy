/** Constant expressions: what running an accepted initialiser leaves, and when the
    globals of an instance have their declared types. */
module Initialisers {
  import opened Wasm
  import opened Typing
  import opened Machine
  import opened Soundness
  import Linking
  import TypeSafety
  import V = Validator

  /** The value that an instruction of a constant expression pushes, if it is there. */
  function ValueOf(g: seq<Value>, i: Instr): Option<Value> {
    match i
    case Const(v) => Some(v)
    case GlobalGet(k) => if k < |g| then Some(g[k]) else None
    case _ => None
  }

  /** The values that a constant expression leaves with globals `g`. */
  function Evaluated(g: seq<Value>, code: seq<Instr>): Option<seq<Value>> {
    if code == [] then Some([])
    else
      match ValueOf(g, code[0])
      case None => None
      case Some(v) =>
        match Evaluated(g, code[1..])
        case None => None
        case Some(vs) => Some([v] + vs)
  }

  predicate Constant(code: seq<Instr>) {
    forall k :: 0 <= k < |code| ==> V.IsConst(code[k])
  }

  /** Only the first `n` globals are read. */
  predicate Reads(code: seq<Instr>, n: nat) {
    forall k :: 0 <= k < |code| && code[k].GlobalGet? ==> code[k].index < n
  }

  lemma {:induction false} EvaluatedIff(g: seq<Value>, code: seq<Instr>)
    requires Constant(code)
    ensures Evaluated(g, code).Some? <==> Reads(code, |g|)
    decreases |code|
  {
    if code != [] {
      assert forall k :: 0 <= k < |code| - 1 ==> code[1..][k] == code[k + 1];
      EvaluatedIff(g, code[1..]);
      if Reads(code[1..], |g|) && ValueOf(g, code[0]).Some? {
        forall k | 0 <= k < |code| && code[k].GlobalGet? ensures code[k].index < |g| {
          if k > 0 {
            assert code[1..][k - 1] == code[k];
          }
        }
      }
    }
  }

  /** The state in which an expression starts on top of `base`. */
  function Begun(base: Config, code: seq<Instr>): Config {
    base.(scopes := [Scope(Expression, code)])
  }

  /** What a run must come to: nothing defined, or the values on top of `base`. */
  function Ended(base: Config, values: Option<seq<Value>>): Outcome {
    match values
    case None => Stuck
    case Some(vs) => Next(base.(vals := base.vals + vs))
  }

  lemma ConstantStep(p: Program, base: Config, code: seq<Instr>, o: Oracle)
    requires p.Valid() && base.scopes == [] && code != [] && V.IsConst(code[0])
    ensures Step(p, Begun(base, code), o)
         == match ValueOf(base.globals, code[0])
            case None => Stuck
            case Some(v) => Next(Begun(base.(vals := base.vals + [v]), code[1..]))
  {
    var c := Begun(base, code);
    assert Front(c.scopes) == [];
    assert Fetched(c) == Begun(base, code[1..]);
  }

  lemma ConstantEnd(p: Program, base: Config, o: Oracle)
    requires p.Valid() && base.scopes == []
    ensures Step(p, Begun(base, []), o) == Next(base)
  {
    assert DropScopes(Begun(base, []).scopes, 1) == [];
  }

  /** Running a constant expression, under whatever labels and frames, is evaluating it. */
  lemma {:induction false} RunEvaluates(p: Program, base: Config, code: seq<Instr>, os: seq<Oracle>)
    requires p.Valid() && base.scopes == [] && Constant(code) && |os| > |code|
    ensures Run(p, Begun(base, code), os) == Ended(base, Evaluated(base.globals, code))
    decreases |code|
  {
    hide Run, Step;
    var c := Begun(base, code);
    RunStep(p, c, os);
    if code == [] {
      ConstantEnd(p, base, os[0]);
      RunDone(p, base, os[1..]);
      assert base.vals + [] == base.vals;
    } else {
      ConstantStep(p, base, code, os[0]);
      if ValueOf(base.globals, code[0]).Some? {
        var v := ValueOf(base.globals, code[0]).value;
        var next := base.(vals := base.vals + [v]);
        assert forall k :: 0 <= k < |code| - 1 ==> code[1..][k] == code[k + 1];
        RunEvaluates(p, next, code[1..], os[1..]);
        if Evaluated(base.globals, code[1..]).Some? {
          var vs := Evaluated(base.globals, code[1..]).value;
          assert base.vals + [v] + vs == base.vals + ([v] + vs);
        }
      }
    }
  }

  lemma RunStep(p: Program, c: Config, os: seq<Oracle>)
    requires p.Valid() && os != [] && c.scopes != []
    ensures Run(p, c, os)
         == match Step(p, c, os[0])
            case Next(d) => Run(p, d, os[1..])
            case r => r
  {
    hide Step;
  }

  lemma RunDone(p: Program, c: Config, os: seq<Oracle>)
    requires p.Valid() && c.scopes == []
    ensures Run(p, c, os) == Next(c)
  {
  }

  /** The globals an expression finds have the types the checker assumes; there may
      be fewer of them. */
  predicate GlobalsAgree(c: Context, g: seq<Value>) {
    |g| <= |c.globals| && forall k :: 0 <= k < |g| ==> c.globals[k].t == Known(g[k].Type())
  }

  lemma OneTyped(c: Context, g: seq<Value>, ts: seq<ValType>, i: Instr)
    requires c.Valid() && GlobalsAgree(c, g) && V.IsConst(i) && ValueOf(g, i).Some?
    ensures CheckOne(c, [[]], Ops(K(ts), false), i) == Some(Ops(K(ts + [ValueOf(g, i).value.Type()]), false))
  {
    hide PopSeq;
    var t := ValueOf(g, i).value.Type();
    assert PlainSig(c, i) == Some(Sig([], [Known(t)]));
    assert PopSeq(Ops(K(ts), false), []) == Some(Ops(K(ts), false)) by {
      PopKnown(ts, []);
      assert ts[..|ts|] == ts;
    }
    assert K([t]) == [Known(t)];
    KConcat(ts, [t]);
  }

  /** The checker computes the types of the values that are left. */
  lemma {:induction false} EvaluatedTyped(c: Context, g: seq<Value>, ts: seq<ValType>, code: seq<Instr>)
    requires c.Valid() && GlobalsAgree(c, g) && Constant(code) && Evaluated(g, code).Some?
    ensures CheckSeq(c, [[]], Ops(K(ts), false), code)
         == Some(Ops(K(ts + Types(Evaluated(g, code).value)), false))
    decreases |code|
  {
    hide CheckOne;
    if code == [] {
      assert ts + Types([]) == ts;
    } else {
      OneTyped(c, g, ts, code[0]);
      var v := ValueOf(g, code[0]).value;
      assert forall k :: 0 <= k < |code| - 1 ==> code[1..][k] == code[k + 1];
      EvaluatedTyped(c, g, ts + [v.Type()], code[1..]);
      var vs := Evaluated(g, code[1..]).value;
      assert ts + [v.Type()] + Types(vs) == ts + Types([v] + vs);
    }
  }

  /** The context in which the validator checks a constant expression of type `t`. */
  function ConstContext(c: Context, t: ValType): Context {
    c.(locals := [], results := [Known(t)])
  }

  /** The checker's end state has the expected type on top, which it does not look at. */
  predicate EndsTyped(c: Context, code: seq<Instr>, t: ValType)
    requires c.Valid()
  {
    var r := CheckSeq(ConstContext(c, t), [[]], NOTHING, code);
    r.Some? && PopSeq(r.value, [Known(t)]).Some?
  }

  /** The run has put values on top of `base`, the last of them of type `t`. */
  ghost predicate Leaves(r: Outcome, base: Config, t: ValType) {
    r.Next? && exists vs: seq<Value> :: vs != [] && r.cfg == base.(vals := base.vals + vs) && Last(vs).Type() == t
  }

  lemma TopTyped(vs: seq<Value>, t: ValType)
    ensures PopSeq(Ops(K(Types(vs)), false), [Known(t)]).Some? <==> vs != [] && Last(vs).Type() == t
  {
    hide PopSeq;
    assert K([t]) == [Known(t)];
    PopsKnown(Types(vs), [t]);
    if vs != [] {
      assert Types(vs)[|vs| - 1..] == [Last(vs).Type()];
    }
  }

  /** Every accepted initialiser, of any shape: running it leaves a value of the
      declared type on top exactly when it reads only globals that are there and
      the checker's end state has that type on top. */
  lemma InitialiserLeavesIff(p: Program, c: Context, code: seq<Instr>, t: ValType, base: Config, os: seq<Oracle>)
    requires p.Valid() && c.Valid() && V.ConstOk(c, code, t) && GlobalsAgree(c, base.globals)
    requires base.scopes == [] && |os| > |code|
    ensures Leaves(Run(p, Begun(base, code), os), base, t)
       <==> Reads(code, |base.globals|) && EndsTyped(c, code, t)
  {
    hide Run, CheckSeq, PopSeq;
    var g := base.globals;
    RunEvaluates(p, base, code, os);
    EvaluatedIff(g, code);
    if Reads(code, |g|) {
      var vs := Evaluated(g, code).value;
      var d := ConstContext(c, t);
      EvaluatedTyped(d, g, [], code);
      assert K([]) == [] && [] + Types(vs) == Types(vs);
      TopTyped(vs, t);
      if Leaves(Run(p, Begun(base, code), os), base, t) {
        var ws: seq<Value> :| ws != [] && base.vals + vs == base.vals + ws && Last(ws).Type() == t;
        assert (base.vals + vs)[|base.vals|..] == vs && (base.vals + ws)[|base.vals|..] == ws;
      }
    }
  }

  /** An empty initialiser is accepted for every type and leaves nothing. */
  lemma AcceptsNoInitialiser(c: Context, t: ValType)
    requires c.Valid()
    ensures V.ConstOk(c, [], t) && !EndsTyped(c, [], t)
  {
    assert K([]) == [] && K([t]) == [Known(t)];
    PopsKnown([], [t]);
  }

  /** The validator lets an initialiser read a global that the module declares
      before it; only the imported ones are there when it runs. */
  lemma AcceptsLaterGlobal(p: Program, c: Context, t: ValType, base: Config, os: seq<Oracle>)
    requires p.Valid() && c.Valid() && base.scopes == [] && |os| > 1
    requires |base.globals| < |c.globals| && |base.globals| < 0x1_0000_0000
    ensures var code := [GlobalGet(|base.globals|)];
            V.ConstOk(c, code, t) && Run(p, Begun(base, code), os) == Stuck
  {
    hide Run;
    var code := [GlobalGet(|base.globals|)];
    RunEvaluates(p, base, code, os);
    assert code[1..] == [];
    var d := ConstContext(c, t);
    assert PopSeq(NOTHING, []) == Some(NOTHING);
    var r := CheckOne(d, [[]], NOTHING, code[0]);
    assert r.Some? && CheckSeq(d, [[]], r.value, []) == r;
    assert CheckSeq(d, [[]], NOTHING, code) == r;
  }

  // ----- the globals of an instance -----

  /** Each global takes the last value that its initialiser leaves. */
  function InitialGlobals(imported: seq<Value>, segs: seq<V.GlobalSegment>): Option<seq<Value>> {
    if segs == [] then Some([])
    else
      var n := |segs| - 1;
      match InitialGlobals(imported, segs[..n])
      case None => None
      case Some(vs) =>
        match Evaluated(imported, segs[n].init)
        case None => None
        case Some(ws) => if ws == [] then None else Some(vs + [Last(ws)])
  }

  /** The condition of `InitialiserLeavesIff` for every global of a module. */
  predicate Initialised(c: Context, imported: nat, segs: seq<V.GlobalSegment>)
    requires c.Valid()
  {
    forall k :: 0 <= k < |segs| ==>
      && Reads(segs[k].init, imported)
      && EndsTyped(c.(globals := c.globals + V.GlobalsOf(segs[..k])), segs[k].init, segs[k].decl.t)
  }

  lemma {:induction false} GlobalsInitialised(c: Context, g: seq<Value>, segs: seq<V.GlobalSegment>)
    requires c.Valid() && GlobalsAgree(c, g) && V.GlobalsOk(c, segs) && Initialised(c, |g|, segs)
    ensures InitialGlobals(g, segs).Some?
    ensures var vs := InitialGlobals(g, segs).value;
            |vs| == |segs| && forall k :: 0 <= k < |segs| ==> vs[k].Type() == segs[k].decl.t
    decreases |segs|
  {
    hide CheckSeq, PopSeq, V.ConstOk, EndsTyped;
    if segs != [] {
      var n := |segs| - 1;
      Shorter(c, g, segs);
      GlobalsInitialised(c, g, segs[..n]);
      OneInitialised(c.(globals := c.globals + V.GlobalsOf(segs[..n])), g, segs[n]);
    }
  }

  lemma Shorter(c: Context, g: seq<Value>, segs: seq<V.GlobalSegment>)
    requires c.Valid() && segs != [] && V.GlobalsOk(c, segs) && Initialised(c, |g|, segs)
    ensures V.GlobalsOk(c, segs[..|segs| - 1]) && Initialised(c, |g|, segs[..|segs| - 1])
  {
    hide V.ConstOk, EndsTyped, Reads;
    assert forall k :: 0 <= k < |segs| - 1 ==> segs[..|segs| - 1][..k] == segs[..k];
  }

  lemma OneInitialised(c: Context, g: seq<Value>, seg: V.GlobalSegment)
    requires c.Valid() && GlobalsAgree(c, g) && V.ConstOk(c, seg.init, seg.decl.t)
    requires Reads(seg.init, |g|) && EndsTyped(c, seg.init, seg.decl.t)
    ensures Evaluated(g, seg.init).Some?
    ensures var ws := Evaluated(g, seg.init).value; ws != [] && Last(ws).Type() == seg.decl.t
  {
    hide CheckSeq, PopSeq;
    EvaluatedIff(g, seg.init);
    var ws := Evaluated(g, seg.init).value;
    EvaluatedTyped(ConstContext(c, seg.decl.t), g, [], seg.init);
    assert K([]) == [] && [] + Types(ws) == Types(ws);
    TopTyped(ws, seg.decl.t);
  }

  /** An accepted module whose initialisers meet the condition is instantiated with
      globals of their declared types, given imports of theirs. */
  lemma InstanceGlobalsTyped(m: V.Module, imported: seq<Value>)
    requires V.Accepted(m) && V.Declared(m).Valid() && Initialised(V.Declared(m), |imported|, m.globals)
    requires |imported| == |V.Declared(m).globals| && GlobalsAgree(V.Declared(m), imported)
    ensures InitialGlobals(imported, m.globals).Some?
    ensures GlobalsTyped(Linking.EnvOf(m), imported + InitialGlobals(imported, m.globals).value)
  {
    assert V.GlobalsOk(V.Declared(m), m.globals);
    EnvGlobals(m);
    hide V.Accepted, V.Declared, Initialised, InitialGlobals, Linking.EnvOf, V.GlobalsOk;
    GlobalsInitialised(V.Declared(m), imported, m.globals);
    AllTyped(V.Declared(m).globals, imported, m.globals, InitialGlobals(imported, m.globals).value);
  }

  lemma EnvGlobals(m: V.Module)
    ensures Linking.EnvOf(m).globals == V.Declared(m).globals + V.GlobalsOf(m.globals)
  {
    hide V.Declared;
  }

  lemma AllTyped(gs: seq<GlobalType>, imported: seq<Value>, segs: seq<V.GlobalSegment>, vs: seq<Value>)
    requires |imported| == |gs| && forall k :: 0 <= k < |gs| ==> gs[k].t == Known(imported[k].Type())
    requires |vs| == |segs| && forall k :: 0 <= k < |segs| ==> vs[k].Type() == segs[k].decl.t
    ensures var g, all := imported + vs, gs + V.GlobalsOf(segs);
            |g| == |all| && forall k :: 0 <= k < |g| ==> all[k].t == Known(g[k].Type())
  {
  }

  /** Nothing is assumed of the globals: an accepted module whose bodies and
      initialisers meet their conditions, given imports of their declared types, is
      instantiated so that every call of its functions is safe. */
  lemma InstanceIsSafe(m: V.Module, cost: U64, table: seq<Option<nat>>, imported: seq<Value>, k: nat,
                       under: seq<Value>, args: seq<Value>, os: seq<Oracle>)
    requires Linking.Ready(m, table) && Linking.GoodBodies(m)
    requires V.Declared(m).Valid() && Initialised(V.Declared(m), |imported|, m.globals)
    requires |imported| == |V.Declared(m).globals| && GlobalsAgree(V.Declared(m), imported)
    requires k < |m.funcs.value| && m.funcs.value[k] < |m.types|
    requires Types(args) == m.types[m.funcs.value[k]].take && os != []
    ensures var p := Linking.Instance(m, cost, table);
            && InitialGlobals(imported, m.globals).Some?
            && p.Valid() && Linking.Imported(m) + k < |p.funcs|
            && TypeSafety.SafeCall(p, under, args, imported + InitialGlobals(imported, m.globals).value,
                                   Linking.Imported(m) + k, os)
  {
    hide TypeSafety.SafeCall, InitialGlobals, Initialised;
    InstanceGlobalsTyped(m, imported);
    Linking.ValidatedCallIsSafe(m, cost, table, k, under, args,
                                imported + InitialGlobals(imported, m.globals).value, os);
  }
}
