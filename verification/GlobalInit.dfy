/** Instantiating the globals of a module: a temporary frame, one run of the
    interpreter per initialiser, one pop per result. */
module GlobalInit {
  import opened Wasm
  import opened Machine
  import opened Gas
  import opened Engine
  import opened Initialisers
  import V = Validator

  /** The metered loop on a defined constant expression ends with its values, unless
      the gas runs out. */
  lemma {:induction false} MeteredConstant(p: Program, base: Config, code: seq<Instr>, m: Meter,
                                           os: nat -> Oracle, from: nat, n: nat)
    requires p.Valid() && m.Valid() && base.scopes == [] && Constant(code)
    requires Evaluated(base.globals, code).Some?
    ensures var r := MeteredRun(p, Begun(base, code), m, os, from, n);
            && !r.Undefined? && !r.Halted?
            && (r.Going? ==> r.m.Valid() && r.m.limit == m.limit && r.m.table == m.table)
            && (r.Going? && r.cfg.scopes == [] ==>
                  r.cfg == base.(vals := base.vals + Evaluated(base.globals, code).value))
    decreases n
  {
    hide MeteredStep, Step;
    var c := Begun(base, code);
    if n > 0 {
      MeteringOnlyStops(p, c, m, os(from));
      if code == [] {
        ConstantEnd(p, base, os(from));
        assert base.vals + [] == base.vals;
      } else {
        ConstantStep(p, base, code, os(from));
        var v := ValueOf(base.globals, code[0]).value;
        var next := base.(vals := base.vals + [v]);
        var vs := Evaluated(base.globals, code[1..]).value;
        assert forall k :: 0 <= k < |code| - 1 ==> code[1..][k] == code[k + 1];
        assert base.vals + [v] + vs == base.vals + ([v] + vs);
        match MeteredStep(p, c, m, os(from))
        case Going(_, m1) => MeteredConstant(p, next, code[1..], m1, os, from + 1, n - 1);
        case _ =>
      }
    }
  }

  /** Each initialiser is defined and leaves something. */
  predicate Defined(g: seq<Value>, segs: seq<V.GlobalSegment>) {
    forall k :: 0 <= k < |segs| ==>
      Constant(segs[k].init) && Evaluated(g, segs[k].init).Some? && Evaluated(g, segs[k].init).value != []
  }

  /** One initialiser: what it leaves goes on the stack, and the last value comes off. */
  method RunInitialiser(it: Interpreter, p: Program, code: seq<Instr>, os: nat -> Oracle) returns (v: Option<Value>)
    requires p.Valid() && Priced(p, it.meter) && it.provider.iters == []
    requires Constant(code) && Evaluated(it.globals, code).Some? && Evaluated(it.globals, code).value != []
    modifies it, it.stack, it.provider
    ensures v.Some? ==>
      && Priced(p, it.meter) && it.globals == old(it.globals) && it.provider.iters == []
      && it.stack.labelStack == old(it.stack.labelStack) && it.stack.frameStack == old(it.stack.frameStack)
      && it.stack.valueStack + [v.value] == old(it.stack.valueStack) + Evaluated(old(it.globals), code).value
  {
    hide MeteredRun, Evaluated;
    ghost var base, m := it.Cfg(), it.meter;
    it.provider.PushInstrs(Expression, code);
    assert it.Cfg() == Begun(base, code);
    forall k: nat ensures !MeteredRun(p, it.Cfg(), it.meter, os, 0, k).Undefined? {
      MeteredConstant(p, base, code, m, os, 0, k);
    }
    var status, n := it.Execute(p, os);
    MeteredConstant(p, base, code, m, os, 0, n);
    if status != Finished {
      return None;
    }
    var top := it.stack.Pop();
    v := Some(top);
  }

  /** The values of the globals are the last values that their initialisers leave;
      operands that they leave besides go with the frame. */
  method InstantiateGlobals(it: Interpreter, p: Program, segs: seq<V.GlobalSegment>, os: nat -> Oracle)
    returns (values: Option<seq<Value>>)
    requires p.Valid() && Priced(p, it.meter) && it.provider.iters == [] && Defined(it.globals, segs)
    modifies it, it.stack, it.provider
    ensures values.Some? ==>
      && values == InitialGlobals(old(it.globals), segs)
      && it.globals == old(it.globals) && it.Cfg() == old(it.Cfg()) && Priced(p, it.meter)
  {
    hide Evaluated, Priced;
    ghost var g, below := it.globals, it.stack.valueStack;
    it.stack.PushFrame(0, 0);
    ghost var frames := it.stack.frameStack;
    var done: seq<Value> := [];
    for k := 0 to |segs|
      invariant Priced(p, it.meter) && it.globals == g && it.provider.iters == []
      invariant it.stack.frameStack == frames && it.stack.labelStack == old(it.stack.labelStack)
      invariant below <= it.stack.valueStack
      invariant InitialGlobals(g, segs[..k]) == Some(done)
    {
      assert segs[..k + 1][..k] == segs[..k];
      ghost var before, ws := it.stack.valueStack, Evaluated(g, segs[k].init).value;
      var v := RunInitialiser(it, p, segs[k].init, os);
      if v.None? {
        return None;
      }
      LastOnTop(before, ws, it.stack.valueStack, v.value);
      done := done + [v.value];
    }
    assert segs[..|segs|] == segs;
    var _ := it.stack.PopFrame([], g);
    values := Some(done);
  }

  lemma LastOnTop(before: seq<Value>, ws: seq<Value>, after: seq<Value>, v: Value)
    requires ws != [] && after + [v] == before + ws
    ensures v == Last(ws) && before <= after
  {
    assert (before + ws)[|before + ws| - 1] == Last(ws);
    assert after == (before + ws)[..|before + ws| - 1];
  }
}
