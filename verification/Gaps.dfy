/** Where the checker's verdict and the engine's needs differ. For each side
    condition a function that the checker accepts, that breaks only this
    condition, and whose execution leaves the stacks' domain; and for the
    operations behind them exactly when they keep their promise. */
module Gaps {
  import opened Wasm
  import opened Typing
  import opened SideConditions
  import opened Machine
  import opened Layers
  import opened Soundness
  import V = Validator

  const ENV := Env([], 0, [])
  const QUIET := Oracle(false, 0)

  /** A module with one function without parameters and locals. */
  function Single(results: seq<ValType>, body: seq<Instr>): (p: Program)
    ensures p.Valid()
  {
    Program([Sig([], results)], [Native(0, [], body)], [])
  }

  function Started(results: seq<ValType>, body: seq<Instr>): Config {
    Config([], [Label(0, |results|, None)], [Frame(0, 0, |results|)],
           [Scope(FunctionCall, []), Scope(BlockScope, body)], [])
  }

  lemma StartedIsEntry(results: seq<ValType>, body: seq<Instr>)
    ensures EnterFunction(Single(results, body), Config([], [], [], [], []), 0, QUIET) == Next(Started(results, body))
  {
    assert MakeValues([], 0) == [];
  }

  /** Popping the condition of an `if` is possible exactly when the check whose
      outcome the checker discards succeeds. */
  lemma ConditionNeeded(l: Layer, g: seq<Value>)
    ensures PopI32(Own(l, g)).Some? <==> PopExpect(Ops(K(Types(l.ops)), false), Known(I32)).ok
  {
  }

  /** Leaving a loop erases everything above its label: the promised results are
      there exactly when the loop promises none. */
  lemma LoopKeepsPromise(c: Config, bt: BlockType, body: seq<Instr>, h: nat)
    requires c.labels != [] && Last(c.labels) == Label(h, 0, Some(Loop(bt, body))) && h <= |c.vals|
    ensures LeaveBlock(c).Next? && LeaveBlock(c).cfg.vals == c.vals[..h]
    ensures |LeaveBlock(c).cfg.vals| == h + |bt.Types()| <==> bt.Empty?
  {
    assert c.vals[|c.vals|..] == [];
  }

  /** Without an else arm a false condition leaves the promised results exactly
      when the `if` promises none. */
  lemma MissingElseKeepsPromise(c: Config, bt: BlockType, thn: seq<Instr>)
    requires c.vals != [] && Last(c.vals) == I32Val(0)
    ensures var r := StepIf(c, If(bt, thn, []));
            && r == Next(c.(vals := Front(c.vals)))
            && (|r.cfg.vals| == |c.vals| - 1 + |bt.Types()| <==> bt.Empty?)
  {
  }

  /** if end: accepted although no condition is on the stack. */
  lemma AcceptsMissingCondition()
    ensures var body := [If(Empty, [], [])];
            var p := Single([], body);
            && CheckBody(Ctx(p, ENV, 0), body)
            && Run(p, Started([], body), [QUIET]) == Stuck
  {
    var body := [If(Empty, [], [])];
    var c := Ctx(Single([], body), ENV, 0);
    assert K([]) == [];
    assert CheckOne(c, [[]], NOTHING, body[0]) == Some(NOTHING) by {
      assert CheckBlock(c, [[], []], [], Empty);
    }
    assert body[1..] == [];
  }

  /** i32.const 0, if (result i32) i32.const 1 end, drop. */
  lemma AcceptsMissingElse()
    ensures var body := [Const(I32Val(0)), If(Result(I32), [Const(I32Val(1))], []), Drop];
            var p := Single([], body);
            && CheckBody(Ctx(p, ENV, 0), body)
            && Run(p, Started([], body), [QUIET, QUIET, QUIET]) == Stuck
  {
    hide Run, CheckSeq, Ctx;
    var i := If(Result(I32), [Const(I32Val(1))], []);
    var body := [Const(I32Val(0)), i, Drop];
    MissingElseChecks(Ctx(Single([], body), ENV, 0), i);
    MissingElseRuns(Single([], body), i);
  }

  lemma MissingElseChecks(c: Context, i: Instr)
    requires c.Valid() && i == If(Result(I32), [Const(I32Val(1))], [])
    ensures CheckSeq(c, [[]], NOTHING, [Const(I32Val(0)), i, Drop]).Some?
  {
    hide CheckSeq, PopSeq;
    var one := Ops([Known(I32)], false);
    OneConst(c, [[Known(I32)], []], I32Val(1));
    assert Result(I32).Types() == [I32] && K([I32]) == [Known(I32)];
    assert PopExpect(one, Known(I32)).rest == NOTHING;
    assert [[Known(I32)]] + [[]] == [[Known(I32)], []];
    assert CheckOne(c, [[]], one, i) == Some(Push(NOTHING, [Known(I32)]));
    assert Push(NOTHING, [Known(I32)]) == one;
    ConstChecks(c, [[]], NOTHING, I32Val(0));
    DropChecks(c, [[]]);
    SeqCons(c, [[]], one, Drop, []);
    SeqCons(c, [[]], one, i, [Drop]);
    SeqCons(c, [[]], NOTHING, Const(I32Val(0)), [i, Drop]);
    SeqNil(c, [[]], NOTHING);
    assert [i] + [Drop] == [i, Drop] && [Const(I32Val(0))] + [i, Drop] == [Const(I32Val(0)), i, Drop];
    assert [Drop] + [] == [Drop];
  }

  lemma MissingElseRuns(p: Program, i: Instr)
    requires p.Valid() && i == If(Result(I32), [Const(I32Val(1))], [])
    ensures Run(p, Started([], [Const(I32Val(0)), i, Drop]), [QUIET, QUIET, QUIET]) == Stuck
  {
    hide Run, Step, Exec, StepIf;
    var s0 := Started([], [Const(I32Val(0)), i, Drop]);
    var s1 := InBlock(s0, [i, Drop]).(vals := [I32Val(0)]);
    var s2 := InBlock(s0, [Drop]);
    FetchStep(p, s0, Const(I32Val(0)), [i, Drop]);
    ExecSteps(p, InBlock(s0, [i, Drop]), I32Val(0), i);
    FetchStep(p, s1, i, [Drop]);
    ExecSteps(p, InBlock(s1, [Drop]), I32Val(0), i);
    MissingElseKeepsPromise(InBlock(s1, [Drop]), Result(I32), i.thn);
    assert InBlock(s1, [Drop]).(vals := Front(s1.vals)) == s2;
    FetchStep(p, s2, Drop, []);
    ExecSteps(p, InBlock(s2, []), I32Val(0), i);
    ThreeSteps(p, s0, s1, s2);
  }

  /** The configuration with other code left in its top scope. */
  function InBlock(c: Config, rest: seq<Instr>): Config
    requires c.scopes != []
  {
    c.(scopes := Front(c.scopes) + [Last(c.scopes).(rest := rest)])
  }

  lemma ExecSteps(p: Program, c: Config, v: Value, i: Instr)
    requires p.Valid()
    ensures Exec(p, c, Const(v), QUIET) == Next(c.(vals := c.vals + [v]))
    ensures i.If? ==> Exec(p, c, i, QUIET) == StepIf(c, i)
    ensures i.Loop? ==> Exec(p, c, i, QUIET) == Next(EnterLoop(c, i))
    ensures c.vals == [] ==> Exec(p, c, Drop, QUIET) == Stuck
  {
  }

  /** loop (result i32) i32.const 1 end, drop. */
  lemma AcceptsLoopResult()
    ensures var body := [Loop(Result(I32), [Const(I32Val(1))]), Drop];
            var p := Single([], body);
            && CheckBody(Ctx(p, ENV, 0), body)
            && Run(p, Started([], body), [QUIET, QUIET, QUIET, QUIET]) == Stuck
  {
    hide Run, CheckSeq, Ctx;
    var i := Loop(Result(I32), [Const(I32Val(1))]);
    LoopResultChecks(Ctx(Single([], [i, Drop]), ENV, 0), i);
    LoopResultRuns(Single([], [i, Drop]), i);
  }

  lemma LoopResultChecks(c: Context, i: Instr)
    requires c.Valid() && i == Loop(Result(I32), [Const(I32Val(1))])
    ensures CheckSeq(c, [[]], NOTHING, [i, Drop]).Some?
  {
    hide CheckSeq, PopSeq;
    var one := Ops([Known(I32)], false);
    OneConst(c, [[], []], I32Val(1));
    assert Result(I32).Types() == [I32] && K([I32]) == [Known(I32)];
    var none: seq<VType> := [];
    assert [none] + [none] == [none, none];
    assert CheckOne(c, [[]], NOTHING, i) == Some(Push(NOTHING, [Known(I32)]));
    assert Push(NOTHING, [Known(I32)]) == one;
    DropChecks(c, [[]]);
    SeqCons(c, [[]], one, Drop, []);
    SeqCons(c, [[]], NOTHING, i, [Drop]);
    SeqNil(c, [[]], NOTHING);
    assert [i] + [Drop] == [i, Drop] && [Drop] + [] == [Drop];
  }

  lemma LoopResultRuns(p: Program, i: Instr)
    requires p.Valid() && i == Loop(Result(I32), [Const(I32Val(1))])
    ensures Run(p, Started([], [i, Drop]), [QUIET, QUIET, QUIET, QUIET]) == Stuck
  {
    hide Run, Step, Exec;
    var s0 := Started([], [i, Drop]);
    var s1 := EnterLoop(InBlock(s0, [Drop]), i);
    var s2 := InBlock(s1, []).(vals := [I32Val(1)]);
    var s3 := InBlock(s0, [Drop]);
    FetchStep(p, s0, i, [Drop]);
    ExecSteps(p, InBlock(s0, [Drop]), I32Val(1), i);
    FetchStep(p, s1, Const(I32Val(1)), []);
    ExecSteps(p, InBlock(s1, []), I32Val(1), i);
    LoopLeaves(p, s2, s3, i);
    FetchStep(p, s3, Drop, []);
    ExecSteps(p, InBlock(s3, []), I32Val(1), i);
    ThreeSteps(p, s1, s2, s3);
    RunCons(p, s0, s1, [QUIET, QUIET, QUIET]);
    assert [QUIET] + [QUIET, QUIET, QUIET] == [QUIET, QUIET, QUIET, QUIET];
  }

  lemma LoopLeaves(p: Program, c: Config, d: Config, i: Instr)
    requires p.Valid() && i.Loop? && d.vals == [] && d.frames == c.frames && d.globals == c.globals
    requires c.labels == d.labels + [Label(0, 0, Some(i))] && c.scopes == d.scopes + [Scope(BlockScope, [])]
    ensures Step(p, c, QUIET) == Next(d)
  {
    LoopKeepsPromise(c, i.bt, i.body, 0);
    assert c.labels[..|c.labels| - 1] == d.labels && DropScopes(c.scopes, 1) == d.scopes;
  }

  /** An empty body is accepted for a function with a result. */
  lemma AcceptsMissingResult()
    ensures var p := Single([I32], []);
            && CheckBody(Ctx(p, ENV, 0), [])
            && Run(p, Started([I32], []), [QUIET]) == Stuck
  {
    hide Ctx;
    var p, c := Single([I32], []), Started([I32], []);
    SeqNil(Ctx(p, ENV, 0), [[]], NOTHING);
    assert PopLabels(c, 1) == Stuck;
    assert Step(p, c, QUIET) == Stuck;
  }

  /** br 0 in a function with a result: no operand is asked for. */
  lemma AcceptsBareBranch()
    ensures var body := [Br(0)];
            var p := Single([I32], body);
            && CheckBody(Ctx(p, ENV, 0), body)
            && EndsWith(CheckSeq(Ctx(p, ENV, 0), [[]], NOTHING, body).value, [Known(I32)])
            && Run(p, Started([I32], body), [QUIET]) == Stuck
  {
    var body := [Br(0)];
    var c := Ctx(Single([I32], body), ENV, 0);
    assert CheckOne(c, [[]], NOTHING, body[0]) == Some(STOPPED);
    assert body[1..] == [];
    assert CheckSeq(c, [[]], NOTHING, body) == Some(STOPPED);
    assert [Known(I32)][..0] == [];
  }

  /** The empty label of the outermost frame also rejects valid code: a br_table
      over a block with the function's result type and the function label. */
  lemma RejectsFunctionLabel()
    ensures var i := Block(Result(I32), [Const(I32Val(7)), Const(I32Val(0)), BrTable([0], 1)]);
            var c := Ctx(Single([I32], [i]), ENV, 0);
            && !CheckBody(c, [i])
            && CheckSeq(c, [c.results], NOTHING, [i]).Some?
  {
    hide CheckSeq, Ctx;
    var t := BrTable([0], 1);
    var code := [Const(I32Val(7)), Const(I32Val(0)), t];
    var i := Block(Result(I32), code);
    var c := Ctx(Single([I32], [i]), ENV, 0);
    var r := [Known(I32)];
    SingleResults([I32], [i]);
    assert Result(I32).Types() == [I32] && K([I32]) == r;
    TableAfterConsts(c, []);
    TableAfterConsts(c, r);
    assert CheckOne(c, [[]], NOTHING, i).None? by {
      assert [r] + [[]] == [r, []];
    }
    assert CheckOne(c, [r], NOTHING, i).Some? by {
      assert [r] + [r] == [r, r];
      StoppedEnds(r);
    }
    SeqCons(c, [[]], NOTHING, i, []);
    SeqCons(c, [r], NOTHING, i, []);
    SeqNil(c, [r], Push(NOTHING, r));
    assert [i] + [] == [i];
  }

  lemma KnownOne(t: ValType)
    ensures K([t]) == [Known(t)]
  {
  }

  /** One constant is accepted where a value of any type is expected, and leaves one
      of the expected type exactly when it has that type. */
  lemma AcceptsWrongConstant(c: Context, v: Value, t: ValType)
    requires c.Valid()
    ensures V.ConstOk(c, [Const(v)], t)
    ensures var r := CheckSeq(c.(locals := [], results := [Known(t)]), [[]], NOTHING, [Const(v)]);
            r.Some? && (EndsWith(r.value, [Known(t)]) <==> v.Type() == t)
  {
    hide CheckSeq, CheckOne, EndsWith, PopSeq, K;
    var d := c.(locals := [], results := [Known(t)]);
    var o := Push(NOTHING, [Known(v.Type())]);
    ConstChecks(d, [[]], NOTHING, v);
    SeqCons(d, [[]], NOTHING, Const(v), []);
    SeqNil(d, [[]], o);
    assert [Const(v)] + [] == [Const(v)];
    KnownOne(v.Type());
    KnownOne(t);
    assert o == Ops(K([v.Type()]), false);
    EndsKnown([v.Type()], [t]);
    assert [v.Type()] == [t] <==> v.Type() == t;
  }

  /** A function that meets all conditions, so that the safety theorems speak of
      something: it returns a constant. */
  lemma GoodExample()
    ensures Good(Single([I32], [Const(I32Val(7))]), ENV)
  {
    hide CheckSeq, PopSeq;
    var body := [Const(I32Val(7))];
    var p := Single([I32], body);
    var c := Ctx(p, ENV, 0);
    SingleResults([I32], body);
    OneConst(c, [[]], I32Val(7));
    assert Result(I32).Types() == [I32];
    assert CleanOne(c, [[]], NOTHING, body[0]);
    assert CleanSeq(c, [[]], NOTHING, body) by {
      assert body[1..] == [];
    }
    assert GoodBody(c, body);
  }

  lemma SingleResults(results: seq<ValType>, body: seq<Instr>)
    ensures Ctx(Single(results, body), ENV, 0).results == K(results)
  {
  }

  lemma StoppedEnds(ts: seq<VType>)
    ensures EndsWith(STOPPED, ts)
    decreases |ts|
  {
    if ts != [] {
      StoppedEnds(ts[..|ts| - 1]);
    }
  }

  /** The branch table passes exactly when both labels carry the same types. */
  lemma TableAfterConsts(c: Context, outer: seq<VType>)
    requires c.Valid()
    ensures CheckSeq(c, [[Known(I32)], outer], NOTHING, [Const(I32Val(7)), Const(I32Val(0)), BrTable([0], 1)])
            == if outer == [Known(I32)] then Some(STOPPED) else None
  {
    hide CheckSeq, PopSeq;
    var t := BrTable([0], 1);
    var r := [Known(I32)];
    var ls := [r, outer];
    var two := Ops([Known(I32), Known(I32)], false);
    ConstChecks(c, ls, NOTHING, I32Val(7));
    ConstChecks(c, ls, Push(NOTHING, r), I32Val(0));
    assert Push(Push(NOTHING, r), r) == two;
    assert TableFits(ls, t.table, 1) <==> outer == r by {
      assert t.table[0] == 0 && ls[0] == r && ls[1] == outer;
    }
    assert PopExpect(two, Known(I32)).rest == Ops(r, false);
    assert K([I32]) == r;
    PopsKnown([I32], [I32]);
    assert [I32][0..] == [I32];
    assert CheckOne(c, ls, two, t) == if outer == r then Some(STOPPED) else None;
    SeqCons(c, ls, NOTHING, Const(I32Val(7)), [Const(I32Val(0)), t]);
    SeqCons(c, ls, Push(NOTHING, r), Const(I32Val(0)), [t]);
    SeqCons(c, ls, two, t, []);
    SeqNil(c, ls, STOPPED);
    assert [Const(I32Val(7))] + [Const(I32Val(0)), t] == [Const(I32Val(7)), Const(I32Val(0)), t];
    assert [Const(I32Val(0))] + [t] == [Const(I32Val(0)), t] && [t] + [] == [t];
  }

  // ----- evaluation steps -----

  lemma SeqNil(c: Context, labels: seq<seq<VType>>, o: Ops)
    requires c.Valid()
    ensures CheckSeq(c, labels, o, []) == Some(o)
  {
  }

  lemma SeqCons(c: Context, labels: seq<seq<VType>>, o: Ops, i: Instr, rest: seq<Instr>)
    requires c.Valid()
    ensures CheckSeq(c, labels, o, [i] + rest)
            == match CheckOne(c, labels, o, i)
               case None => None
               case Some(o1) => CheckSeq(c, labels, o1, rest)
  {
    hide CheckOne;
    assert ([i] + rest)[1..] == rest;
  }

  lemma ConstChecks(c: Context, labels: seq<seq<VType>>, o: Ops, v: Value)
    requires c.Valid()
    ensures CheckOne(c, labels, o, Const(v)) == Some(Push(o, [Known(v.Type())]))
  {
  }

  lemma OneConst(c: Context, labels: seq<seq<VType>>, v: Value)
    requires c.Valid()
    ensures CheckBlock(c, labels, [Const(v)], Result(v.Type()))
  {
    hide CheckSeq, PopSeq, CheckOne;
    ConstChecks(c, labels, NOTHING, v);
    SeqCons(c, labels, NOTHING, Const(v), []);
    SeqNil(c, labels, Push(NOTHING, [Known(v.Type())]));
    assert [Const(v)] + [] == [Const(v)];
    assert Result(v.Type()).Types() == [v.Type()] && K([v.Type()]) == [Known(v.Type())];
    assert Push(NOTHING, [Known(v.Type())]) == Ops(K([v.Type()]), false);
    EndsKnown([v.Type()], [v.Type()]);
  }

  lemma DropChecks(c: Context, labels: seq<seq<VType>>)
    requires c.Valid()
    ensures CheckOne(c, labels, Ops([Known(I32)], false), Drop) == Some(NOTHING)
  {
    hide PopSeq;
    assert K([I32]) == [Known(I32)] && K([]) == [];
    PopKnown([I32], [Unknown]);
    assert [I32][..0] == [];
    assert Push(NOTHING, []) == NOTHING;
  }

  lemma FetchStep(p: Program, c: Config, i: Instr, rest: seq<Instr>)
    requires p.Valid() && c.scopes != [] && Last(c.scopes).rest == [i] + rest
    ensures Step(p, c, QUIET) == Exec(p, c.(scopes := Front(c.scopes) + [Last(c.scopes).(rest := rest)]), i, QUIET)
  {
    hide Exec;
    assert ([i] + rest)[1..] == rest;
  }

  lemma RunCons(p: Program, s0: Config, s1: Config, os: seq<Oracle>)
    requires p.Valid() && s0.scopes != [] && Step(p, s0, QUIET) == Next(s1)
    ensures Run(p, s0, [QUIET] + os) == Run(p, s1, os)
  {
    hide Step;
    assert ([QUIET] + os)[1..] == os;
  }

  lemma ThreeSteps(p: Program, s0: Config, s1: Config, s2: Config)
    requires p.Valid() && s0.scopes != [] && s1.scopes != [] && s2.scopes != []
    requires Step(p, s0, QUIET) == Next(s1) && Step(p, s1, QUIET) == Next(s2) && Step(p, s2, QUIET) == Stuck
    ensures Run(p, s0, [QUIET, QUIET, QUIET]) == Stuck
  {
    hide Step;
    assert Run(p, s2, [QUIET]) == Stuck;
    RunCons(p, s1, s2, [QUIET]);
    RunCons(p, s0, s1, [QUIET, QUIET]);
    assert [QUIET] + [QUIET] == [QUIET, QUIET] && [QUIET] + [QUIET, QUIET] == [QUIET, QUIET, QUIET];
  }
}
