/** Functions that the side conditions admit although the checker's own bookkeeping
    does not account for them, and a function that the older engine cannot run. */
module Examples {
  import opened Wasm
  import opened Typing
  import opened SideConditions
  import opened Machine
  import opened Soundness
  import opened Gaps
  import opened LabelOrder
  import opened Worker
  import Standard

  lemma CleanCons(c: Context, labels: seq<seq<VType>>, o: Ops, i: Instr, rest: seq<Instr>)
    requires c.Valid() && CleanOne(c, labels, o, i)
    requires CheckOne(c, labels, o, i).Some? ==> CleanSeq(c, labels, CheckOne(c, labels, o, i).value, rest)
    ensures CleanSeq(c, labels, o, [i] + rest)
  {
    hide CheckOne, CleanOne;
    assert ([i] + rest)[1..] == rest;
  }

  lemma ConstThen(c: Context, labels: seq<seq<VType>>, ts: seq<ValType>, v: Value, i: Instr)
    requires c.Valid()
    ensures var o := Ops(K(ts + [v.Type()]), false);
            && CheckSeq(c, labels, Ops(K(ts), false), [Const(v), i]) == CheckOne(c, labels, o, i)
            && (CleanOne(c, labels, o, i) ==> CleanSeq(c, labels, Ops(K(ts), false), [Const(v), i]))
  {
    hide CheckSeq, CheckOne, CleanOne, CleanSeq;
    var s, o := Ops(K(ts), false), Ops(K(ts + [v.Type()]), false);
    ConstChecks(c, labels, s, v);
    assert K([v.Type()]) == [Known(v.Type())];
    KConcat(ts, [v.Type()]);
    SeqCons(c, labels, s, Const(v), [i]);
    SeqCons(c, labels, o, i, []);
    if CheckOne(c, labels, o, i).Some? {
      SeqNil(c, labels, CheckOne(c, labels, o, i).value);
      CleanNil(c, labels, CheckOne(c, labels, o, i).value);
    }
    assert [Const(v)] + [i] == [Const(v), i] && [i] + [] == [i];
    if CleanOne(c, labels, o, i) {
      CleanCons(c, labels, o, i, []);
      ConstClean(c, labels, s, v);
      CleanCons(c, labels, s, Const(v), [i]);
    }
  }

  lemma CleanNil(c: Context, labels: seq<seq<VType>>, o: Ops)
    requires c.Valid()
    ensures CleanSeq(c, labels, o, [])
  {
  }

  lemma ConstClean(c: Context, labels: seq<seq<VType>>, o: Ops, v: Value)
    requires c.Valid()
    ensures CleanOne(c, labels, o, Const(v))
  {
  }

  /** A block or loop whose body ends in `e`. */
  lemma BlockChecks(c: Context, ls: seq<seq<VType>>, i: Instr, mark: seq<VType>, e: Ops)
    requires c.Valid() && (i.Block? || i.Loop?) && mark == if i.Block? then K(i.bt.Types()) else []
    requires CheckSeq(c, [mark] + ls, NOTHING, i.body) == Some(e) && EndsWith(e, K(i.bt.Types()))
    requires CleanSeq(c, [mark] + ls, NOTHING, i.body) && (i.Loop? ==> e.poly)
    ensures CheckOne(c, ls, NOTHING, i) == Some(Ops(K(i.bt.Types()), false)) && CleanOne(c, ls, NOTHING, i)
  {
    hide CheckSeq, CleanSeq, EndsWith, K;
    assert Push(NOTHING, K(i.bt.Types())) == Ops(K(i.bt.Types()), false);
  }

  /** A body of one instruction that leaves an i32. */
  lemma OneGood(c: Context, i: Instr)
    requires c.Valid() && c.results == [Known(I32)] && CleanOne(c, [[]], NOTHING, i)
    requires CheckOne(c, [[]], NOTHING, i) == Some(Ops([Known(I32)], false))
    ensures GoodBody(c, [i])
  {
    hide CheckSeq, CleanSeq, PopSeq, CheckOne, CleanOne;
    var o := Ops([Known(I32)], false);
    SeqCons(c, [[]], NOTHING, i, []);
    SeqNil(c, [[]], o);
    CleanNil(c, [[]], o);
    CleanCons(c, [[]], NOTHING, i, []);
    assert [i] + [] == [i];
    assert K([] + [I32]) == [Known(I32)];
    TopI32([]);
  }

  lemma TopI32(ts: seq<ValType>)
    ensures PopSeq(Ops(K(ts + [I32]), false), [Known(I32)]).Some?
  {
    hide PopSeq;
    assert K([I32]) == [Known(I32)] && (ts + [I32])[|ts|..] == [I32];
    PopsKnown(ts + [I32], [I32]);
  }

  /** i32.const 7, br to the function label, in a function with a result. */
  lemma FunctionBranchGood()
    ensures var body := [Const(I32Val(7)), Br(0)];
            GoodBody(Ctx(Single([I32], body), ENV, 0), body)
  {
    hide CheckSeq, CleanSeq, PopSeq, Ctx;
    var body := [Const(I32Val(7)), Br(0)];
    var c := Ctx(Single([I32], body), ENV, 0);
    SingleResults([I32], body);
    assert K([I32]) == [Known(I32)] && K([]) == [] && [] + [I32] == [I32];
    ConstThen(c, [[]], [], I32Val(7), Br(0));
    TopI32([]);
    Standard.NoTypes(Ops(K([I32]), false));
  }

  /** An operand more than the result: it is dropped. */
  lemma ExtraOperandGood()
    ensures var body := [Const(I32Val(1)), Const(I32Val(2))];
            GoodBody(Ctx(Single([I32], body), ENV, 0), body)
  {
    hide CheckSeq, CleanSeq, PopSeq, Ctx;
    var body := [Const(I32Val(1)), Const(I32Val(2))];
    var c := Ctx(Single([I32], body), ENV, 0);
    SingleResults([I32], body);
    assert K([I32]) == [Known(I32)] && K([]) == [] && [] + [I32] == [I32];
    ConstThen(c, [[]], [], I32Val(1), Const(I32Val(2)));
    ConstClean(c, [[]], Ops(K([I32]), false), I32Val(2));
    ConstChecks(c, [[]], Ops(K([I32]), false), I32Val(2));
    KConcat([I32], [I32]);
    TopI32([I32]);
  }

  /** loop (result i32) i32.const 7, br 1 end: the end of the loop is not reached. */
  lemma EndlessLoopGood()
    ensures var body := [Loop(Result(I32), [Const(I32Val(7)), Br(1)])];
            GoodBody(Ctx(Single([I32], body), ENV, 0), body)
  {
    hide CheckSeq, CleanSeq, PopSeq, Ctx;
    var inner := [Const(I32Val(7)), Br(1)];
    var i := Loop(Result(I32), inner);
    var c := Ctx(Single([I32], [i]), ENV, 0);
    SingleResults([I32], [i]);
    var ls: seq<seq<VType>> := [[]];
    assert K([I32]) == [Known(I32)] && K([]) == [] && [] + [I32] == [I32] && Result(I32).Types() == [I32];
    assert [[]] + ls == [[], []];
    ConstThen(c, [[], []], [], I32Val(7), Br(1));
    TopI32([]);
    Standard.NoTypes(Ops(K([I32]), false));
    StoppedEnds([Known(I32)]);
    assert CheckOne(c, [[], []], Ops(K([I32]), false), Br(1)) == Some(STOPPED);
    BlockChecks(c, ls, i, [], STOPPED);
    OneGood(c, i);
  }

  // ----- the worker -----

  const LOSER: Instr := Block(Empty, [Const(I32Val(5)), Br(1)])
  const LOST: Instr := Block(Result(I32), [LOSER, Const(I32Val(6))])

  /** block (result i32) block i32.const 5, br 1 end i32.const 6 end. */
  lemma LostIsGood()
    ensures GoodBody(Ctx(Single([I32], [LOST]), ENV, 0), [LOST])
  {
    hide CheckSeq, CleanSeq, PopSeq, Ctx;
    var c := Ctx(Single([I32], [LOST]), ENV, 0);
    SingleResults([I32], [LOST]);
    var r, ls: seq<seq<VType>> := [Known(I32)], [[]];
    assert K([I32]) == r && K([]) == [] && [] + [I32] == [I32];
    assert Result(I32).Types() == [I32] && Empty.Types() == [];
    var mid, low := [r, []], [[], r, []];
    assert [r] + ls == mid && [[]] + mid == low;
    ConstThen(c, low, [], I32Val(5), Br(1));
    TopI32([]);
    StoppedEnds([]);
    assert CheckOne(c, low, Ops(K([I32]), false), Br(1)) == Some(STOPPED);
    BlockChecks(c, mid, LOSER, [], STOPPED);
    MiddleChecks(c, mid);
    BlockChecks(c, ls, LOST, r, Ops(r, false));
    OneGood(c, LOST);
  }

  lemma MiddleChecks(c: Context, mid: seq<seq<VType>>)
    requires c.Valid() && CheckOne(c, mid, NOTHING, LOSER) == Some(Ops(K([]), false))
          && CleanOne(c, mid, NOTHING, LOSER)
    ensures var code, o := [LOSER, Const(I32Val(6))], Ops([Known(I32)], false);
            CheckSeq(c, mid, NOTHING, code) == Some(o) && CleanSeq(c, mid, NOTHING, code) && EndsWith(o, K([I32]))
  {
    hide CheckSeq, CleanSeq, CheckOne, CleanOne, PopSeq;
    var six, o := Const(I32Val(6)), Ops([Known(I32)], false);
    assert [LOSER] + [six] == [LOSER, six] && [six] + [] == [six];
    assert K([]) == [] && K([I32]) == [Known(I32)] && Push(NOTHING, [Known(I32)]) == o;
    ConstChecks(c, mid, NOTHING, I32Val(6));
    ConstClean(c, mid, NOTHING, I32Val(6));
    SeqCons(c, mid, NOTHING, LOSER, [six]);
    SeqCons(c, mid, NOTHING, six, []);
    SeqNil(c, mid, o);
    CleanNil(c, mid, o);
    CleanCons(c, mid, NOTHING, six, []);
    CleanCons(c, mid, NOTHING, LOSER, [six]);
    EndsKnown([I32], [I32]);
  }

  lemma WorkerFetch(p: Program, c: Config, i: Instr, rest: seq<Instr>)
    requires p.Valid() && c.scopes != [] && Last(c.scopes).rest == [i] + rest
    ensures WorkerStep(p, c, QUIET)
         == WorkerExec(p, c.(scopes := Front(c.scopes) + [Last(c.scopes).(rest := rest)]), i, QUIET)
  {
    hide WorkerExec;
    assert ([i] + rest)[1..] == rest;
  }

  lemma WorkerRunCons(p: Program, s0: Config, s1: Config, os: seq<Oracle>)
    requires p.Valid() && s0.scopes != [] && WorkerStep(p, s0, QUIET) == Next(s1)
    ensures WorkerRun(p, s0, [QUIET] + os) == WorkerRun(p, s1, os)
  {
    hide WorkerStep;
    assert ([QUIET] + os)[1..] == os;
  }

  /** A function that meets every side condition: the worker erases the operand of its
      branch with the inner label and then misses it. */
  lemma WorkerLosesOperand()
    ensures var p := Single([I32], [LOST]);
            && Good(p, ENV)
            && WorkerRun(p, Started([I32], [LOST]), [QUIET, QUIET, QUIET, QUIET]) == Stuck
  {
    hide WorkerRun, WorkerStep, GoodBody, Ctx;
    var p := Single([I32], [LOST]);
    LostIsGood();
    assert Good(p, ENV);
    var six := Const(I32Val(6));
    var f0, b1 := Scope(FunctionCall, []), Scope(BlockScope, []);
    var frames, l0, l1, l2 := [Frame(0, 0, 1)], Label(0, 1, None), Label(0, 1, None), Label(0, 0, None);
    var s0 := Started([I32], [LOST]);
    var s1 := Config([], [l0, l1], frames, [f0, b1, Scope(BlockScope, [LOSER, six])], []);
    var s2 := Config([], [l0, l1, l2], frames,
                     [f0, b1, Scope(BlockScope, [six]), Scope(BlockScope, [Const(I32Val(5)), Br(1)])], []);
    var s3 := Config([I32Val(5)], [l0, l1, l2], frames,
                     [f0, b1, Scope(BlockScope, [six]), Scope(BlockScope, [Br(1)])], []);
    assert WorkerStep(p, s0, QUIET) == Next(s1) by {
      assert [LOST] + [] == [LOST];
      WorkerFetch(p, s0, LOST, []);
    }
    assert WorkerStep(p, s1, QUIET) == Next(s2) by {
      assert [LOSER] + [six] == [LOSER, six];
      WorkerFetch(p, s1, LOSER, [six]);
    }
    assert WorkerStep(p, s2, QUIET) == Next(s3) by {
      assert [Const(I32Val(5))] + [Br(1)] == [Const(I32Val(5)), Br(1)];
      WorkerFetch(p, s2, Const(I32Val(5)), [Br(1)]);
    }
    assert WorkerStep(p, s3, QUIET) == Stuck by {
      LastStep(p, s3);
    }
    LastRun(p, s3);
    WorkerRunCons(p, s2, s3, [QUIET]);
    WorkerRunCons(p, s1, s2, [QUIET, QUIET]);
    WorkerRunCons(p, s0, s1, [QUIET, QUIET, QUIET]);
    assert [QUIET] + [QUIET] == [QUIET, QUIET] && [QUIET] + [QUIET, QUIET] == [QUIET, QUIET, QUIET];
    assert [QUIET] + [QUIET, QUIET, QUIET] == [QUIET, QUIET, QUIET, QUIET];
  }

  lemma LastStep(p: Program, c: Config)
    requires p.Valid() && c.scopes != [] && Last(c.scopes).rest == [Br(1)] && c.frames == [Frame(0, 0, 1)]
    requires c.vals == [I32Val(5)] && c.labels == [Label(0, 1, None), Label(0, 1, None), Label(0, 0, None)]
    ensures WorkerStep(p, c, QUIET) == Stuck
  {
    assert [Br(1)] + [] == [Br(1)];
    WorkerFetch(p, c, Br(1), []);
    var d := c.(scopes := Front(c.scopes) + [Last(c.scopes).(rest := [])]);
    var e := d.(vals := [], labels := [Label(0, 1, None), Label(0, 1, None)]);
    assert WorkerPopLabel(d) == Next(e);
    assert WorkerPopLabels(e, 1) == Stuck;
    assert WorkerPopLabels(d, 2) == Stuck;
  }

  lemma LastRun(p: Program, c: Config)
    requires p.Valid() && c.scopes != [] && WorkerStep(p, c, QUIET) == Stuck
    ensures WorkerRun(p, c, [QUIET]) == Stuck
  {
    hide WorkerStep;
  }
}
