/** The older engine: its branches pop labels one by one, and its stack manager checks
    itself with assertions. Its control stacks keep the same lockstep on every run;
    on nested blocks it agrees with the interpreter whenever its branches unwind. */
module Worker {
  import opened Wasm
  import opened Machine
  import opened Gas
  import opened Layers
  import opened Refinement
  import opened Lockstep
  import opened LabelOrder
  import Soundness
  import TypeSafety

  /** Popping a label; a failed assertion is `Stuck`, an empty stack an error code that
      the callers do not look at. */
  function WorkerPopLabel(cfg: Config): Outcome {
    if cfg.labels == [] then Next(cfg)
    else if cfg.frames == [] || Last(cfg.labels).height < Last(cfg.frames).vheight then Stuck
    else PopLabels(cfg, 1)
  }

  function WorkerPopLabels(cfg: Config, n: nat): Outcome
    decreases n
  {
    if n == 0 then Next(cfg)
    else
      match WorkerPopLabel(cfg)
      case Next(c) => WorkerPopLabels(c, n - 1)
      case r => r
  }

  function WorkerLeaveBlock(cfg: Config): Outcome {
    match WorkerPopLabel(cfg)
    case Next(c) => Next(c.(scopes := DropScopes(c.scopes, 1)))
    case r => r
  }

  /** The last assertion: the values reach the top label that is left. */
  function WorkerLeaveFunction(cfg: Config): Outcome {
    if cfg.frames == [] then Trap
    else
      match LeaveFunction(cfg)
      case Next(d) => if d.labels != [] && |d.vals| < Last(d.labels).height then Stuck else Next(d)
      case r => r
  }

  /** A label that does not exist is an error code, not an access out of range. */
  function WorkerBranch(cfg: Config, n: nat): Outcome {
    if n >= |cfg.labels| then Trap
    else
      match WorkerPopLabels(cfg, n + 1)
      case Next(c) =>
        var target := cfg.labels[|cfg.labels| - n - 1].target;
        var d := c.(scopes := DropScopes(c.scopes, n + 1));
        if target.Some? && target.value.Loop? then Next(EnterLoop(d, target.value)) else Next(d)
      case r => r
  }

  function WorkerExec(p: Program, cfg: Config, i: Instr, o: Oracle): Outcome
    requires p.Valid()
  {
    match i
    case Return => WorkerLeaveFunction(cfg)
    case Br(n) => WorkerBranch(cfg, n)
    case BrIf(n) =>
      (match PopI32(cfg)
       case None => Stuck
       case Some((cond, c)) => if cond != 0 then WorkerBranch(c, n) else Next(c))
    case BrTable(table, n) =>
      (match PopI32(cfg)
       case None => Stuck
       case Some((k, c)) => WorkerBranch(c, if k < |table| then table[k] else n))
    case _ => Exec(p, cfg, i, o)
  }

  function WorkerLeaveScope(cfg: Config): Outcome
    requires cfg.scopes != []
  {
    match Last(cfg.scopes).kind
    case FunctionCall => WorkerLeaveFunction(cfg)
    case BlockScope => WorkerLeaveBlock(cfg)
    case Expression => LeaveScope(cfg)
  }

  function WorkerStep(p: Program, cfg: Config, o: Oracle): Outcome
    requires p.Valid() && cfg.scopes != []
  {
    if Last(cfg.scopes).rest == [] then WorkerLeaveScope(cfg)
    else WorkerExec(p, Fetched(cfg), Last(cfg.scopes).rest[0], o)
  }

  function WorkerRun(p: Program, cfg: Config, os: seq<Oracle>): Outcome
    requires p.Valid()
    decreases |os|
  {
    if os == [] || cfg.scopes == [] then Next(cfg)
    else
      match WorkerStep(p, cfg, os[0])
      case Next(c) => WorkerRun(p, c, os[1..])
      case r => r
  }

  // ----- lockstep -----

  /** Popping one by one removes the same labels and touches no other control stack. */
  lemma {:induction false} WorkerPopControl(cfg: Config, n: nat)
    requires n <= |cfg.labels| && WorkerPopLabels(cfg, n).Next?
    ensures var d := WorkerPopLabels(cfg, n).cfg;
            d.labels == cfg.labels[..|cfg.labels| - n] && d.frames == cfg.frames && d.scopes == cfg.scopes
    decreases n
  {
    if n == 0 {
      assert cfg.labels[..|cfg.labels|] == cfg.labels;
    } else {
      var c := PopLabels(cfg, 1).cfg;
      WorkerPopControl(c, n - 1);
      assert c.labels[..|c.labels| - (n - 1)] == cfg.labels[..|cfg.labels| - n];
    }
  }

  /** A branch of the worker pops only Block scopes and labels of the current frame. */
  lemma {:induction false} WorkerBranchLocked(c: Config, n: nat, base: seq<Frame>)
    requires LockedConfig(c, base) && |c.frames| > |base| && n + Last(c.frames).lheight < |c.labels|
    ensures n < |c.scopes| && forall k :: |c.scopes| - n - 1 <= k < |c.scopes| ==> c.scopes[k].kind == BlockScope
    ensures WorkerBranch(c, n).Next? ==>
      var d := WorkerBranch(c, n).cfg;
      LockedConfig(d, base) && d.frames == c.frames && Last(d.frames).lheight <= |d.labels|
  {
    hide BranchesBelow, WorkerPopLabels;
    PopLocked(c.scopes, c.labels, c.frames, n + 1, base);
    if WorkerBranch(c, n).Next? {
      WorkerPopControl(c, n + 1);
      var l := c.labels[|c.labels| - n - 1];
      var e := WorkerPopLabels(c, n + 1).cfg;
      var d := e.(scopes := DropScopes(c.scopes, n + 1));
      assert LockedConfig(d, base);
      if l.target.Some? {
        EnterLocked(d, 0, l.target, l.target.value.body, base);
      }
    }
  }

  lemma {:induction false} WorkerInstrLocked(p: Program, c: Config, i: Instr, o: Oracle, base: seq<Frame>)
    requires Closed(p) && LockedConfig(c, base)
    requires if |c.frames| <= |base| then i.Const? || i.GlobalGet?
             else Last(c.frames).lheight < |c.labels| && BranchBelow(i, |c.labels| - Last(c.frames).lheight)
    ensures WorkerExec(p, c, i, o).Next? ==> LockedConfig(WorkerExec(p, c, i, o).cfg, base)
  {
    hide BranchesBelow, Locked, WorkerBranch, Exec, LeaveFunction;
    match i
    case Return => LeaveLocked(c, base);
    case Br(n) => WorkerBranchLocked(c, n, base);
    case BrIf(n) =>
      ValuesUnlocked(c, base);
      if PopI32(c).Some? {
        WorkerBranchLocked(PopI32(c).value.1, n, base);
      }
    case BrTable(table, n) =>
      ValuesUnlocked(c, base);
      if PopI32(c).Some? {
        var (k, d) := PopI32(c).value;
        WorkerBranchLocked(d, if k < |table| then table[k] else n, base);
      }
    case _ => InstrLocked(p, c, i, o, base);
  }

  lemma {:induction false} WorkerLeaveLocked(c: Config, base: seq<Frame>)
    requires LockedConfig(c, base) && c.scopes != []
    ensures WorkerLeaveScope(c).Next? ==> LockedConfig(WorkerLeaveScope(c).cfg, base)
  {
    hide BranchesBelow, LeaveFunction;
    LeaveScopeLocked(c, base);
  }

  lemma {:induction false} WorkerStepLocked(p: Program, c: Config, o: Oracle, base: seq<Frame>)
    requires Closed(p) && LockedConfig(c, base) && c.scopes != []
    ensures WorkerStep(p, c, o).Next? ==> LockedConfig(WorkerStep(p, c, o).cfg, base)
  {
    hide WorkerExec, WorkerLeaveScope;
    var s := Last(c.scopes);
    if s.rest == [] {
      WorkerLeaveLocked(c, base);
    } else {
      FetchLocked(c, base);
      WorkerInstrLocked(p, Fetched(c), s.rest[0], o, base);
    }
  }

  /** Over every run of the worker on accepted functions the scopes, labels and
      frames stay in lockstep, and end together. */
  lemma {:induction false} WorkerRunLocked(p: Program, env: Soundness.Env, c: Config, os: seq<Oracle>, base: seq<Frame>)
    requires TypeSafety.Accepted(p, env) && LockedConfig(c, base)
    ensures WorkerRun(p, c, os).Next? ==>
      var d := WorkerRun(p, c, os).cfg;
      LockedConfig(d, base) && (d.scopes == [] ==> d.labels == [] && d.frames == base)
    decreases |os|
  {
    hide WorkerStep, BranchesBelow;
    TypeSafety.AcceptedIsClosed(p, env);
    if os != [] && c.scopes != [] {
      WorkerStepLocked(p, c, os[0], base);
      if WorkerStep(p, c, os[0]).Next? {
        WorkerRunLocked(p, env, WorkerStep(p, c, os[0]).cfg, os[1..], base);
      }
    }
  }

  // ----- gas -----

  /** One turn of the worker's metered loop. */
  function WorkerTurn(p: Program, cfg: Config, m: Meter, o: Oracle): (r: Metered)
    requires p.Valid() && m.Valid() && cfg.scopes != []
    ensures !r.Undefined? ==> r.m.Valid() && r.m.limit == m.limit && r.m.table == m.table
  {
    if Last(cfg.scopes).rest == [] then AfterOutcome(WorkerLeaveScope(cfg), m)
    else
      var i := Last(cfg.scopes).rest[0];
      var c := AddCost(m.(count := m.count + 1), m.table[Opcode(i)]);
      if !c.ok then OutOfGas(c.m)
      else
        var d := AddCost(c.m, Surcharge(p, Fetched(cfg), i, c.m));
        if !d.ok then OutOfGas(d.m)
        else AfterOutcome(WorkerExec(p, Fetched(cfg), i, o), d.m)
  }

  function WorkerTurns(p: Program, cfg: Config, m: Meter, os: nat -> Oracle, from: nat, n: nat): Metered
    requires p.Valid() && m.Valid()
    decreases n
  {
    if n == 0 || cfg.scopes == [] then Going(cfg, m)
    else
      match WorkerTurn(p, cfg, m, os(from))
      case Going(c, m1) => WorkerTurns(p, c, m1, os, from + 1, n - 1)
      case r => r
  }

  lemma {:induction false} WorkerPopScopes(cfg: Config, n: nat)
    requires WorkerPopLabels(cfg, n).Next?
    ensures WorkerPopLabels(cfg, n).cfg.scopes == cfg.scopes
    decreases n
  {
    if n > 0 {
      WorkerPopScopes(WorkerPopLabel(cfg).cfg, n - 1);
    }
  }

  lemma WorkerBranchScopes(cfg: Config, n: nat)
    ensures WorkerBranch(cfg, n).Next? ==> |WorkerBranch(cfg, n).cfg.scopes| <= |cfg.scopes| + 1
  {
    hide WorkerPopLabels;
    if WorkerBranch(cfg, n).Next? {
      WorkerPopScopes(cfg, n + 1);
    }
  }

  lemma WorkerScopesGrow(p: Program, cfg: Config, i: Instr, o: Oracle)
    requires p.Valid()
    ensures WorkerExec(p, cfg, i, o).Next? ==> |WorkerExec(p, cfg, i, o).cfg.scopes| <= |cfg.scopes| + 2
  {
    hide Exec, WorkerBranch;
    match i
    case Return =>
    case Br(n) => WorkerBranchScopes(cfg, n);
    case BrIf(n) =>
      if PopI32(cfg).Some? {
        WorkerBranchScopes(PopI32(cfg).value.1, n);
      }
    case BrTable(table, n) =>
      if PopI32(cfg).Some? {
        var (k, c) := PopI32(cfg).value;
        WorkerBranchScopes(c, if k < |table| then table[k] else n);
      }
    case _ => ScopesGrowByTwo(p, cfg, i, o);
  }

  lemma WorkerScopesShrink(cfg: Config)
    requires cfg.scopes != []
    ensures WorkerLeaveScope(cfg).Next? ==> |WorkerLeaveScope(cfg).cfg.scopes| < |cfg.scopes|
  {
  }

  /** Every turn of the worker uses gas or leaves a scope for good. */
  lemma WorkerTurnDecreases(p: Program, cfg: Config, m: Meter, o: Oracle)
    requires p.Valid() && Priced(p, m) && cfg.scopes != []
    ensures match WorkerTurn(p, cfg, m, o)
            case Going(c, m1) =>
              && Priced(p, m1) && Potential(c, m1) < Potential(cfg, m)
              && m1.limit == m.limit && m.count <= m1.count && m1.count + m.sum <= m.count + m1.sum
            case OutOfGas(m1) => m1.count <= m.count + 1
            case Halted(m1) => m1.count <= m.count + 1
            case Undefined => true
  {
    hide WorkerExec, WorkerLeaveScope, Surcharge;
    if Last(cfg.scopes).rest == [] {
      WorkerScopesShrink(cfg);
    } else {
      var i := Last(cfg.scopes).rest[0];
      var c := AddCost(m.(count := m.count + 1), m.table[Opcode(i)]);
      if c.ok {
        assert Priced(p, c.m);
        SurchargeFits(p, Fetched(cfg), i, c.m);
        WorkerScopesGrow(p, Fetched(cfg), i, o);
      }
    }
  }

  /** The worker's loop ends within a number of turns known at its start, and counts at
      most one instruction more than the gas it may use. */
  lemma {:induction false} WorkerTerminates(p: Program, cfg: Config, m: Meter, os: nat -> Oracle, from: nat, n: nat)
    requires p.Valid() && Priced(p, m)
    ensures match WorkerTurns(p, cfg, m, os, from, n)
            case Going(c, m1) =>
              && (c.scopes == [] || n <= Potential(cfg, m))
              && m1.Valid() && m1.limit == m.limit && m1.count + m.sum <= m.count + m1.sum
            case OutOfGas(m1) => m1.count + m.sum <= m.count + m.limit + 1
            case Halted(m1) => m1.count + m.sum <= m.count + m.limit + 1
            case Undefined => true
    decreases n
  {
    hide WorkerTurn;
    if n > 0 && cfg.scopes != [] {
      WorkerTurnDecreases(p, cfg, m, os(from));
      match WorkerTurn(p, cfg, m, os(from))
      case Going(c, m1) => WorkerTerminates(p, c, m1, os, from + 1, n - 1);
      case _ =>
    }
  }

  // ----- agreement with the interpreter -----

  /** Labels of nested blocks always lie on a growing stack. */
  lemma {:induction false} FlattenRising(l: Layer, g: seq<Value>, n: nat)
    requires n <= |Flatten(l, g).labels|
    ensures Rising(Flatten(l, g).labels, n)
    ensures Flatten(l, g).labels != [] ==> Last(Flatten(l, g).labels).height <= |Flatten(l, g).vals|
    decreases l
  {
    if !l.Base? {
      var b := Flatten(l.below, g);
      FlattenRising(l.below, g, |b.labels|);
    }
  }

  /** The labels of the current call lie above the base of its frame. */
  ghost predicate Framed(c: Config, n: nat) {
    && n <= |c.labels| && (n > 0 ==> c.frames != [])
    && forall k :: |c.labels| - n <= k < |c.labels| ==> c.labels[k].height >= Last(c.frames).vheight
  }

  lemma {:induction false} EnclosingFramed(l: Layer, g: seq<Value>, n: nat)
    requires Enclosing(l, n).Some? && Caller(l).Some?
    ensures Framed(Flatten(l, g), n + 1)
    decreases n
  {
    CallerOnStacks(l, g);
    CallerOnStacks(l.below, g);
    var c, b := Flatten(l, g), Flatten(l.below, g);
    assert Last(c.labels).height == |b.vals| >= Last(c.frames).vheight;
    if n > 0 {
      EnclosingFramed(l.below, g, n - 1);
      forall k | |c.labels| - n - 1 <= k < |c.labels| ensures c.labels[k].height >= Last(c.frames).vheight {
        if k < |c.labels| - 1 {
          assert c.labels[k] == b.labels[k];
        }
      }
    }
  }

  /** Then no assertion fails that the unchecked pops do not need as well. */
  lemma {:induction false} FramedPops(c: Config, n: nat)
    requires Framed(c, n)
    ensures WorkerPopLabels(c, n) == PopEach(c, n)
    decreases n
  {
    if n > 0 && PopLabels(c, 1).Next? {
      var d := PopLabels(c, 1).cfg;
      assert d.labels == c.labels[..|c.labels| - 1];
      FramedPops(d, n - 1);
    }
  }

  /** On the stacks of nested blocks the two engines take a branch alike whenever
      every label on the way keeps enough. */
  lemma BranchesAgree(l: Layer, g: seq<Value>, n: nat)
    requires Enclosing(l, n).Some? && Caller(l).Some? && n < |Flatten(l, g).labels| && Unwinds(Flatten(l, g), n + 1)
    ensures WorkerBranch(Flatten(l, g), n) == Branch(Flatten(l, g), n)
  {
    hide Flatten, Unwinds, Rising, PopEach, PopLabels, WorkerPopLabels, Framed, Enclosing, Caller;
    EnclosingFramed(l, g, n);
    FramedPops(Flatten(l, g), n + 1);
    FlattenRising(l, g, n + 1);
    UnwindsSuffices(Flatten(l, g), n + 1);
  }

  /** They leave a function alike whenever its results are there. */
  lemma ReturnsAgree(l: Layer, g: seq<Value>)
    requires StepReturn(l, g).Ok?
    ensures WorkerLeaveFunction(Flatten(l, g)) == LeaveFunction(Flatten(l, g))
  {
    hide Flatten, Caller, LeaveFunction;
    ReturnRefines(l, g);
    CallerOnStacks(l, g);
    var b := Caller(l).value.below;
    var vs := Keep(l.ops, Caller(l).value.coarity);
    FlattenAdd(b, g, vs);
    FlattenRising(b, g, 0);
  }
}
