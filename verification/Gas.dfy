/** The gas meter around the execute loop. */
module Gas {
  import opened Wasm
  import opened Machine

  const WIDTH: int := 0x1_0000_0000_0000_0000

  /** Cost table, limit, consumed cost and the count of executed instructions. */
  datatype Meter = Meter(table: seq<U64>, limit: U64, sum: U64, count: nat) {
    predicate Valid() {
      |table| == 0x100 && sum <= limit
    }
  }

  datatype Charge = Charge(ok: bool, m: Meter)

  /** The sum is a 64-bit counter that wraps around before it is compared. */
  function AddCost(m: Meter, cost: U64): (r: Charge)
    requires m.Valid()
    ensures r.m.Valid() && r.m == m.(sum := r.m.sum)
    ensures m.limit + cost < WIDTH ==>
      && (r.ok <==> m.sum + cost <= m.limit)
      && r.m.sum == if r.ok then m.sum + cost else m.limit
  {
    var sum: U64 := (m.sum + cost) % WIDTH;
    if sum > m.limit then Charge(false, m.(sum := m.limit)) else Charge(true, m.(sum := sum))
  }

  datatype Metered = Going(cfg: Config, m: Meter) | OutOfGas(m: Meter) | Halted(m: Meter) | Undefined

  function AfterOutcome(r: Outcome, m: Meter): Metered {
    match r
    case Next(c) => Going(c, m)
    case Trap => Halted(m)
    case Stuck => Undefined
  }

  /** The extra charge an instruction causes while it executes: entering an arm of
      an `if` costs the opcode 0x05, a host function its own cost. */
  function Surcharge(p: Program, cfg: Config, i: Instr, m: Meter): U64
    requires p.Valid() && m.Valid()
  {
    match i
    case If(_, thn, els) =>
      (match PopI32(cfg)
       case None => 0
       case Some((cond, _)) => if (if cond != 0 then thn else els) != [] then m.table[ELSE] else 0)
    case Call(f) => HostCost(p, f)
    case CallIndirect(n) =>
      (match PopI32(cfg)
       case None => 0
       case Some((k, _)) =>
         if n < |p.types| && k < |p.table| && p.table[k].Some? && p.SigOf(p.table[k].value) == p.types[n]
         then HostCost(p, p.table[k].value) else 0)
    case _ => 0
  }

  function HostCost(p: Program, f: nat): U64 {
    if f < |p.funcs| && p.funcs[f].Host? then p.funcs[f].cost else 0
  }

  /** One turn of the metered execute loop. */
  function MeteredStep(p: Program, cfg: Config, m: Meter, o: Oracle): (r: Metered)
    requires p.Valid() && m.Valid() && cfg.scopes != []
    ensures !r.Undefined? ==> r.m.Valid() && r.m.limit == m.limit && r.m.table == m.table
  {
    if Last(cfg.scopes).rest == [] then AfterOutcome(LeaveScope(cfg), m)
    else
      var i := Last(cfg.scopes).rest[0];
      var c := AddCost(m.(count := m.count + 1), m.table[Opcode(i)]);
      if !c.ok then OutOfGas(c.m)
      else
        var d := AddCost(c.m, Surcharge(p, Fetched(cfg), i, c.m));
        if !d.ok then OutOfGas(d.m)
        else AfterOutcome(Exec(p, Fetched(cfg), i, o), d.m)
  }

  /** The loop for at most `n` turns, with one oracle answer per turn. */
  function MeteredRun(p: Program, cfg: Config, m: Meter, os: nat -> Oracle, from: nat, n: nat): Metered
    requires p.Valid() && m.Valid()
    decreases n
  {
    if n == 0 || cfg.scopes == [] then Going(cfg, m)
    else
      match MeteredStep(p, cfg, m, os(from))
      case Going(c, m1) => MeteredRun(p, c, m1, os, from + 1, n - 1)
      case r => r
  }

  /** One more turn at the end of a run. */
  lemma {:induction false} RunExtends(p: Program, cfg: Config, m: Meter, os: nat -> Oracle, from: nat, n: nat)
    requires p.Valid() && m.Valid() && MeteredRun(p, cfg, m, os, from, n).Going?
    ensures var r := MeteredRun(p, cfg, m, os, from, n);
            && r.m.Valid()
            && (r.cfg.scopes != [] ==>
                  MeteredRun(p, cfg, m, os, from, n + 1) == MeteredStep(p, r.cfg, r.m, os(from + n)))
    decreases n
  {
    hide MeteredStep;
    if n > 0 && cfg.scopes != [] {
      var s := MeteredStep(p, cfg, m, os(from));
      RunExtends(p, s.cfg, s.m, os, from + 1, n - 1);
    } else if cfg.scopes != [] {
      match MeteredStep(p, cfg, m, os(from))
      case Going(c, m1) => assert MeteredRun(p, c, m1, os, from + 1, 0) == Going(c, m1);
      case _ =>
    }
  }

  /** Metering only ever stops a run; what it executes is what the machine does. */
  lemma MeteringOnlyStops(p: Program, cfg: Config, m: Meter, o: Oracle)
    requires p.Valid() && m.Valid() && cfg.scopes != []
    ensures match MeteredStep(p, cfg, m, o)
            case Going(c, _) => Step(p, cfg, o) == Next(c)
            case OutOfGas(m1) => m1.sum == m.limit
            case Halted(_) => Step(p, cfg, o) == Trap
            case Undefined => Step(p, cfg, o) == Stuck
  {
    hide Exec, LeaveScope, Surcharge;
  }

  /** Costs are positive and the counter cannot wrap around. */
  predicate Priced(p: Program, m: Meter) {
    && m.Valid()
    && (forall k :: 0 <= k < 0x100 ==> 1 <= m.table[k] && m.limit + m.table[k] < WIDTH)
    && forall f :: 0 <= f < |p.funcs| && p.funcs[f].Host? ==> m.limit + p.funcs[f].cost < WIDTH
  }

  /** The function that an instruction calls. */
  function Callee(p: Program, cfg: Config, i: Instr): Option<nat> {
    match i
    case Call(f) => Some(f)
    case CallIndirect(_) =>
      if cfg.vals != [] && Last(cfg.vals).I32Val? && Last(cfg.vals).i32 < |p.table|
      then p.table[Last(cfg.vals).i32] else None
    case _ => None
  }

  /** The instruction is an `if` that enters an arm. */
  predicate EntersArm(cfg: Config, i: Instr) {
    && i.If? && cfg.vals != []
    && if Last(cfg.vals) == I32Val(0) then i.els != [] else i.thn != []
  }

  /** What a turn costs that goes on: the opcode's entry of the table; besides, the
      entry 0x05 for an entered arm and the own cost of a called host function. Such a
      turn goes on exactly when that much gas is left, and leaving a scope is free. */
  lemma TurnCost(p: Program, cfg: Config, m: Meter, o: Oracle)
    requires p.Valid() && Priced(p, m) && cfg.scopes != [] && Step(p, cfg, o).Next?
    ensures var r := MeteredStep(p, cfg, m, o);
            if Last(cfg.scopes).rest == [] then r == Going(Step(p, cfg, o).cfg, m)
            else
              var i := Last(cfg.scopes).rest[0];
              var f := Callee(p, cfg, i);
              && (f.Some? ==> f.value < |p.funcs|)
              && var cost := m.table[Opcode(i)]
                   + (if EntersArm(cfg, i) then m.table[0x05] else 0)
                   + (if f.Some? && p.funcs[f.value].Host? then p.funcs[f.value].cost else 0);
              r == if m.sum + cost <= m.limit
                   then Going(Step(p, cfg, o).cfg, m.(sum := m.sum + cost, count := m.count + 1))
                   else OutOfGas(m.(sum := m.limit, count := m.count + 1))
  {
    if Last(cfg.scopes).rest != [] {
      var i := Last(cfg.scopes).rest[0];
      ExtraCost(p, Fetched(cfg), i, m, o);
      hide Exec, Surcharge, EntersArm, Callee, Priced;
      SameOperands(p, cfg, i);
      PricedCharges(p, cfg, i, m);
    }
  }

  lemma SameOperands(p: Program, cfg: Config, i: Instr)
    requires cfg.scopes != [] && Last(cfg.scopes).rest != []
    ensures Callee(p, Fetched(cfg), i) == Callee(p, cfg, i) && EntersArm(Fetched(cfg), i) == EntersArm(cfg, i)
  {
  }

  lemma ExtraCost(p: Program, cfg: Config, i: Instr, m: Meter, o: Oracle)
    requires p.Valid() && m.Valid() && Exec(p, cfg, i, o).Next?
    ensures var f := Callee(p, cfg, i);
            && (f.Some? ==> f.value < |p.funcs|)
            && Surcharge(p, cfg, i, m)
               == (if EntersArm(cfg, i) then m.table[0x05] else 0)
                + (if f.Some? && p.funcs[f.value].Host? then p.funcs[f.value].cost else 0)
  {
  }

  /** Two charges in a row that cannot wrap around are one. */
  lemma TwoCharges(m: Meter, a: U64, b: U64)
    requires m.Valid() && m.limit + a < WIDTH && m.limit + b < WIDTH
    ensures var c := AddCost(m, a);
            && (!c.ok ==> m.sum + a + b > m.limit && c.m == m.(sum := m.limit))
            && (c.ok ==> (AddCost(c.m, b).ok <==> m.sum + a + b <= m.limit))
            && (c.ok ==> AddCost(c.m, b).m.sum == if m.sum + a + b <= m.limit then m.sum + a + b else m.limit)
  {
  }

  lemma PricedCharges(p: Program, cfg: Config, i: Instr, m: Meter)
    requires p.Valid() && Priced(p, m) && cfg.scopes != [] && Last(cfg.scopes).rest != []
    ensures var m1 := m.(count := m.count + 1);
            var a, b := m.table[Opcode(i)], Surcharge(p, Fetched(cfg), i, m);
            var c := AddCost(m1, a);
            && Surcharge(p, Fetched(cfg), i, c.m) == b
            && (!c.ok ==> m.sum + a + b > m.limit && c.m == m1.(sum := m.limit))
            && (c.ok ==> (AddCost(c.m, b).ok <==> m.sum + a + b <= m.limit))
            && (c.ok ==> AddCost(c.m, b).m == m1.(sum := if m.sum + a + b <= m.limit then m.sum + a + b else m.limit))
  {
    SurchargeFits(p, Fetched(cfg), i, m);
    hide Opcode;
    TwoCharges(m.(count := m.count + 1), m.table[Opcode(i)], Surcharge(p, Fetched(cfg), i, m));
  }

  /** Gas left and scopes left, weighted: no turn adds more than two scopes. */
  function Potential(cfg: Config, m: Meter): nat
    requires m.Valid()
  {
    3 * (m.limit - m.sum) + |cfg.scopes|
  }

  lemma ScopesGrowByTwo(p: Program, cfg: Config, i: Instr, o: Oracle)
    requires p.Valid()
    ensures Exec(p, cfg, i, o).Next? ==> |Exec(p, cfg, i, o).cfg.scopes| <= |cfg.scopes| + 2
  {
  }

  lemma ScopesShrink(cfg: Config)
    requires cfg.scopes != []
    ensures LeaveScope(cfg).Next? ==> |LeaveScope(cfg).cfg.scopes| < |cfg.scopes|
  {
  }

  lemma SurchargeFits(p: Program, cfg: Config, i: Instr, m: Meter)
    requires p.Valid() && Priced(p, m)
    ensures m.limit + Surcharge(p, cfg, i, m) < WIDTH
  {
  }

  /** Every turn makes progress: it uses gas or leaves a scope for good. */
  lemma TurnDecreases(p: Program, cfg: Config, m: Meter, o: Oracle)
    requires p.Valid() && Priced(p, m) && cfg.scopes != []
    ensures match MeteredStep(p, cfg, m, o)
            case Going(c, m1) =>
              && Priced(p, m1) && Potential(c, m1) < Potential(cfg, m)
              && m1.limit == m.limit && m1.table == m.table
              && m.count <= m1.count && m1.count + m.sum <= m.count + m1.sum
            case OutOfGas(m1) => m1.count <= m.count + 1 && m1.limit == m.limit
            case Halted(m1) => m1.count <= m.count + 1
            case Undefined => true
  {
    hide Exec, LeaveScope, Surcharge;
    if Last(cfg.scopes).rest == [] {
      ScopesShrink(cfg);
    } else {
      var i := Last(cfg.scopes).rest[0];
      var c := AddCost(m.(count := m.count + 1), m.table[Opcode(i)]);
      if c.ok {
        assert Priced(p, c.m);
        SurchargeFits(p, Fetched(cfg), i, c.m);
        ScopesGrowByTwo(p, Fetched(cfg), i, o);
      }
    }
  }

  /** Gas gives termination: with positive costs and no wrap-around a run that is
      still going after `n` turns has `n` at most its potential; and it has counted
      no more instructions than the gas it used, one more when it ran out. */
  lemma {:induction false} GasTerminates(p: Program, cfg: Config, m: Meter, os: nat -> Oracle, from: nat, n: nat)
    requires p.Valid() && Priced(p, m)
    ensures match MeteredRun(p, cfg, m, os, from, n)
            case Going(c, m1) =>
              && (c.scopes == [] || n <= Potential(cfg, m))
              && m1.Valid() && m1.limit == m.limit && m1.count + m.sum <= m.count + m1.sum
            case OutOfGas(m1) => m1.count + m.sum <= m.count + m.limit + 1
            case Halted(m1) => m1.count + m.sum <= m.count + m.limit + 1
            case Undefined => true
    decreases n
  {
    hide MeteredStep;
    if n > 0 && cfg.scopes != [] {
      TurnDecreases(p, cfg, m, os(from));
      match MeteredStep(p, cfg, m, os(from))
      case Going(c, m1) => GasTerminates(p, c, m1, os, from + 1, n - 1);
      case _ =>
    }
  }

  /** Starting from nothing consumed, at most limit + 1 instructions are counted. */
  lemma CountBound(p: Program, cfg: Config, m: Meter, os: nat -> Oracle, n: nat)
    requires p.Valid() && Priced(p, m) && m.sum == 0 && m.count == 0
    ensures var r := MeteredRun(p, cfg, m, os, 0, n);
            !r.Undefined? ==> r.m.count <= m.limit + 1
  {
    hide MeteredRun;
    GasTerminates(p, cfg, m, os, 0, n);
  }

  // ----- the conditions are needed -----

  const SPIN: Instr := Loop(Empty, [Br(0)])

  /** A function body that spins, with the loop entered. */
  function Spinning(code: seq<Instr>): Config {
    Config([], [Label(0, 0, None), Label(0, 0, Some(SPIN))], [Frame(0, 0, 0)],
           [Scope(FunctionCall, []), Scope(BlockScope, []), Scope(BlockScope, code)], [])
  }

  /** A charge never fails when the cost is zero or the limit is the largest
      64-bit number, which is the default limit. */
  lemma NeverFails(m: Meter, cost: U64)
    requires m.Valid() && (cost == 0 || m.limit == WIDTH - 1)
    ensures AddCost(m, cost).ok
  {
  }

  lemma SpinBranch()
    ensures Branch(Spinning([]), 0) == Next(Spinning([Br(0)]))
  {
    var d := PopLabels(Spinning([]), 1).cfg;
    assert d.vals == [] && d.labels == [Label(0, 0, None)];
    assert DropScopes(d.scopes, 1) == [Scope(FunctionCall, []), Scope(BlockScope, [])];
    var e := d.(scopes := DropScopes(d.scopes, 1));
    assert EnterLoop(e, SPIN).scopes == Spinning([Br(0)]).scopes;
  }

  lemma SpinStep(p: Program, m: Meter, o: Oracle)
    requires p.Valid() && m.Valid() && (m.limit == WIDTH - 1 || m.table[Opcode(Br(0))] == 0)
    ensures var r := MeteredStep(p, Spinning([Br(0)]), m, o);
            r.Going? && r.cfg == Spinning([Br(0)]) && r.m.Valid() && r.m.limit == m.limit && r.m.table == m.table
  {
    hide Branch;
    assert [Br(0)][1..] == [];
    assert Fetched(Spinning([Br(0)])) == Spinning([]);
    NeverFails(m.(count := m.count + 1), m.table[Opcode(Br(0))]);
    NeverFails(AddCost(m.(count := m.count + 1), m.table[Opcode(Br(0))]).m, 0);
    SpinBranch();
    assert Exec(p, Spinning([]), Br(0), o) == Next(Spinning([Br(0)]));
  }

  /** With a zero cost table, or with the default limit, the loop never ends. */
  lemma {:induction false} SpinsForever(p: Program, m: Meter, os: nat -> Oracle, from: nat, n: nat)
    requires p.Valid() && m.Valid() && (m.limit == WIDTH - 1 || m.table[Opcode(Br(0))] == 0)
    ensures var r := MeteredRun(p, Spinning([Br(0)]), m, os, from, n);
            r.Going? && r.cfg == Spinning([Br(0)])
    decreases n
  {
    hide MeteredStep;
    if n > 0 {
      SpinStep(p, m, os(from));
      SpinsForever(p, MeteredStep(p, Spinning([Br(0)]), m, os(from)).m, os, from + 1, n - 1);
    }
  }
}
