/** From the validator's verdict on a module to the programs the engine runs. */
module Linking {
  import opened Wasm
  import opened Typing
  import opened Machine
  import opened SideConditions
  import Soundness
  import TypeSafety
  import V = Validator

  /** Locals with their counts written out. */
  function LocalTypes(ls: seq<(U32, ValType)>): seq<ValType> {
    if ls == [] then []
    else LocalTypes(ls[..|ls| - 1]) + seq(ls[|ls| - 1].0, _ => ls[|ls| - 1].1)
  }

  lemma KAppend(s: seq<ValType>, t: seq<ValType>)
    ensures K(s + t) == K(s) + K(t)
  {
  }

  lemma {:induction false} ExpandedTypes(ls: seq<(U32, ValType)>)
    ensures V.Expanded(ls) == K(LocalTypes(ls))
  {
    if ls != [] {
      var n := |ls| - 1;
      ExpandedTypes(ls[..n]);
      KAppend(LocalTypes(ls[..n]), seq(ls[n].0, _ => ls[n].1));
    }
  }

  function Imported(m: V.Module): nat {
    |V.Declared(m).funcs|
  }

  /** Imported functions first, each charged `cost`, then the module's own. */
  function FuncAt(m: V.Module, cost: U64, k: nat): FuncInst
    requires m.funcs.Some? && m.code.Some? && |m.funcs.value| == |m.code.value|
    requires k < Imported(m) + |m.funcs.value|
  {
    var n := Imported(m);
    if k < n then Host(V.Declared(m).funcs[k], cost)
    else Native(m.funcs.value[k - n], LocalTypes(m.code.value[k - n].locals), m.code.value[k - n].body)
  }

  /** The instance of a module with its function table. */
  function Instance(m: V.Module, cost: U64, table: seq<Option<nat>>): Program
    requires m.funcs.Some? && m.code.Some? && |m.funcs.value| == |m.code.value|
  {
    var count := Imported(m) + |m.funcs.value|;
    Program(m.types, seq(count, k requires 0 <= k < count => FuncAt(m, cost, k)), table)
  }

  function EnvOf(m: V.Module): Soundness.Env {
    var c := V.FullContext(m);
    Soundness.Env(c.tables, c.memories, c.globals)
  }

  predicate TableWithin(table: seq<Option<nat>>, count: nat) {
    forall k :: 0 <= k < |table| && table[k].Some? ==> table[k].value < count
  }

  ghost predicate Ready(m: V.Module, table: seq<Option<nat>>) {
    && V.Accepted(m) && m.funcs.Some? && m.code.Some? && |m.funcs.value| == |m.code.value|
    && TableWithin(table, Imported(m) + |m.funcs.value|)
  }

  lemma InstanceValid(m: V.Module, cost: U64, table: seq<Option<nat>>)
    requires Ready(m, table)
    ensures Instance(m, cost, table).Valid()
  {
    V.DeclaredValid(m);
    V.FullValid(m);
  }

  lemma TypesKept(m: V.Module)
    requires V.DeclarationsOk(m)
    ensures V.FullContext(m).types == V.SigsOf(m.types)
  {
    V.WithImportsValid(Context(V.SigsOf(m.types), [], [], 0, [], [], []), m.imports);
  }

  lemma FuncsKept(m: V.Module, cost: U64, table: seq<Option<nat>>)
    requires Ready(m, table)
    ensures var p := Instance(m, cost, table);
            V.FullContext(m).funcs == seq(|p.funcs|, k requires 0 <= k < |p.funcs| => p.funcs[k].typeIdx)
  {
    hide V.Accepted, V.Declared, LocalTypes;
  }

  function BodyContext(m: V.Module, k: nat): Context
    requires m.funcs.Some? && m.code.Some? && k < |m.funcs.value| == |m.code.value|
    requires m.funcs.value[k] < |V.FullContext(m).types|
  {
    var c, f := V.FullContext(m), m.funcs.value[k];
    c.(locals := c.types[f].take + V.Expanded(m.code.value[k].locals), results := c.types[f].put)
  }

  /** The context in which the engine's soundness argument checks a function is the
      one in which the validator has checked its body. */
  lemma SameContext(m: V.Module, cost: U64, table: seq<Option<nat>>, k: nat)
    requires Ready(m, table) && k < |m.funcs.value|
    ensures Instance(m, cost, table).Valid() && m.funcs.value[k] < |V.FullContext(m).types|
    ensures Soundness.Ctx(Instance(m, cost, table), EnvOf(m), Imported(m) + k) == BodyContext(m, k)
  {
    InstanceValid(m, cost, table);
    V.FullValid(m);
    FuncsKept(m, cost, table);
    assert V.FullContext(m).types == V.SigsOf(m.types) by {
      TypesKept(m);
    }
    hide V.Accepted, V.FullContext, LocalTypes, V.Expanded, V.Declared;
    var f := m.funcs.value[k];
    ExpandedTypes(m.code.value[k].locals);
    KAppend(m.types[f].take, LocalTypes(m.code.value[k].locals));
  }

  lemma NativeIndex(m: V.Module, cost: U64, table: seq<Option<nat>>, f: nat)
    requires Ready(m, table) && f < |Instance(m, cost, table).funcs| && Instance(m, cost, table).funcs[f].Native?
    ensures f >= Imported(m) && Instance(m, cost, table).funcs[f].body == m.code.value[f - Imported(m)].body
  {
    hide V.Accepted, V.Declared, LocalTypes;
  }

  /** What the validator accepts, the engine may run: every branch stays inside its
      function and the control stacks stay in lockstep. */
  lemma ValidatedIsAccepted(m: V.Module, cost: U64, table: seq<Option<nat>>)
    requires Ready(m, table)
    ensures TypeSafety.Accepted(Instance(m, cost, table), EnvOf(m))
  {
    var p := Instance(m, cost, table);
    InstanceValid(m, cost, table);
    V.FullValid(m);
    hide V.FullContext, CheckBody, Soundness.Ctx, Instance;
    forall f | 0 <= f < |p.funcs| && p.funcs[f].Native?
      ensures CheckBody(Soundness.Ctx(p, EnvOf(m), f), p.funcs[f].body)
    {
      NativeIndex(m, cost, table, f);
      var k := f - Imported(m);
      SameContext(m, cost, table, k);
      assert V.BodyOk(V.FullContext(m), m.funcs.value[k], m.code.value[k]);
    }
  }

  /** The side conditions on the bodies of a module. */
  ghost predicate GoodBodies(m: V.Module)
    requires V.Accepted(m) && m.funcs.Some?
  {
    V.FullValid(m);
    forall k :: 0 <= k < |m.funcs.value| ==>
      BodyContext(m, k).Valid() && GoodBody(BodyContext(m, k), m.code.value[k].body)
  }

  lemma {:induction false} ImportedGlobalsKnown(c: Context, imports: seq<V.Import>)
    requires forall k :: 0 <= k < |c.globals| ==> c.globals[k].t.Known?
    ensures forall k :: 0 <= k < |V.WithImports(c, imports).globals| ==> V.WithImports(c, imports).globals[k].t.Known?
  {
    if imports != [] {
      ImportedGlobalsKnown(c, imports[..|imports| - 1]);
    }
  }

  lemma EnvValid(m: V.Module)
    ensures EnvOf(m).Valid()
  {
    ImportedGlobalsKnown(Context(V.SigsOf(m.types), [], [], 0, [], [], []), m.imports);
  }

  lemma FunctionGood(m: V.Module, cost: U64, table: seq<Option<nat>>, f: nat)
    requires Ready(m, table) && GoodBodies(m)
    requires f < |Instance(m, cost, table).funcs| && Instance(m, cost, table).funcs[f].Native?
    ensures Instance(m, cost, table).Valid()
    ensures GoodBody(Soundness.Ctx(Instance(m, cost, table), EnvOf(m), f), Instance(m, cost, table).funcs[f].body)
  {
    hide V.FullContext, GoodBody, Soundness.Ctx, V.Accepted, BodyContext, EnvOf, V.Declared, LocalTypes;
    NativeIndex(m, cost, table, f);
    SameContext(m, cost, table, f - Imported(m));
  }

  /** A validated module whose bodies meet the side conditions satisfies what the
      type safety of runs asks for. */
  lemma ValidatedIsGood(m: V.Module, cost: U64, table: seq<Option<nat>>)
    requires Ready(m, table) && GoodBodies(m)
    ensures Soundness.Good(Instance(m, cost, table), EnvOf(m))
  {
    var p := Instance(m, cost, table);
    hide GoodBody, Soundness.Ctx, Instance, EnvOf, V.Accepted, GoodBodies;
    InstanceValid(m, cost, table);
    EnvValid(m);
    forall f | 0 <= f < |p.funcs| && p.funcs[f].Native?
      ensures GoodBody(Soundness.Ctx(p, EnvOf(m), f), p.funcs[f].body)
    {
      FunctionGood(m, cost, table, f);
    }
  }

  /** The whole way: a call of a function of an accepted module whose bodies meet the
      side conditions is safe. */
  lemma ValidatedCallIsSafe(m: V.Module, cost: U64, table: seq<Option<nat>>, k: nat,
                            under: seq<Value>, args: seq<Value>, g: seq<Value>, os: seq<Oracle>)
    requires Ready(m, table) && GoodBodies(m) && k < |m.funcs.value| && m.funcs.value[k] < |m.types|
    requires Types(args) == m.types[m.funcs.value[k]].take && Soundness.GlobalsTyped(EnvOf(m), g) && os != []
    ensures Instance(m, cost, table).Valid() && Imported(m) + k < |Instance(m, cost, table).funcs|
    ensures TypeSafety.SafeCall(Instance(m, cost, table), under, args, g, Imported(m) + k, os)
  {
    var p, f := Instance(m, cost, table), Imported(m) + k;
    InstanceValid(m, cost, table);
    ValidatedIsGood(m, cost, table);
    hide V.Accepted, V.Declared, LocalTypes, Soundness.Good, Soundness.GlobalsTyped, TypeSafety.SafeCall, EnvOf;
    assert p.funcs[f] == FuncAt(m, cost, f);
    TypeSafety.CallIsSafe(p, EnvOf(m), under, args, g, f, os);
  }
}
