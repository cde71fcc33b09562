/** Type soundness across the form checker and the execution engine: accepted
    code that meets the side conditions never leaves the domain in which the
    unchecked stack manager is defined. */
module Soundness {
  import opened Wasm
  import opened Typing
  import opened SideConditions
  import opened Machine
  import opened Layers
  import opened Refinement

  /** The module-level declarations besides types and functions. */
  datatype Env = Env(tables: seq<Byte>, memories: nat, globals: seq<GlobalType>) {
    predicate Valid() {
      forall k :: 0 <= k < |globals| ==> globals[k].t.Known?
    }
  }

  function KSig(s: Sig<ValType>): Sig<VType> {
    Sig(K(s.take), K(s.put))
  }

  /** The context in which the validator checks function `f`. */
  function Ctx(p: Program, env: Env, f: nat): (c: Context)
    requires p.Valid()
    ensures c.Valid()
  {
    var native := f < |p.funcs| && p.funcs[f].Native?;
    Context(
      seq(|p.types|, k requires 0 <= k < |p.types| => KSig(p.types[k])),
      seq(|p.funcs|, k requires 0 <= k < |p.funcs| => p.funcs[k].typeIdx),
      env.tables, env.memories, env.globals,
      if native then K(p.SigOf(f).take + p.funcs[f].locals) else [],
      if native then K(p.SigOf(f).put) else [])
  }

  /** Every function body is accepted and meets the side conditions. */
  ghost predicate Clean(p: Program, env: Env) {
    && p.Valid() && env.Valid()
    && forall f :: 0 <= f < |p.funcs| && p.funcs[f].Native? ==> CleanBody(Ctx(p, env, f), p.funcs[f].body)
  }

  /** Besides, every function body ends with its results on top. */
  ghost predicate Good(p: Program, env: Env) {
    && p.Valid() && env.Valid()
    && forall f :: 0 <= f < |p.funcs| && p.funcs[f].Native? ==> GoodBody(Ctx(p, env, f), p.funcs[f].body)
  }

  lemma GoodIsClean(p: Program, env: Env)
    requires Good(p, env)
    ensures Clean(p, env)
  {
    hide CheckBody, CleanSeq, Delivers;
  }

  predicate GlobalsTyped(env: Env, g: seq<Value>) {
    |g| == |env.globals| && forall k :: 0 <= k < |g| ==> env.globals[k].t == Known(g[k].Type())
  }

  // ----- typing of layered states -----

  function FuncOf(l: Layer): nat {
    match l
    case Base(_) => 0
    case Activation(f, _, _, _, _) => f
    case Code(_, _, _, below) => FuncOf(below)
  }

  function LabelTypes(k: Kind): seq<VType> {
    if k.BlockBody? then K(k.bt.Types()) else []
  }

  function Labels(l: Layer): seq<seq<VType>> {
    if l.Code? then [LabelTypes(l.kind)] + Labels(l.below) else []
  }

  /** The types a code layer promises to the layer below it. */
  function End(p: Program, l: Layer): seq<ValType>
    requires p.Valid() && l.Code?
  {
    if !l.kind.FuncBody? then l.kind.bt.Types()
    else if FuncOf(l) < |p.funcs| then p.SigOf(FuncOf(l)).put
    else []
  }

  /** The operands with which the checker leaves the body checked in context `c`. */
  function BodyEnd(c: Context, body: seq<Instr>): Ops
    requires c.Valid()
  {
    var r := CheckSeq(c, [[]], NOTHING, body);
    if r.Some? then r.value else STOPPED
  }

  function EndOf(p: Program, env: Env, f: nat): Ops
    requires p.Valid()
  {
    if f < |p.funcs| && p.funcs[f].Native? then BodyEnd(Ctx(p, env, f), p.funcs[f].body) else STOPPED
  }

  /** What is known of the end state `o` of the code of a layer that promises `end`:
      a function body ends as its check said, a block has exactly its results, and a
      loop, which keeps nothing, promises nothing or does not end. */
  predicate Closes(k: Kind, o: Ops, end: seq<ValType>, checked: Ops) {
    match k
    case FuncBody(_) => o == checked
    case BlockBody(_) => EndsWith(o, K(end))
    case LoopBody(_, _) => end == [] || o.poly
  }

  /** Why the code of a layer may go on: its kind, its promise, and the checked end
      of the function it belongs to. */
  datatype Goal = Goal(kind: Kind, end: seq<ValType>, checked: Ops)

  predicate Continues(c: Context, labels: seq<seq<VType>>, ts: seq<ValType>, code: seq<Instr>, g: Goal)
    requires c.Valid()
  {
    var r := CheckSeq(c, labels, Ops(K(ts), false), code);
    && r.Some? && Closes(g.kind, r.value, g.end, g.checked)
    && CleanSeq(c, labels, Ops(K(ts), false), code)
  }

  function GoalOf(p: Program, env: Env, l: Layer): Goal
    requires p.Valid() && l.Code?
  {
    Goal(l.kind, End(p, l), EndOf(p, env, FuncOf(l)))
  }

  predicate Linked(p: Program, env: Env, l: Layer)
    requires p.Valid() && l.Code?
  {
    match l.kind
    case FuncBody(n) => l.below.Activation? && n == |End(p, l)|
    case BlockBody(_) => l.below.Code?
    case LoopBody(bt, body) =>
      l.below.Code? && Continues(Ctx(p, env, FuncOf(l)), [[]] + Labels(l.below), [], body, GoalOf(p, env, l))
  }

  /** Once `extra` values arrive on top of `l`, everything that follows is typed
      and the run ends with results `res`. */
  predicate Accepts(p: Program, env: Env, res: seq<ValType>, l: Layer, extra: seq<ValType>)
    requires p.Valid()
    decreases l
  {
    match l
    case Base(ops) => Types(ops) + extra == res
    case Activation(f, coarity, locals, ops, below) =>
      && f < |p.funcs| && p.funcs[f].Native?
      && coarity == |p.SigOf(f).put|
      && Types(locals) == p.SigOf(f).take + p.funcs[f].locals
      && Types(ops) + extra == p.SigOf(f).put
      && Accepts(p, env, res, below, p.SigOf(f).put)
    case Code(_, ops, rest, below) =>
      && Linked(p, env, l)
      && Continues(Ctx(p, env, FuncOf(l)), Labels(l), Types(ops) + extra, rest, GoalOf(p, env, l))
      && Accepts(p, env, res, below, End(p, l))
  }

  lemma {:induction false} AddOpsAccepts(p: Program, env: Env, res: seq<ValType>, l: Layer, vs: seq<Value>)
    requires p.Valid() && Accepts(p, env, res, l, Types(vs))
    ensures Accepts(p, env, res, AddOps(l, vs), [])
  {
    hide Continues, Ctx, Types;
    assert Types(l.ops + vs) + [] == Types(l.ops) + Types(vs);
  }

  // ----- popping known types -----

  predicate Fits(take: seq<VType>, ts: seq<ValType>) {
    && |take| <= |ts|
    && var d := |ts| - |take|;
       forall k :: 0 <= k < |take| ==> take[k] == Unknown || take[k] == Known(ts[d + k])
  }

  predicate FitsTop(take: seq<VType>, ts: seq<ValType>)
    requires take != []
  {
    ts != [] && (take[|take| - 1] == Unknown || take[|take| - 1] == Known(ts[|ts| - 1]))
  }

  lemma FitsStep(take: seq<VType>, ts: seq<ValType>)
    requires take != []
    ensures Fits(take, ts) <==> FitsTop(take, ts) && Fits(take[..|take| - 1], ts[..|ts| - 1])
  {
    if FitsTop(take, ts) && Fits(take[..|take| - 1], ts[..|ts| - 1]) {
      var d, f, us := |ts| - |take|, take[..|take| - 1], ts[..|ts| - 1];
      forall k | 0 <= k < |take| ensures take[k] == Unknown || take[k] == Known(ts[d + k]) {
        if k < |f| {
          assert f[k] == take[k] && us[d + k] == ts[d + k];
        }
      }
    }
  }

  lemma PopStep(ts: seq<ValType>, take: seq<VType>)
    requires take != []
    ensures PopSeq(Ops(K(ts), false), take)
         == if FitsTop(take, ts) then PopSeq(Ops(K(ts[..|ts| - 1]), false), take[..|take| - 1]) else None
  {
    if ts != [] {
      assert K(ts)[..|ts| - 1] == K(ts[..|ts| - 1]);
    }
  }

  /** From known operands a pop succeeds exactly when the top operands have the
      expected types, and removes exactly those. */
  lemma {:induction false} PopKnown(ts: seq<ValType>, take: seq<VType>)
    ensures PopSeq(Ops(K(ts), false), take).Some? <==> Fits(take, ts)
    ensures Fits(take, ts) ==> PopSeq(Ops(K(ts), false), take).value == Ops(K(ts[..|ts| - |take|]), false)
    decreases |take|
  {
    if take == [] {
      assert ts[..|ts|] == ts;
    } else {
      FitsStep(take, ts);
      PopStep(ts, take);
      if FitsTop(take, ts) {
        PopKnown(ts[..|ts| - 1], take[..|take| - 1]);
        hide Fits, PopSeq;
        assert |take| <= |ts| ==> ts[..|ts| - 1][..|ts| - |take|] == ts[..|ts| - |take|];
      }
    }
  }

  lemma FitsKnown(take: seq<ValType>, ts: seq<ValType>)
    ensures Fits(K(take), ts) <==> |take| <= |ts| && ts[|ts| - |take|..] == take
  {
    if Fits(K(take), ts) {
      assert forall k :: 0 <= k < |take| ==> K(take)[k] == Known(ts[|ts| - |take| + k]);
    }
  }

  lemma PopsKnown(ts: seq<ValType>, take: seq<ValType>)
    ensures PopSeq(Ops(K(ts), false), K(take)).Some? <==> |take| <= |ts| && ts[|ts| - |take|..] == take
    ensures PopSeq(Ops(K(ts), false), K(take)).Some? ==>
      PopSeq(Ops(K(ts), false), K(take)).value == Ops(K(ts[..|ts| - |take|]), false)
  {
    hide Fits, PopSeq;
    PopKnown(ts, K(take));
    FitsKnown(take, ts);
  }

  lemma EndsKnown(ts: seq<ValType>, end: seq<ValType>)
    ensures EndsWith(Ops(K(ts), false), K(end)) <==> ts == end
  {
    hide PopSeq;
    PopsKnown(ts, end);
    if |ts| == |end| {
      assert ts[0..] == ts && ts[..0] == [] && K([]) == [];
    }
  }

  lemma KConcat(a: seq<ValType>, b: seq<ValType>)
    ensures K(a + b) == K(a) + K(b)
  {
  }

  /** The typing of a plain exchange on known operands. */
  lemma TransferKnown(ts: seq<ValType>, take: seq<ValType>, put: seq<ValType>)
    requires Transfer(Ops(K(ts), false), Sig(K(take), K(put))).Some?
    ensures |take| <= |ts| && ts[|ts| - |take|..] == take
    ensures Transfer(Ops(K(ts), false), Sig(K(take), K(put))).value == Ops(K(ts[..|ts| - |take|] + put), false)
  {
    hide PopSeq;
    PopsKnown(ts, take);
    KConcat(ts[..|ts| - |take|], put);
  }

  lemma DropKnown(ts: seq<ValType>)
    requires Transfer(Ops(K(ts), false), Sig([Unknown], [])).Some?
    ensures ts != [] && Transfer(Ops(K(ts), false), Sig([Unknown], [])).value == Ops(K(ts[..|ts| - 1]), false)
  {
    PopKnown(ts, [Unknown]);
  }
}
