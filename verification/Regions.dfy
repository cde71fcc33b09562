/** What happens while a block or loop is being executed: everything below its
    label height stays as it was, and it is left in one of four ways with
    exactly the promised values. */
module Regions {
  import opened Wasm
  import opened Typing
  import opened SideConditions
  import opened Machine
  import opened Layers
  import opened Soundness
  import opened Preservation
  import Refinement

  /** Equal up to the values of the local variables of the innermost activation. */
  predicate SameBelow(b: Layer, d: Layer) {
    match b
    case Base(_) => d == b
    case Activation(f, n, locals, ops, below) =>
      d.Activation? && |d.locals| == |locals| && d == Activation(f, n, d.locals, ops, below)
    case Code(kind, ops, rest, below) =>
      d.Code? && d.kind == kind && d.ops == ops && d.rest == rest && SameBelow(below, d.below)
  }

  /** Control is inside a block of kind `k` that was entered on top of `b`. */
  predicate Inside(l: Layer, b: Layer, k: Kind) {
    !l.Base? && ((l.Code? && l.kind == k && SameBelow(b, l.below)) || Inside(l.below, b, k))
  }

  /** The ways of leaving a block other than by a trap. */
  datatype Way = FellThrough | Branched(n: nat) | Returned

  function Landed(t: Layer, vs: seq<Value>): Layer
    requires t.Code?
  {
    var b := AddOps(t.below, vs);
    if t.kind.LoopBody? then Code(t.kind, [], t.kind.body, b) else b
  }

  /** The types that leaving a block of kind `k` on top of `d` delivers: a loop, whose
      end is its start, delivers none. */
  function Promise(p: Program, k: Kind, d: Layer): seq<ValType>
    requires p.Valid()
  {
    match k
    case FuncBody(_) => if FuncOf(d) < |p.funcs| then p.SigOf(FuncOf(d)).put else []
    case BlockBody(bt) => bt.Types()
    case LoopBody(_, _) => []
  }

  /** The block of kind `k` on top of `d` was left towards `l`, delivering `vs`. */
  predicate LeftBy(p: Program, l: Layer, d: Layer, k: Kind, w: Way, vs: seq<Value>)
    requires p.Valid()
  {
    match w
    case FellThrough => l == AddOps(d, vs) && |vs| == k.Coarity() && Types(vs) == Promise(p, k, d)
    case Branched(n) =>
      var t := Enclosing(d, n);
      t.Some? && l == Landed(t.value, vs) && |vs| == t.value.kind.Coarity()
      && Types(vs) == Promise(p, t.value.kind, t.value.below)
    case Returned =>
      var a := Caller(d);
      a.Some? && l == AddOps(a.value.below, vs) && |vs| == a.value.coarity
      && a.value.func < |p.funcs| && Types(vs) == p.SigOf(a.value.func).put
  }

  ghost predicate Left(p: Program, l: Layer, b: Layer, k: Kind)
    requires p.Valid()
  {
    exists d, w, vs :: SameBelow(b, d) && LeftBy(p, l, d, k, w, vs)
  }

  // ----- local variables -----

  lemma {:induction false} SameBelowSet(b: Layer, d: Layer, k: nat, v: Value)
    requires SameBelow(b, d) && Locals(d).Some? && k < |Locals(d).value|
    ensures SameBelow(b, SetLocal(d, k, v))
  {
    if d.Code? {
      SameBelowSet(b.below, d.below, k, v);
    }
  }

  lemma {:induction false} InsideSet(l: Layer, b: Layer, kind: Kind, k: nat, v: Value)
    requires Inside(l, b, kind) && Locals(l).Some? && k < |Locals(l).value|
    ensures Inside(SetLocal(l, k, v), b, kind) && !SetLocal(l, k, v).Base?
  {
    if l.Code? {
      if l.kind == kind && SameBelow(b, l.below) {
        SameBelowSet(b, l.below, k, v);
      } else {
        InsideSet(l.below, b, kind, k, v);
      }
    }
  }

  // ----- where branches and returns land -----

  /** Where the target of a branch lies relative to the block. */
  ghost predicate TargetPlace(b: Layer, k: Kind, t: Layer)
    requires t.Code?
  {
    || Inside(t.below, b, k)
    || (t.kind == k && SameBelow(b, t.below))
    || exists d, m: nat :: SameBelow(b, d) && Enclosing(d, m) == Some(t)
  }

  lemma {:induction false} InsideEnclosing(l: Layer, b: Layer, k: Kind, n: nat)
    requires Inside(l, b, k) && Enclosing(l, n).Some?
    ensures TargetPlace(b, k, Enclosing(l, n).value)
    decreases n
  {
    if l.kind == k && SameBelow(b, l.below) {
      if n > 0 {
        assert Enclosing(l.below, n - 1) == Enclosing(l, n);
      }
    } else if n > 0 {
      InsideEnclosing(l.below, b, k, n - 1);
    }
  }

  lemma {:induction false} InsideCaller(l: Layer, b: Layer, k: Kind)
    requires Inside(l, b, k) && Caller(l).Some?
    ensures Inside(Caller(l).value.below, b, k) || exists d :: SameBelow(b, d) && Caller(d) == Caller(l)
  {
    if l.Code? {
      if l.kind == k && SameBelow(b, l.below) {
        assert Caller(l.below) == Caller(l);
      } else {
        InsideCaller(l.below, b, k);
      }
    }
  }

  /** Operands are not part of where a layer stands. */
  lemma InsideAdd(l: Layer, b: Layer, k: Kind, vs: seq<Value>)
    requires Inside(l, b, k)
    ensures Inside(AddOps(l, vs), b, k)
  {
  }

  ghost predicate StaysOrLeaves(p: Program, r: Result, b: Layer, k: Kind)
    requires p.Valid()
  {
    r.Ok? ==> Inside(r.top, b, k) || Left(p, r.top, b, k)
  }

  lemma {:induction false} BranchPlace(p: Program, l: Layer, g: seq<Value>, b: Layer, k: Kind, n: nat)
    requires p.Valid() && Inside(l, b, k) && Enclosing(l, n).Some?
    requires var t := Enclosing(l, n).value;
             |l.ops| >= t.kind.Coarity() && Types(Keep(l.ops, t.kind.Coarity())) == Promise(p, t.kind, t.below)
    ensures StaysOrLeaves(p, StepBranch(l, g, n), b, k)
  {
    hide Types, Enclosing;
    var t := Enclosing(l, n).value;
    var vs := Keep(l.ops, t.kind.Coarity());
    var r := StepBranch(l, g, n).top;
    assert r == Landed(t, vs);
    InsideEnclosing(l, b, k, n);
    if Inside(t.below, b, k) {
      InsideAdd(t.below, b, k, vs);
    } else if t.kind == k && SameBelow(b, t.below) {
      if k.LoopBody? {
        assert t.below.ops + vs == t.below.ops;
        assert AddOps(t.below, vs) == t.below;
      } else {
        assert LeftBy(p, r, t.below, k, FellThrough, vs);
      }
    } else {
      var d, m: nat :| SameBelow(b, d) && Enclosing(d, m) == Some(t);
      assert LeftBy(p, r, d, k, Branched(m), vs);
    }
  }

  /** The values a return keeps are the results of the current function. */
  predicate ReturnTyped(p: Program, l: Layer)
    requires p.Valid()
  {
    var a := Caller(l);
    a.Some? && a.value.func < |p.funcs| && a.value.coarity <= |l.ops|
    && Types(Keep(l.ops, a.value.coarity)) == p.SigOf(a.value.func).put
  }

  lemma {:induction false} ReturnPlace(p: Program, l: Layer, g: seq<Value>, b: Layer, k: Kind)
    requires p.Valid() && Inside(l, b, k) && ReturnTyped(p, l)
    ensures StaysOrLeaves(p, StepReturn(l, g), b, k)
  {
    hide Caller;
    if StepReturn(l, g).Ok? {
      var a := Caller(l).value;
      var vs := Keep(l.ops, a.coarity);
      InsideCaller(l, b, k);
      if Inside(a.below, b, k) {
        InsideAdd(a.below, b, k, vs);
      } else {
        var d :| SameBelow(b, d) && Caller(d) == Caller(l);
        assert LeftBy(p, StepReturn(l, g).top, d, k, Returned, vs);
      }
    }
  }

  /** A typed branch delivers exactly the label's types. */
  lemma {:induction false} BranchTypes(p: Program, env: Env, res: seq<ValType>, l: Layer, n: nat)
    requires p.Valid() && Rooted(p, env, res, l)
    requires n < |Labels(l)| && Served(Ctx(p, env, FuncOf(l)), Labels(l), Ops(K(Types(l.ops)), false), n)
    requires PopSeq(Ops(K(Types(l.ops)), false), Labels(l)[n]).Some?
    ensures Enclosing(l, n).Some?
    ensures var t := Enclosing(l, n).value;
            |l.ops| >= t.kind.Coarity() && Types(Keep(l.ops, t.kind.Coarity())) == Promise(p, t.kind, t.below)
  {
    hide CheckOne, CheckSeq, CleanSeq, Accepts, PopSeq, K, Types, Ctx, Linked;
    EnclosingTyped(p, env, res, l, n);
    var t := Enclosing(l, n).value;
    assert K([]) == [];
    match t.kind
    case FuncBody(_) =>
      ResultsOf(p, env, res, t);
      PopsKnown(Types(l.ops), End(p, t));
      assert Types(Keep(l.ops, |End(p, t)|)) == Types(l.ops)[|l.ops| - |End(p, t)|..];
    case BlockBody(bt) =>
      PopsKnown(Types(l.ops), bt.Types());
      assert Types(Keep(l.ops, |bt.Types()|)) == Types(l.ops)[|l.ops| - |bt.Types()|..];
    case LoopBody(_, _) => assert Types(Keep(l.ops, 0)) == [];
  }

  lemma {:induction false} ReturnTypes(p: Program, env: Env, res: seq<ValType>, l: Layer)
    requires p.Valid() && Ready(p, env, res, l, Return)
    ensures ReturnTyped(p, l)
  {
    hide CheckSeq, CleanSeq, CleanOne, Accepts, PopSeq, K, Types, Linked, Caller, Ctx;
    ResultsOf(p, env, res, l);
    var put := p.SigOf(Caller(l).value.func).put;
    PopsKnown(Types(l.ops), put);
    assert Types(Keep(l.ops, |put|)) == Types(l.ops)[|l.ops| - |put|..];
  }

  lemma {:induction false} FinishTypes(p: Program, env: Env, res: seq<ValType>, l: Layer)
    requires p.Valid() && l.Activation? && Accepts(p, env, res, l, [])
    ensures ReturnTyped(p, l)
  {
    hide Types;
    assert Types(l.ops) + [] == Types(l.ops);
    assert Keep(l.ops, l.coarity) == l.ops;
  }

  // ----- one step -----

  lemma {:induction false} BranchInside(p: Program, env: Env, res: seq<ValType>, l: Layer, g: seq<Value>, i: Instr,
          o: Oracle, b: Layer, k: Kind)
    requires p.Valid() && Ready(p, env, res, l, i) && Inside(l, b, k) && (i.Br? || i.BrIf? || i.BrTable?)
    ensures StaysOrLeaves(p, StepInstr(p, l, g, i, o), b, k)
  {
    hide CheckSeq, CleanSeq, Accepts, PopSeq, K, Types, Ctx, Linked, StepBranch;
    if i.Br? {
      BranchTypes(p, env, res, l, i.depth);
      BranchPlace(p, l, g, b, k, i.depth);
    } else {
      ConditionTyped(l, g);
      var m := WithOps(l, Front(l.ops));
      SameRoot(p, env, res, l, m);
      assert Inside(m, b, k);
      var c := Last(l.ops).i32;
      if i.BrIf? && c != 0 {
        BranchTypes(p, env, res, m, i.depth);
        BranchPlace(p, m, g, b, k, i.depth);
      } else if i.BrTable? {
        var n := if c < |i.table| then i.table[c] else i.depth;
        BranchTypes(p, env, res, m, n);
        BranchPlace(p, m, g, b, k, n);
      }
    }
  }

  lemma {:induction false} CallInside(p: Program, l: Layer, g: seq<Value>, f: nat, o: Oracle, b: Layer, k: Kind)
    requires p.Valid() && l.Code? && Inside(l, b, k)
    ensures StaysOrLeaves(p, StepCall(p, l, g, f, o), b, k)
  {
    hide Exchange, SameBelow;
    var r := StepCall(p, l, g, f, o);
    if r.Ok? && p.funcs[f].Native? {
      assert Inside(r.top.below.below, b, k);
      assert Inside(r.top.below, b, k);
    }
  }

  lemma {:induction false} InstrInside(p: Program, env: Env, res: seq<ValType>, l: Layer, g: seq<Value>, i: Instr,
          o: Oracle, b: Layer, k: Kind)
    requires p.Valid() && Ready(p, env, res, l, i) && Inside(l, b, k)
    ensures StaysOrLeaves(p, StepInstr(p, l, g, i, o), b, k)
  {
    hide CheckSeq, CleanSeq, CheckOne, CleanOne, Accepts, Linked, Exec, StepBranch, StepReturn, StepCall, SameBelow,
         Left, Locals, SetLocal, Types, ReturnTyped, Ctx;
    assert l.Code?;
    match i
    case Return =>
      ReturnTypes(p, env, res, l);
      ReturnPlace(p, l, g, b, k);
    case Br(_) => BranchInside(p, env, res, l, g, i, o, b, k);
    case BrIf(_) => BranchInside(p, env, res, l, g, i, o, b, k);
    case BrTable(_, _) => BranchInside(p, env, res, l, g, i, o, b, k);
    case Call(f) => CallInside(p, l, g, f, o, b, k);
    case CallIndirect(_) =>
      if PopI32(Own(l, g)).Some? {
        var (n, c) := PopI32(Own(l, g)).value;
        if n < |p.table| && p.table[n].Some? {
          CallInside(p, WithOps(l, c.vals), g, p.table[n].value, o, b, k);
        }
      }
    case LocalSet(_) => LocalInside(p, l, g, i, b, k);
    case LocalTee(_) => LocalInside(p, l, g, i, b, k);
    case If(_, _, _) =>
      if PopI32(Own(l, g)).Some? {
        assert Inside(WithOps(l, PopI32(Own(l, g)).value.1.vals), b, k);
      }
    case _ =>
  }

  lemma {:induction false} LocalInside(p: Program, l: Layer, g: seq<Value>, i: Instr, b: Layer, k: Kind)
    requires p.Valid() && l.Code? && Inside(l, b, k) && (i.LocalSet? || i.LocalTee?)
    ensures StaysOrLeaves(p, StepLocals(l, g, i), b, k)
  {
    hide Locals, SetLocal, SameBelow;
    if StepLocals(l, g, i).Ok? {
      InsideSet(l, b, k, i.index, Last(l.ops));
    }
  }

  lemma {:induction false} ExitInside(p: Program, env: Env, res: seq<ValType>, l: Layer, b: Layer, k: Kind)
    requires Good(p, env) && l.Code? && l.rest == [] && Accepts(p, env, res, l, []) && Inside(l, b, k)
    ensures Exit(l, l).Some? && (Inside(Exit(l, l).value, b, k) || Left(p, Exit(l, l).value, b, k))
  {
    hide K, Types, Ctx, PopSeq, CleanSeq, Accepts, EndOf, Delivers;
    NeverShort(p, env, res, l);
    ExitSafe(p, env, res, l);
    if l.kind == k && SameBelow(b, l.below) {
      assert LeftBy(p, Exit(l, l).value, l.below, k, FellThrough, Keep(l.ops, k.Coarity()));
    }
  }

  /** One step inside a block stays inside it or leaves it in one of the four
      ways, delivering exactly the promised values. */
  lemma {:induction false} StepInside(p: Program, env: Env, res: seq<ValType>, l: Layer, g: seq<Value>, o: Oracle,
          b: Layer, k: Kind)
    requires Good(p, env) && Accepts(p, env, res, l, []) && Inside(l, b, k)
    ensures StaysOrLeaves(p, StepLayer(p, l, g, o), b, k)
  {
    hide CheckOne, CleanOne, K, Types, Ctx, Linked, StepInstr, StepReturn, Exit, SameBelow, Left, ReturnTyped;
    if l.Activation? {
      FinishTypes(p, env, res, l);
      ReturnPlace(p, l, g, b, k);
    } else if l.rest == [] {
      ExitInside(p, env, res, l, b, k);
    } else {
      var m := l.(rest := l.rest[1..]);
      assert Types(l.ops) + [] == Types(l.ops);
      SameRoot(p, env, res, l, m);
      assert Ready(p, env, res, m, l.rest[0]);
      assert Inside(m, b, k);
      InstrInside(p, env, res, m, g, l.rest[0], o, b, k);
    }
  }

  // ----- the machine's stacks -----

  /** First local slot of the innermost activation. */
  function LocalsFrom(b: Layer, g: seq<Value>): nat {
    if b.Base? then 0 else if b.Activation? then |Flatten(b.below, g).vals| else LocalsFrom(b.below, g)
  }

  function LocalsTo(b: Layer, g: seq<Value>): nat {
    if b.Base? then 0 else if b.Activation? then |Flatten(b.below, g).vals| + |b.locals| else LocalsTo(b.below, g)
  }

  /** A region of the machine: the stacks at the entry of a block, the block, the types
      that it and the blocks around it deliver, and the local slots of its function. */
  datatype Region = Region(
    entry: Config,
    kind: Kind,
    promise: seq<ValType>,
    around: seq<seq<ValType>>,
    results: seq<ValType>,
    from: nat,
    to: nat)

  /** What the blocks around deliver when they are branched to, the innermost first. */
  function Promises(p: Program, b: Layer): seq<seq<ValType>>
    requires p.Valid()
  {
    if b.Code? then [Promise(p, b.kind, b.below)] + Promises(p, b.below) else []
  }

  function RegionOf(p: Program, b: Layer, k: Kind, g: seq<Value>): Region
    requires p.Valid()
  {
    Region(Flatten(b, g), k, Promise(p, k, b), Promises(p, b), Promise(p, FuncBody(0), b),
           LocalsFrom(b, g), LocalsTo(b, g))
  }

  /** The first `n` values are those at the entry, apart from the local slots. */
  ghost predicate Kept(r: Region, c: Config, n: nat) {
    && n <= |c.vals| && n <= |r.entry.vals|
    && forall k :: 0 <= k < n && !(r.from <= k < r.to) ==> c.vals[k] == r.entry.vals[k]
  }

  /** Inside the region nothing below its label's height is gone or changed. */
  ghost predicate OpenRegion(r: Region, c: Config) {
    var b := r.entry;
    && Kept(r, c, |b.vals|) && b.labels < c.labels && b.frames <= c.frames
    && c.labels[|b.labels|] == Label(|b.vals|, r.kind.Coarity(), r.kind.Target())
  }

  /** Left by falling through: the entry's stacks and exactly the promised values. */
  ghost predicate Through(r: Region, c: Config) {
    var b := r.entry;
    && c.labels == b.labels && c.frames == b.frames && c.scopes == b.scopes
    && Kept(r, c, |b.vals|) && |c.vals| == |b.vals| + r.kind.Coarity() && Types(c.vals[|b.vals|..]) == r.promise
  }

  /** Left by a branch to the `n`-th label around it: the stacks below that label and
      as many values as it keeps; a loop is entered again. */
  ghost predicate Around(r: Region, c: Config, n: nat) {
    var b := r.entry;
    && n < |b.labels| && n < |r.around| && c.frames == b.frames
    && var t := b.labels[|b.labels| - n - 1];
    && Kept(r, c, t.height) && |c.vals| == t.height + t.coarity && Types(c.vals[t.height..]) == r.around[n]
    && c.labels == b.labels[..|b.labels| - if t.target.Some? then n else n + 1]
  }

  /** Left by a return: the caller's stacks and the results. */
  ghost predicate Out(r: Region, c: Config) {
    var b := r.entry;
    && b.frames != [] && c.frames == Front(b.frames)
    && var f := Last(b.frames);
    && f.lheight <= |b.labels| && c.labels == b.labels[..f.lheight]
    && f.vheight <= |b.vals| && |c.vals| == f.vheight + f.coarity && c.vals[..f.vheight] == b.vals[..f.vheight]
    && Types(c.vals[f.vheight..]) == r.results
  }

  ghost predicate ClosedRegion(r: Region, c: Config) {
    Through(r, c) || Out(r, c) || exists n :: Around(r, c, n)
  }

  lemma {:induction false} SameBelowOnStacks(p: Program, b: Layer, d: Layer, k: Kind, g: seq<Value>)
    requires p.Valid() && SameBelow(b, d)
    ensures var cb, cd := Flatten(b, g), Flatten(d, g);
            && |cb.vals| == |cd.vals| && cb.labels == cd.labels && cb.frames == cd.frames && cb.scopes == cd.scopes
            && Kept(RegionOf(p, b, k, g), cd, |cb.vals|)
            && FuncOf(b) == FuncOf(d) && Promises(p, b) == Promises(p, d)
  {
    if b.Code? {
      SameBelowOnStacks(p, b.below, d.below, k, g);
    }
  }

  lemma {:induction false} InsideOnStacks(p: Program, l: Layer, b: Layer, k: Kind, g: seq<Value>)
    requires p.Valid() && Inside(l, b, k)
    ensures OpenRegion(RegionOf(p, b, k, g), Flatten(l, g))
  {
    if l.Code? && l.kind == k && SameBelow(b, l.below) {
      SameBelowOnStacks(p, b, l.below, k, g);
    } else {
      InsideOnStacks(p, l.below, b, k, g);
    }
  }

  /** The values below the caller's frame are not even local slots. */
  lemma {:induction false} CallerKept(b: Layer, d: Layer, g: seq<Value>)
    requires SameBelow(b, d) && Caller(d).Some?
    ensures Caller(b).Some? && Caller(b).value.below == Caller(d).value.below
    ensures Caller(b).value.coarity == Caller(d).value.coarity && Caller(d).value.func == FuncOf(b)
  {
    if b.Code? {
      CallerKept(b.below, d.below, g);
    }
  }

  lemma {:induction false} LeftOnStacks(p: Program, l: Layer, b: Layer, k: Kind, g: seq<Value>)
    requires p.Valid() && Left(p, l, b, k)
    ensures ClosedRegion(RegionOf(p, b, k, g), Flatten(l, g))
  {
    hide Flatten, LocalsFrom, LocalsTo, Types;
    var d, w, vs :| SameBelow(b, d) && LeftBy(p, l, d, k, w, vs);
    SameBelowOnStacks(p, b, d, k, g);
    var r, c, cd := RegionOf(p, b, k, g), Flatten(l, g), Flatten(d, g);
    match w
    case FellThrough =>
      FlattenAdd(d, g, vs);
      assert c.vals[|cd.vals|..] == vs;
      assert Through(r, c);
    case Branched(n) => BranchedOnStacks(p, l, b, d, k, n, vs, g);
    case Returned => ReturnedOnStacks(p, l, b, d, k, vs, g);
  }

  lemma {:induction false} EnclosingPromise(p: Program, d: Layer, n: nat)
    requires p.Valid() && Enclosing(d, n).Some?
    ensures var t := Enclosing(d, n).value;
            n < |Promises(p, d)| && Promises(p, d)[n] == Promise(p, t.kind, t.below)
    decreases n
  {
    hide Promise;
    if n > 0 {
      EnclosingPromise(p, d.below, n - 1);
    }
  }

  lemma {:induction false} BranchedOnStacks(p: Program, l: Layer, b: Layer, d: Layer, k: Kind, n: nat,
          vs: seq<Value>, g: seq<Value>)
    requires p.Valid() && SameBelow(b, d) && LeftBy(p, l, d, k, Branched(n), vs)
    ensures Around(RegionOf(p, b, k, g), Flatten(l, g), n)
  {
    SameBelowOnStacks(p, b, d, k, g);
    Refinement.EnclosingOnStacks(d, g, n);
    EnclosingPromise(p, d, n);
    var t := Enclosing(d, n).value;
    var lower := AddOps(t.below, vs);
    FlattenAdd(t.below, g, vs);
    assert (Flatten(t.below, g).vals + vs)[|Flatten(t.below, g).vals|..] == vs;
    if t.kind.LoopBody? {
      assert vs == [];
      assert Flatten(t.below, g).vals + vs == Flatten(t.below, g).vals;
      assert Flatten(l, g).labels == Flatten(lower, g).labels + [Label(|Flatten(lower, g).vals|, 0, t.kind.Target())];
    }
  }

  lemma {:induction false} ReturnedOnStacks(p: Program, l: Layer, b: Layer, d: Layer, k: Kind, vs: seq<Value>,
          g: seq<Value>)
    requires p.Valid() && SameBelow(b, d) && LeftBy(p, l, d, k, Returned, vs)
    ensures Out(RegionOf(p, b, k, g), Flatten(l, g))
  {
    hide Flatten;
    CallerKept(b, d, g);
    Refinement.CallerOnStacks(b, g);
    FlattenAdd(Caller(d).value.below, g, vs);
    var lower := Flatten(Caller(d).value.below, g);
    assert (lower.vals + vs)[|lower.vals|..] == vs;
  }

  // ----- whole runs of the machine -----

  /** A state of the machine inside a typed block. */
  ghost predicate Running(p: Program, env: Env, res: seq<ValType>, b: Layer, k: Kind, c: Config)
    requires p.Valid()
  {
    GlobalsTyped(env, c.globals)
    && exists l :: c == Flatten(l, c.globals) && Accepts(p, env, res, l, []) && Inside(l, b, k)
  }

  /** The stacks at entry do not depend on the globals, which may change meanwhile. */
  lemma SameRegion(p: Program, b: Layer, k: Kind, g: seq<Value>, h: seq<Value>, c: Config)
    requires p.Valid()
    ensures OpenRegion(RegionOf(p, b, k, g), c) == OpenRegion(RegionOf(p, b, k, h), c)
    ensures ClosedRegion(RegionOf(p, b, k, g), c) == ClosedRegion(RegionOf(p, b, k, h), c)
  {
    hide Flatten, Types;
    FlattenGlobals(b, g, h);
    SameSlots(b, g, h);
    var r, q := RegionOf(p, b, k, g), RegionOf(p, b, k, h);
    assert forall n: nat :: Around(r, c, n) == Around(q, c, n);
  }

  lemma {:induction false} SameSlots(b: Layer, g: seq<Value>, h: seq<Value>)
    ensures LocalsFrom(b, g) == LocalsFrom(b, h) && LocalsTo(b, g) == LocalsTo(b, h)
  {
    hide Flatten;
    if !b.Base? {
      FlattenGlobals(b.below, g, h);
      SameSlots(b.below, g, h);
    }
  }

  lemma {:induction false} RunningStep(p: Program, env: Env, res: seq<ValType>, b: Layer, k: Kind, c: Config,
          o: Oracle, g: seq<Value>)
    requires Good(p, env) && Running(p, env, res, b, k, c)
    ensures c.scopes != [] && OpenRegion(RegionOf(p, b, k, g), c)
    ensures var r := Step(p, c, o);
            && !r.Stuck?
            && (r.Next? ==> Running(p, env, res, b, k, r.cfg) || ClosedRegion(RegionOf(p, b, k, g), r.cfg))
  {
    var l :| c == Flatten(l, c.globals) && Accepts(p, env, res, l, []) && Inside(l, b, k);
    assert c.scopes != [] && !l.Base?;
    hide Step, StepLayer, Accepts, GlobalsTyped, Inside, OpenRegion, ClosedRegion, RegionOf, Flatten;
    InsideOnStacks(p, l, b, k, c.globals);
    SameRegion(p, b, k, g, c.globals, c);
    StepSafe(p, env, res, l, c.globals, o);
    Refinement.StepRefines(p, l, c.globals, o);
    StepInside(p, env, res, l, c.globals, o, b, k);
    var r := StepLayer(p, l, c.globals, o);
    if r.Ok? && !Inside(r.top, b, k) {
      LeftOnStacks(p, r.top, b, k, r.globals);
      SameRegion(p, b, k, g, r.globals, Flatten(r.top, r.globals));
    }
  }

  /** Soundness of a block or loop on every run of the machine: there is a first moment
      `e` at which it has been left by falling through, a branch or a return, with
      values of exactly the promised types on top of what was there at entry, or the
      run traps; before it, and in a run without such a moment, the region is open. */
  lemma {:induction false} BlockExecution(p: Program, env: Env, res: seq<ValType>, b: Layer, k: Kind, c: Config,
          os: seq<Oracle>, g: seq<Value>)
    returns (e: nat)
    requires Good(p, env) && Running(p, env, res, b, k, c)
    ensures 0 < e <= |os| + 1
    ensures forall i :: 0 <= i < e ==>
              Run(p, c, os[..i]).Next? && OpenRegion(RegionOf(p, b, k, g), Run(p, c, os[..i]).cfg)
    ensures e <= |os| ==>
              var r := Run(p, c, os[..e]);
              r.Trap? || (r.Next? && ClosedRegion(RegionOf(p, b, k, g), r.cfg))
    decreases |os|
  {
    hide Step, Running, OpenRegion, ClosedRegion, RegionOf;
    var o := if os == [] then Oracle(false, 0) else os[0];
    RunningStep(p, env, res, b, k, c, o, g);
    assert Run(p, c, os[..0]) == Next(c);
    if os == [] {
      e := 1;
    } else {
      var r := Step(p, c, o);
      if r.Next? && Running(p, env, res, b, k, r.cfg) {
        var n := BlockExecution(p, env, res, b, k, r.cfg, os[1..], g);
        e := n + 1;
        forall i | 0 < i <= |os| ensures Run(p, c, os[..i]) == Run(p, r.cfg, os[1..][..i - 1]) {
          assert os[..i][1..] == os[1..][..i - 1];
        }
      } else {
        e := 1;
        assert os[..1][1..] == [];
        assert Run(p, c, os[..1]) == r;
      }
    }
  }

  /** Executing a block or loop instruction in a typed state begins such a region. */
  lemma {:induction false} BlockBegins(p: Program, env: Env, res: seq<ValType>, l: Layer, g: seq<Value>, o: Oracle)
    requires Good(p, env) && Accepts(p, env, res, l, []) && GlobalsTyped(env, g)
    requires l.Code? && l.rest != [] && (l.rest[0].Block? || l.rest[0].Loop?)
    ensures var i, r := l.rest[0], Step(p, Flatten(l, g), o);
            var k := if i.Block? then BlockBody(i.bt) else LoopBody(i.bt, i.body);
            r.Next? && Running(p, env, res, l.(rest := l.rest[1..]), k, r.cfg)
  {
    hide Step, Accepts, GlobalsTyped, Flatten, Types;
    StepSafe(p, env, res, l, g, o);
    Refinement.StepRefines(p, l, g, o);
    var i, m := l.rest[0], l.(rest := l.rest[1..]);
    var k := if i.Block? then BlockBody(i.bt) else LoopBody(i.bt, i.body);
    var top := Code(k, [], i.body, m);
    assert StepLayer(p, l, g, o) == Ok(top, g);
    SameBelowSelf(m);
    assert Inside(top, m, k);
  }

  lemma SameBelowSelf(b: Layer)
    ensures SameBelow(b, b)
  {
  }
}
