/** The label, frame and scope stacks move in lockstep on every run of accepted
    code, whatever happens to the values. */
module Lockstep {
  import opened Wasm
  import opened Typing
  import opened Machine

  /** Every branch in `code` names one of `d` labels, or a block nested in `code`. */
  predicate BranchesBelow(code: seq<Instr>, d: nat)
    decreases code, 0
  {
    forall k :: 0 <= k < |code| ==> BranchBelow(code[k], d)
  }

  predicate BranchBelow(i: Instr, d: nat)
    decreases i, 1
  {
    match i
    case Block(_, body) => BranchesBelow(body, d + 1)
    case Loop(_, body) => BranchesBelow(body, d + 1)
    case If(_, thn, els) => BranchesBelow(thn, d + 1) && BranchesBelow(els, d + 1)
    case Br(n) => n < d
    case BrIf(n) => n < d
    case BrTable(table, n) => n < d && forall k :: 0 <= k < |table| ==> table[k] < d
    case _ => true
  }

  /** Accepted code only branches to labels that the checker knows. */
  lemma {:induction false} AcceptedBranches(c: Context, labels: seq<seq<VType>>, o: Ops, code: seq<Instr>)
    requires c.Valid() && CheckSeq(c, labels, o, code).Some?
    ensures BranchesBelow(code, |labels|)
    decreases code, 0
  {
    if code != [] {
      var o1 := CheckOne(c, labels, o, code[0]).value;
      AcceptedBranch(c, labels, o, code[0]);
      AcceptedBranches(c, labels, o1, code[1..]);
      forall k | 0 <= k < |code| ensures BranchBelow(code[k], |labels|) {
        if k > 0 {
          assert code[k] == code[1..][k - 1];
        }
      }
    }
  }

  lemma {:induction false} AcceptedBranch(c: Context, labels: seq<seq<VType>>, o: Ops, i: Instr)
    requires c.Valid() && CheckOne(c, labels, o, i).Some?
    ensures BranchBelow(i, |labels|)
    decreases i, 1
  {
    match i
    case Block(bt, body) => AcceptedBranches(c, [K(bt.Types())] + labels, NOTHING, body);
    case Loop(bt, body) => AcceptedBranches(c, [[]] + labels, NOTHING, body);
    case If(bt, thn, els) =>
      AcceptedBranches(c, [K(bt.Types())] + labels, NOTHING, thn);
      if els != [] {
        AcceptedBranches(c, [K(bt.Types())] + labels, NOTHING, els);
      }
    case _ =>
  }

  predicate IsConstant(code: seq<Instr>) {
    forall k :: 0 <= k < |code| ==> code[k].Const? || code[k].GlobalGet?
  }

  /** At most one constant expression at the bottom, evaluated under the frames
      `base`: none, or the frame of the module being instantiated. Above it, per
      frame, one FunctionCall scope followed by one Block scope per label of that
      frame, whose code only branches to labels of that frame. */
  predicate Locked(scopes: seq<Scope>, labels: seq<Label>, frames: seq<Frame>, base: seq<Frame>)
    decreases |scopes|
  {
    if scopes == [] then labels == [] && frames == base
    else
      var s := Last(scopes);
      match s.kind
      case Expression => |scopes| == 1 && labels == [] && frames == base && IsConstant(s.rest)
      case FunctionCall =>
        && s.rest == [] && |frames| > |base| && Last(frames).lheight == |labels|
        && Locked(Front(scopes), labels, Front(frames), base)
      case BlockScope =>
        && |frames| > |base| && Last(frames).lheight < |labels|
        && BranchesBelow(s.rest, |labels| - Last(frames).lheight)
        && TargetBelow(Last(labels), |labels| - Last(frames).lheight)
        && Locked(Front(scopes), Front(labels), frames, base)
  }

  predicate TargetBelow(l: Label, d: nat) {
    l.target.Some? ==> l.target.value.Loop? && BranchesBelow(l.target.value.body, d)
  }

  predicate LockedConfig(c: Config, base: seq<Frame>) {
    Locked(c.scopes, c.labels, c.frames, base)
  }

  /** Every function body only branches to its own blocks or its function label. */
  ghost predicate Closed(p: Program) {
    && p.Valid()
    && forall f :: 0 <= f < |p.funcs| && p.funcs[f].Native? ==> BranchesBelow(p.funcs[f].body, 1)
  }

  /** Popping labels of the current frame pops exactly their Block scopes. */
  lemma {:induction false} PopLocked(scopes: seq<Scope>, labels: seq<Label>, frames: seq<Frame>, n: nat,
          base: seq<Frame>)
    requires Locked(scopes, labels, frames, base) && |frames| > |base| && Last(frames).lheight + n <= |labels|
    ensures n <= |scopes| && Locked(scopes[..|scopes| - n], labels[..|labels| - n], frames, base)
    ensures forall k :: |scopes| - n <= k < |scopes| ==> scopes[k].kind == BlockScope
    ensures n > 0 ==> TargetBelow(labels[|labels| - n], |labels| - n + 1 - Last(frames).lheight)
    decreases n
  {
    hide BranchesBelow;
    if n == 0 {
      assert scopes[..|scopes|] == scopes && labels[..|labels|] == labels;
    } else {
      PopLocked(Front(scopes), Front(labels), frames, n - 1, base);
      assert Front(scopes)[..|scopes| - n] == scopes[..|scopes| - n];
      assert Front(labels)[..|labels| - n] == labels[..|labels| - n];
    }
  }

  /** Leaving a function removes its labels, their scopes and its own scope. */
  lemma {:induction false} LeaveLocked(c: Config, base: seq<Frame>)
    requires LockedConfig(c, base) && |c.frames| > |base|
    ensures LeaveFunction(c).Next? ==> LockedConfig(LeaveFunction(c).cfg, base)
  {
    hide BranchesBelow;
    if LeaveFunction(c).Next? {
      var n := |c.labels| - Last(c.frames).lheight;
      PopLocked(c.scopes, c.labels, c.frames, n, base);
      var s := c.scopes[..|c.scopes| - n];
      assert Front(s) == DropScopes(c.scopes, n + 1);
    }
  }

  lemma {:induction false} EnterLocked(c: Config, coarity: nat, target: Option<Instr>, body: seq<Instr>,
          base: seq<Frame>)
    requires LockedConfig(c, base) && |c.frames| > |base| && Last(c.frames).lheight <= |c.labels|
    requires BranchesBelow(body, |c.labels| + 1 - Last(c.frames).lheight)
    requires TargetBelow(Label(|c.vals|, coarity, target), |c.labels| + 1 - Last(c.frames).lheight)
    ensures LockedConfig(EnterBlock(c, coarity, target, body), base)
  {
    hide BranchesBelow;
    var d := EnterBlock(c, coarity, target, body);
    assert Front(d.scopes) == c.scopes && Front(d.labels) == c.labels;
  }

  /** A branch to a label of the current frame stays inside the function: it pops
      only Block scopes and only labels of this frame. */
  lemma {:induction false} BranchLocked(c: Config, n: nat, base: seq<Frame>)
    requires LockedConfig(c, base) && |c.frames| > |base| && n + Last(c.frames).lheight < |c.labels|
    ensures n < |c.scopes| && forall k :: |c.scopes| - n - 1 <= k < |c.scopes| ==> c.scopes[k].kind == BlockScope
    ensures Branch(c, n).Next? ==>
      var d := Branch(c, n).cfg; LockedConfig(d, base) && d.frames == c.frames && Last(d.frames).lheight <= |d.labels|
  {
    hide BranchesBelow;
    PopLocked(c.scopes, c.labels, c.frames, n + 1, base);
    if Branch(c, n).Next? {
      var l := c.labels[|c.labels| - n - 1];
      var d := PopLabels(c, n + 1).cfg.(scopes := DropScopes(c.scopes, n + 1));
      assert LockedConfig(d, base);
      if l.target.Some? {
        EnterLocked(d, 0, l.target, l.target.value.body, base);
      }
    }
  }

  lemma {:induction false} CallLocked(p: Program, c: Config, f: nat, o: Oracle, base: seq<Frame>)
    requires Closed(p) && LockedConfig(c, base)
    ensures EnterFunction(p, c, f, o).Next? ==> LockedConfig(EnterFunction(p, c, f, o).cfg, base)
  {
    hide BranchesBelow, MakeValues, Types;
    var r := EnterFunction(p, c, f, o);
    if r.Next? && p.funcs[f].Native? {
      var s := p.SigOf(f);
      var d := c.(frames := c.frames + [Frame(|c.vals| - |s.take|, |c.labels|, |s.put|)],
                  vals := c.vals + MakeValues(p.funcs[f].locals, 0),
                  scopes := c.scopes + [Scope(FunctionCall, [])]);
      assert Front(d.scopes) == c.scopes && Front(d.frames) == c.frames;
      assert LockedConfig(d, base);
      EnterLocked(d, |s.put|, None, p.funcs[f].body, base);
    }
  }

  /** Taking out the next instruction keeps the rest of the scope closed. */
  lemma {:induction false} FetchLocked(c: Config, base: seq<Frame>)
    requires LockedConfig(c, base) && c.scopes != [] && Last(c.scopes).rest != []
    ensures LockedConfig(Fetched(c), base)
  {
    var s := Last(c.scopes);
    var d := Fetched(c);
    assert Front(d.scopes) == Front(c.scopes);
    assert forall k :: 0 <= k < |s.rest[1..]| ==> s.rest[1..][k] == s.rest[k + 1];
  }

  /** Values do not matter. */
  lemma ValuesUnlocked(c: Config, base: seq<Frame>)
    requires LockedConfig(c, base)
    ensures match PopI32(c)
            case None => true
            case Some((_, d)) => LockedConfig(d, base) && d.frames == c.frames && d.labels == c.labels
  {
  }

  lemma {:induction false} PoppingLocked(p: Program, c: Config, i: Instr, o: Oracle, base: seq<Frame>)
    requires Closed(p) && LockedConfig(c, base) && (i.If? || i.BrIf? || i.BrTable? || i.CallIndirect?)
    requires |c.frames| > |base| && Last(c.frames).lheight < |c.labels|
    requires BranchBelow(i, |c.labels| - Last(c.frames).lheight)
    ensures Exec(p, c, i, o).Next? ==> LockedConfig(Exec(p, c, i, o).cfg, base)
  {
    hide BranchesBelow, Locked, EnterFunction, Branch, LeaveFunction;
    ValuesUnlocked(c, base);
    if PopI32(c).Some? {
      var (k, d) := PopI32(c).value;
      match i
      case If(bt, thn, els) => EnterLocked(d, |bt.Types()|, None, if k != 0 then thn else els, base);
      case BrIf(n) => BranchLocked(d, n, base);
      case BrTable(table, n) => BranchLocked(d, if k < |table| then table[k] else n, base);
      case CallIndirect(x) =>
        if k < |p.table| && p.table[k].Some? {
          CallLocked(p, d, p.table[k].value, o, base);
        }
    }
  }

  lemma {:induction false} InstrLocked(p: Program, c: Config, i: Instr, o: Oracle, base: seq<Frame>)
    requires Closed(p) && LockedConfig(c, base)
    requires if |c.frames| <= |base| then i.Const? || i.GlobalGet?
             else Last(c.frames).lheight < |c.labels| && BranchBelow(i, |c.labels| - Last(c.frames).lheight)
    ensures Exec(p, c, i, o).Next? ==> LockedConfig(Exec(p, c, i, o).cfg, base)
  {
    hide BranchesBelow, Locked, EnterFunction, Branch, LeaveFunction;
    if i.If? || i.BrIf? || i.BrTable? || i.CallIndirect? {
      PoppingLocked(p, c, i, o, base);
    } else {
      match i
      case Return => LeaveLocked(c, base);
      case Block(bt, body) => EnterLocked(c, |bt.Types()|, None, body, base);
      case Loop(_, body) => EnterLocked(c, 0, Some(i), body, base);
      case Br(n) => BranchLocked(c, n, base);
      case Call(f) => CallLocked(p, c, f, o, base);
      case _ =>
    }
  }

  lemma {:induction false} LeaveScopeLocked(c: Config, base: seq<Frame>)
    requires LockedConfig(c, base) && c.scopes != []
    ensures LeaveScope(c).Next? ==> LockedConfig(LeaveScope(c).cfg, base)
  {
    hide BranchesBelow;
    match Last(c.scopes).kind
    case FunctionCall => LeaveLocked(c, base);
    case BlockScope =>
      PopLocked(c.scopes, c.labels, c.frames, 1, base);
    case Expression =>
  }

  lemma {:induction false} StepLocked(p: Program, c: Config, o: Oracle, base: seq<Frame>)
    requires Closed(p) && LockedConfig(c, base) && c.scopes != []
    ensures Step(p, c, o).Next? ==> LockedConfig(Step(p, c, o).cfg, base)
  {
    var s := Last(c.scopes);
    if s.rest == [] {
      LeaveScopeLocked(c, base);
    } else {
      FetchLocked(c, base);
      InstrLocked(p, Fetched(c), s.rest[0], o, base);
    }
  }

  /** The invariant over every run; when the scopes are exhausted the label stack is
      empty and only the frames below the run are left. */
  lemma {:induction false} RunLocked(p: Program, c: Config, os: seq<Oracle>, base: seq<Frame>)
    requires Closed(p) && LockedConfig(c, base)
    ensures Run(p, c, os).Next? ==>
      var d := Run(p, c, os).cfg; LockedConfig(d, base) && (d.scopes == [] ==> d.labels == [] && d.frames == base)
    decreases |os|
  {
    hide Step, BranchesBelow;
    if os != [] && c.scopes != [] {
      StepLocked(p, c, os[0], base);
      if Step(p, c, os[0]).Next? {
        RunLocked(p, Step(p, c, os[0]).cfg, os[1..], base);
      }
    }
  }
}
