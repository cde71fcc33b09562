/** Dead code is checked more leniently than live code, never more strictly. */
module Subsumption {
  import opened Wasm
  import opened Typing

  /** `u` stands for `t`: the same type, or Unknown for any type. */
  predicate Matches(u: VType, t: VType) {
    u == Unknown || u == t
  }

  /** `u` asks for less than `o`: it holds a top part of the operands of `o`, Unknown
      standing for any type; all of them unless it is unreachable. */
  ghost predicate Loosens(u: Ops, o: Ops) {
    && |u.vals| <= |o.vals| && (u.poly || (|u.vals| == |o.vals| && !o.poly))
    && var d := |o.vals| - |u.vals|;
       forall k :: 0 <= k < |u.vals| ==> Matches(u.vals[k], o.vals[d + k])
  }

  /** `u` is unreachable and holds only a top part of the operands of `o`. */
  ghost predicate Covers(u: Ops, o: Ops) {
    u.poly && Loosens(u, o)
  }

  /** The two states stay related, and unreachability is not taken back. */
  ghost predicate Stays(u: Ops, u1: Ops, o1: Ops) {
    Loosens(u1, o1) && (u.poly ==> u1.poly)
  }

  lemma PopAnyCovers(u: Ops, o: Ops)
    requires Loosens(u, o) && PopAny(o).ok
    ensures PopAny(u).ok && Stays(u, PopAny(u).rest, PopAny(o).rest)
    ensures Matches(PopAny(u).t, PopAny(o).t)
  {
  }

  lemma PopExpectCovers(u: Ops, o: Ops, eu: VType, eo: VType)
    requires Loosens(u, o) && Matches(eu, eo) && PopExpect(o, eo).ok
    ensures PopExpect(u, eu).ok && Stays(u, PopExpect(u, eu).rest, PopExpect(o, eo).rest)
    ensures Matches(PopExpect(u, eu).t, PopExpect(o, eo).t)
  {
    PopAnyCovers(u, o);
  }

  /** Also when the pop fails, as after the condition of an `if`. */
  lemma DiscardCovers(u: Ops, o: Ops, e: VType)
    requires Loosens(u, o)
    ensures Stays(u, PopExpect(u, e).rest, PopExpect(o, e).rest)
  {
    if PopAny(o).ok {
      PopAnyCovers(u, o);
    }
  }

  lemma {:induction false} PopSeqCovers(u: Ops, o: Ops, ts: seq<VType>)
    requires Loosens(u, o) && PopSeq(o, ts).Some?
    ensures PopSeq(u, ts).Some? && Stays(u, PopSeq(u, ts).value, PopSeq(o, ts).value)
    decreases |ts|
  {
    if ts != [] {
      var e := ts[|ts| - 1];
      PopExpectCovers(u, o, e, e);
      PopSeqCovers(PopExpect(u, e).rest, PopExpect(o, e).rest, ts[..|ts| - 1]);
    }
  }

  lemma PushCovers(u: Ops, o: Ops, us: seq<VType>, ts: seq<VType>)
    requires Loosens(u, o) && |us| == |ts|
    requires forall k :: 0 <= k < |ts| ==> Matches(us[k], ts[k])
    ensures Stays(u, Push(u, us), Push(o, ts))
  {
  }

  lemma TransferCovers(u: Ops, o: Ops, s: Sig<VType>)
    requires Loosens(u, o) && Transfer(o, s).Some?
    ensures Transfer(u, s).Some? && Stays(u, Transfer(u, s).value, Transfer(o, s).value)
  {
    PopSeqCovers(u, o, s.take);
    PushCovers(PopSeq(u, s.take).value, PopSeq(o, s.take).value, s.put, s.put);
  }

  lemma SelectCovers(u: Ops, o: Ops)
    requires Loosens(u, o) && CheckSelect(o).Some?
    ensures CheckSelect(u).Some? && Stays(u, CheckSelect(u).value, CheckSelect(o).value)
  {
    var e := Known(I32);
    PopExpectCovers(u, o, e, e);
    var u1, o1 := PopExpect(u, e).rest, PopExpect(o, e).rest;
    PopAnyCovers(u1, o1);
    var u2, o2 := PopAny(u1), PopAny(o1);
    PopExpectCovers(u2.rest, o2.rest, u2.t, o2.t);
    var u3, o3 := PopExpect(u2.rest, u2.t), PopExpect(o2.rest, o2.t);
    PushCovers(u3.rest, o3.rest, [u3.t], [o3.t]);
  }

  lemma StepCovers(c: Context, labels: seq<seq<VType>>, u: Ops, o: Ops, i: Instr)
    requires c.Valid() && Loosens(u, o) && CheckOne(c, labels, o, i).Some?
    ensures CheckOne(c, labels, u, i).Some?
    ensures Stays(u, CheckOne(c, labels, u, i).value, CheckOne(c, labels, o, i).value)
  {
    var e := Known(I32);
    match i
    case Unreachable =>
    case Return => PopSeqCovers(u, o, c.results);
    case Block(bt, _) => PushCovers(u, o, K(bt.Types()), K(bt.Types()));
    case Loop(bt, _) => PushCovers(u, o, K(bt.Types()), K(bt.Types()));
    case If(bt, _, _) =>
      DiscardCovers(u, o, e);
      PushCovers(PopExpect(u, e).rest, PopExpect(o, e).rest, K(bt.Types()), K(bt.Types()));
    case Br(n) => PopSeqCovers(u, o, labels[n]);
    case BrIf(n) =>
      PopExpectCovers(u, o, e, e);
      TransferCovers(PopExpect(u, e).rest, PopExpect(o, e).rest, Sig(labels[n], labels[n]));
    case BrTable(_, n) =>
      PopExpectCovers(u, o, e, e);
      PopSeqCovers(PopExpect(u, e).rest, PopExpect(o, e).rest, labels[n]);
    case Select => SelectCovers(u, o);
    case _ => TransferCovers(u, o, PlainSig(c, i).value);
  }

  /** Whatever is accepted from `o` is accepted from a state that asks for less. */
  lemma {:induction false} Monotone(c: Context, labels: seq<seq<VType>>, u: Ops, o: Ops, code: seq<Instr>)
    requires c.Valid() && Loosens(u, o) && CheckSeq(c, labels, o, code).Some?
    ensures CheckSeq(c, labels, u, code).Some?
    ensures Stays(u, CheckSeq(c, labels, u, code).value, CheckSeq(c, labels, o, code).value)
    decreases |code|
  {
    hide CheckOne;
    if code != [] {
      StepCovers(c, labels, u, o, code[0]);
      Monotone(c, labels, CheckOne(c, labels, u, code[0]).value, CheckOne(c, labels, o, code[0]).value, code[1..]);
    }
  }

  /** Whatever is accepted from a live frame is accepted from the same frame
      marked unreachable and holding only a top part of the operands, and the end
      states are related in the same way. */
  lemma UnreachableSubsumption(c: Context, labels: seq<seq<VType>>, u: Ops, o: Ops, code: seq<Instr>)
    requires c.Valid() && Covers(u, o) && CheckSeq(c, labels, o, code).Some?
    ensures CheckSeq(c, labels, u, code).Some?
    ensures Covers(CheckSeq(c, labels, u, code).value, CheckSeq(c, labels, o, code).value)
  {
    hide CheckSeq;
    Monotone(c, labels, u, o, code);
  }

  /** In particular a frame that can be closed can still be closed in dead code. */
  lemma ClosingSubsumption(c: Context, labels: seq<seq<VType>>, u: Ops, o: Ops, code: seq<Instr>, ts: seq<VType>)
    requires c.Valid() && Covers(u, o) && CheckSeq(c, labels, o, code).Some?
    requires EndsWith(CheckSeq(c, labels, o, code).value, ts)
    ensures CheckSeq(c, labels, u, code).Some? && EndsWith(CheckSeq(c, labels, u, code).value, ts)
  {
    UnreachableSubsumption(c, labels, u, o, code);
    PopSeqCovers(CheckSeq(c, labels, u, code).value, CheckSeq(c, labels, o, code).value, ts);
  }

  /** Unreachability is never taken back within a frame. */
  lemma StaysUnreachable(c: Context, labels: seq<seq<VType>>, o: Ops, code: seq<Instr>)
    requires c.Valid() && o.poly && CheckSeq(c, labels, o, code).Some?
    ensures CheckSeq(c, labels, o, code).value.poly
  {
    UnreachableSubsumption(c, labels, o, o, code);
  }
}
