/** The outermost label. In the WebAssembly Core Specification it carries the
    results of the function; the checker gives it no types. When does that change
    the verdict? */
module Standard {
  import opened Wasm
  import opened Typing
  import opened Subsumption

  /** Labels of `d` blocks and the function: as the checker has them, and as the
      standard has them. */
  function Loose(ls: seq<seq<VType>>): seq<seq<VType>> {
    ls + [[]]
  }

  function Strict(c: Context, ls: seq<seq<VType>>): seq<seq<VType>> {
    ls + [c.results]
  }

  lemma Nested(c: Context, ls: seq<seq<VType>>, l: seq<VType>)
    ensures [l] + Loose(ls) == Loose([l] + ls) && [l] + Strict(c, ls) == Strict(c, [l] + ls)
  {
  }

  // ----- code that does not branch to the function label -----

  /** No branch in `code`, at depth `d`, names the function label. */
  predicate Inner(code: seq<Instr>, d: nat)
    decreases code, 0
  {
    forall k :: 0 <= k < |code| ==> InnerOne(code[k], d)
  }

  predicate InnerOne(i: Instr, d: nat)
    decreases i, 1
  {
    match i
    case Block(_, body) => Inner(body, d + 1)
    case Loop(_, body) => Inner(body, d + 1)
    case If(_, thn, els) => Inner(thn, d + 1) && Inner(els, d + 1)
    case Br(n) => n != d
    case BrIf(n) => n != d
    case BrTable(table, n) => n != d && forall k :: 0 <= k < |table| ==> table[k] != d
    case _ => true
  }

  lemma InnerTail(code: seq<Instr>, d: nat)
    requires code != [] && Inner(code, d)
    ensures InnerOne(code[0], d) && Inner(code[1..], d)
  {
    hide InnerOne;
    assert forall k :: 0 <= k < |code| - 1 ==> code[1..][k] == code[k + 1];
  }

  lemma {:induction false} SameBlock(c: Context, ls: seq<seq<VType>>, l: seq<VType>, body: seq<Instr>, bt: BlockType)
    requires c.Valid() && (Inner(body, |ls| + 1) || c.results == [])
    ensures CheckBlock(c, [l] + Loose(ls), body, bt) == CheckBlock(c, [l] + Strict(c, ls), body, bt)
    decreases body, 1
  {
    hide CheckSeq, Inner;
    Nested(c, ls, l);
    SameSeq(c, [l] + ls, NOTHING, body);
  }

  lemma {:induction false} SameOne(c: Context, ls: seq<seq<VType>>, o: Ops, i: Instr)
    requires c.Valid() && (InnerOne(i, |ls|) || c.results == [])
    ensures CheckOne(c, Loose(ls), o, i) == CheckOne(c, Strict(c, ls), o, i)
    decreases i, 1
  {
    hide CheckBlock, Inner, PopSeq;
    match i
    case Block(bt, body) => SameBlock(c, ls, K(bt.Types()), body, bt);
    case Loop(bt, body) => SameBlock(c, ls, [], body, bt);
    case If(bt, thn, els) =>
      SameBlock(c, ls, K(bt.Types()), thn, bt);
      SameBlock(c, ls, K(bt.Types()), els, bt);
    case _ =>
  }

  /** The verdicts and the end states agree when no branch names the function label
      or the function has no results. */
  lemma {:induction false} SameSeq(c: Context, ls: seq<seq<VType>>, o: Ops, code: seq<Instr>)
    requires c.Valid() && (Inner(code, |ls|) || c.results == [])
    ensures CheckSeq(c, Loose(ls), o, code) == CheckSeq(c, Strict(c, ls), o, code)
    decreases code, 0
  {
    hide CheckOne, InnerOne, Inner;
    if code != [] {
      if c.results != [] {
        InnerTail(code, |ls|);
      }
      SameOne(c, ls, o, code[0]);
      if CheckOne(c, Loose(ls), o, code[0]).Some? {
        SameSeq(c, ls, CheckOne(c, Loose(ls), o, code[0]).value, code[1..]);
      }
    }
  }

  // ----- everything valid is accepted, but for one kind of br_table -----

  /** The function label is named by all targets of a br_table or by none. */
  predicate UniformTable(table: seq<U32>, n: U32, d: nat) {
    || (n == d && forall k :: 0 <= k < |table| ==> table[k] == d)
    || (n != d && forall k :: 0 <= k < |table| ==> table[k] != d)
  }

  predicate Uniform(code: seq<Instr>, d: nat)
    decreases code, 0
  {
    forall k :: 0 <= k < |code| ==> UniformOne(code[k], d)
  }

  predicate UniformOne(i: Instr, d: nat)
    decreases i, 1
  {
    match i
    case Block(_, body) => Uniform(body, d + 1)
    case Loop(_, body) => Uniform(body, d + 1)
    case If(_, thn, els) => Uniform(thn, d + 1) && Uniform(els, d + 1)
    case BrTable(table, n) => UniformTable(table, n, d)
    case _ => true
  }

  lemma UniformTail(code: seq<Instr>, d: nat)
    requires code != [] && Uniform(code, d)
    ensures UniformOne(code[0], d) && Uniform(code[1..], d)
  {
    hide UniformOne;
    assert forall k :: 0 <= k < |code| - 1 ==> code[1..][k] == code[k + 1];
  }

  /** The results of a function have known types. */
  predicate KnownResults(c: Context) {
    forall k :: 0 <= k < |c.results| ==> c.results[k].Known?
  }

  /** Popping known types and pushing them again only fills in what was unknown. */
  lemma {:induction false} Repushed(u: Ops, o: Ops, ts: seq<VType>)
    requires Loosens(u, o) && PopSeq(o, ts).Some? && forall k :: 0 <= k < |ts| ==> ts[k].Known?
    ensures Loosens(u, Push(PopSeq(o, ts).value, ts))
  {
    PoppedParts(o, ts);
    var r := PopSeq(o, ts).value;
    var p := Push(r, ts);
    var d, e := |o.vals| - |u.vals|, |p.vals| - |u.vals|;
    forall k | 0 <= k < |u.vals| ensures Matches(u.vals[k], p.vals[e + k]) {
      assert Matches(u.vals[k], o.vals[d + k]);
    }
  }

  /** What a pop of several types leaves, and what it found. */
  lemma {:induction false} PoppedParts(o: Ops, ts: seq<VType>)
    requires PopSeq(o, ts).Some?
    ensures var r := PopSeq(o, ts).value;
            && r.poly == o.poly && |r.vals| <= |o.vals| && r.vals == o.vals[..|r.vals|]
            && |o.vals| <= |r.vals| + |ts| && (!o.poly ==> |o.vals| == |r.vals| + |ts|)
            && (|o.vals| < |r.vals| + |ts| ==> r.vals == [])
            && var d := |r.vals| + |ts| - |o.vals|;
               forall k :: |r.vals| <= k < |o.vals| ==>
                 ts[k - |r.vals| + d] == Unknown || o.vals[k] == Unknown || o.vals[k] == ts[k - |r.vals| + d]
    decreases |ts|
  {
    if ts != [] {
      PoppedParts(PopExpect(o, ts[|ts| - 1]).rest, ts[..|ts| - 1]);
    }
  }

  lemma {:induction false} AcceptedBlock(c: Context, ls: seq<seq<VType>>, l: seq<VType>, body: seq<Instr>,
          bt: BlockType)
    requires c.Valid() && KnownResults(c) && Uniform(body, |ls| + 1)
    requires CheckBlock(c, [l] + Strict(c, ls), body, bt)
    ensures CheckBlock(c, [l] + Loose(ls), body, bt)
    decreases body, 1
  {
    hide CheckSeq, Uniform, PopSeq;
    Nested(c, ls, l);
    AcceptedSeq(c, [l] + ls, NOTHING, NOTHING, body);
    var r, s := CheckSeq(c, [l] + Loose(ls), NOTHING, body), CheckSeq(c, [l] + Strict(c, ls), NOTHING, body);
    PopSeqCovers(r.value, s.value, K(bt.Types()));
  }

  lemma {:induction false} AcceptedBranch(c: Context, ls: seq<seq<VType>>, u: Ops, o: Ops, i: Instr)
    requires c.Valid() && KnownResults(c) && Loosens(u, o) && UniformOne(i, |ls|)
    requires i.Br? || i.BrIf? || i.BrTable?
    requires CheckOne(c, Strict(c, ls), o, i).Some?
    ensures CheckOne(c, Loose(ls), u, i).Some?
    ensures Loosens(CheckOne(c, Loose(ls), u, i).value, CheckOne(c, Strict(c, ls), o, i).value)
  {
    hide PopSeq, Loosens;
    var e, s := Known(I32), Strict(c, ls);
    assert Loosens(STOPPED, STOPPED) by {
      Stopped();
    }
    if i.Br? {
      NoTypes(u);
      PopSeqCovers(u, o, s[i.depth]);
    } else {
      PopExpectCovers(u, o, e, e);
      var u1, o1 := PopExpect(u, e).rest, PopExpect(o, e).rest;
      NoTypes(u1);
      if i.BrTable? {
        PopSeqCovers(u1, o1, s[i.depth]);
      } else if i.depth == |ls| {
        Repushed(u1, o1, c.results);
      } else {
        TransferCovers(u1, o1, Sig(s[i.depth], s[i.depth]));
      }
    }
  }

  lemma Stopped()
    ensures Loosens(STOPPED, STOPPED)
  {
  }

  lemma NoTypes(u: Ops)
    ensures PopSeq(u, []) == Some(u) && Push(u, []) == u
  {
  }

  lemma {:induction false} AcceptedOne(c: Context, ls: seq<seq<VType>>, u: Ops, o: Ops, i: Instr)
    requires c.Valid() && KnownResults(c) && Loosens(u, o) && UniformOne(i, |ls|)
    requires CheckOne(c, Strict(c, ls), o, i).Some?
    ensures CheckOne(c, Loose(ls), u, i).Some?
    ensures Loosens(CheckOne(c, Loose(ls), u, i).value, CheckOne(c, Strict(c, ls), o, i).value)
    decreases i, 1
  {
    if i.Br? || i.BrIf? || i.BrTable? {
      AcceptedBranch(c, ls, u, o, i);
    } else {
      StepCovers(c, Strict(c, ls), u, o, i);
      hide CheckBlock, Loosens, PopSeq, Uniform, PlainSig, Transfer, CheckSelect;
      match i
      case Block(bt, body) => AcceptedBlock(c, ls, K(bt.Types()), body, bt);
      case Loop(bt, body) => AcceptedBlock(c, ls, [], body, bt);
      case If(bt, thn, els) =>
        AcceptedBlock(c, ls, K(bt.Types()), thn, bt);
        if els != [] {
          AcceptedBlock(c, ls, K(bt.Types()), els, bt);
        }
      case _ =>
    }
  }

  /** Whatever is accepted with the standard's function label is accepted by the
      checker, provided that no br_table mixes that label with others. */
  lemma {:induction false} AcceptedSeq(c: Context, ls: seq<seq<VType>>, u: Ops, o: Ops, code: seq<Instr>)
    requires c.Valid() && KnownResults(c) && Loosens(u, o) && Uniform(code, |ls|)
    requires CheckSeq(c, Strict(c, ls), o, code).Some?
    ensures CheckSeq(c, Loose(ls), u, code).Some?
    ensures Loosens(CheckSeq(c, Loose(ls), u, code).value, CheckSeq(c, Strict(c, ls), o, code).value)
    decreases code, 0
  {
    hide CheckOne, UniformOne, Uniform, Loosens;
    if code != [] {
      UniformTail(code, |ls|);
      AcceptedOne(c, ls, u, o, code[0]);
      AcceptedSeq(c, ls, CheckOne(c, Loose(ls), u, code[0]).value, CheckOne(c, Strict(c, ls), o, code[0]).value,
            code[1..]);
    }
  }

  /** A function body that is valid by the standard's rule for branches is accepted. */
  lemma ValidIsAccepted(c: Context, body: seq<Instr>)
    requires c.Valid() && KnownResults(c) && Uniform(body, 0) && CheckSeq(c, [c.results], NOTHING, body).Some?
    ensures CheckBody(c, body)
  {
    hide CheckSeq, Uniform;
    assert Strict(c, []) == [c.results] && Loose([]) == [[]];
    AcceptedSeq(c, [], NOTHING, NOTHING, body);
  }

  // ----- exactly where the verdicts part -----

  /** A br_table that is valid by the standard is refused exactly when it mixes the
      function label with others in a function that has results. */
  lemma TableRefusedIff(c: Context, ls: seq<seq<VType>>, o: Ops, table: LabelVec, n: U32)
    requires c.Valid() && CheckOne(c, Strict(c, ls), o, BrTable(table, n)).Some?
    ensures CheckOne(c, Loose(ls), o, BrTable(table, n)).None?
       <==> c.results != [] && !UniformTable(table, n, |ls|)
  {
    hide PopSeq;
    var rest := PopExpect(o, Known(I32)).rest;
    NoTypes(rest);
    if n == |ls| {
      assert Loose(ls)[n] == [] && Strict(c, ls)[n] == c.results;
    } else {
      assert Loose(ls)[n] == Strict(c, ls)[n];
    }
  }

  /** A branch to the function label is always accepted; the standard accepts it
      exactly when the results can be popped. */
  lemma FunctionBranchVerdicts(c: Context, ls: seq<seq<VType>>, o: Ops, n: U32)
    requires c.Valid() && n == |ls|
    ensures CheckOne(c, Loose(ls), o, Br(n)) == Some(STOPPED)
    ensures CheckOne(c, Strict(c, ls), o, Br(n)).Some? <==> PopSeq(o, c.results).Some?
    ensures CheckOne(c, Loose(ls), o, BrIf(n)).Some? <==> PopExpect(o, Known(I32)).ok
    ensures CheckOne(c, Strict(c, ls), o, BrIf(n)).Some?
       <==> PopExpect(o, Known(I32)).ok && PopSeq(PopExpect(o, Known(I32)).rest, c.results).Some?
  {
    hide PopSeq;
    NoTypes(o);
    NoTypes(PopExpect(o, Known(I32)).rest);
  }
}
