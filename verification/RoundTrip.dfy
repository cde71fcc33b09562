/** Loading what was printed, and what loading may depend on. */
module RoundTrip {
  import opened Wasm
  import opened Leb128
  import opened Loader

  // ----- numbers -----

  lemma Weights()
    ensures Weight(4) == 0x1000_0000 && Weight(5) == 0x8_0000_0000
    ensures Weight(9) == 0x8000_0000_0000_0000 && MaxRun(32) == 5 && MaxRun(64) == 10
  {
    assert Weight(2) == 128 * Weight(1) && Weight(1) == 128 * Weight(0);
    assert Weight(4) == 128 * Weight(3) && Weight(6) == 128 * Weight(5) && Weight(8) == 128 * Weight(7);
    assert Weight(3) == 128 * Weight(2) && Weight(5) == 128 * Weight(4) && Weight(7) == 128 * Weight(6);
  }

  lemma U32Printed(v: U32, t: seq<Byte>)
    ensures ReadU32(EncodeUnsigned(v) + t) == Got(v, |EncodeUnsigned(v)|)
  {
    hide Pow2, Weight, Sum, EncodeUnsigned;
    var s := EncodeUnsigned(v);
    Pow2Words();
    Weights();
    EncodeUnsignedRun(v);
    EncodeUnsignedLength(v, 5);
    RunLengthOfRun(s, t);
    UnsignedRoundTrip(v, 32);
    assert (s + t)[..|s|] == s;
  }

  lemma SignedPrinted(w: nat, bits: nat, t: seq<Byte>)
    requires WordSize(bits) && w < Pow2(bits)
    ensures var s := EncodeSigned(Signed(w, Pow2(bits))); ReadSigned(s + t, bits) == Got(w, |s|)
  {
    hide Pow2, Weight, Sum, EncodeSigned, SignedOf;
    var m := Pow2(bits);
    var v := Signed(w, m);
    var s := EncodeSigned(v);
    Pow2Words();
    Weights();
    EncodeSignedIsRun(v);
    EncodeSignedLength(v, MaxRun(bits));
    RunLengthOfRun(s, t);
    SignedRoundTrip(v, bits);
    assert Word(v, bits) == w by {
      if 2 * w < m {
        ModUnique(v, 0, w, m);
      } else {
        ModUnique(v, -1, w, m);
      }
    }
    assert (s + t)[..|s|] == s;
  }

  lemma {:induction false} FixedPrinted(v: nat, k: nat)
    requires v < Pow2(8 * k)
    ensures Bytes(FixedBytes(v, k)) == v
    decreases k
  {
    if k > 0 {
      assert Pow2(8 * k) == 256 * Pow2(8 * (k - 1)) by {
        PowSplit(8, 8 * k - 8);
        Pow2Byte();
      }
      FixedPrinted(v / 256, k - 1);
      assert FixedBytes(v, k)[1..] == FixedBytes(v / 256, k - 1);
    }
  }

  lemma ConstPrinted(v: Value, t: seq<Byte>)
    ensures LoadConst(Opcode(Const(v)), PrintConst(v) + t) == Got(Const(v), |PrintConst(v)|)
  {
    hide Pow2, ReadSigned, EncodeSigned, FixedBytes, Bytes;
    Pow2Words();
    match v
    case I32Val(w) => SignedPrinted(w, 32, t);
    case I64Val(w) => SignedPrinted(w, 64, t);
    case F32Val(w) =>
      FixedPrinted(w, 4);
      assert (FixedBytes(w, 4) + t)[..4] == FixedBytes(w, 4);
    case F64Val(w) =>
      FixedPrinted(w, 8);
      assert (FixedBytes(w, 8) + t)[..8] == FixedBytes(w, 8);
  }

  // ----- instructions without nested instructions -----

  lemma {:induction false} LabelsPrinted(ls: seq<U32>, t: seq<Byte>)
    ensures LoadLabels(PrintLabels(ls) + t, |ls|) == Got(ls, |PrintLabels(ls)|)
    decreases |ls|
  {
    hide EncodeUnsigned, ReadU32;
    if ls != [] {
      var a, b := EncodeUnsigned(ls[0]), PrintLabels(ls[1..]);
      assert PrintLabels(ls) + t == a + (b + t);
      U32Printed(ls[0], b + t);
      LabelsPrinted(ls[1..], t);
      assert (PrintLabels(ls) + t)[|a|..] == b + t;
      assert [ls[0]] + ls[1..] == ls;
    }
  }

  lemma BrTablePrinted(i: Instr, t: seq<Byte>)
    requires i.BrTable?
    ensures LoadBrTable(PrintPlain(i) + t) == Got(i, |PrintPlain(i)|)
  {
    hide EncodeUnsigned, ReadU32, PrintLabels, LoadLabels;
    var a, b, c := EncodeUnsigned(|i.table|), PrintLabels(i.table), EncodeUnsigned(i.depth);
    var s := PrintPlain(i) + t;
    assert s == a + (b + (c + t));
    U32Printed(|i.table|, b + (c + t));
    assert s[|a|..] == b + (c + t);
    LabelsPrinted(i.table, c + t);
    assert s[|a| + |b|..] == c + t;
    U32Printed(i.depth, t);
  }

  lemma MemArgPrinted(op: MemCode, align: U32, offset: U32, pre: seq<Byte>, t: seq<Byte>)
    ensures var arg := EncodeUnsigned(align) + EncodeUnsigned(offset);
            LoadMemArg(op, pre + arg + t, |pre|) == Got(Memory(op, align, offset), |pre| + |arg|)
  {
    hide EncodeUnsigned, ReadU32;
    var a, b := EncodeUnsigned(align), EncodeUnsigned(offset);
    var s := pre + (a + b) + t;
    assert s[|pre|..] == a + (b + t);
    U32Printed(align, b + t);
    assert s[|pre| + |a|..] == b + t;
    U32Printed(offset, t);
  }

  lemma MemoryPrinted(op: MemCode, align: U32, offset: U32, t: seq<Byte>)
    ensures LoadMemory(op, PrintMemory(op, align, offset) + t)
            == Got(Memory(op, align, offset), |PrintMemory(op, align, offset)|)
  {
    hide EncodeUnsigned, LoadMemArg;
    var arg := EncodeUnsigned(align) + EncodeUnsigned(offset);
    MemArgPrinted(op, align, offset, [], t);
    MemArgPrinted(op, align, offset, [1], t);
    assert [] + arg + t == arg + t;
  }

  lemma IndexPrinted(i: Instr, t: seq<Byte>)
    requires IsIndexed(Opcode(i))
    ensures LoadPlain(Opcode(i), PrintPlain(i) + t) == Got(i, |PrintPlain(i)|)
  {
    hide EncodeUnsigned, ReadU32;
    U32Printed(IndexOf(i), t);
    assert Indexed(Opcode(i), IndexOf(i)) == i;
  }

  lemma CallIndirectPrinted(n: U32, t: seq<Byte>)
    ensures LoadCallIndirect(EncodeUnsigned(n) + [0] + t) == Got(CallIndirect(n), |EncodeUnsigned(n)| + 1)
  {
    hide EncodeUnsigned, ReadU32;
    var a := EncodeUnsigned(n);
    assert a + [0] + t == a + ([0] + t);
    U32Printed(n, [0] + t);
    assert (a + [0] + t)[|a|] == 0;
  }

  lemma PlainPrinted(i: Instr, t: seq<Byte>)
    requires !i.Block? && !i.Loop? && !i.If?
    ensures LoadNode(Opcode(i), PrintPlain(i) + t) == Got(i, |PrintPlain(i)|)
  {
    hide EncodeUnsigned, ReadU32, PrintLabels, LoadCallIndirect, LoadBrTable, LoadMemory, LoadConst, PrintConst,
         PrintMemory;
    var nothing: seq<Byte> := [];
    assert nothing + t == t;
    if IsIndexed(Opcode(i)) {
      IndexPrinted(i, t);
    } else {
      match i
      case BrTable(_, _) => BrTablePrinted(i, t);
      case CallIndirect(n) => CallIndirectPrinted(n, t);
      case Memory(m, align, offset) => MemoryPrinted(m, align, offset, t);
      case Const(v) => ConstPrinted(v, t);
      case _ =>
    }
  }

  // ----- nested instructions -----

  /** Loading the canonical encoding of an instruction gives it back and stops
      exactly at the trailing bytes. */
  lemma {:induction false} NodePrinted(i: Instr, t: seq<Byte>)
    ensures LoadNode(Opcode(i), PrintArgs(i) + t) == Got(i, |PrintArgs(i)|)
    decreases i, 0
  {
    hide LoadPlain, PrintPlain, LoadBody, LoadArms, PrintSeq;
    match i
    case Block(bt, body) => BlockPrinted(i, bt, body, t);
    case Loop(bt, body) => BlockPrinted(i, bt, body, t);
    case If(bt, thn, els) =>
      var rest := PrintSeq(thn) + Tail(els);
      TailPrinted(els, t);
      ArmsPrinted(thn, els, Tail(els), t);
      var s := PrintArgs(i) + t;
      assert PrintArgs(i) == [BlockTypeByte(bt)] + rest;
      assert s == [BlockTypeByte(bt)] + (rest + t);
      assert s[1..] == rest + t && s[0] == BlockTypeByte(bt);
    case _ => PlainPrinted(i, t);
  }

  lemma {:induction false} BlockPrinted(i: Instr, bt: BlockType, body: seq<Instr>, t: seq<Byte>)
    requires i == Block(bt, body) || i == Loop(bt, body)
    ensures LoadNode(Opcode(i), PrintArgs(i) + t) == Got(i, |PrintArgs(i)|)
    decreases body, 2
  {
    hide LoadPlain, LoadBody, PrintSeq;
    var rest := PrintSeq(body) + [END];
    SeqPrinted(body, t);
    var s := PrintArgs(i) + t;
    assert PrintArgs(i) == [BlockTypeByte(bt)] + rest;
    assert s[1..] == rest + t && s[0] == BlockTypeByte(bt);
  }

  lemma {:induction false} SeqPrinted(code: seq<Instr>, t: seq<Byte>)
    ensures LoadBody(PrintSeq(code) + [END] + t) == Got(code, |PrintSeq(code)| + 1)
    decreases code, 1
  {
    hide LoadNode, PrintArgs;
    var s := PrintSeq(code) + [END] + t;
    if code == [] {
      assert s == [END] + t;
    } else {
      var a, b := PrintArgs(code[0]), PrintSeq(code[1..]);
      assert s == [Opcode(code[0])] + (a + (b + [END] + t));
      assert s[1..] == a + (b + [END] + t);
      NodePrinted(code[0], b + [END] + t);
      assert s[|a| + 1..] == b + [END] + t;
      SeqPrinted(code[1..], t);
      assert [code[0]] + code[1..] == code;
      NotMarker(code[0]);
    }
  }

  lemma NotMarker(i: Instr)
    ensures Opcode(i) != END && Opcode(i) != ELSE
  {
  }

  lemma {:induction false} ElsePrinted(els: seq<Instr>, t: seq<Byte>)
    ensures LoadArms(PrintSeq(els) + [END] + t, true) == Got(Arms([], els), |PrintSeq(els)| + 1)
    decreases els, 1
  {
    hide LoadNode, PrintArgs;
    var s := PrintSeq(els) + [END] + t;
    if els == [] {
      assert s == [END] + t;
    } else {
      var a, b := PrintArgs(els[0]), PrintSeq(els[1..]);
      assert s == [Opcode(els[0])] + (a + (b + [END] + t));
      assert s[1..] == a + (b + [END] + t);
      NodePrinted(els[0], b + [END] + t);
      assert s[|a| + 1..] == b + [END] + t;
      ElsePrinted(els[1..], t);
      assert [els[0]] + els[1..] == els;
      NotMarker(els[0]);
    }
  }

  /** What follows the then arm. */
  function Tail(els: seq<Instr>): seq<Byte> {
    (if els == [] then [] else [ELSE] + PrintSeq(els)) + [END]
  }

  lemma {:induction false} TailPrinted(els: seq<Instr>, t: seq<Byte>)
    ensures LoadArms(Tail(els) + t, false) == Got(Arms([], els), |Tail(els)|)
    decreases els, 2
  {
    hide LoadNode, PrintSeq;
    var s := Tail(els) + t;
    if els == [] {
      assert s == [END] + t;
    } else {
      assert s == [ELSE] + (PrintSeq(els) + [END] + t);
      assert s[1..] == PrintSeq(els) + [END] + t;
      ElsePrinted(els, t);
    }
  }

  lemma {:induction false} ArmsPrinted(thn: seq<Instr>, els: seq<Instr>, tail: seq<Byte>, t: seq<Byte>)
    requires LoadArms(tail + t, false) == Got(Arms([], els), |tail|)
    ensures LoadArms(PrintSeq(thn) + tail + t, false) == Got(Arms(thn, els), |PrintSeq(thn)| + |tail|)
    decreases thn, 1
  {
    hide LoadNode, PrintArgs;
    if thn == [] {
      assert PrintSeq(thn) + tail == tail;
    } else {
      var a, b := PrintArgs(thn[0]), PrintSeq(thn[1..]);
      var s := [Opcode(thn[0])] + a + b + tail + t;
      assert PrintSeq(thn) == [Opcode(thn[0])] + a + b;
      hide PrintSeq;
      Spread(Opcode(thn[0]), a, b, tail, t);
      NodePrinted(thn[0], b + tail + t);
      ArmsPrinted(thn[1..], els, tail, t);
      assert [thn[0]] + thn[1..] == thn;
      NotMarker(thn[0]);
      assert LoadArms(s, false) == Got(Arms(thn, els), |a| + 1 + (|b| + |tail|));
    }
  }

  lemma Spread(op: Byte, a: seq<Byte>, b: seq<Byte>, tail: seq<Byte>, t: seq<Byte>)
    ensures var s := [op] + a + b + tail + t;
            s[0] == op && s[1..] == a + (b + tail + t) && s[|a| + 1..] == b + tail + t
  {
    var s := [op] + a + b + tail + t;
    assert s == [op] + (a + (b + tail + t));
    assert s == ([op] + a) + (b + tail + t);
  }
}
