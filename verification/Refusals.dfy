/** Which bytes the instruction loader refuses, and which instructions the opcodes stand
    for. */
module Refusals {
  import opened Wasm
  import opened Leb128
  import opened Loader

  /** The opcodes of the binary format, in ranges. */
  predicate KnownOpcode(op: Byte) {
    op <= 0x04 || 0x0C <= op <= 0x11 || op == 0x1A || op == 0x1B || 0x20 <= op <= 0x24 || 0x28 <= op <= 0xBF
  }

  lemma MemoryOpcode(op: MemCode, s: seq<Byte>)
    ensures LoadMemory(op, s).Got? ==> Opcode(LoadMemory(op, s).value) == op
  {
    hide ReadU32;
  }

  lemma ConstOpcode(op: Byte, s: seq<Byte>)
    requires 0x41 <= op <= 0x44
    ensures LoadConst(op, s).Got? ==> Opcode(LoadConst(op, s).value) == op
  {
    hide ReadSigned, ReadFixed;
  }

  lemma PlainOpcode(op: Byte, s: seq<Byte>)
    requires !(op <= 0x04 || op == 0x0F)
    ensures !KnownOpcode(op) ==> LoadPlain(op, s) == Failed(InvalidGrammar)
    ensures LoadPlain(op, s).Got? ==> KnownOpcode(op) && Opcode(LoadPlain(op, s).value) == op
  {
    hide ReadU32, LoadLabels, LoadMemory, LoadConst;
    if 0x28 <= op <= 0x40 {
      MemoryOpcode(op, s);
    } else if 0x41 <= op <= 0x44 {
      ConstOpcode(op, s);
    }
  }

  /** An unknown opcode is refused at once, and a loaded node has the opcode it was
      announced with. */
  lemma OpcodeDecides(op: Byte, s: seq<Byte>)
    ensures !KnownOpcode(op) ==> LoadNode(op, s) == Failed(InvalidGrammar)
    ensures LoadNode(op, s).Got? ==> KnownOpcode(op) && Opcode(LoadNode(op, s).value) == op
  {
    hide LoadBody, LoadArms, LoadPlain;
    if !(op <= 0x04 || op == 0x0F) {
      PlainOpcode(op, s);
    }
  }

  /** A structured instruction begins with one of five block types. */
  lemma BlockTypeDecides(op: Byte, s: seq<Byte>)
    requires 0x02 <= op <= 0x04 && s != []
    ensures s[0] !in {0x40, 0x7C, 0x7D, 0x7E, 0x7F} ==> LoadNode(op, s) == Failed(InvalidGrammar)
    ensures LoadNode(op, s).Got? ==>
      LoadNode(op, s).value.bt == (match s[0]
                                   case 0x40 => Empty case 0x7C => Result(F64) case 0x7D => Result(F32)
                                   case 0x7E => Result(I64) case _ => Result(I32))
  {
    hide LoadBody, LoadArms;
  }

  /** The byte after the index of call_indirect has to be there and to be zero. */
  lemma IndirectDecides(s: seq<Byte>)
    requires ReadU32(s).Got?
    ensures var r, n := LoadNode(0x11, s), ReadU32(s).n;
            r == if n == |s| then Failed(EndOfFile)
                 else if s[n] != 0 then Failed(InvalidGrammar)
                 else Got(CallIndirect(ReadU32(s).value), n + 1)
  {
    hide ReadU32, LoadBody, LoadArms;
  }

  /** A body that loads ends with the End code; bytes without one are refused. */
  lemma {:induction false} BodyEnds(s: seq<Byte>)
    ensures LoadBody(s).Got? ==> s[LoadBody(s).n - 1] == END
    decreases |s|
  {
    hide LoadNode, LoadArms;
    if s != [] && s[0] != END {
      match LoadNode(s[0], s[1..])
      case Got(_, n) => BodyEnds(s[n + 1..]);
      case _ =>
    }
  }

  lemma {:induction false} ArmsEnd(s: seq<Byte>, inElse: bool)
    ensures LoadArms(s, inElse).Got? ==> s[LoadArms(s, inElse).n - 1] == END
    decreases |s|
  {
    hide LoadNode, LoadBody;
    if s != [] && s[0] == ELSE {
      ArmsEnd(s[1..], true);
    } else if s != [] && s[0] != END {
      match LoadNode(s[0], s[1..])
      case Got(_, n) => ArmsEnd(s[n + 1..], inElse);
      case _ =>
    }
  }

  /** A node that is refused makes the sequence around it be refused, with its error. */
  lemma RefusedInside(s: seq<Byte>)
    requires s != [] && s[0] != END && LoadNode(s[0], s[1..]).Failed?
    ensures LoadBody(s) == Failed(LoadNode(s[0], s[1..]).e)
    ensures s[0] != ELSE ==> LoadArms(s, false) == LoadArms(s, true) == Failed(LoadNode(s[0], s[1..]).e)
  {
    hide LoadNode;
  }

  /** The opcodes without arguments and those of the structured instructions and
      constants. */
  lemma NodeTable(s: seq<Byte>)
    ensures LoadNode(0x00, s) == Got(Unreachable, 0) && LoadNode(0x01, s) == Got(Nop, 0)
    ensures LoadNode(0x0F, s) == Got(Return, 0)
    ensures LoadNode(0x1A, s) == Got(Drop, 0) && LoadNode(0x1B, s) == Got(Select, 0)
    ensures LoadNode(0x02, s).Got? ==> LoadNode(0x02, s).value.Block?
    ensures LoadNode(0x03, s).Got? ==> LoadNode(0x03, s).value.Loop?
    ensures LoadNode(0x04, s).Got? ==> LoadNode(0x04, s).value.If?
    ensures LoadNode(0x41, s).Got? ==> exists w :: LoadNode(0x41, s).value == Const(I32Val(w))
    ensures LoadNode(0x42, s).Got? ==> exists w :: LoadNode(0x42, s).value == Const(I64Val(w))
    ensures LoadNode(0x43, s).Got? ==> exists w :: LoadNode(0x43, s).value == Const(F32Val(w))
    ensures LoadNode(0x44, s).Got? ==> exists w :: LoadNode(0x44, s).value == Const(F64Val(w))
  {
    hide LoadBody, LoadArms, ReadSigned, ReadFixed;
  }

  /** The opcodes that are followed by one index. */
  lemma IndexTable(s: seq<Byte>)
    requires ReadU32(s).Got?
    ensures var v, n := ReadU32(s).value, ReadU32(s).n;
            && LoadNode(0x0C, s) == Got(Br(v), n) && LoadNode(0x0D, s) == Got(BrIf(v), n)
            && LoadNode(0x10, s) == Got(Call(v), n)
            && LoadNode(0x20, s) == Got(LocalGet(v), n) && LoadNode(0x21, s) == Got(LocalSet(v), n)
            && LoadNode(0x22, s) == Got(LocalTee(v), n)
            && LoadNode(0x23, s) == Got(GlobalGet(v), n) && LoadNode(0x24, s) == Got(GlobalSet(v), n)
  {
    hide ReadU32, LoadBody, LoadArms;
  }
}
