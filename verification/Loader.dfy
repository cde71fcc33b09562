/** The binary instruction loader as a function of the bytes that are left, its
    printer, and the laws that connect them. */
module Loader {
  import opened Wasm
  import opened Leb128

  datatype Error = EndOfFile | InvalidGrammar

  /** A value and the number of bytes it took; or an error; or a LEB128 run longer
      than its type allows, on which the C++ decoder shifts out of its word. */
  datatype Read<+T> = Got(value: T, n: nat) | Failed(e: Error) | Overlong

  // ----- numbers -----

  const P32: nat := 0x1_0000_0000
  const P64: nat := 0x1_0000_0000_0000_0000

  lemma Pow2Byte()
    ensures Pow2(8) == 0x100
  {
    assert Pow2(4) == 2 * Pow2(3) && Pow2(2) == 2 * Pow2(1) && Pow2(0) == 1;
    PowSplit(4, 4);
  }

  lemma Pow2Words()
    ensures Pow2(32) == P32 && Pow2(64) == P64
  {
    Pow2Byte();
    hide Pow2;
    PowSplit(8, 8);
    assert Pow2(16) == 0x1_0000;
    PowSplit(16, 16);
    assert Pow2(32) == P32;
    PowSplit(32, 32);
  }

  predicate WordSize(bits: nat) {
    bits == 32 || bits == 64
  }

  function ReadUnsigned(s: seq<Byte>, bits: nat): (r: Read<nat>)
    requires WordSize(bits)
    ensures r.Got? ==> 0 < r.n <= |s| && r.value < Pow2(bits)
    ensures r.Failed? ==> r.e == EndOfFile
  {
    match RunLength(s)
    case Some(n) => if n <= MaxRun(bits) then Got(UnsignedOf(s[..n], bits), n) else Overlong
    case None => if |s| <= MaxRun(bits) then Failed(EndOfFile) else Overlong
  }

  function ReadSigned(s: seq<Byte>, bits: nat): (r: Read<nat>)
    requires WordSize(bits)
    ensures r.Got? ==> 0 < r.n <= |s| && r.value < Pow2(bits)
    ensures r.Failed? ==> r.e == EndOfFile
  {
    match RunLength(s)
    case Some(n) => if n <= MaxRun(bits) then Got(SignedOf(s[..n], bits), n) else Overlong
    case None => if |s| <= MaxRun(bits) then Failed(EndOfFile) else Overlong
  }

  /** Little-endian value of the bytes of a float. */
  function Bytes(s: seq<Byte>): (v: nat)
    ensures v < Pow2(8 * |s|)
  {
    if s == [] then 0
    else
      assert Pow2(8 * |s|) == 256 * Pow2(8 * |s| - 8) by { PowSplit(8, 8 * |s| - 8); Pow2Byte(); }
      s[0] + 256 * Bytes(s[1..])
  }

  function ReadFixed(s: seq<Byte>, k: nat): (r: Read<nat>)
    ensures r.Got? ==> r.n == k <= |s| && r.value < Pow2(8 * k)
    ensures !r.Got? ==> r == Failed(EndOfFile)
  {
    if |s| < k then Failed(EndOfFile) else Got(Bytes(s[..k]), k)
  }

  function ReadU32(s: seq<Byte>): (r: Read<U32>)
    ensures r.Got? ==> 0 < r.n <= |s|
  {
    Pow2Words();
    match ReadUnsigned(s, 32)
    case Got(v, n) => Got(v, n)
    case Failed(e) => Failed(e)
    case Overlong => Overlong
  }

  // ----- instructions -----

  function BlockTypeOf(b: Byte): Option<BlockType> {
    if b == 0x40 then Some(Empty)
    else if b == 0x7F then Some(Result(I32))
    else if b == 0x7E then Some(Result(I64))
    else if b == 0x7D then Some(Result(F32))
    else if b == 0x7C then Some(Result(F64))
    else None
  }

  datatype Arms = Arms(thn: seq<Instr>, els: seq<Instr>)

  /** The arguments of the instruction with opcode `op`. */
  function LoadNode(op: Byte, s: seq<Byte>): (r: Read<Instr>)
    ensures r.Got? ==> r.n <= |s|
    decreases |s|, 1
  {
    if op == 0x00 then Got(Unreachable, 0)
    else if op == 0x01 then Got(Nop, 0)
    else if op == 0x0F then Got(Return, 0)
    else if op == 0x02 || op == 0x03 then
      if s == [] then Failed(EndOfFile)
      else if BlockTypeOf(s[0]).None? then Failed(InvalidGrammar)
      else
        (match LoadBody(s[1..])
         case Got(body, n) =>
           var bt := BlockTypeOf(s[0]).value;
           Got(if op == 0x02 then Block(bt, body) else Loop(bt, body), n + 1)
         case Failed(e) => Failed(e)
         case Overlong => Overlong)
    else if op == 0x04 then
      if s == [] then Failed(EndOfFile)
      else if BlockTypeOf(s[0]).None? then Failed(InvalidGrammar)
      else
        (match LoadArms(s[1..], false)
         case Got(a, n) => Got(If(BlockTypeOf(s[0]).value, a.thn, a.els), n + 1)
         case Failed(e) => Failed(e)
         case Overlong => Overlong)
    else LoadPlain(op, s)
  }

  /** Nodes up to and including the End code. */
  function LoadBody(s: seq<Byte>): (r: Read<seq<Instr>>)
    ensures r.Got? ==> 0 < r.n <= |s|
    decreases |s|, 0
  {
    if s == [] then Failed(EndOfFile)
    else if s[0] == END then Got([], 1)
    else
      match LoadNode(s[0], s[1..])
      case Failed(e) => Failed(e)
      case Overlong => Overlong
      case Got(i, n) =>
        match LoadBody(s[n + 1..])
        case Got(code, m) => Got([i] + code, n + 1 + m)
        case Failed(e) => Failed(e)
        case Overlong => Overlong
  }

  /** The arms of an `if`: every Else code switches to the else arm. */
  function LoadArms(s: seq<Byte>, inElse: bool): (r: Read<Arms>)
    ensures r.Got? ==> 0 < r.n <= |s|
    decreases |s|, 0
  {
    if s == [] then Failed(EndOfFile)
    else if s[0] == END then Got(Arms([], []), 1)
    else if s[0] == ELSE then
      match LoadArms(s[1..], true)
      case Got(a, m) => Got(a, m + 1)
      case Failed(e) => Failed(e)
      case Overlong => Overlong
    else
      match LoadNode(s[0], s[1..])
      case Failed(e) => Failed(e)
      case Overlong => Overlong
      case Got(i, n) =>
        match LoadArms(s[n + 1..], inElse)
        case Got(a, m) => Got(if inElse then Arms(a.thn, [i] + a.els) else Arms([i] + a.thn, a.els), n + 1 + m)
        case Failed(e) => Failed(e)
        case Overlong => Overlong
  }

  /** Instructions without nested instructions. */
  function LoadPlain(op: Byte, s: seq<Byte>): (r: Read<Instr>)
    ensures r.Got? ==> r.n <= |s|
  {
    if IsIndexed(op) then
      match ReadU32(s)
      case Got(v, n) => Got(Indexed(op, v), n)
      case Failed(e) => Failed(e)
      case Overlong => Overlong
    else if op == 0x0E then LoadBrTable(s)
    else if op == 0x11 then LoadCallIndirect(s)
    else if op == 0x1A then Got(Drop, 0)
    else if op == 0x1B then Got(Select, 0)
    else if 0x28 <= op <= 0x40 then LoadMemory(op, s)
    else if 0x41 <= op <= 0x44 then LoadConst(op, s)
    else if 0x45 <= op <= 0xBF then Got(Numeric(op), 0)
    else Failed(InvalidGrammar)
  }

  /** Opcodes that are followed by exactly one index. */
  predicate IsIndexed(op: Byte) {
    op in {0x0C, 0x0D, 0x10} || 0x20 <= op <= 0x24
  }

  function Indexed(op: Byte, v: U32): (i: Instr)
    requires IsIndexed(op)
    ensures Opcode(i) == op
  {
    if op == 0x0C then Br(v)
    else if op == 0x0D then BrIf(v)
    else if op == 0x10 then Call(v)
    else if op == 0x20 then LocalGet(v)
    else if op == 0x21 then LocalSet(v)
    else if op == 0x22 then LocalTee(v)
    else if op == 0x23 then GlobalGet(v)
    else GlobalSet(v)
  }

  function LoadCallIndirect(s: seq<Byte>): (r: Read<Instr>)
    ensures r.Got? ==> r.n <= |s|
  {
    match ReadU32(s)
    case Failed(e) => Failed(e)
    case Overlong => Overlong
    case Got(v, n) =>
      if n == |s| then Failed(EndOfFile)
      else if s[n] != 0 then Failed(InvalidGrammar)
      else Got(CallIndirect(v), n + 1)
  }

  /** A non-zero byte after memory.size or memory.grow is not refused: a memory
      argument is read after it. */
  function LoadMemory(op: MemCode, s: seq<Byte>): (r: Read<Instr>)
    ensures r.Got? ==> r.n <= |s|
  {
    if op == MEMORY_SIZE || op == MEMORY_GROW then
      if s == [] then Failed(EndOfFile)
      else if s[0] == 0 then Got(Memory(op, 0, 0), 1)
      else LoadMemArg(op, s, 1)
    else LoadMemArg(op, s, 0)
  }

  function LoadMemArg(op: MemCode, s: seq<Byte>, skip: nat): (r: Read<Instr>)
    requires skip <= |s|
    ensures r.Got? ==> r.n <= |s|
  {
    match ReadU32(s[skip..])
    case Failed(e) => Failed(e)
    case Overlong => Overlong
    case Got(align, n) =>
      match ReadU32(s[skip + n..])
      case Failed(e) => Failed(e)
      case Overlong => Overlong
      case Got(offset, m) => Got(Memory(op, align, offset), skip + n + m)
  }

  function LoadConst(op: Byte, s: seq<Byte>): (r: Read<Instr>)
    requires 0x41 <= op <= 0x44
    ensures r.Got? ==> r.n <= |s|
  {
    Pow2Words();
    var r := if op == 0x41 then ReadSigned(s, 32)
             else if op == 0x42 then ReadSigned(s, 64)
             else if op == 0x43 then ReadFixed(s, 4)
             else ReadFixed(s, 8);
    match r
    case Failed(e) => Failed(e)
    case Overlong => Overlong
    case Got(v, n) =>
      Got(Const(if op == 0x41 then I32Val(v) else if op == 0x42 then I64Val(v)
                else if op == 0x43 then F32Val(v) else F64Val(v)), n)
  }

  function LoadLabels(s: seq<Byte>, count: nat): (r: Read<seq<U32>>)
    ensures r.Got? ==> r.n <= |s| && |r.value| == count
    decreases count
  {
    if count == 0 then Got([], 0)
    else
      match ReadU32(s)
      case Failed(e) => Failed(e)
      case Overlong => Overlong
      case Got(v, n) =>
        match LoadLabels(s[n..], count - 1)
        case Failed(e) => Failed(e)
        case Overlong => Overlong
        case Got(vs, m) => Got([v] + vs, n + m)
  }

  function LoadBrTable(s: seq<Byte>): (r: Read<Instr>)
    ensures r.Got? ==> r.n <= |s|
  {
    match ReadU32(s)
    case Failed(e) => Failed(e)
    case Overlong => Overlong
    case Got(count, n) =>
      match LoadLabels(s[n..], count)
      case Failed(e) => Failed(e)
      case Overlong => Overlong
      case Got(table, m) =>
        match ReadU32(s[n + m..])
        case Failed(e) => Failed(e)
        case Overlong => Overlong
        case Got(dflt, k) => Got(BrTable(table, dflt), n + m + k)
  }

  // ----- printer -----

  function BlockTypeByte(bt: BlockType): (b: Byte)
    ensures BlockTypeOf(b) == Some(bt)
  {
    match bt
    case Empty => 0x40
    case Result(t) => (match t case I32 => 0x7F case I64 => 0x7E case F32 => 0x7D case F64 => 0x7C)
  }

  function FixedBytes(v: nat, k: nat): (s: seq<Byte>)
    ensures |s| == k
  {
    if k == 0 then [] else [v % 256] + FixedBytes(v / 256, k - 1)
  }

  /** The signed number with a given word. */
  function Signed(w: nat, word: nat): int {
    if 2 * w < word then w else w - word
  }

  function PrintConst(v: Value): seq<Byte> {
    match v
    case I32Val(w) => EncodeSigned(Signed(w, P32))
    case I64Val(w) => EncodeSigned(Signed(w, P64))
    case F32Val(w) => FixedBytes(w, 4)
    case F64Val(w) => FixedBytes(w, 8)
  }

  function PrintLabels(ls: seq<U32>): seq<Byte> {
    if ls == [] then [] else EncodeUnsigned(ls[0]) + PrintLabels(ls[1..])
  }

  function PrintMemory(op: MemCode, align: U32, offset: U32): seq<Byte> {
    var arg := EncodeUnsigned(align) + EncodeUnsigned(offset);
    if op != MEMORY_SIZE && op != MEMORY_GROW then arg
    else if align == 0 && offset == 0 then [0]
    else [1] + arg
  }

  function PrintPlain(i: Instr): seq<Byte>
    requires !i.Block? && !i.Loop? && !i.If?
  {
    if IsIndexed(Opcode(i)) then EncodeUnsigned(IndexOf(i))
    else
      match i
      case BrTable(table, n) => EncodeUnsigned(|table|) + PrintLabels(table) + EncodeUnsigned(n)
      case CallIndirect(n) => EncodeUnsigned(n) + [0]
      case Memory(op, align, offset) => PrintMemory(op, align, offset)
      case Const(v) => PrintConst(v)
      case _ => []
  }

  function IndexOf(i: Instr): U32
    requires IsIndexed(Opcode(i))
  {
    if i.Br? || i.BrIf? then i.depth else i.index
  }

  /** The canonical encoding of what follows the opcode. */
  function PrintArgs(i: Instr): seq<Byte>
    decreases i, 0
  {
    match i
    case Block(bt, body) => [BlockTypeByte(bt)] + PrintSeq(body) + [END]
    case Loop(bt, body) => [BlockTypeByte(bt)] + PrintSeq(body) + [END]
    case If(bt, thn, els) =>
      [BlockTypeByte(bt)] + PrintSeq(thn) + (if els == [] then [] else [ELSE] + PrintSeq(els)) + [END]
    case _ => PrintPlain(i)
  }

  function PrintSeq(code: seq<Instr>): seq<Byte>
    decreases code, 1
  {
    if code == [] then [] else [Opcode(code[0])] + PrintArgs(code[0]) + PrintSeq(code[1..])
  }
}
