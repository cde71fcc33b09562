/** The WebAssembly 1.0 syntax tree that the loader builds, the form checker
    walks and the interpreter executes. */
module Wasm {

  datatype Option<+T> = None | Some(value: T)

  type Byte = b: int | 0 <= b < 0x100
  type U32 = n: int | 0 <= n < 0x1_0000_0000
  type U64 = n: int | 0 <= n < 0x1_0000_0000_0000_0000

  /** Opcodes that dispatch to a memory node: loads, stores, memory.size, memory.grow. */
  type MemCode = b: int | 0x28 <= b <= 0x40 witness 0x28

  /** Opcodes that dispatch to a unary or binary numeric node. */
  type NumCode = b: int | 0x45 <= b <= 0xBF witness 0x45

  /** A label vector is counted by a 32-bit number in the binary format. */
  type LabelVec = s: seq<U32> | |s| < 0x1_0000_0000

  const MEMORY_SIZE: MemCode := 0x3F
  const MEMORY_GROW: MemCode := 0x40

  datatype ValType = I32 | I64 | F32 | F64

  /** The result type of a structured instruction: nothing or one value. */
  datatype BlockType = Empty | Result(t: ValType) {
    function Types(): seq<ValType> {
      if Empty? then [] else [t]
    }
  }

  /** A run-time value. Floating-point values are kept as bit patterns. */
  datatype Value =
    | I32Val(i32: U32)
    | I64Val(i64: U64)
    | F32Val(f32: U32)
    | F64Val(f64: U64)
  {
    function Type(): ValType {
      match this
      case I32Val(_) => I32
      case I64Val(_) => I64
      case F32Val(_) => F32
      case F64Val(_) => F64
    }
  }

  datatype Instr =
    | Unreachable
    | Nop
    | Return
    | Block(bt: BlockType, body: seq<Instr>)
    | Loop(bt: BlockType, body: seq<Instr>)
    | If(bt: BlockType, thn: seq<Instr>, els: seq<Instr>)
    | Br(depth: U32)
    | BrIf(depth: U32)
    | BrTable(table: LabelVec, depth: U32)
    | Call(index: U32)
    | CallIndirect(index: U32)
    | Drop
    | Select
    | LocalGet(index: U32)
    | LocalSet(index: U32)
    | LocalTee(index: U32)
    | GlobalGet(index: U32)
    | GlobalSet(index: U32)
    | Memory(mop: MemCode, align: U32, offset: U32)
    | Const(val: Value)
    | Numeric(nop: NumCode)

  /** The opcode byte of a syntax node. */
  function Opcode(i: Instr): Byte {
    match i
    case Unreachable => 0x00
    case Nop => 0x01
    case Block(_, _) => 0x02
    case Loop(_, _) => 0x03
    case If(_, _, _) => 0x04
    case Br(_) => 0x0C
    case BrIf(_) => 0x0D
    case BrTable(_, _) => 0x0E
    case Return => 0x0F
    case Call(_) => 0x10
    case CallIndirect(_) => 0x11
    case Drop => 0x1A
    case Select => 0x1B
    case LocalGet(_) => 0x20
    case LocalSet(_) => 0x21
    case LocalTee(_) => 0x22
    case GlobalGet(_) => 0x23
    case GlobalSet(_) => 0x24
    case Memory(op, _, _) => op
    case Const(v) =>
      (match v
       case I32Val(_) => 0x41
       case I64Val(_) => 0x42
       case F32Val(_) => 0x43
       case F64Val(_) => 0x44)
    case Numeric(op) => op
  }

  const ELSE: Byte := 0x05
  const END: Byte := 0x0B

  /** A signature: operand types taken (last one on top) and result types put. */
  datatype Sig<T> = Sig(take: seq<T>, put: seq<T>)

  /** Operand and result types of every numeric opcode. */
  function NumericSig(op: NumCode): Sig<ValType> {
    if op == 0x45 then Sig([I32], [I32])                                       // i32.eqz
    else if op <= 0x4F then Sig([I32, I32], [I32])                             // i32 comparisons
    else if op == 0x50 then Sig([I64], [I32])                                  // i64.eqz
    else if op <= 0x5A then Sig([I64, I64], [I32])                             // i64 comparisons
    else if op <= 0x60 then Sig([F32, F32], [I32])                             // f32 comparisons
    else if op <= 0x66 then Sig([F64, F64], [I32])                             // f64 comparisons
    else if op <= 0x69 then Sig([I32], [I32])                                  // i32.clz .. popcnt
    else if op <= 0x78 then Sig([I32, I32], [I32])                             // i32.add .. rotr
    else if op <= 0x7B then Sig([I64], [I64])                                  // i64.clz .. popcnt
    else if op <= 0x8A then Sig([I64, I64], [I64])                             // i64.add .. rotr
    else if op <= 0x91 then Sig([F32], [F32])                                  // f32.abs .. sqrt
    else if op <= 0x98 then Sig([F32, F32], [F32])                             // f32.add .. copysign
    else if op <= 0x9F then Sig([F64], [F64])                                  // f64.abs .. sqrt
    else if op <= 0xA6 then Sig([F64, F64], [F64])                             // f64.add .. copysign
    else ConversionSig(op)
  }

  /** The conversions 0xA7 (i32.wrap_i64) to 0xBF (f64.reinterpret_i64). */
  function ConversionSig(op: NumCode): Sig<ValType> {
    if op <= 0xA7 then Sig([I64], [I32])
    else if op <= 0xA9 then Sig([F32], [I32])
    else if op <= 0xAB then Sig([F64], [I32])
    else if op <= 0xAD then Sig([I32], [I64])
    else if op <= 0xAF then Sig([F32], [I64])
    else if op <= 0xB1 then Sig([F64], [I64])
    else if op <= 0xB3 then Sig([I32], [F32])
    else if op <= 0xB5 then Sig([I64], [F32])
    else if op == 0xB6 then Sig([F64], [F32])
    else if op <= 0xB8 then Sig([I32], [F64])
    else if op <= 0xBA then Sig([I64], [F64])
    else if op == 0xBB then Sig([F32], [F64])
    else if op == 0xBC then Sig([F32], [I32])
    else if op == 0xBD then Sig([F64], [I64])
    else if op == 0xBE then Sig([I32], [F32])
    else Sig([I64], [F64])
  }

  /** Operand and result types of every memory opcode. */
  function MemorySig(op: MemCode): Sig<ValType> {
    if op == 0x28 || 0x2C <= op <= 0x2F then Sig([I32], [I32])
    else if op == 0x29 || 0x30 <= op <= 0x35 then Sig([I32], [I64])
    else if op == 0x2A then Sig([I32], [F32])
    else if op == 0x2B then Sig([I32], [F64])
    else if op == 0x36 || 0x3A <= op <= 0x3B then Sig([I32, I32], [])
    else if op == 0x37 || 0x3C <= op <= 0x3E then Sig([I32, I64], [])
    else if op == 0x38 then Sig([I32, F32], [])
    else if op == 0x39 then Sig([I32, F64], [])
    else if op == MEMORY_SIZE then Sig([], [I32])
    else Sig([I32], [I32])
  }

  /** Access width in bits of a load or store. */
  function AccessBits(op: MemCode): nat {
    if op in {0x29, 0x2B, 0x37, 0x39} then 64
    else if op in {0x28, 0x2A, 0x34, 0x35, 0x36, 0x38, 0x3E} then 32
    else if op in {0x2E, 0x2F, 0x32, 0x33, 0x3B, 0x3D} then 16
    else 8
  }

  /** `1 << align` exceeds the access width in bytes exactly when the alignment
      exponent is larger than log2 of that width. */
  predicate AlignmentFits(op: MemCode, align: U32) {
    op == MEMORY_SIZE || op == MEMORY_GROW
    || align <= (match AccessBits(op) case 64 => 3 case 32 => 2 case 16 => 1 case _ => 0)
  }
}
