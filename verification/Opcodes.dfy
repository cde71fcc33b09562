/** The numeric and memory instructions by their families: the opcode tables of sections
    5.4.4 and 5.4.5 of the WebAssembly Core Specification, typed by the rules of sections
    3.3.1 and 3.3.3. */
module Opcodes {
  import opened Wasm

  datatype Family =
    | Testop(t: ValType)
    | Relop(t: ValType)
    | Unop(t: ValType)
    | Binop(t: ValType)
    | Cvtop(to: ValType, from: ValType)

  function FamilyType(f: Family): Sig<ValType> {
    match f
    case Testop(t) => Sig([t], [I32])
    case Relop(t) => Sig([t, t], [I32])
    case Unop(t) => Sig([t], [t])
    case Binop(t) => Sig([t, t], [t])
    case Cvtop(to, from) => Sig([from], [to])
  }

  /** First and last opcode of a family that is not a conversion. */
  function Opcodes(f: Family): (int, int)
    requires !f.Cvtop?
  {
    match f
    case Testop(t) => (match t case I32 => (0x45, 0x45) case I64 => (0x50, 0x50) case _ => (0, -1))
    case Relop(t) =>
      (match t case I32 => (0x46, 0x4F) case I64 => (0x51, 0x5A) case F32 => (0x5B, 0x60) case F64 => (0x61, 0x66))
    case Unop(t) =>
      (match t case I32 => (0x67, 0x69) case I64 => (0x79, 0x7B) case F32 => (0x8B, 0x91) case F64 => (0x99, 0x9F))
    case Binop(t) =>
      (match t case I32 => (0x6A, 0x78) case I64 => (0x7C, 0x8A) case F32 => (0x92, 0x98) case F64 => (0xA0, 0xA6))
  }

  /** The conversions from 0xA7 on. */
  const CONVERSIONS: seq<Family> := [
    Cvtop(I32, I64), Cvtop(I32, F32), Cvtop(I32, F32), Cvtop(I32, F64), Cvtop(I32, F64),
    Cvtop(I64, I32), Cvtop(I64, I32), Cvtop(I64, F32), Cvtop(I64, F32), Cvtop(I64, F64), Cvtop(I64, F64),
    Cvtop(F32, I32), Cvtop(F32, I32), Cvtop(F32, I64), Cvtop(F32, I64), Cvtop(F32, F64),
    Cvtop(F64, I32), Cvtop(F64, I32), Cvtop(F64, I64), Cvtop(F64, I64), Cvtop(F64, F32),
    Cvtop(I32, F32), Cvtop(I64, F64), Cvtop(F32, I32), Cvtop(F64, I64)]

  predicate Belongs(op: NumCode, f: Family) {
    if f.Cvtop? then 0 <= op - 0xA7 < |CONVERSIONS| && f == CONVERSIONS[op - 0xA7]
    else Opcodes(f).0 <= op <= Opcodes(f).1
  }

  /** The family of an opcode. */
  function FamilyOf(op: NumCode): (f: Family)
    ensures Belongs(op, f)
  {
    if op >= 0xA7 then CONVERSIONS[op - 0xA7]
    else if op == 0x45 then Testop(I32)
    else if op <= 0x4F then Relop(I32)
    else if op == 0x50 then Testop(I64)
    else if op <= 0x5A then Relop(I64)
    else if op <= 0x60 then Relop(F32)
    else if op <= 0x66 then Relop(F64)
    else if op <= 0x69 then Unop(I32)
    else if op <= 0x78 then Binop(I32)
    else if op <= 0x7B then Unop(I64)
    else if op <= 0x8A then Binop(I64)
    else if op <= 0x91 then Unop(F32)
    else if op <= 0x98 then Binop(F32)
    else if op <= 0x9F then Unop(F64)
    else Binop(F64)
  }

  /** Every numeric opcode belongs to exactly one family and has its type. */
  lemma NumericFamilies(op: NumCode, f: Family)
    ensures Belongs(op, f) <==> f == FamilyOf(op)
    ensures Belongs(op, f) ==> NumericSig(op) == FamilyType(f)
  {
  }

  datatype Access = Load(t: ValType, bits: nat) | Store(t: ValType, bits: nat) | Size | Grow

  /** The memory instructions from 0x28 on. */
  const ACCESSES: seq<Access> := [
    Load(I32, 32), Load(I64, 64), Load(F32, 32), Load(F64, 64),
    Load(I32, 8), Load(I32, 8), Load(I32, 16), Load(I32, 16),
    Load(I64, 8), Load(I64, 8), Load(I64, 16), Load(I64, 16), Load(I64, 32), Load(I64, 32),
    Store(I32, 32), Store(I64, 64), Store(F32, 32), Store(F64, 64),
    Store(I32, 8), Store(I32, 16), Store(I64, 8), Store(I64, 16), Store(I64, 32),
    Size, Grow]

  function AccessOf(op: MemCode): Access {
    ACCESSES[op - 0x28]
  }

  function AccessType(a: Access): Sig<ValType> {
    match a
    case Load(t, _) => Sig([I32], [t])
    case Store(t, _) => Sig([I32, t], [])
    case Size => Sig([], [I32])
    case Grow => Sig([I32], [I32])
  }

  /** A memory access may be aligned to at most its own width. */
  predicate Aligned(a: Access, align: nat) {
    (a.Load? || a.Store?) ==> 8 * Power(align) <= a.bits
  }

  function Power(n: nat): nat {
    if n == 0 then 1 else 2 * Power(n - 1)
  }

  lemma MemoryAccesses(op: MemCode)
    ensures MemorySig(op) == AccessType(AccessOf(op))
    ensures AccessOf(op).Load? || AccessOf(op).Store? ==> AccessBits(op) == AccessOf(op).bits
    ensures AccessOf(op).Size? <==> op == MEMORY_SIZE
    ensures AccessOf(op).Grow? <==> op == MEMORY_GROW
  {
  }

  /** The comparison of the alignment exponent is the rule on widths. */
  lemma AlignedIff(op: MemCode, align: U32)
    ensures Aligned(AccessOf(op), align) <==> AlignmentFits(op, align)
  {
    MemoryAccesses(op);
    assert Power(1) == 2 && Power(2) == 4 && Power(3) == 8;
    if align > 3 {
      PowerAbove(align);
    }
  }

  lemma {:induction false} PowerAbove(n: nat)
    requires n > 3
    ensures Power(n) >= 16
  {
    if n > 4 {
      PowerAbove(n - 1);
    } else {
      assert Power(1) == 2 && Power(2) == 4 && Power(3) == 8;
    }
  }
}
