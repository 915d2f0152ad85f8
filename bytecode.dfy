/**
 * Lua 5.1 virtual-machine instructions as the chunk combiner emits them.
 *
 * An instruction is built either in the three-register form (CREATE_ABC) or in the
 * form with one extended operand (CREATE_ABx). Only the four opcodes the combiner
 * emits are modelled. Field widths, field positions and opcode numbers are those of
 * Lua 5.1's lopcodes.h (op 6 bits at bit 0, A 8 bits at bit 6, C 9 bits at bit 14,
 * B 9 bits at bit 23, Bx 18 bits at bit 14); that header is not part of this model,
 * so they are stated here as assumptions.
 */
module Bytecode {

  datatype Option<T> = None | Some(value: T)

  /** The opcodes the combiner emits. */
  datatype OpCode = Call | Return | Closure | VarArg

  /** An instruction as built by CREATE_ABC or CREATE_ABx. */
  datatype Instruction =
    | ABC(op: OpCode, a: nat, b: nat, c: nat)
    | ABx(op: OpCode, a: nat, bx: nat)

  const SIZE_OP: nat := 6
  const SIZE_A: nat := 8
  const SIZE_B: nat := 9
  const SIZE_C: nat := 9
  const SIZE_BX: nat := 18

  const MAXARG_A: nat := 255       // 2^SIZE_A - 1
  const MAXARG_B: nat := 511       // 2^SIZE_B - 1
  const MAXARG_C: nat := 511       // 2^SIZE_C - 1
  const MAXARG_BX: nat := 262143   // 2^SIZE_BX - 1

  /** Opcode numbers in the order of Lua 5.1's opcode enumeration. */
  function OpNumber(op: OpCode): (k: nat)
    ensures k < 64
    ensures OpCodeOf(k) == Some(op)
  {
    match op
    case Call => 28
    case Return => 30
    case Closure => 36
    case VarArg => 37
  }

  /** The opcode an opcode field denotes, if it is one of the modelled four. */
  function OpCodeOf(k: nat): Option<OpCode>
  {
    if k == 28 then Some(Call)
    else if k == 30 then Some(Return)
    else if k == 36 then Some(Closure)
    else if k == 37 then Some(VarArg)
    else None
  }

  /** Every operand fits its field, so packing loses nothing. */
  predicate Fits(i: Instruction)
  {
    i.a <= MAXARG_A &&
    match i
    case ABC(_, _, b, c) => b <= MAXARG_B && c <= MAXARG_C
    case ABx(_, _, bx) => bx <= MAXARG_BX
  }

  /** The 32-bit word of an instruction: op | A << 6 | C << 14 | B << 23, or op | A << 6 | Bx << 14. */
  function Encode(i: Instruction): (w: nat)
    requires Fits(i)
    ensures w < 0x1_0000_0000
  {
    match i
    case ABC(op, a, b, c) => OpNumber(op) + 64 * (a + 256 * (c + 512 * b))
    case ABx(op, a, bx) => OpNumber(op) + 64 * (a + 256 * bx)
  }

  // Field extraction, as the GET_OPCODE / GETARG_x macros do with shifts and masks.
  function GetOpNumber(w: nat): nat { w % 64 }
  function GetA(w: nat): nat { w / 64 % 256 }
  function GetC(w: nat): nat { w / 64 / 256 % 512 }
  function GetB(w: nat): nat { w / 64 / 256 / 512 % 512 }
  function GetBx(w: nat): nat { w / 64 / 256 % 262144 }

  // Splitting a number written in a mixed radix at one digit, for each field width used.
  lemma Split64(lo: nat, hi: nat)
    requires lo < 64
    ensures (lo + 64 * hi) % 64 == lo && (lo + 64 * hi) / 64 == hi
  {
  }

  lemma Split256(lo: nat, hi: nat)
    requires lo < 256
    ensures (lo + 256 * hi) % 256 == lo && (lo + 256 * hi) / 256 == hi
  {
  }

  lemma Split512(lo: nat, hi: nat)
    requires lo < 512
    ensures (lo + 512 * hi) % 512 == lo && (lo + 512 * hi) / 512 == hi
  {
  }

  /** Decoding a packed instruction gives back its opcode and every operand. */
  lemma {:induction false} DecodeEncode(i: Instruction)
    requires Fits(i)
    ensures OpCodeOf(GetOpNumber(Encode(i))) == Some(i.op)
    ensures GetA(Encode(i)) == i.a
    ensures i.ABC? ==> GetB(Encode(i)) == i.b && GetC(Encode(i)) == i.c
    ensures i.ABx? ==> GetBx(Encode(i)) == i.bx
  {
    match i
    case ABC(op, a, b, c) =>
      Split64(OpNumber(op), a + 256 * (c + 512 * b));
      Split256(a, c + 512 * b);
      Split512(c, b);
      Split512(b, 0);
    case ABx(op, a, bx) =>
      Split64(OpNumber(op), a + 256 * bx);
      Split256(a, bx);
  }
}
