/**
 * The `bit` library of integer bitwise operations, in its built-in-cast
 * configuration: every operand is already a lua_Integer, here a 64-bit
 * two's-complement word. Results are pushed with lua_pushinteger, which stores a
 * lua_Number; this view takes lua_Number to be that integer type, so no result
 * is rounded to 53 significant bits.
 */
module BitLib {
  import opened BitVariadic

  const SIGN_BIT: bv64 := 0x8000_0000_0000_0000
  const ALL_ONES: bv64 := 0xFFFF_FFFF_FFFF_FFFF

  /** A word is non-negative when read as a signed lua_Integer. */
  predicate NonNegative(x: bv64)
  {
    x & SIGN_BIT == 0
  }

  // ---------------------------------------------------------------------------
  // One-argument operations
  // ---------------------------------------------------------------------------

  /** `bnot`: every bit flipped, which in two's complement is -x - 1. */
  function BNot(x: bv64): (r: bv64)
    ensures r ^ x == ALL_ONES
    ensures r == -x - 1
  {
    !x
  }

  // ---------------------------------------------------------------------------
  // Two-argument operations: the shifts
  // ---------------------------------------------------------------------------

  /**
   * `lshift`: a << b. C leaves a shift by a negative amount or by the word width or
   * more undefined, and a left shift of a negative value too; those are excluded.
   * C also leaves undefined a result that does not fit a signed lua_Integer; the
   * model gives it the wrap-around result compilers produce, losing the bits
   * shifted out at the top. The vacated low bits are zero; a shift by 63 keeps
   * only the lowest bit, moved to the top.
   */
  function LShift(a: bv64, b: bv64): (r: bv64)
    requires b < 64 && NonNegative(a)
    ensures r & 1 == if b == 0 then a & 1 else 0
    ensures b == 63 ==> r == (a & 1) << 63
  {
    a << b
  }

  /** Shifting an lshift result back right by b recovers the low 64 - b bits of a. */
  lemma LShiftBack(a: bv64, b: bv64)
    requires b < 64 && NonNegative(a)
    ensures LShift(a, b) >> b == a & (ALL_ONES >> b)
  {
  }

  /** The b low bits an lshift vacates are zero. */
  lemma LShiftLowZero(a: bv64, b: bv64)
    requires b < 64 && NonNegative(a)
    ensures LShift(a, b) & !(ALL_ONES << b) == 0
  {
  }

  /**
   * `>>` on a signed lua_Integer, as compilers implement it: an arithmetic shift
   * that copies the sign bit into the vacated positions: the sign is kept, and a
   * shift of at least one copies it into bit 62 as well.
   */
  function SignedShiftRight(a: bv64, b: bv64): (r: bv64)
    requires b < 64
    ensures NonNegative(r) == NonNegative(a)
    ensures 0 < b ==> (r & 0x4000_0000_0000_0000 == 0) == NonNegative(a)
  {
    if NonNegative(a) then a >> b else !((!a) >> b)
  }

  /** The b top bits of a signed shift right are all copies of the sign bit. */
  lemma SignFillsTopBits(a: bv64, b: bv64)
    requires b < 64
    ensures SignedShiftRight(a, b) & !(ALL_ONES >> b) == if NonNegative(a) then 0 else !(ALL_ONES >> b)
  {
  }

  /** A shift by 63 leaves only copies of the sign bit: 0 or -1. */
  lemma ShiftOutAllButSign(a: bv64)
    ensures SignedShiftRight(a, 63) == if NonNegative(a) then 0 else ALL_ONES
  {
  }

  /** `rshift`: a >> b on a signed lua_Integer; on a non-negative operand it is the plain logical shift. */
  function RShift(a: bv64, b: bv64): (r: bv64)
    requires b < 64
    ensures NonNegative(r) == NonNegative(a)
    ensures NonNegative(a) ==> r == a >> b
  {
    SignedShiftRight(a, b)
  }

  /** `arshift`: also a >> b on a signed lua_Integer; on a non-negative operand it is the plain logical shift. */
  function ARShift(a: bv64, b: bv64): (r: bv64)
    requires b < 64
    ensures NonNegative(r) == NonNegative(a)
    ensures NonNegative(a) ==> r == a >> b
  {
    SignedShiftRight(a, b)
  }

  /** rshift and arshift always agree, and both keep the sign of their first operand. */
  lemma RShiftIsArithmetic(a: bv64, b: bv64)
    requires b < 64
    ensures RShift(a, b) == ARShift(a, b)
    ensures NonNegative(RShift(a, b)) == NonNegative(a)
  {
  }

  // ---------------------------------------------------------------------------
  // The library's functions as Lua calls them
  // ---------------------------------------------------------------------------

  /** The eight functions the library registers under the table `bit`. */
  datatype BitFunction = Cast | Bnot | Band | Bor | Bxor | Lshift | Rshift | Arshift

  /** The shifts are undefined in C unless the amount is in range and, for lshift, the value is non-negative. */
  predicate Defined(fn: BitFunction, args: seq<bv64>)
  {
    (fn.Lshift? || fn.Rshift? || fn.Arshift?) && |args| >= 2 ==>
      args[1] < 64 && (fn.Lshift? ==> NonNegative(args[0]))
  }

  /** band, bor and bxor take any number of arguments; the others read one or two. */
  predicate IsVariadic(fn: BitFunction)
  {
    fn.Band? || fn.Bor? || fn.Bxor?
  }

  /** The shifts read two arguments. */
  predicate IsShift(fn: BitFunction)
  {
    fn.Lshift? || fn.Rshift? || fn.Arshift?
  }

  /**
   * The value cast, bnot or a shift pushes, or the missing argument it reports;
   * arguments beyond those it reads are ignored.
   */
  function EvalFixed(fn: BitFunction, args: seq<bv64>): (r: Result<bv64>)
    requires !IsVariadic(fn) && Defined(fn, args)
    ensures r.Err? <==> |args| == 0 || (IsShift(fn) && |args| == 1)
    ensures r.Err? ==> r.error == if |args| == 0 then BadArgument(1) else BadArgument(2)
    ensures r.Ok? && fn == Cast ==> r.value == args[0]
  {
    if |args| == 0 then Err(BadArgument(1))
    else if IsShift(fn) && |args| < 2 then Err(BadArgument(2))
    else match fn
      case Cast => Ok(args[0])
      case Bnot => Ok(BNot(args[0]))
      case Lshift => Ok(LShift(args[0], args[1]))
      case Rshift => Ok(RShift(args[0], args[1]))
      case Arshift => Ok(ARShift(args[0], args[1]))
  }

  /** Arguments beyond the ones cast, bnot or a shift reads change nothing. */
  lemma ExtraArgumentsIgnored(fn: BitFunction, args: seq<bv64>, extra: seq<bv64>)
    requires !IsVariadic(fn) && Defined(fn, args)
    requires |args| == if IsShift(fn) then 2 else 1
    ensures Defined(fn, args + extra)
    ensures EvalFixed(fn, args + extra) == EvalFixed(fn, args)
  {
    assert (args + extra)[0] == args[0];
    if IsShift(fn) {
      assert (args + extra)[1] == args[1];
    }
  }

  /** The stack of a C function's frame: its arguments, then whatever it pushes. */
  class CallFrame {
    var slots: seq<bv64>

    constructor (args: seq<bv64>)
      ensures slots == args
    {
      slots := args;
    }
  }

  /**
   * Runs one of the library's functions on the arguments in its frame. A call fails,
   * pushing nothing, exactly when argument 1 is missing, or argument 2 of a shift;
   * otherwise it pushes exactly one integer above the arguments and reports one result:
   * the left fold of its operation for band, bor and bxor, the value EvalFixed gives
   * for the others.
   */
  method Invoke(fn: BitFunction, L: CallFrame) returns (r: Result<nat>)
    requires Defined(fn, L.slots)
    modifies L
    ensures r.Err? <==> |old(L.slots)| == 0 || (IsShift(fn) && |old(L.slots)| == 1)
    ensures r.Err? ==> L.slots == old(L.slots)
    ensures r.Err? ==> r.error == if |old(L.slots)| == 0 then BadArgument(1) else BadArgument(2)
    ensures r.Ok? ==> r.value == 1 && |L.slots| == |old(L.slots)| + 1 && L.slots[..|old(L.slots)|] == old(L.slots)
    ensures r.Ok? && fn == Band ==> L.slots[|old(L.slots)|] == Fold(And, old(L.slots))
    ensures r.Ok? && fn == Bor ==> L.slots[|old(L.slots)|] == Fold(Or, old(L.slots))
    ensures r.Ok? && fn == Bxor ==> L.slots[|old(L.slots)|] == Fold(Xor, old(L.slots))
    ensures r.Ok? && !IsVariadic(fn) ==> EvalFixed(fn, old(L.slots)) == Ok(L.slots[|old(L.slots)|])
  {
    var args := L.slots;
    var w: Result<bv64>;
    match fn {
      case Band => w := Variadic(And, args);
      case Bor => w := Variadic(Or, args);
      case Bxor => w := Variadic(Xor, args);
      case _ => w := EvalFixed(fn, args);
    }
    if w.Err? {
      return Err(w.error);
    }
    L.slots := L.slots + [w.value];
    return Ok(1);
  }
}
