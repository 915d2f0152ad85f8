/**
 * The variadic operations of the `bit` library, band, bor and bxor: left folds of
 * &, | and ^ over 64-bit lua_Integer words, and what those folds compute.
 */
module BitVariadic {

  /** luaL_checkinteger's failure: argument `position` (1-based) is missing. */
  datatype Error = BadArgument(position: nat)

  datatype Result<T> = Ok(value: T) | Err(error: Error)


  datatype BitOp = And | Or | Xor

  function Apply(op: BitOp, x: bv64, y: bv64): bv64
  {
    match op
    case And => x & y
    case Or => x | y
    case Xor => x ^ y
  }

  /** The left fold `args[0] op args[1] op ... op args[n-1]`. */
  function Fold(op: BitOp, args: seq<bv64>): bv64
    requires |args| >= 1
    decreases |args|
  {
    if |args| == 1 then args[0]
    else Apply(op, Fold(op, args[..|args| - 1]), args[|args| - 1])
  }

  /**
   * The body shared by band, bor and bxor: the first argument is the accumulator
   * and every further argument is combined into it, left to right. With no
   * arguments at all, argument 1 is reported missing.
   */
  method Variadic(op: BitOp, args: seq<bv64>) returns (r: Result<bv64>)
    ensures |args| == 0 ==> r == Err(BadArgument(1))
    ensures |args| >= 1 ==> r == Ok(Fold(op, args))
    ensures |args| == 1 ==> r == Ok(args[0])
  {
    var n := |args|;
    if n == 0 {
      return Err(BadArgument(1));
    }
    var w := args[0];
    var i := 2;
    while i <= n
      invariant 2 <= i <= n + 1
      invariant w == Fold(op, args[..i - 1])
    {
      assert args[..i][..i - 1] == args[..i - 1];
      w := Apply(op, w, args[i - 1]);
      i := i + 1;
    }
    assert args[..n] == args;
    return Ok(w);
  }

  /** Folding one more argument on the right applies the operation once more. */
  lemma FoldSnoc(op: BitOp, args: seq<bv64>, x: bv64)
    requires |args| >= 1
    ensures Fold(op, args + [x]) == Apply(op, Fold(op, args), x)
  {
    assert (args + [x])[..|args|] == args;
  }

  /** Every bit set in the mask `m` is set in `x`. */
  predicate HasAllOf(x: bv64, m: bv64)
  {
    x & m == m
  }

  /** No bit set in the mask `m` is set in `x`. */
  predicate HasNoneOf(x: bv64, m: bv64)
  {
    x & m == 0
  }

  lemma AndCommonMask(x: bv64, y: bv64, m: bv64)
    requires x & m == m && y & m == m
    ensures (x & y) & m == m
  {
  }

  lemma AndMaskLeft(x: bv64, y: bv64, m: bv64)
    requires (x & y) & m == m
    ensures x & m == m
  {
  }

  lemma AndMaskRight(x: bv64, y: bv64, m: bv64)
    requires (x & y) & m == m
    ensures y & m == m
  {
  }

  lemma OrClearMask(x: bv64, y: bv64, m: bv64)
    requires x & m == 0 && y & m == 0
    ensures (x | y) & m == 0
  {
  }

  lemma OrMaskLeft(x: bv64, y: bv64, m: bv64)
    requires (x | y) & m == 0
    ensures x & m == 0
  {
  }

  lemma OrMaskRight(x: bv64, y: bv64, m: bv64)
    requires (x | y) & m == 0
    ensures y & m == 0
  {
  }

  /** One step of band: the accumulated word keeps a mask exactly when both operands do. */
  lemma AndMaskStep(x: bv64, y: bv64, m: bv64)
    ensures HasAllOf(Apply(And, x, y), m) <==> HasAllOf(x, m) && HasAllOf(y, m)
  {
    if HasAllOf(x, m) && HasAllOf(y, m) {
      AndCommonMask(x, y, m);
    }
    if HasAllOf(Apply(And, x, y), m) {
      AndMaskLeft(x, y, m);
      AndMaskRight(x, y, m);
    }
  }

  /** One step of bor: the accumulated word avoids a mask exactly when both operands do. */
  lemma OrMaskStep(x: bv64, y: bv64, m: bv64)
    ensures HasNoneOf(Apply(Or, x, y), m) <==> HasNoneOf(x, m) && HasNoneOf(y, m)
  {
    if HasNoneOf(x, m) && HasNoneOf(y, m) {
      OrClearMask(x, y, m);
    }
    if HasNoneOf(Apply(Or, x, y), m) {
      OrMaskLeft(x, y, m);
      OrMaskRight(x, y, m);
    }
  }

  /** band: the result has every bit of a mask exactly when every argument has all of them. */
  lemma {:induction false} AndKeepsCommonBits(args: seq<bv64>, m: bv64)
    requires |args| >= 1
    ensures HasAllOf(Fold(And, args), m) <==> forall j :: 0 <= j < |args| ==> HasAllOf(args[j], m)
    decreases |args|
  {
    if |args| > 1 {
      var front, last := args[..|args| - 1], args[|args| - 1];
      AndKeepsCommonBits(front, m);
      AndMaskStep(Fold(And, front), last, m);
      assert forall j :: 0 <= j < |args| - 1 ==> args[j] == front[j];
    }
  }

  /** bor: the result has no bit of a mask exactly when no argument has one. */
  lemma {:induction false} OrCollectsBits(args: seq<bv64>, m: bv64)
    requires |args| >= 1
    ensures HasNoneOf(Fold(Or, args), m) <==> forall j :: 0 <= j < |args| ==> HasNoneOf(args[j], m)
    decreases |args|
  {
    if |args| > 1 {
      var front, last := args[..|args| - 1], args[|args| - 1];
      OrCollectsBits(front, m);
      OrMaskStep(Fold(Or, front), last, m);
      assert forall j :: 0 <= j < |args| - 1 ==> args[j] == front[j];
    }
  }

  /** One step of bxor: applying the same word twice restores the accumulator. */
  lemma XorSelfInverse(w: bv64, x: bv64)
    ensures Apply(Xor, Apply(Xor, w, x), x) == w
  {
  }

  /** bxor: an argument given twice in a row cancels out, wherever the pair stands after the first argument. */
  lemma {:induction false} XorPairCancels(args: seq<bv64>, x: bv64, rest: seq<bv64>)
    requires |args| >= 1
    ensures Fold(Xor, args + [x, x] + rest) == Fold(Xor, args + rest)
    decreases |rest|
  {
    if rest == [] {
      assert args + [x, x] + rest == args + [x] + [x];
      assert args + rest == args;
      FoldSnoc(Xor, args, x);
      FoldSnoc(Xor, args + [x], x);
      XorSelfInverse(Fold(Xor, args), x);
    } else {
      var init, y := rest[..|rest| - 1], rest[|rest| - 1];
      assert args + [x, x] + rest == (args + [x, x] + init) + [y];
      assert args + rest == (args + init) + [y];
      XorPairCancels(args, x, init);
      FoldSnoc(Xor, args + [x, x] + init, y);
      FoldSnoc(Xor, args + init, y);
    }
  }

}
