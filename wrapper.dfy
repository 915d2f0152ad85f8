/**
 * The wrapper prototype shared by both combiners: for n child prototypes, a function
 * that creates a closure of each child in turn, passes it its own `...` arguments and
 * calls it, then returns nothing.
 */
module Wrapper {
  import opened Bytecode
  import opened LuaObjects

  /** The three instructions that run child i: make closure i in R0, copy `...` into R1.., call R0. */
  function CallTriple(i: nat): seq<Instruction>
  {
    [ABx(Closure, 0, i), ABx(VarArg, 1, 0), ABC(Call, 0, 0, 1)]
  }

  /** The final `return` with no values. */
  const ReturnNone: Instruction := ABC(Return, 0, 1, 0)

  /** The instructions that run children 0 .. n-1, in order. */
  function CallSequence(n: nat): (s: seq<Instruction>)
    ensures |s| == 3 * n
  {
    if n == 0 then [] else CallSequence(n - 1) + CallTriple(n - 1)
  }

  /** The whole code of the wrapper over n children. */
  function WrapperCode(n: nat): (s: seq<Instruction>)
    ensures |s| == 3 * n + 1
  {
    CallSequence(n) + [ReturnNone]
  }

  /** Slots 3i, 3i+1, 3i+2 of the call sequence hold the triple for child i. */
  lemma {:induction false} CallSequenceSlots(n: nat, i: nat)
    requires i < n
    ensures CallSequence(n)[3 * i] == ABx(Closure, 0, i)
    ensures CallSequence(n)[3 * i + 1] == ABx(VarArg, 1, 0)
    ensures CallSequence(n)[3 * i + 2] == ABC(Call, 0, 0, 1)
  {
    if i < n - 1 {
      CallSequenceSlots(n - 1, i);
      assert CallSequence(n) == CallSequence(n - 1) + CallTriple(n - 1);
    }
  }

  /**
   * A closed form for every slot of the wrapper: slot 3n is the return, and slot k < 3n
   * is, by k mod 3, the closure of child k / 3, the vararg copy or the call.
   */
  lemma WrapperSlot(n: nat, k: nat)
    requires k < 3 * n + 1
    ensures WrapperCode(n)[k] ==
      if k == 3 * n then ReturnNone
      else if k % 3 == 0 then ABx(Closure, 0, k / 3)
      else if k % 3 == 1 then ABx(VarArg, 1, 0)
      else ABC(Call, 0, 0, 1)
  {
    if k < 3 * n {
      CallSequenceSlots(n, k / 3);
    }
  }

  /**
   * Every wrapper instruction fits the instruction format when n - 1 <= MAXARG_Bx;
   * every register operand is below the wrapper's maxstacksize of 2, every closure
   * refers to a child index below n, and the code ends in a return.
   */
  lemma WrapperOperandsInRange(n: nat)
    requires n <= MAXARG_BX + 1
    ensures forall k :: 0 <= k < |WrapperCode(n)| ==> Fits(WrapperCode(n)[k])
    ensures forall k :: 0 <= k < |WrapperCode(n)| ==> WrapperCode(n)[k].a < 2
    ensures forall k :: 0 <= k < |WrapperCode(n)| && WrapperCode(n)[k].op == Closure ==>
      WrapperCode(n)[k].ABx? && WrapperCode(n)[k].bx < n
    ensures WrapperCode(n)[3 * n].op == Return
  {
    forall k | 0 <= k < |WrapperCode(n)|
      ensures Fits(WrapperCode(n)[k]) && WrapperCode(n)[k].a < 2
      ensures WrapperCode(n)[k].op == Closure ==> WrapperCode(n)[k].ABx? && WrapperCode(n)[k].bx < n
    {
      WrapperSlot(n, k);
    }
  }

  /**
   * The packed word in slot 3i decodes to a CLOSURE of child i, and the word in slot
   * 3i+1 is the same whether VARARG is packed in the A/Bx form the combiner uses or in
   * the A/B/C form Lua 5.1 decodes it with (B = 0: all of the caller's varargs).
   */
  lemma ClosureWords(n: nat, i: nat)
    requires i < n <= MAXARG_BX + 1
    ensures Fits(WrapperCode(n)[3 * i])
    ensures OpCodeOf(GetOpNumber(Encode(WrapperCode(n)[3 * i]))) == Some(Closure)
    ensures GetA(Encode(WrapperCode(n)[3 * i])) == 0
    ensures GetBx(Encode(WrapperCode(n)[3 * i])) == i
    ensures Fits(WrapperCode(n)[3 * i + 1])
    ensures Encode(WrapperCode(n)[3 * i + 1]) == Encode(ABC(VarArg, 1, 0, 0))
  {
    CallSequenceSlots(n, i);
    assert WrapperCode(n)[3 * i] == CallSequence(n)[3 * i];
    assert WrapperCode(n)[3 * i + 1] == CallSequence(n)[3 * i + 1];
    DecodeEncode(ABx(Closure, 0, i));
  }

  /** Writes one instruction at the cursor and advances it (`code[pc++] = x`). */
  method Emit(code: array<Instruction>, pc: nat, x: Instruction) returns (next: nat)
    requires pc < code.Length
    modifies code
    ensures next == pc + 1
    ensures code[..next] == old(code[..pc]) + [x]
    ensures forall k :: next <= k < code.Length ==> code[k] == old(code[k])
  {
    code[pc] := x;
    next := pc + 1;
  }

  /** Writes the triple that runs child i at the cursor, one instruction at a time. */
  method EmitCallTriple(code: array<Instruction>, pc: nat, i: nat) returns (next: nat)
    requires pc + 3 <= code.Length
    modifies code
    ensures next == pc + 3
    ensures code[..next] == old(code[..pc]) + CallTriple(i)
    ensures forall k :: next <= k < code.Length ==> code[k] == old(code[k])
  {
    next := Emit(code, pc, ABx(Closure, 0, i));
    next := Emit(code, next, ABx(VarArg, 1, 0));
    next := Emit(code, next, ABC(Call, 0, 0, 1));
  }

  /**
   * The loop of the builder: for each child i in turn, records the (i+1)-th of the n
   * functions on top of `below` (the stack under the new prototype, so offset i - n - 1
   * from the new top) as child i and writes its triple at the cursor; then writes the
   * final return. After child i exactly the first 3(i+1) slots are written.
   */
  method FillWrapper(code: array<Instruction>, p: array<Proto?>, below: seq<Value>, n: nat)
    requires code.Length == 3 * n + 1 && p.Length == n && TopAreFunctions(below, n)
    modifies code, p
    ensures code[..] == WrapperCode(n)
    ensures forall i :: 0 <= i < n ==> p[i] == below[|below| - n + i].proto
  {
    var pc := 0;
    var i := 0;
    while i < n
      invariant 0 <= i <= n && pc == 3 * i
      invariant code[..pc] == CallSequence(i)
      invariant forall j :: 0 <= j < i ==> p[j] == below[|below| - n + j].proto
    {
      p[i] := below[|below| - n + i].proto;
      pc := EmitCallTriple(code, pc, i);
      i := i + 1;
    }
    pc := Emit(code, pc, ReturnNone);
    assert code[..] == code[..pc];
  }

  /**
   * Builds the wrapper over the `n` functions on top of the stack, pushing the new
   * prototype onto the stack first (as both combiners do, to keep it reachable).
   * Child i is the function at offset i - n - 1 from the new top, that is the
   * (i+1)-th of the n functions in stack order. The fields are set first, with
   * fresh arrays of the right sizes, and the arrays are filled afterwards.
   */
  method NewWrapper(L: LuaState, n: nat, source: string) returns (f: Proto)
    requires TopAreFunctions(L.stack, n)
    modifies L
    ensures fresh(f) && fresh(f.code) && fresh(f.p)
    ensures L.stack == old(L.stack) + [ProtoRef(f)]
    ensures f.source == source && f.maxstacksize == 2 && f.isVararg == VARARG_ISVARARG
    ensures f.sizecode == f.code.Length == 3 * n + 1 && f.code[..] == WrapperCode(n)
    ensures f.sizep == f.p.Length == n
    ensures forall i :: 0 <= i < n ==> f.p[i] == old(L.stack)[|old(L.stack)| - n + i].proto
  {
    var below := L.stack;
    f := new Proto();
    L.stack := L.stack + [ProtoRef(f)];
    var size := 3 * n + 1;
    var code := new Instruction[size];
    var p := new Proto?[n];
    f.source := source;
    f.maxstacksize := 2;
    f.isVararg := VARARG_ISVARARG;
    f.code := code;
    f.sizecode := size;
    f.p := p;
    f.sizep := n;
    FillWrapper(code, p, below, n);
  }
}
