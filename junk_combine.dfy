/**
 * The stand-alone `combine` function meant to be called from Lua: the same wrapper
 * builder as the compiler driver's, over every value on the calling frame's stack.
 */
module JunkCombine {
  import opened Bytecode
  import opened LuaObjects
  import opened Wrapper

  /**
   * Combines the n = lua_gettop values on the stack. With exactly one it returns at
   * once, leaving that value, whatever it is, as the single result. Otherwise, n = 0 included, it
   * pushes a fresh wrapper whose children are the n values in argument order, with
   * the code of the driver's combiner (WrapperCode(n)), and returns one result: that
   * wrapper. The result is a bare prototype, not a function value Lua could call,
   * which is why this combiner does not work.
   */
  method LuaCombine(L: LuaState) returns (results: nat, ghost wrapper: Proto?)
    requires |L.stack| != 1 ==> TopAreFunctions(L.stack, |L.stack|)
    modifies L
    ensures results == 1
    ensures |old(L.stack)| == 1 ==> L.stack == old(L.stack) && wrapper == null
    ensures |old(L.stack)| != 1 ==> wrapper != null && fresh(wrapper) && fresh(wrapper.code) && fresh(wrapper.p)
    ensures |old(L.stack)| != 1 ==> L.stack == old(L.stack) + [ProtoRef(wrapper)] && !L.stack[|L.stack| - 1].LuaFunction?
    ensures |old(L.stack)| != 1 ==>
      wrapper.source == "=(combiner)" && wrapper.maxstacksize == 2 && wrapper.isVararg == VARARG_ISVARARG
    ensures |old(L.stack)| != 1 ==>
      wrapper.sizecode == wrapper.code.Length == 3 * |old(L.stack)| + 1 &&
      wrapper.code[..] == WrapperCode(|old(L.stack)|)
    ensures |old(L.stack)| != 1 ==>
      wrapper.sizep == wrapper.p.Length == |old(L.stack)| &&
      forall i :: 0 <= i < |old(L.stack)| ==> wrapper.p[i] == old(L.stack)[i].proto
  {
    var n := |L.stack|;
    if n == 1 {
      return 1, null;
    }
    var f := NewWrapper(L, n, "=(combiner)");
    return 1, f;
  }

  /**
   * With no arguments the wrapper has no children and its code is the single
   * `return`, so calling it would do nothing.
   */
  lemma EmptyWrapperOnlyReturns()
    ensures WrapperCode(0) == [ABC(Return, 0, 1, 0)]
  {
  }
}
