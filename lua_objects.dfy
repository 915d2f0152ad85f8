/**
 * The part of the Lua 5.1 runtime's object graph that the combiners touch: function
 * prototypes, the values a stack slot can hold, and the stack of the running frame.
 */
module LuaObjects {
  import opened Bytecode

  /** The `is_vararg` flag bit meaning "this function is declared with `...`". */
  const VARARG_ISVARARG: nat := 2

  /**
   * A function prototype. Only the fields the combiners write are modelled; the
   * constant table, upvalue names, line and local-variable debug tables and the
   * parameter count are left out. `code` and `p` stand for the C arrays whose
   * lengths the runtime records in `sizecode` and `sizep`.
   */
  class Proto {
    var source: string
    var maxstacksize: nat
    var isVararg: nat
    var code: array<Instruction>
    var sizecode: nat
    var p: array<Proto?>
    var sizep: nat

    /** A blank prototype, as luaF_newproto leaves it: no code, no children, no flags. */
    constructor ()
      ensures source == "" && maxstacksize == 0 && isVararg == 0
      ensures code.Length == 0 && sizecode == 0
      ensures p.Length == 0 && sizep == 0
    {
      source := "";
      maxstacksize := 0;
      isVararg := 0;
      code := new Instruction[0];
      sizecode := 0;
      p := new Proto?[0];
      sizep := 0;
    }
  }

  /**
   * A stack slot: a Lua function (a closure over a prototype, as luaL_loadfile
   * leaves it), a bare prototype (as setptvalue2s stores one), or any other value.
   */
  datatype Value =
    | LuaFunction(proto: Proto)
    | ProtoRef(proto: Proto)
    | OtherValue

  /** The slots of the running frame, bottom first; its length is lua_gettop. */
  class LuaState {
    var stack: seq<Value>

    constructor (slots: seq<Value>)
      ensures stack == slots
    {
      stack := slots;
    }
  }

  /** The top `n` slots of `stack` all hold Lua functions. */
  predicate TopAreFunctions(stack: seq<Value>, n: nat)
  {
    n <= |stack| && forall k :: |stack| - n <= k < |stack| ==> stack[k].LuaFunction?
  }
}
