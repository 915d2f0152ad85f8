# metalua: chunk combiner, `mlc` option scanner and the `bit` library

This project is a Dafny model of three pieces of metalua's native code.

1. **The `mlc` compiler driver.** `mlc` compiles one or more Lua files. Its option
   scanner `doargs` reads the command line. It sets the driver's file-level settings:
   listing, dumping, stripping, output file, program name, AST display and metabugs.
   It also decides where the input files start. The chunk combiner `combine` takes the
   `n` compiled chunks on the Lua stack. With one chunk it returns that chunk's
   prototype. With more, it builds a fresh wrapper prototype of `3n + 1` instructions.
   The wrapper runs child `i` with `CLOSURE 0 i; VARARG 1 0; CALL 0 0 1` and finishes
   with `RETURN 0 1`, so every chunk is called in turn with the wrapper's own `...`.
2. **The stand-alone `combine` function.** It is the same wrapper builder, over every
   value on the calling frame. It differs from the driver in three ways. n is the
   number of values on the frame, so with none it builds a wrapper holding only the
   return. A single value, of any type, is returned as it is, not as its prototype.
   The wrapper is returned to Lua as a bare prototype, not a closure.
3. **The `bit` library** in its built-in-cast configuration. `cast` and `bnot` are
   unary `+` and `~`. `band`, `bor` and `bxor` are left folds of `&`, `|` and `^` over
   all their arguments. `lshift`, `rshift` and `arshift` are `<<` and `>>` on a 64-bit
   signed `lua_Integer`. Results are pushed as a `lua_Number`; the model takes that to be
   the same integer type, so results with more than 53 significant bits are not rounded.

Files:

- `bytecode.dfy` (module `Bytecode`): the four Lua 5.1 instructions the combiners emit
  and their packing into a 32-bit word. The opcode numbers, field widths and field
  positions are those of Lua 5.1's `lopcodes.h`. That header is not part of this
  model, so they are stated as assumptions.
- `lua_objects.dfy` (module `LuaObjects`): function prototypes (`class Proto`), stack
  values and the stack of the running frame (`class LuaState`).
- `wrapper.dfy` (module `Wrapper`): the wrapper builder shared by both combiners. It
  writes the code array through one cursor, as the C loop does. It is proved against
  `WrapperCode(n)`, the specification of the wrapper's code.
- `mlc.dfy` (module `Mlc`): the driver's `combine` and its option scanner. The scanner
  has two parts:
  - a specification on values (`ScanFrom`, `ParseArgs`). Both it and the loop sort each
    argument with `Classify`, the chain of option tests, which gives an `OptionKind`;
  - the imperative scanner over the driver's settings (`class Options`), which writes
    into the argument vector as `doargs` does.
- `junk_combine.dfy` (module `JunkCombine`): the stand-alone `combine`.
- `bit_variadic.dfy` (module `BitVariadic`): `band`, `bor` and `bxor`. The loop is
  proved against the left fold `Fold`. It also gives a bit-level characterisation of
  each fold.
- `bit.dfy` (module `BitLib`): `cast`, `bnot`, the shifts, and the dispatch of a Lua
  call to the library's eight functions.

## Model

| member | source | states |
|---|---|---|
| Bytecode.OpNumber | src/lua-vm/mlc.c:164-168 | each emitted opcode has a number that fits the 6-bit opcode field and decodes back to the same opcode |
| Bytecode.Encode | src/lua-vm/mlc.c:164-168 | an instruction whose operands fit their fields packs into one 32-bit word |
| Bytecode.DecodeEncode | src/lua-vm/mlc.c:164-168 | unpacking a packed instruction gives back its opcode, A, and B and C or Bx: packing loses nothing |
| LuaObjects.Proto.constructor | src/lua-vm/mlc.c:150 | a new prototype has no source, no code, no children, stack size 0 and no vararg flag |
| Wrapper.CallSequence | src/lua-vm/mlc.c:161-167 | the calls of n children take exactly 3n instructions |
| Wrapper.WrapperCode | src/lua-vm/mlc.c:155-168 | the wrapper over n children has exactly 3n + 1 instructions, the size allocated for it |
| Wrapper.CallSequenceSlots | src/lua-vm/mlc.c:161-167 | slots 3i, 3i+1 and 3i+2 hold CLOSURE 0 i, VARARG 1 0 and CALL 0 0 1 for every child i |
| Wrapper.WrapperSlot | src/lua-vm/mlc.c:161-168 | gives every slot of the wrapper by its index mod 3, with RETURN 0 1 0 in the last slot |
| Wrapper.WrapperOperandsInRange | src/lua-vm/mlc.c:153-168 | when n - 1 fits Bx, every instruction fits its fields, every register is below maxstacksize 2, every closure names a child below n, and the code ends in a return |
| Wrapper.ClosureWords | src/lua-vm/mlc.c:164-165 | the packed word of slot 3i decodes as CLOSURE with A 0 and Bx i; the VARARG word is the same whether packed as A/Bx or as A/B/C with B = 0 (pass all varargs) |
| Wrapper.Emit | src/lua-vm/mlc.c:168 | `code[pc++] = x`: the written prefix grows by x and nothing after the cursor changes |
| Wrapper.EmitCallTriple | src/lua-vm/mlc.c:164-166 | the written prefix grows by the triple of child i and nothing after the cursor changes |
| Wrapper.FillWrapper | src/lua-vm/mlc.c:160-168 | the loop and the final return: the code array ends up exactly WrapperCode(n), and child i is the (i+1)-th of the n functions on top of the stack below the new prototype |
| Wrapper.NewWrapper | src/lua-vm/mlc.c:150-168 | pushes exactly one new prototype onto the stack; its source, stack size and vararg flag are set; its code is WrapperCode(n) with sizecode = 3n + 1; its children are the n stack functions in stack order |
| Mlc.Combine | src/lua-vm/mlc.c:142-172 | one chunk: the stack is unchanged and the chunk's own prototype is returned; several: a fresh wrapper as NewWrapper builds it, sourced "=(mlc)", whose instructions all fit and stay within its stack and child bounds |
| Mlc.ClassifyExact | src/lua-vm/mlc.c:89-118 | the option tests compare whole arguments: each of `--`, `-`, `-l`, `-o`, `-p`, `-s`, `-v`, `-a` and `-b` is recognised exactly when the argument equals it, and an option is unknown exactly when it equals none of them |
| Mlc.Classify | src/lua-vm/mlc.c:89-118 | the chain of option tests; an argument is an operand exactly when it does not start with '-' (the link to each whole-argument comparison is ClassifyExact) |
| Mlc.ScanFrom | src/lua-vm/mlc.c:87-119 | the option loop never stops before its start, and stops past the arguments only when it never started |
| Mlc.ScanSkipsSwitches | src/lua-vm/mlc.c:99-116 | a run of -l -p -s -v -a -b switches is consumed entirely, applying each to the settings in order |
| Mlc.FirstNonSwitch | src/lua-vm/mlc.c:89-118 | at the first argument that is not a switch: a non-option stops the loop there; `--` stops it after itself; `-` stops it there; `-o` takes the next argument as output (`-` means stdout) and a missing or empty name is the "'-o' needs argument" usage error; any other option is a usage error naming it |
| Mlc.ScanStopsAtOperand | src/lua-vm/mlc.c:87-98 | a stop inside the arguments is at a non-option, at `-`, or right after `--` |
| Mlc.OutputNameNonEmpty | src/lua-vm/mlc.c:101-106 | the output chosen by `-o` is never the empty name and never `-`, which selects standard output instead |
| Mlc.ParseArgs | src/lua-vm/mlc.c:87-130 | a usage exit exactly when the loop ends in usage; the argument vector keeps its length; the version exit exactly when the loop stops and the version count, non-zero, equals argc - 1; otherwise the banner is printed exactly when the count is non-zero |
| Mlc.ListingKeepsAnInput | src/lua-vm/mlc.c:120-124 | the argument vector is rewritten exactly when the loop stops at argc while listing or parsing only: then the last argument becomes the default output name, dumping is turned off and the returned index is argc - 1; otherwise the vector and the loop's settings are kept and its stop index is returned; so when listing or parsing only, the returned index is inside the arguments |
| Mlc.VersionSwitchesCount | src/lua-vm/mlc.c:111-112 | every `-v` adds one to the version count |
| Mlc.VersionOnlyExits | src/lua-vm/mlc.c:125-129 | a command line of only `-v` switches makes the scanner exit after the version banner |
| Mlc.Options.constructor | src/lua-vm/mlc.c:31-38 | the settings' initial values: no listing, dumping on, no stripping, output "metalua.out", program name "mlc", no AST display, no metabugs |
| Mlc.Options.DoArgs | src/lua-vm/mlc.c:82-131 | the outcome, final settings and final argument vector are exactly those ParseArgs gives for the old settings and arguments; a non-empty argv[0] becomes the program name |
| Mlc.Options.ScanOptions | src/lua-vm/mlc.c:87-119 | the loop's usage message or stop index, with the settings it leaves, are those of ScanFrom from index 1 |
| JunkCombine.LuaCombine | src/junk/combine.c:18-45 | always one result; one value, of any type: the stack is unchanged; otherwise, zero values included, a fresh "=(combiner)" wrapper with code WrapperCode(n) over all n values in order is pushed, and it is a bare prototype, not a callable function |
| JunkCombine.EmptyWrapperOnlyReturns | src/junk/combine.c:34-42 | with no values the wrapper's code is the single return |
| BitVariadic.Variadic | src/binlibs/bit.c:44-53 | no argument: argument 1 is reported missing; otherwise the result is the left fold of the operation over all arguments, and a single argument is returned unchanged |
| BitVariadic.FoldSnoc | src/binlibs/bit.c:49-50 | one more argument applies the operation once more to the accumulated word |
| BitVariadic.AndMaskStep | src/binlibs/bit.c:57 | one band step keeps every bit of a mask exactly when both the accumulated word and the new argument have them all |
| BitVariadic.AndKeepsCommonBits | src/binlibs/bit.c:44-57 | band's result has every bit of a mask exactly when every argument has all of them |
| BitVariadic.OrMaskStep | src/binlibs/bit.c:58 | one bor step avoids a mask exactly when both the accumulated word and the new argument avoid it |
| BitVariadic.OrCollectsBits | src/binlibs/bit.c:44-58 | bor's result has no bit of a mask exactly when no argument has one |
| BitVariadic.XorSelfInverse | src/binlibs/bit.c:59 | two bxor steps with the same argument restore the accumulated word |
| BitVariadic.XorPairCancels | src/binlibs/bit.c:44-59 | in bxor, an argument given twice in a row anywhere after the first argument cancels out |
| BitLib.BNot | src/binlibs/bit.c:56 | the result differs from the argument in every bit, and equals -x - 1 in two's complement |
| BitLib.LShift | src/binlibs/bit.c:60 | the lowest bit survives only a shift by 0; a shift by 63 keeps only the lowest bit, moved to the top |
| BitLib.LShiftBack | src/binlibs/bit.c:60 | shifting an lshift result back right by b recovers exactly the low 64 - b bits of a |
| BitLib.LShiftLowZero | src/binlibs/bit.c:60 | the b low bits of an lshift result are zero; with LShiftBack this fixes the result for every shift amount |
| BitLib.SignedShiftRight | src/binlibs/bit.c:61-62 | `>>` on a signed word keeps its sign, and copies it into bit 62 for any shift of at least one |
| BitLib.SignFillsTopBits | src/binlibs/bit.c:61-62 | the b top bits of `>>` on a signed word are all copies of its sign bit |
| BitLib.ShiftOutAllButSign | src/binlibs/bit.c:61-62 | a shift right by 63 gives 0 for a non-negative word and -1 for a negative one |
| BitLib.RShift | src/binlibs/bit.c:61 | rshift keeps the sign of its first operand, and on a non-negative operand is the plain logical shift |
| BitLib.ARShift | src/binlibs/bit.c:62 | arshift keeps the sign of its first operand, and on a non-negative operand is the plain logical shift |
| BitLib.RShiftIsArithmetic | src/binlibs/bit.c:61-62 | rshift and arshift always give the same result, and both keep the sign of their first operand |
| BitLib.EvalFixed | src/binlibs/bit.c:29-42 | cast, bnot and the shifts fail exactly when argument 1 is missing, or argument 2 of a shift, reporting that argument; cast returns its argument |
| BitLib.ExtraArgumentsIgnored | src/binlibs/bit.c:29-42 | arguments beyond the one or two that cast, bnot or a shift reads do not change its result |
| BitLib.Invoke | src/binlibs/bit.c:29-62 | a call fails exactly when argument 1 is missing, or argument 2 of a shift, and then pushes nothing; otherwise it pushes exactly one integer and returns 1; band, bor and bxor push their left fold, and the others push what EvalFixed gives |

## Left out

- Serialisation and listing (`luaU_dump`, `luaU_print`, src/lua-vm/mlc.c:218-224). Their code is not part of this model.
- `pmain`, `main`, `writer`, `fatal`, `cannot` and `usage` are not modelled. Together they do file loading, file output, messages and process exit. The scanner reports `usage` as the outcome `UsageExit(message)` and the version exit as `VersionExit`.
- The printing of the version banner. Only the fact that it is printed is modelled, as `printVersion`.
- The `lua_checkstack` guard in `pmain`. It keeps the number of chunks far below `MAXARG_Bx + 1`, so `Mlc.Combine` takes that bound as a precondition. The combiner itself has no such check.
- The prototype fields the combiners do not write: constants, upvalues, debug information, parameter count. Also the garbage collector and the memory allocator, whose out-of-memory errors are not modelled.
- `Mlc.Combine`, `JunkCombine.LuaCombine`, `Wrapper.NewWrapper`: when they build a wrapper, the C code reads every value it combines as a Lua closure without checking it. The model requires those values to be functions, because reading a value of another type as a closure is undefined behaviour. The stand-alone combiner never reads a single value, so it accepts one value of any type and returns it unchanged; the model allows that too.
- `Mlc.Combine`: its only caller (src/lua-vm/mlc.c:203-217) does not by itself make sure that the n values on top of the stack are the loaded chunks. With `-a` or `-b` it runs `luaL_dostring` once per file and ignores the result (src/lua-vm/mlc.c:213-214). The `metalua` library is commented out of the library list (src/lua-vm/linit.c:29-32), so `mlc` is probably nil there. The failing string would then leave its error message between the chunks, and `combine` would read that string as a closure. This observation is read from the code at those lines; the model states the requirement as a precondition.
- Neither combiner checks for zero chunks or for n - 1 > MAXARG_Bx, and `CREATE_ABC`/`CREATE_ABx` do not check operand widths. The model takes these bounds as preconditions (`Mlc.Combine`) or as the hypotheses of its lemmas (`Wrapper.WrapperOperandsInRange`, `Wrapper.ClosureWords`).
- The `bit` library's `TOINTEGER` conversion through `fmod` (src/binlibs/bit.c:20-26). It is double-precision arithmetic; only the built-in-cast view is modelled. Arguments are modelled as integers, so the "number expected" error for an argument of another type is not modelled; only missing arguments are.
- `Invoke`, `LShift`, `SignedShiftRight`: a shift amount outside 0..63, and a left shift of a negative value, are undefined in C. They are excluded by preconditions.
- `BitLib.LShift`: a left shift of a non-negative value whose result does not fit a signed lua_Integer is undefined in C too (section 6.5.7 of ISO C99). The model does not exclude it and gives it the wrap-around result compilers produce, keeping the low 64 bits. The contract's shift-by-63 clause describes such a case.
- `BitLib.SignedShiftRight`: `>>` on a negative signed value is implementation-defined in C. It is modelled as the arithmetic shift compilers use.
- `BitLib.SignedShiftRight`: the contract states the sign and bit 62, `BitLib.SignFillsTopBits` the b top bits and `BitLib.ShiftOutAllButSign` the shift by 63. The low 64 - b bits of the result (a round trip back through `<<`) are not stated, because that proof exceeds the resource limit over 64-bit words with a variable shift amount.
- src/bitlib/lbitlib.c: every operand and result goes through floating point.
- src/binlibs/rings.c, src/binlibs/editline.c, src/lua-vm/linit.c: interpreter-API glue and terminal I/O with no logic of their own.
