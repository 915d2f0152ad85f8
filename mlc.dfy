/**
 * The metalua compiler driver `mlc`: its command-line option scanner and the chunk
 * combiner that turns the chunks loaded from several files into one function.
 */
module Mlc {
  import opened Bytecode
  import opened LuaObjects
  import opened Wrapper

  const PROGNAME: string := "mlc"
  /** The default output file name. */
  const OUTPUT: string := "metalua.out"
  /** The message `usage` is given when `-o` has no file name after it. */
  const OUTPUT_NEEDS_ARG: string := "'-o' needs argument"

  // ---------------------------------------------------------------------------
  // The chunk combiner
  // ---------------------------------------------------------------------------

  /**
   * Combines the `n` loaded chunks on top of the stack into one prototype. With one
   * chunk its own prototype is returned and nothing is built. Otherwise a fresh
   * wrapper is pushed and returned: child i is the (i+1)-th chunk in stack order,
   * which is the order the files were loaded in; every instruction fits its fields,
   * uses only registers below maxstacksize and creates closures of children below sizep.
   * The model requires n >= 1, n - 1 <= MAXARG_Bx and the n values on top to be
   * functions; the combiner itself checks none of these.
   */
  method Combine(L: LuaState, n: nat) returns (f: Proto)
    requires 1 <= n && TopAreFunctions(L.stack, n)
    requires n <= MAXARG_BX + 1
    modifies L
    ensures n == 1 ==> L.stack == old(L.stack) && f == L.stack[|L.stack| - 1].proto
    ensures n > 1 ==> fresh(f) && fresh(f.code) && fresh(f.p)
    ensures n > 1 ==> L.stack == old(L.stack) + [ProtoRef(f)]
    ensures n > 1 ==> f.source == "=(" + PROGNAME + ")"
    ensures n > 1 ==> f.maxstacksize == 2 && f.isVararg == VARARG_ISVARARG
    ensures n > 1 ==> f.sizecode == f.code.Length == 3 * n + 1 && f.code[..] == WrapperCode(n)
    ensures n > 1 ==> f.sizep == f.p.Length == n
    ensures n > 1 ==> forall i :: 0 <= i < n ==> f.p[i] == old(L.stack)[|old(L.stack)| - n + i].proto
    ensures n > 1 ==> forall k :: 0 <= k < f.code.Length ==>
      Fits(f.code[k]) && f.code[k].a < f.maxstacksize &&
      (f.code[k].op == Closure ==> f.code[k].ABx? && f.code[k].bx < f.sizep)
  {
    if n == 1 {
      f := L.stack[|L.stack| - 1].proto;
    } else {
      f := NewWrapper(L, n, "=(" + PROGNAME + ")");
      WrapperOperandsInRange(n);
    }
  }

  // ---------------------------------------------------------------------------
  // The option scanner: specification
  // ---------------------------------------------------------------------------

  /** The settings the scanner changes; `output == None` means standard output. */
  datatype Flags = Flags(
    listing: nat, dumping: bool, stripping: bool, output: Option<string>,
    showast: bool, metabugs: bool, version: nat)

  /** Where the option loop stops: at an index, or in `usage` with a message. */
  datatype Scan = Stopped(index: nat, flags: Flags) | Usage(message: string)

  /** What the scanner tells its caller: go on from index `first`, exit after the version banner, or exit through `usage`. */
  datatype ArgsOutcome = Proceed(first: nat, printVersion: bool) | VersionExit | UsageExit(message: string)

  /** The outcome with the final settings and the final argument vector. */
  datatype Parsed = Parsed(outcome: ArgsOutcome, flags: Flags, argv: seq<string>)

  /** An argument is an option when its first character is '-'. */
  predicate IsOption(arg: string)
  {
    |arg| > 0 && arg[0] == '-'
  }

  /** What one argument is to the option loop. */
  datatype OptionKind =
    | Operand       // not an option: ends the options and is kept
    | EndOfOptions  // `--`: ends the options and is skipped
    | Stdin         // `-`: ends the options and names standard input
    | List          // `-l`
    | Output        // `-o`, followed by the output file name
    | ParseOnly     // `-p`
    | Strip         // `-s`
    | Version       // `-v`
    | ShowAst       // `-a`
    | MetaBugs      // `-b`
    | Unknown       // any other option

  /**
   * The chain of tests the loop applies to an argument: first whether it is an option
   * at all, then each known option by comparison of the whole argument. Every known
   * option other than `-` is '-' and one more character, so the comparisons come down
   * to the length and the second character.
   */
  function Classify(arg: string): (k: OptionKind)
    ensures k == Operand <==> !IsOption(arg)
  {
    if !IsOption(arg) then Operand
    else if |arg| == 1 then Stdin
    else if |arg| > 2 then Unknown
    else match arg[1]
      case '-' => EndOfOptions
      case 'l' => List
      case 'o' => Output
      case 'p' => ParseOnly
      case 's' => Strip
      case 'v' => Version
      case 'a' => ShowAst
      case 'b' => MetaBugs
      case _ => Unknown
  }

  /**
   * Classify is the loop's chain of whole-argument comparisons: each known option is
   * recognised exactly when the argument equals it, and an option is unknown exactly
   * when it equals none of them.
   */
  lemma ClassifyExact(arg: string)
    ensures Classify(arg) == EndOfOptions <==> arg == "--"
    ensures Classify(arg) == Stdin <==> arg == "-"
    ensures Classify(arg) == List <==> arg == "-l"
    ensures Classify(arg) == Output <==> arg == "-o"
    ensures Classify(arg) == ParseOnly <==> arg == "-p"
    ensures Classify(arg) == Strip <==> arg == "-s"
    ensures Classify(arg) == Version <==> arg == "-v"
    ensures Classify(arg) == ShowAst <==> arg == "-a"
    ensures Classify(arg) == MetaBugs <==> arg == "-b"
    ensures Classify(arg) == Unknown <==>
      IsOption(arg) && arg != "--" && arg != "-" && arg != "-l" && arg != "-o" &&
      arg != "-p" && arg != "-s" && arg != "-v" && arg != "-a" && arg != "-b"
  {
  }

  /** The options that take no argument and only change a setting. */
  predicate IsSwitch(k: OptionKind)
  {
    k == List || k == ParseOnly || k == Strip || k == Version || k == ShowAst || k == MetaBugs
  }

  /** The setting a switch changes. */
  function Switch(fl: Flags, k: OptionKind): Flags
    requires IsSwitch(k)
  {
    match k
    case List => fl.(listing := fl.listing + 1)
    case ParseOnly => fl.(dumping := false)
    case Strip => fl.(stripping := true)
    case Version => fl.(version := fl.version + 1)
    case ShowAst => fl.(showast := true)
    case MetaBugs => fl.(metabugs := true)
  }

  /** The settings after a run of switches, left to right. */
  function ApplySwitches(fl: Flags, s: seq<string>): Flags
    requires forall j :: 0 <= j < |s| ==> IsSwitch(Classify(s[j]))
    decreases |s|
  {
    if s == [] then fl else ApplySwitches(Switch(fl, Classify(s[0])), s[1..])
  }

  /**
   * The option loop from index i: the stop index never lies before i, and lies past
   * the arguments only when the loop never started.
   */
  function ScanFrom(args: seq<string>, i: nat, fl: Flags): (r: Scan)
    ensures r.Stopped? ==> i <= r.index && (r.index <= |args| || r.index == i)
    decreases |args| - i
  {
    if i >= |args| then Stopped(i, fl)
    else match Classify(args[i])
      case Operand => Stopped(i, fl)
      case EndOfOptions => Stopped(i + 1, if fl.version > 0 then fl.(version := fl.version + 1) else fl)
      case Stdin => Stopped(i, fl)
      case Output =>
        if i + 1 == |args| || args[i + 1] == "" then Usage(OUTPUT_NEEDS_ARG)
        else ScanFrom(args, i + 2, fl.(output := if args[i + 1] == "-" then None else Some(args[i + 1])))
      case Unknown => Usage(args[i])
      case _ => ScanFrom(args, i + 1, Switch(fl, Classify(args[i])))
  }

  /**
   * The whole scanner: the loop from index 1, then the fix-up that, when the options
   * used up the arguments while listing or parsing only, turns dumping off and
   * writes the default output name over the last argument to serve as the input,
   * then the version check.
   */
  function ParseArgs(fl: Flags, args: seq<string>): (P: Parsed)
    ensures P.outcome.UsageExit? <==> ScanFrom(args, 1, fl).Usage?
    ensures |P.argv| == |args|
    ensures P.outcome == VersionExit <==>
      ScanFrom(args, 1, fl).Stopped? && P.flags.version > 0 && P.flags.version == |args| - 1
    ensures P.outcome.Proceed? ==> P.outcome.printVersion == (P.flags.version > 0)
  {
    match ScanFrom(args, 1, fl)
    case Usage(m) => Parsed(UsageExit(m), fl, args)
    case Stopped(i, fl1) =>
      var fixup := i == |args| && (fl1.listing > 0 || !fl1.dumping);
      var fl2 := if fixup then fl1.(dumping := false) else fl1;
      var first := if fixup then i - 1 else i;
      var argv := if fixup then args[i - 1 := OUTPUT] else args;
      var outcome := if fl2.version > 0 && fl2.version == |args| - 1 then VersionExit
                     else Proceed(first, fl2.version > 0);
      Parsed(outcome, fl2, argv)
  }

  // ---------------------------------------------------------------------------
  // The option scanner: properties
  // ---------------------------------------------------------------------------

  /** A run of switches is consumed one by one without stopping. */
  lemma {:induction false} ScanSkipsSwitches(args: seq<string>, i: nat, k: nat, fl: Flags)
    requires i <= k <= |args|
    requires forall j :: i <= j < k ==> IsSwitch(Classify(args[j]))
    ensures ScanFrom(args, i, fl) == ScanFrom(args, k, ApplySwitches(fl, args[i..k]))
    decreases k - i
  {
    if i < k {
      assert args[i..k][0] == args[i];
      assert args[i..k][1..] == args[i + 1..k];
      ScanSkipsSwitches(args, i + 1, k, Switch(fl, Classify(args[i])));
    }
  }

  /**
   * What the scanner does at the first argument k that is not a plain switch: a
   * non-option is kept and its index returned; `--` ends the options and is skipped;
   * `-` ends them and is kept (it names standard input); `-o` takes the next argument
   * as the output name, `-` meaning standard output, and a missing or empty name is a
   * usage error; any other option is a usage error naming it.
   */
  lemma FirstNonSwitch(args: seq<string>, k: nat, fl: Flags)
    requires 1 <= k < |args|
    requires forall j :: 1 <= j < k ==> IsSwitch(Classify(args[j]))
    ensures var fl' := ApplySwitches(fl, args[1..k]);
      && (!IsOption(args[k]) ==> ScanFrom(args, 1, fl) == Stopped(k, fl'))
      && (args[k] == "--" ==> ScanFrom(args, 1, fl).Stopped? && ScanFrom(args, 1, fl).index == k + 1)
      && (args[k] == "-" ==> ScanFrom(args, 1, fl) == Stopped(k, fl'))
      && (args[k] == "-o" && (k + 1 == |args| || args[k + 1] == "") ==>
            ScanFrom(args, 1, fl) == Usage(OUTPUT_NEEDS_ARG))
      && (args[k] == "-o" && k + 1 < |args| && args[k + 1] == "-" ==>
            ScanFrom(args, 1, fl) == ScanFrom(args, k + 2, fl'.(output := None)))
      && (args[k] == "-o" && k + 1 < |args| && args[k + 1] != "" && args[k + 1] != "-" ==>
            ScanFrom(args, 1, fl) == ScanFrom(args, k + 2, fl'.(output := Some(args[k + 1]))))
      && (Classify(args[k]) == Unknown ==> ScanFrom(args, 1, fl) == Usage(args[k]))
  {
    ScanSkipsSwitches(args, 1, k, fl);
  }

  /**
   * The index the loop stops at, when inside the arguments, is that of a non-option,
   * of `-`, or of the argument right after `--`.
   */
  lemma {:induction false} ScanStopsAtOperand(args: seq<string>, i: nat, fl: Flags, j: nat, fl': Flags)
    requires ScanFrom(args, i, fl) == Stopped(j, fl') && j < |args|
    ensures Classify(args[j]) == Operand || Classify(args[j]) == Stdin ||
      (i < j && Classify(args[j - 1]) == EndOfOptions)
    decreases |args| - i
  {
    var k := Classify(args[i]);
    if IsSwitch(k) {
      ScanStopsAtOperand(args, i + 1, Switch(fl, k), j, fl');
    } else if k == Output {
      ScanStopsAtOperand(args, i + 2, fl.(output := if args[i + 1] == "-" then None else Some(args[i + 1])), j, fl');
    }
  }

  /** The output name chosen by `-o` is never empty and never `-` (that one selects standard output). */
  lemma {:induction false} OutputNameNonEmpty(args: seq<string>, i: nat, fl: Flags, j: nat, fl': Flags)
    requires ScanFrom(args, i, fl) == Stopped(j, fl')
    requires fl.output != Some("") && fl.output != Some("-")
    ensures fl'.output != Some("") && fl'.output != Some("-")
    decreases |args| - i
  {
    if i < |args| {
      var k := Classify(args[i]);
      if IsSwitch(k) {
        OutputNameNonEmpty(args, i + 1, Switch(fl, k), j, fl');
      } else if k == Output {
        OutputNameNonEmpty(args, i + 2, fl.(output := if args[i + 1] == "-" then None else Some(args[i + 1])), j, fl');
      }
    }
  }

  /**
   * When the compiler only lists or only parses, there is always an input left for
   * it: if the options used up the arguments, the last argument becomes the default
   * output name and is returned as the first input; dumping is then off. The argument
   * vector is rewritten exactly then, and otherwise left as it was with the settings
   * the loop left.
   */
  lemma ListingKeepsAnInput(fl: Flags, args: seq<string>)
    requires |args| >= 1
    ensures var P := ParseArgs(fl, args);
      P.outcome.Proceed? && (P.flags.listing > 0 || !P.flags.dumping) ==>
        P.outcome.first < |args| &&
        (P.argv[P.outcome.first] == OUTPUT || P.argv[P.outcome.first] == args[P.outcome.first])
    ensures var P := ParseArgs(fl, args);
      P.outcome.Proceed? ==> P.outcome.first <= |args|
    ensures var P := ParseArgs(fl, args);
      P.outcome.Proceed? ==>
        P.argv == args ||
        (P.argv == args[|args| - 1 := OUTPUT] && !P.flags.dumping && P.outcome.first == |args| - 1)
    ensures var S, P := ScanFrom(args, 1, fl), ParseArgs(fl, args);
      S.Stopped? && S.index == |args| && (S.flags.listing > 0 || !S.flags.dumping) ==>
        P.argv == args[|args| - 1 := OUTPUT] && P.flags == S.flags.(dumping := false) &&
        (P.outcome.Proceed? ==> P.outcome.first == |args| - 1)
    ensures var S, P := ScanFrom(args, 1, fl), ParseArgs(fl, args);
      S.Stopped? && !(S.index == |args| && (S.flags.listing > 0 || !S.flags.dumping)) ==>
        P.argv == args && P.flags == S.flags &&
        (P.outcome.Proceed? ==> P.outcome.first == S.index)
  {
  }

  /** The settings after switches that are all `-v`: the version count grows by one per switch. */
  lemma {:induction false} VersionSwitchesCount(fl: Flags, s: seq<string>)
    requires forall j :: 0 <= j < |s| ==> s[j] == "-v"
    ensures ApplySwitches(fl, s).version == fl.version + |s|
    decreases |s|
  {
    if s != [] {
      VersionSwitchesCount(Switch(fl, Classify(s[0])), s[1..]);
    }
  }

  /** `mlc -v`, `mlc -v -v`, ...: only version requests make the scanner exit after the banner. */
  lemma VersionOnlyExits(fl: Flags, args: seq<string>)
    requires |args| >= 2 && fl.version == 0
    requires forall j :: 1 <= j < |args| ==> args[j] == "-v"
    ensures ParseArgs(fl, args).outcome == VersionExit
  {
    ScanSkipsSwitches(args, 1, |args|, fl);
    VersionSwitchesCount(fl, args[1..|args|]);
  }

  // ---------------------------------------------------------------------------
  // The option scanner: the imperative scanner over the driver's settings
  // ---------------------------------------------------------------------------

  /** The driver's file-level settings, set by DoArgs and read by the main routine. */
  class Options {
    var listing: nat
    var dumping: bool
    var stripping: bool
    var output: Option<string>
    var progname: string
    var showast: bool
    var metabugs: bool

    /** The settings' initial values. */
    constructor ()
      ensures listing == 0 && dumping && !stripping && output == Some(OUTPUT)
      ensures progname == PROGNAME && !showast && !metabugs
    {
      listing := 0;
      dumping := true;
      stripping := false;
      output := Some(OUTPUT);
      progname := PROGNAME;
      showast := false;
      metabugs := false;
    }

    /** The settings as the scanner sees them, with the given version count. */
    function Current(version: nat): Flags
      reads this
    {
      Flags(listing, dumping, stripping, output, showast, metabugs, version)
    }

    /**
     * Scans argv (of length argc; argv[argc], the terminating null, is past the
     * array). It records a non-empty argv[0] as the program name, sets the settings
     * as the options say, may overwrite argv[argc-1] with the default output name,
     * and returns the outcome ParseArgs describes.
     */
    method DoArgs(argv: array<string>) returns (r: ArgsOutcome)
      modifies this, argv
      ensures var P := ParseArgs(old(Current(0)), old(argv[..]));
        r == P.outcome && argv[..] == P.argv &&
        (!r.UsageExit? ==> Current(P.flags.version) == P.flags)
      ensures progname == if argv.Length > 0 && old(argv[0]) != "" then old(argv[0]) else old(progname)
    {
      if argv.Length > 0 && argv[0] != "" {
        progname := argv[0];
      }
      var i, version, usage := ScanOptions(argv);
      if usage.Some? {
        return UsageExit(usage.value);
      }
      if i == argv.Length && (listing > 0 || !dumping) {
        dumping := false;
        i := i - 1;
        argv[i] := OUTPUT;
      }
      if version > 0 {
        if version == argv.Length - 1 {
          return VersionExit;
        }
      }
      return Proceed(i, version > 0);
    }

    /**
     * The option loop of DoArgs: from index 1, applies switches and `-o` until an
     * argument ends the options or the arguments run out, and gives back the index it
     * stopped at with the version count, or the message `usage` is called with.
     */
    method ScanOptions(argv: array<string>) returns (i: nat, version: nat, usage: Option<string>)
      modifies this
      ensures progname == old(progname)
      ensures usage.Some? ==> ScanFrom(argv[..], 1, old(Current(0))) == Usage(usage.value)
      ensures usage.None? ==> ScanFrom(argv[..], 1, old(Current(0))) == Stopped(i, Current(version))
    {
      ghost var args := argv[..];
      ghost var fl0 := Current(0);
      usage := None;
      version := 0;
      i := 1;
      while i < argv.Length
        invariant 1 <= i
        invariant progname == old(progname)
        invariant ScanFrom(args, 1, fl0) == ScanFrom(args, i, Current(version))
        decreases argv.Length - i
      {
        var arg := argv[i];
        match Classify(arg) {
          case Operand =>
            break;
          case EndOfOptions =>
            i := i + 1;
            if version > 0 {
              version := version + 1;
            }
            break;
          case Stdin =>
            break;
          case List =>
            listing := listing + 1;
          case Output =>
            i := i + 1;
            if i == argv.Length || argv[i] == "" {
              usage := Some(OUTPUT_NEEDS_ARG);
              return;
            }
            output := Some(argv[i]);
            if argv[i] == "-" {
              output := None;
            }
          case ParseOnly =>
            dumping := false;
          case Strip =>
            stripping := true;
          case Version =>
            version := version + 1;
          case ShowAst =>
            showast := true;
          case MetaBugs =>
            metabugs := true;
          case Unknown =>
            usage := Some(arg);
            return;
        }
        i := i + 1;
      }
    }
  }
}
