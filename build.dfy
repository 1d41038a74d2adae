/** `build()` of src/index.js: the emcc argument list, the resolved C sources,
    the command line, and one run of the compiler. */
module Build {
  import opened Wrappers
  import opened Text
  import opened Paths

  /** The constant tables of `build()`, kept as one value so the lemmas below
      hold for every table and the concrete one is checked separately. */
  datatype BuildConfig = BuildConfig(
    initialMemory: nat,        // bytes of initial heap
    exported: seq<string>,     // entry points the generated module exports
    sources: seq<string>)      // C compilation units, in command-line order

  /** The entry points src/index.js exports, in their fixed order. */
  const BroadwayExported: seq<string> := [
    "_broadwayGetMajorVersion", "_broadwayGetMinorVersion", "_broadwayInit",
    "_broadwayExit", "_broadwayCreateStream", "_broadwayPlayStream",
    "_broadwayOnHeadersDecoded", "_broadwayOnPictureDecoded" ]

  /** The C compilation units src/index.js compiles, in their fixed order. */
  const BroadwaySources: seq<string> := [
    "h264bsd_transform.c", "h264bsd_util.c", "h264bsd_byte_stream.c",
    "h264bsd_seq_param_set.c", "h264bsd_pic_param_set.c", "h264bsd_slice_header.c",
    "h264bsd_slice_data.c", "h264bsd_macroblock_layer.c", "h264bsd_stream.c",
    "h264bsd_vlc.c", "h264bsd_cavlc.c", "h264bsd_nal_unit.c",
    "h264bsd_neighbour.c", "h264bsd_storage.c", "h264bsd_slice_group_map.c",
    "h264bsd_intra_prediction.c", "h264bsd_inter_prediction.c", "h264bsd_reconstruct.c",
    "h264bsd_dpb.c", "h264bsd_image.c", "h264bsd_deblocking.c",
    "h264bsd_conceal.c", "h264bsd_vui.c", "h264bsd_pic_order_cnt.c",
    "h264bsd_decoder.c", "H264SwDecApi.c", "extraFlags.c", "Decoder.c" ]

  /** The tables written in src/index.js; the initial heap is 50 MiB. */
  const Broadway := BuildConfig(50 * 1024 * 1024, BroadwayExported, BroadwaySources)

  /** The compiler, found through the caller's executable search path. */
  const Emcc := "emcc"

  const MemoryPrefix := "-sINITIAL_MEMORY="
  const ExportedPrefix := "-sEXPORTED_FUNCTIONS="

  /** The sixteen arguments that precede the mode flag, in the order written. */
  function FixedArgs(cfg: BuildConfig, broadway: string): seq<string> {
    [ "-m32",
      "--memory-init-file", "1",
      "-sNO_EXIT_RUNTIME=1",
      "-sNO_FILESYSTEM=1",
      "-sSINGLE_FILE=1",
      MemoryPrefix + DecimalString(cfg.initialMemory),
      "-sALLOW_MEMORY_GROWTH=1",
      "-sINVOKE_RUN=0",
      "-sDOUBLE_MODE=0",
      "-sAGGRESSIVE_VARIABLE_ELIMINATION=1",
      "-sALIASING_FUNCTION_POINTERS=1",
      "-sDISABLE_EXCEPTION_CATCHING=1",
      ExportedPrefix + JoinWith(',', cfg.exported),
      "--js-library", Join(Join(broadway, "decoder"), "library.js") ]
  }

  /** `process.env.BROADWAY_PRODUCTION === "true"`; an unset variable is `None`. */
  predicate IsProduction(production: Option<string>) {
    production == Some("true")
  }

  function ModeFlag(production: Option<string>): string {
    if IsProduction(production) then "-O2" else "-g1"
  }

  /** The argument list `build()` hands to emcc. */
  function ToolchainArgs(cfg: BuildConfig, broadway: string, production: Option<string>): seq<string> {
    FixedArgs(cfg, broadway) + [ModeFlag(production)]
  }

  /** Builds the array literal, then pushes exactly one mode flag onto it. */
  method ComposeArgs(cfg: BuildConfig, broadway: string, production: Option<string>)
    returns (args: seq<string>)
    ensures args == ToolchainArgs(cfg, broadway, production)
    ensures |args| == 17 && args[..16] == FixedArgs(cfg, broadway)
    ensures IsProduction(production) <==> "-O2" in args
    ensures !IsProduction(production) <==> "-g1" in args
    ensures args[16] == (if IsProduction(production) then "-O2" else "-g1")
  {
    args := FixedArgs(cfg, broadway);
    if production == Some("true") {
      args := args + ["-O2"];
    } else {
      args := args + ["-g1"];
    }
    ModeFlagExclusive(cfg, broadway, production);
  }

  /** Exactly one of `-O2` and `-g1` occurs, and it is the last argument. */
  lemma ModeFlagExclusive(cfg: BuildConfig, broadway: string, production: Option<string>)
    ensures var args := ToolchainArgs(cfg, broadway, production);
      |args| == 17 &&
      (IsProduction(production) <==> "-O2" in args) &&
      (!IsProduction(production) <==> "-g1" in args)
  {
    var fixed := FixedArgs(cfg, broadway);
    assert "-O2" !in fixed && "-g1" !in fixed by {
      forall i | 0 <= i < 16 ensures |fixed[i]| != 3 {
      }
    }
  }

  /** Only the exact string "true" selects the optimised build. */
  lemma ModeFlagExamples()
    ensures ModeFlag(Some("true")) == "-O2"
    ensures ModeFlag(None) == "-g1"
    ensures ModeFlag(Some("TRUE")) == "-g1"
    ensures ModeFlag(Some("1")) == "-g1"
    ensures ModeFlag(Some("")) == "-g1"
  {
  }

  /** Both modes share the same sixteen leading arguments. */
  lemma FixedArgsShared(cfg: BuildConfig, broadway: string, p: Option<string>, q: Option<string>)
    ensures ToolchainArgs(cfg, broadway, p)[..16] == ToolchainArgs(cfg, broadway, q)[..16]
    ensures ToolchainArgs(cfg, broadway, p)[..16] == FixedArgs(cfg, broadway)
  {
  }

  lemma InitialMemoryDecimal()
    ensures Broadway.initialMemory == 52428800
    ensures DecimalString(52428800) == "52428800"
  {
    assert DecimalString(5) == "5";
    assert DecimalString(52) == "52";
    assert DecimalString(524) == "524";
    assert DecimalString(5242) == "5242";
    assert DecimalString(52428) == "52428";
    assert DecimalString(524288) == "524288";
    assert DecimalString(5242880) == "5242880";
  }

  /** The initial-memory argument renders the table's heap size in decimal, and
      reading those digits back gives the size; for Broadway it is 52428800. */
  lemma InitialMemoryArg(cfg: BuildConfig, broadway: string)
    ensures var arg := FixedArgs(cfg, broadway)[6];
      MemoryPrefix <= arg &&
      (forall i :: |MemoryPrefix| <= i < |arg| ==> IsDigit(arg[i])) &&
      DecimalValue(arg[|MemoryPrefix|..]) == cfg.initialMemory
    ensures cfg.initialMemory == 52428800 ==>
      FixedArgs(cfg, broadway)[6] == "-sINITIAL_MEMORY=52428800"
  {
    var arg := FixedArgs(cfg, broadway)[6];
    assert arg[|MemoryPrefix|..] == DecimalString(cfg.initialMemory);
    DecimalRoundTrip(cfg.initialMemory);
    InitialMemoryDecimal();
  }

  lemma NotPrefixAt(p: string, s: string, k: nat)
    requires k < |p| && k < |s| && p[k] != s[k]
    ensures !(p <= s)
  {
  }

  /** Exactly one argument sets the exported functions; for a table without
      commas in its names, splitting its value at commas gives the table back. */
  lemma ExportedFlagUnique(cfg: BuildConfig, broadway: string, production: Option<string>)
    requires Absolute(broadway)
    requires forall k :: 0 <= k < |cfg.exported| ==> NoChar(',', cfg.exported[k])
    requires |cfg.exported| > 0
    ensures var args := ToolchainArgs(cfg, broadway, production);
      (forall i :: 0 <= i < |args| ==> (ExportedPrefix <= args[i] <==> i == 13)) &&
      SplitAt(',', args[13][|ExportedPrefix|..]) == cfg.exported
  {
    var args := ToolchainArgs(cfg, broadway, production);
    OnlyOneExportedArg(cfg, broadway, production);
    assert args[13][|ExportedPrefix|..] == JoinWith(',', cfg.exported);
    SplitJoin(',', cfg.exported);
  }

  lemma OnlyOneExportedArg(cfg: BuildConfig, broadway: string, production: Option<string>)
    requires Absolute(broadway)
    ensures var args := ToolchainArgs(cfg, broadway, production);
      forall i :: 0 <= i < |args| ==> (ExportedPrefix <= args[i] <==> i == 13)
  {
    var args := ToolchainArgs(cfg, broadway, production);
    forall i | 0 <= i < |args| ensures ExportedPrefix <= args[i] <==> i == 13 {
      if i in {6, 7, 10, 11, 12} {
        NotPrefixAt(ExportedPrefix, args[i], 2);
      } else if i == 15 {
        JoinKeepsHead(broadway, "decoder");
        JoinKeepsHead(Join(broadway, "decoder"), "library.js");
        NotPrefixAt(ExportedPrefix, args[15], 0);
      } else if i != 13 {
        assert |args[i]| < |ExportedPrefix|;
      }
    }
  }

  /** The exported table of src/index.js: eight `_broadway` entry points, none with a comma. */
  lemma BroadwayExports()
    ensures |BroadwayExported| == 8
    ensures forall k :: 0 <= k < 8 ==> "_broadway" <= BroadwayExported[k]
    ensures forall k :: 0 <= k < 8 ==> NoChar(',', BroadwayExported[k])
  {
    var e := BroadwayExported;
    assert NoChar(',', e[0]) && NoChar(',', e[1]) && NoChar(',', e[2]) && NoChar(',', e[3]);
    assert NoChar(',', e[4]) && NoChar(',', e[5]) && NoChar(',', e[6]) && NoChar(',', e[7]);
  }

  /** The sources under `src` (`files.map(f => path.join(src, f))`): one path per
      name, in order, with no check that any of them exists. */
  function Resolve(src: string, files: seq<string>): (paths: seq<string>)
    ensures |paths| == |files|
    ensures forall i :: 0 <= i < |files| ==> paths[i] == Join(src, files[i])
  {
    if files == [] then [] else [Join(src, files[0])] + Resolve(src, files[1..])
  }

  /** Each resolved path gives back its file name, so nothing is lost or reordered. */
  lemma ResolveInverse(src: string, files: seq<string>)
    ensures var paths := Resolve(src, files);
      forall i :: 0 <= i < |paths| ==> Under(src, paths[i]) && NameUnder(src, paths[i]) == files[i]
  {
    var paths := Resolve(src, files);
    forall i | 0 <= i < |paths| ensures Under(src, paths[i]) && NameUnder(src, paths[i]) == files[i] {
      JoinInverse(src, files[i]);
    }
  }

  /** The tokens of the emcc command line, in the order src/index.js spreads them. */
  function CommandTokens(layout: Layout, args: seq<string>, sources: seq<string>): seq<string> {
    [Emcc, "-I" + layout.src, "-I" + layout.inc] + args + sources + ["-o", Join(layout.out, "avc.js")]
  }

  /** The command line handed to the shell: the tokens joined with single spaces. */
  function CommandLine(layout: Layout, args: seq<string>, sources: seq<string>): string {
    JoinWith(' ', CommandTokens(layout, args, sources))
  }

  /** The tokens `build()` composes for a given table, layout and mode. */
  function BuildTokens(cfg: BuildConfig, layout: Layout, production: Option<string>): seq<string> {
    CommandTokens(layout, ToolchainArgs(cfg, layout.broadway, production), Resolve(layout.src, cfg.sources))
  }

  /** Where each group of tokens sits on the command line. */
  lemma CommandShape(cfg: BuildConfig, layout: Layout, production: Option<string>)
    ensures var t := BuildTokens(cfg, layout, production);
      var n := |cfg.sources|;
      |t| == 22 + n &&
      t[0] == Emcc && t[1] == "-I" + layout.src && t[2] == "-I" + layout.inc &&
      t[3..20] == ToolchainArgs(cfg, layout.broadway, production) &&
      t[20..20 + n] == Resolve(layout.src, cfg.sources) &&
      t[20 + n] == "-o" && t[21 + n] == Join(layout.out, "avc.js")
  {
  }

  /** The Broadway build passes 50 tokens, 28 of them source paths. */
  lemma BroadwayCommandShape(layout: Layout, production: Option<string>)
    ensures |BroadwaySources| == 28
    ensures |BuildTokens(Broadway, layout, production)| == 50
    ensures BuildTokens(Broadway, layout, production)[49] == Join(layout.out, "avc.js")
  {
    CommandShape(Broadway, layout, production);
  }

  lemma {:induction false} JoinWithoutChar(c: char, sep: char, ts: seq<string>)
    requires c != sep
    requires forall k :: 0 <= k < |ts| ==> NoChar(c, ts[k])
    ensures NoChar(c, JoinWith(sep, ts))
  {
    if |ts| > 1 {
      JoinWithoutChar(c, sep, ts[1..]);
      var j := JoinWith(sep, ts);
      var rest := JoinWith(sep, ts[1..]);
      forall i | 0 <= i < |j| ensures j[i] != c {
        if i > |ts[0]| {
          assert j[i] == rest[i - |ts[0]| - 1];
        }
      }
    }
  }

  lemma ConcatWithoutChar(c: char, a: string, b: string)
    requires NoChar(c, a) && NoChar(c, b)
    ensures NoChar(c, a + b)
  {
    forall i | 0 <= i < |a + b| ensures (a + b)[i] != c {
      if i >= |a| {
        assert (a + b)[i] == b[i - |a|];
      }
    }
  }

  lemma FixedArgsWithoutSpace(cfg: BuildConfig, broadway: string, production: Option<string>)
    requires NoChar(' ', broadway)
    requires forall k :: 0 <= k < |cfg.exported| ==> NoChar(' ', cfg.exported[k])
    ensures var args := ToolchainArgs(cfg, broadway, production);
      forall k :: 0 <= k < |args| ==> NoChar(' ', args[k])
  {
    var args := ToolchainArgs(cfg, broadway, production);
    forall k | 0 <= k < |args| ensures NoChar(' ', args[k]) {
      if k == 6 {
        ConcatWithoutChar(' ', MemoryPrefix, DecimalString(cfg.initialMemory));
      } else if k == 13 {
        JoinWithoutChar(' ', ',', cfg.exported);
        ConcatWithoutChar(' ', ExportedPrefix, JoinWith(',', cfg.exported));
      } else if k == 15 {
        JoinNoSpace(broadway, "decoder");
        JoinNoSpace(Join(broadway, "decoder"), "library.js");
      } else {
        LiteralArgsWithoutSpace(cfg, broadway);
      }
    }
  }

  lemma LiteralArgsWithoutSpace(cfg: BuildConfig, broadway: string)
    ensures var a := FixedArgs(cfg, broadway);
      NoChar(' ', a[0]) && NoChar(' ', a[1]) && NoChar(' ', a[2]) && NoChar(' ', a[3]) &&
      NoChar(' ', a[4]) && NoChar(' ', a[5]) && NoChar(' ', a[7]) && NoChar(' ', a[8]) &&
      NoChar(' ', a[9]) && NoChar(' ', a[10]) && NoChar(' ', a[11]) && NoChar(' ', a[12]) &&
      NoChar(' ', a[14])
  {
    var a := FixedArgs(cfg, broadway);
    assert NoChar(' ', a[0]) && NoChar(' ', a[1]) && NoChar(' ', a[2]) && NoChar(' ', a[3]);
    assert NoChar(' ', a[4]) && NoChar(' ', a[5]) && NoChar(' ', a[7]) && NoChar(' ', a[8]);
    assert NoChar(' ', a[9]) && NoChar(' ', a[14]);
    assert NoChar(' ', a[10]);
    assert NoChar(' ', a[11]);
    assert NoChar(' ', a[12]);
  }

  /** No token contains a space when neither the directory nor a table entry does. */
  lemma TokensWithoutSpace(cfg: BuildConfig, dirname: string, production: Option<string>)
    requires NoChar(' ', dirname)
    requires forall k :: 0 <= k < |cfg.sources| ==> NoChar(' ', cfg.sources[k])
    requires forall k :: 0 <= k < |cfg.exported| ==> NoChar(' ', cfg.exported[k])
    ensures var t := BuildTokens(cfg, StaticLayout(dirname), production);
      forall k :: 0 <= k < |t| ==> NoChar(' ', t[k])
  {
    var layout := StaticLayout(dirname);
    StaticLayoutNoSpace(dirname);
    var t := BuildTokens(cfg, layout, production);
    var args := ToolchainArgs(cfg, layout.broadway, production);
    var sources := Resolve(layout.src, cfg.sources);
    var n := |sources|;
    CommandShape(cfg, layout, production);
    FixedArgsWithoutSpace(cfg, layout.broadway, production);
    ConcatWithoutChar(' ', "-I", layout.src);
    ConcatWithoutChar(' ', "-I", layout.inc);
    JoinNoSpace(layout.out, "avc.js");
    forall k | 0 <= k < |t| ensures NoChar(' ', t[k]) {
      if 3 <= k < 20 {
        assert t[k] == t[3..20][k - 3] == args[k - 3];
      } else if 20 <= k < 20 + n {
        assert t[k] == t[20..20 + n][k - 20] == sources[k - 20];
        JoinNoSpace(layout.src, cfg.sources[k - 20]);
      }
    }
  }

  /** Splitting the command line at spaces gives back exactly the composed tokens
      when the script's directory has no space in it. */
  lemma CommandRoundTrip(cfg: BuildConfig, dirname: string, production: Option<string>)
    requires NoChar(' ', dirname)
    requires forall k :: 0 <= k < |cfg.sources| ==> NoChar(' ', cfg.sources[k])
    requires forall k :: 0 <= k < |cfg.exported| ==> NoChar(' ', cfg.exported[k])
    ensures var layout := StaticLayout(dirname);
      SplitAt(' ', CommandLine(layout, ToolchainArgs(cfg, layout.broadway, production),
                               Resolve(layout.src, cfg.sources)))
        == BuildTokens(cfg, layout, production)
  {
    TokensWithoutSpace(cfg, dirname, production);
    SplitJoin(' ', BuildTokens(cfg, StaticLayout(dirname), production));
  }

  /** No name in the Broadway tables contains a space. */
  lemma BroadwayTablesWithoutSpace()
    ensures forall k :: 0 <= k < |BroadwaySources| ==> NoChar(' ', BroadwaySources[k])
    ensures forall k :: 0 <= k < |BroadwayExported| ==> NoChar(' ', BroadwayExported[k])
  {
    SourcesWithoutSpace();
    var e := BroadwayExported;
    assert NoChar(' ', e[0]) && NoChar(' ', e[1]) && NoChar(' ', e[2]) && NoChar(' ', e[3]);
    assert NoChar(' ', e[4]) && NoChar(' ', e[5]) && NoChar(' ', e[6]) && NoChar(' ', e[7]);
  }

  lemma SourcesWithoutSpace()
    ensures forall k :: 0 <= k < |BroadwaySources| ==> NoChar(' ', BroadwaySources[k])
  {
    SourcesWithoutSpaceFrom0();
    SourcesWithoutSpaceFrom4();
    SourcesWithoutSpaceFrom8();
    SourcesWithoutSpaceFrom12();
    SourcesWithoutSpaceFrom16();
    SourcesWithoutSpaceFrom20();
    SourcesWithoutSpaceFrom24();
  }

  lemma SourcesWithoutSpaceFrom0()
    ensures forall k :: 0 <= k < 4 ==> NoChar(' ', BroadwaySources[k])
  {
    var s := BroadwaySources;
    assert NoChar(' ', s[0]) && NoChar(' ', s[1]) && NoChar(' ', s[2]) && NoChar(' ', s[3]);
  }

  lemma SourcesWithoutSpaceFrom4()
    ensures forall k :: 4 <= k < 8 ==> NoChar(' ', BroadwaySources[k])
  {
    var s := BroadwaySources;
    assert NoChar(' ', s[4]) && NoChar(' ', s[5]) && NoChar(' ', s[6]) && NoChar(' ', s[7]);
  }

  lemma SourcesWithoutSpaceFrom8()
    ensures forall k :: 8 <= k < 12 ==> NoChar(' ', BroadwaySources[k])
  {
    var s := BroadwaySources;
    assert NoChar(' ', s[8]) && NoChar(' ', s[9]) && NoChar(' ', s[10]) && NoChar(' ', s[11]);
  }

  lemma SourcesWithoutSpaceFrom12()
    ensures forall k :: 12 <= k < 16 ==> NoChar(' ', BroadwaySources[k])
  {
    var s := BroadwaySources;
    assert NoChar(' ', s[12]) && NoChar(' ', s[13]) && NoChar(' ', s[14]) && NoChar(' ', s[15]);
  }

  lemma SourcesWithoutSpaceFrom16()
    ensures forall k :: 16 <= k < 20 ==> NoChar(' ', BroadwaySources[k])
  {
    var s := BroadwaySources;
    assert NoChar(' ', s[16]) && NoChar(' ', s[17]) && NoChar(' ', s[18]) && NoChar(' ', s[19]);
  }

  lemma SourcesWithoutSpaceFrom20()
    ensures forall k :: 20 <= k < 24 ==> NoChar(' ', BroadwaySources[k])
  {
    var s := BroadwaySources;
    assert NoChar(' ', s[20]) && NoChar(' ', s[21]) && NoChar(' ', s[22]) && NoChar(' ', s[23]);
  }

  lemma SourcesWithoutSpaceFrom24()
    ensures forall k :: 24 <= k < 28 ==> NoChar(' ', BroadwaySources[k])
  {
    var s := BroadwaySources;
    assert NoChar(' ', s[24]) && NoChar(' ', s[25]) && NoChar(' ', s[26]) && NoChar(' ', s[27]);
  }

  /** The Broadway build: exactly one exported-functions argument, holding the
      eight entry points; the command line splits back into its 50 tokens. */
  lemma BroadwayExportedFlag(broadway: string, production: Option<string>)
    requires Absolute(broadway)
    ensures var args := ToolchainArgs(Broadway, broadway, production);
      (forall i :: 0 <= i < |args| ==> (ExportedPrefix <= args[i] <==> i == 13)) &&
      SplitAt(',', args[13][|ExportedPrefix|..]) == BroadwayExported
  {
    BroadwayExports();
    ExportedFlagUnique(Broadway, broadway, production);
  }

  lemma BroadwayCommandRoundTrip(dirname: string, production: Option<string>)
    requires NoChar(' ', dirname)
    ensures var layout := StaticLayout(dirname);
      var line := CommandLine(layout, ToolchainArgs(Broadway, layout.broadway, production),
                              Resolve(layout.src, BroadwaySources));
      SplitAt(' ', line) == BuildTokens(Broadway, layout, production) &&
      |SplitAt(' ', line)| == 50
  {
    BroadwayTablesWithoutSpace();
    CommandRoundTrip(Broadway, dirname, production);
    BroadwayCommandShape(StaticLayout(dirname), production);
  }

  /** What the `close` event reports: a number, or null when no exit code exists. */
  datatype ExitCode = Code(n: int) | NoCode

  /** The single completion signal of the child process: it closed with a code,
      or it could not be started (`error`). Whichever came first is the one given. */
  datatype ExecEvent = Closed(code: ExitCode) | ExecError(message: string)

  /** The settled promise of `build()`. */
  datatype BuildResult = Resolved(code: ExitCode) | Rejected(message: string)

  /** An externally visible step, in the order the script performs them. */
  datatype Effect =
    | MakeDirectory(path: string)
    | Execute(command: string)
    | ReadFile(path: string)
    | WriteFile(path: string, content: string)

  /** The commands a trace runs. */
  function Executions(effects: seq<Effect>): (cmds: seq<string>)
    ensures |cmds| <= |effects|
  {
    if effects == [] then []
    else (if effects[0].Execute? then [effects[0].command] else []) + Executions(effects[1..])
  }

  /** The command line `build()` runs for a given table, layout and mode. */
  function BuildCommand(cfg: BuildConfig, layout: Layout, production: Option<string>): string {
    CommandLine(layout, ToolchainArgs(cfg, layout.broadway, production), Resolve(layout.src, cfg.sources))
  }

  /** `build()`: compose the arguments and sources, create the output directory
      (whose failure rejects before anything runs), then run the command once and
      settle with its completion signal. */
  method RunBuild(cfg: BuildConfig, layout: Layout, production: Option<string>,
                  mkdir: Status, exec: ExecEvent)
    returns (effects: seq<Effect>, r: BuildResult)
    ensures effects == [MakeDirectory(layout.out)] +
      (if mkdir.Done? then [Execute(BuildCommand(cfg, layout, production))] else [])
    ensures Executions(effects) ==
      if mkdir.Done? then [BuildCommand(cfg, layout, production)] else []
    ensures forall k :: 0 <= k < |effects| ==> !effects[k].ReadFile? && !effects[k].WriteFile?
    ensures r.Resolved? <==> mkdir.Done? && exec.Closed?
    ensures r.Resolved? ==> r.code == exec.code
    ensures mkdir.Failed? ==> r == Rejected(mkdir.message)
    ensures mkdir.Done? && exec.ExecError? ==> r == Rejected(exec.message)
  {
    var args := ComposeArgs(cfg, layout.broadway, production);
    var sources := Resolve(layout.src, cfg.sources);
    effects := [MakeDirectory(layout.out)];
    if mkdir.Failed? {
      r := Rejected(mkdir.message);
      return;
    }
    var command := CommandLine(layout, args, sources);
    effects := effects + [Execute(command)];
    assert Executions(effects) == [command] by {
      assert effects[1..] == [Execute(command)];
    }
    match exec {
      case Closed(code) => r := Resolved(code);
      case ExecError(message) => r := Rejected(message);
    }
  }
}
