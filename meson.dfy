/** The Meson cross file and the `meson setup` command line (embedded/build/meson.py). */
module Meson {
  import opened Wrappers
  import opened Text
  import opened Paths
  import opened Toolchain
  import opened Build
  import opened Dicts
  import Cpu

  /** `f"'{flag}'"`. */
  function Quote(flag: string): string
  {
    "'" + flag + "'"
  }

  function QuoteEach(flags: seq<string>): (r: seq<string>)
    ensures |r| == |flags| && forall i :: 0 <= i < |flags| ==> r[i] == Quote(flags[i])
  {
    seq(|flags|, i requires 0 <= i < |flags| => Quote(flags[i]))
  }

  /** The `c_args` array body: every flag in single quotes, joined by commas. */
  function CArgs(flags: seq<string>): string
  {
    Join(QuoteEach(flags), ",")
  }

  /** The quoted flags can be read back from the `c_args` text, in order, when no flag holds a comma. */
  lemma CArgsRoundTrip(flags: seq<string>)
    requires |flags| >= 1
    requires forall i :: 0 <= i < |flags| ==> ',' !in flags[i]
    ensures Split(CArgs(flags), ',') == QuoteEach(flags)
    ensures forall i :: 0 <= i < |flags| ==> Split(CArgs(flags), ',')[i][1..|flags[i]| + 1] == flags[i]
  {
    var q := QuoteEach(flags);
    forall p <- q
      ensures ',' !in p
    {
      var i :| 0 <= i < |q| && q[i] == p;
      assert p == "'" + flags[i] + "'";
    }
    SplitJoin(q, ',');
    forall i | 0 <= i < |flags|
      ensures q[i][1..|flags[i]| + 1] == flags[i]
    {
      assert q[i] == "'" + flags[i] + "'";
    }
  }

  /** `c_link_args`: the `c_args` text with the LLD linker and no standard library added. */
  function LinkArgs(flags: seq<string>): (r: string)
    ensures |CArgs(flags)| <= |r| && r[..|CArgs(flags)|] == CArgs(flags)
    ensures r[|CArgs(flags)|..] == ",'-fuse-ld=lld', '-nostdlib'"
  {
    CArgs(flags) + ",'-fuse-ld=lld', '-nostdlib'"
  }

  /** `cpu_family`: "arm" for an Arm core, "riscv<bits>" for a RISC-V core. */
  function CpuFamily(cpu: Cpu.Cpu): (r: string)
    ensures cpu.ArmCore? <==> r == "arm"
    ensures cpu.RiscvCore? ==> r == "riscv" + IntToString(cpu.riscv.bits)
  {
    match cpu
    case ArmCore(_) => "arm"
    case RiscvCore(c) =>
      assert ("riscv" + IntToString(c.bits))[1] == 'i';
      "riscv" + IntToString(c.bits)
  }

  /** The `[binaries]` section: the four programs of the compiler family. */
  function BinariesSection(tools: Tools): (r: seq<string>)
    ensures |r| == 5 && r[0] == "[binaries]"
    ensures r[1] == "c = '" + tools.cCompiler + "'" && r[2] == "cpp = '" + tools.cppCompiler + "'"
    ensures r[3] == "ar = '" + tools.ar + "'" && r[4] == "strip = '" + tools.strip + "'"
  {
    ["[binaries]",
     "c = '" + tools.cCompiler + "'",
     "cpp = '" + tools.cppCompiler + "'",
     "ar = '" + tools.ar + "'",
     "strip = '" + tools.strip + "'"]
  }

  /** The `[host_machine]` section: a bare-metal little-endian machine of the given family. */
  function HostMachineSection(family: string): (r: seq<string>)
    ensures |r| == 6 && r[0] == "[host_machine]"
    ensures r[1] == "system = ''" && r[2] == "kernel = 'none'"
    ensures r[3] == "cpu_family = '" + family + "'" && r[4] == "cpu = '" + family + "'"
    ensures r[5] == "endian = 'little'"
  {
    ["[host_machine]",
     "system = ''",
     "kernel = 'none'",
     "cpu_family = '" + family + "'",
     "cpu = '" + family + "'",
     "endian = 'little'"]
  }

  /** The `[built-in options]` section: the core's flags for compiling and for linking. */
  function BuiltInSection(flags: seq<string>): (r: seq<string>)
    ensures |r| == 3 && r[0] == "[built-in options]"
    ensures r[1] == "c_args = [" + CArgs(flags) + "]"
    ensures r[2] == "c_link_args = [" + LinkArgs(flags) + "]"
  {
    ["[built-in options]",
     "c_args = [" + CArgs(flags) + "]",
     "c_link_args = [" + LinkArgs(flags) + "]"]
  }

  /** The lines of `create_cross_file(cpu, compiler)`: the three sections, separated by empty lines. */
  function CrossFileLines(cpu: Cpu.Cpu, compiler: Compiler): (r: seq<string>)
    ensures |r| == 16 && r[5] == "" && r[12] == ""
    ensures r[..5] == BinariesSection(ToolsOf(compiler))
    ensures r[6..12] == HostMachineSection(CpuFamily(cpu))
    ensures r[13..] == BuiltInSection(Cpu.ArchCflags(cpu, compiler))
  {
    var a, b, c := BinariesSection(ToolsOf(compiler)), HostMachineSection(CpuFamily(cpu)), BuiltInSection(Cpu.ArchCflags(cpu, compiler));
    var r := a + [""] + b + [""] + c;
    assert r[..5] == a && r[6..12] == b && r[13..] == c;
    r
  }

  /** `create_cross_file(cpu, compiler)`: the lines, each ended by a newline. */
  function CrossFile(cpu: Cpu.Cpu, compiler: Compiler): string
  {
    Join(CrossFileLines(cpu, compiler), "\n") + "\n"
  }

  // ---------------------------------------------------------------- meson setup

  /** A value in the `options` dict. */
  datatype OptionValue = BoolValue(b: bool) | IntValue(i: int) | StrValue(s: string) | NoneValue

  /** `f"{value}"` after True and False have been replaced by "true" and "false". */
  function OptionText(v: OptionValue): string
  {
    match v
    case BoolValue(b) => if b then "true" else "false"
    case IntValue(i) => IntToString(i)
    case StrValue(s) => s
    case NoneValue => "None"
  }

  /** `-D<key>=<value>`. */
  function Define(key: string, v: OptionValue): string
  {
    "-D" + key + "=" + OptionText(v)
  }

  /** A definition names its option: the text between `-D` and the first `=` is the key, and the
      rest is the value, when the key has no `=`. */
  lemma DefineRoundTrip(key: string, v: OptionValue)
    requires '=' !in key
    ensures var d := Define(key, v); d[..2] == "-D" && Split(d[2..], '=')[0] == key
    ensures var d := Define(key, v); d[2 + |key| + 1..] == OptionText(v)
  {
    var d := Define(key, v);
    assert d[2..] == key + ['='] + OptionText(v);
    SplitAtFirstSeparator(key, OptionText(v), '=');
  }

  /** The arguments `setup` passes ahead of the options: `--reconfigure` when asked for, then the
      cross file. */
  function SetupPrefix(reconfigure: bool, crossFile: Path): (r: seq<Token>)
    ensures |r| == if reconfigure then 5 else 4
    ensures r[..2] == [Word("meson"), Word("setup")]
    ensures reconfigure <==> r[2] == Word("--reconfigure")
    ensures r[|r| - 2..] == [Word("--cross-file"), Word(PathStr(crossFile))]
  {
    [Word("meson"), Word("setup")] + (if reconfigure then [Word("--reconfigure")] else [])
    + [Word("--cross-file"), Word(PathStr(crossFile))]
  }

  /** One `-D<key>=<value>` argument per option, in the dict's order. */
  function Defines(options: Dict<string, OptionValue>): (r: seq<Token>)
    ensures |r| == |options|
    ensures forall i :: 0 <= i < |options| ==> r[i] == Word(Define(options[i].0, options[i].1))
  {
    seq(|options|, i requires 0 <= i < |options| => Word(Define(options[i].0, options[i].1)))
  }

  /** The options loop of `setup`: one `-D<key>=<value>` argument appended per option, with True
      and False spelled "true" and "false". */
  method AppendDefines(command: seq<Token>, options: Dict<string, OptionValue>) returns (r: seq<Token>)
    ensures r == command + Defines(options)
  {
    r := command;
    assert options[..0] == [];
    for i := 0 to |options|
      invariant r == command + Defines(options[..i])
    {
      var (key, value) := options[i];
      var text := match value
        case BoolValue(false) => "false"
        case BoolValue(true) => "true"
        case _ => OptionText(value);
      r := r + [Word("-D" + key + "=" + text)];
      assert Defines(options[..i + 1]) == Defines(options[..i]) + [Word(Define(key, value))];
    }
    assert options[..|options|] == options;
  }

  /** The arguments `setup` collects, in order. */
  method SetupCommand(reconfigure: bool, crossFile: Path, options: Dict<string, OptionValue>, sourceDir: Path, buildDir: Path)
    returns (command: seq<Token>)
    ensures command == SetupPrefix(reconfigure, crossFile) + Defines(options) + [PathToken(sourceDir), PathToken(buildDir)]
  {
    command := [Word("meson"), Word("setup")];
    if reconfigure {
      command := command + [Word("--reconfigure")];
    }
    command := command + [Word("--cross-file"), Word(PathStr(crossFile))];
    command := AppendDefines(command, options);
    command := command + [PathToken(sourceDir), PathToken(buildDir)];
  }

  /** `await setup(source_dir, build_dir, cpu, compiler, reconfigure, options)`: writes the cross
      file into the build directory and runs `meson setup` through `run_command`, from the
      directory of the file `callerFile` that called it, with the source and build directories
      last. Returns the cross file, its text, the command and what `run_command` reported. */
  method Setup(sem: BoundedSemaphore, sourceDir: Path, buildDir: Path, cpu: Cpu.Cpu, compiler: Compiler,
               reconfigure: bool := true, options: Dict<string, OptionValue> := [], callerFile: Path, cwd: Path,
               process: ProcessResult)
    returns (crossFile: Path, crossFileText: string, command: seq<Token>, shellLine: string,
             events: seq<LogEvent>, outcome: Outcome)
    requires sem.Valid() && sem.value > 0
    modifies sem
    ensures crossFile == Child(buildDir, "cross_file.txt")
    ensures crossFileText == CrossFile(cpu, compiler)
    ensures command == SetupPrefix(reconfigure, crossFile) + Defines(options) + [PathToken(sourceDir), PathToken(buildDir)]
    ensures shellLine == Join(Texts(command, Parent(callerFile)), " ")
    ensures sem.Valid() && sem.value == old(sem.value) && sem.history == old(sem.history) + [Acquired, Released]
    ensures var rel := RelativeTo(Parent(callerFile), cwd);
              && (rel.None? ==> events == [] && outcome == Raised(ValueError))
              && (rel.Some? ==> events == Report(process, None, Label(rel.value, shellLine))
                                && (outcome == Completed <==> process.returnCode == 0)
                                && (process.returnCode != 0 ==> outcome == Raised(RuntimeError)))
  {
    crossFile := Child(buildDir, "cross_file.txt");
    crossFileText := CrossFile(cpu, compiler);
    command := SetupCommand(reconfigure, crossFile, options, sourceDir, buildDir);
    var workingDirectory := Parent(callerFile);
    var parts := new Token[|command|](i requires 0 <= i < |command| => command[i]);
    assert parts[..] == command;
    shellLine, events, outcome := RunCommand(sem, Tokens(parts), None, workingDirectory, Some(workingDirectory), cwd, process);
  }
}
