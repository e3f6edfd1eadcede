/** The command lists `Clang.preprocess`, `Clang.compile` and `Clang.link` hand to `run_command`
    (embedded/compiler.py). Only the Clang class defines these steps, so the C compiler is always
    `clang`. Each step also states the directory the command runs in (the caller's) and the
    description it logs; `cwd` is the directory the build was started in. */
module ClangCommands {
  import opened Wrappers
  import opened Text
  import opened Paths
  import opened Toolchain
  import opened Build
  import Cpu

  /** What a step passes to `run_command`. */
  datatype Invocation = Invocation(command: seq<Token>, description: string, workingDirectory: Path)

  /** A file argument: a path, a relative string naming a file below the caller's directory, or an
      absolute string, which `caller_directory / name` keeps as it is. */
  datatype FileArg = AsPath(path: Path) | AsString(relative: seq<string>) | AsAbsoluteString(parts: seq<string>)

  const CC := ToolsOf(Clang).cCompiler

  /** `str(p.relative_to(cwd))`, or ValueError when `p` is not inside `cwd`. */
  function ShowRelative(p: Path, cwd: Path): (r: Result<string>)
    ensures r.Ok? <==> RelativeTo(p, cwd).Some?
    ensures r.Ok? ==> r.value == RelStr(RelativeTo(p, cwd).value)
  {
    match RelativeTo(p, cwd)
    case Some(rel) => Ok(RelStr(rel))
    case None => Raise(ValueError)
  }

  function Words(flags: seq<string>): (r: seq<Token>)
    ensures |r| == |flags| && forall i :: 0 <= i < |flags| ==> r[i] == Word(flags[i])
  {
    seq(|flags|, i requires 0 <= i < |flags| => Word(flags[i]))
  }

  function PathTokens(paths: seq<Path>): (r: seq<Token>)
    ensures |r| == |paths| && forall i :: 0 <= i < |paths| ==> r[i] == PathToken(paths[i])
  {
    seq(|paths|, i requires 0 <= i < |paths| => PathToken(paths[i]))
  }

  /** `preprocess(source_file, output_file, flags)`: `clang -E -MMD -c <source> <flags> -o <output>`,
      run in the caller's directory, described as "Preprocess <source> -> <output>" with both paths
      relative to `cwd`; ValueError when either lies outside it. */
  function Preprocess(source: Path, output: Path, flags: seq<Token>, callerDirectory: Path, cwd: Path): (r: Result<Invocation>)
    ensures r.Ok? <==> RelativeTo(source, cwd).Some? && RelativeTo(output, cwd).Some?
    ensures r.Ok? ==> var c := r.value.command;
              && |c| == |flags| + 7
              && c[..5] == [Word(CC), Word("-E"), Word("-MMD"), Word("-c"), PathToken(source)]
              && c[5..5 + |flags|] == flags
              && c[|c| - 2..] == [Word("-o"), PathToken(output)]
    ensures r.Ok? ==> r.value.workingDirectory == callerDirectory
    ensures r.Ok? ==>
              r.value.description == "Preprocess " + ShowRelative(source, cwd).value + " -> " + ShowRelative(output, cwd).value
  {
    var command := [Word(CC), Word("-E"), Word("-MMD"), Word("-c"), PathToken(source)] + flags
                   + [Word("-o"), PathToken(output)];
    match (ShowRelative(source, cwd), ShowRelative(output, cwd))
    case (Ok(s), Ok(o)) => Ok(Invocation(command, "Preprocess " + s + " -> " + o, callerDirectory))
    case _ => Raise(ValueError)
  }

  /** `caller_directory / name` for a string argument; a path, and an absolute string, are kept as
      they are. */
  function Resolve(arg: FileArg, callerDirectory: Path): (p: Path)
    ensures arg.AsPath? ==> p == arg.path
    ensures arg.AsString? ==> callerDirectory.parts <= p.parts && RelativeTo(p, callerDirectory) == Some(arg.relative)
    ensures arg.AsAbsoluteString? ==> p == Path(arg.parts)
  {
    match arg
    case AsPath(p) => p
    case AsAbsoluteString(parts) => Path(parts)
    case AsString(rel) =>
      var p := Path(callerDirectory.parts + rel);
      assert p.parts[|callerDirectory.parts|..] == rel;
      p
  }

  /** The command list of `compile`: `clang <cpu flags> -MMD -c <source> <flags> -o <output>`. */
  function CompileCommand(cpu: Cpu.Cpu, source: Path, output: Path, flags: seq<Token>): (c: seq<Token>)
    ensures var n := |Cpu.ArchCflags(cpu, Clang)|;
              && |c| == 1 + n + 3 + |flags| + 2
              && c[0] == Word(CC)
              && c[1..1 + n] == Words(Cpu.ArchCflags(cpu, Clang))
              && c[1 + n..4 + n] == [Word("-MMD"), Word("-c"), PathToken(source)]
              && c[4 + n..4 + n + |flags|] == flags
              && c[|c| - 2..] == [Word("-o"), PathToken(output)]
  {
    [Word(CC)] + Words(Cpu.ArchCflags(cpu, Clang)) + [Word("-MMD"), Word("-c"), PathToken(source)] + flags
    + [Word("-o"), PathToken(output)]
  }

  /** `compile(cpu, source_file, output_file, flags)`: relative string arguments are taken below the
      caller's directory, then the command runs in the caller's directory, described as
      "Compile <source> -> <output>" with both paths relative to `cwd`; ValueError when either lies
      outside it. */
  function Compile(cpu: Cpu.Cpu, source: FileArg, output: FileArg, flags: seq<Token>,
                   callerDirectory: Path, cwd: Path): (r: Result<Invocation>)
    ensures var src := Resolve(source, callerDirectory); var out := Resolve(output, callerDirectory);
              r.Ok? <==> RelativeTo(src, cwd).Some? && RelativeTo(out, cwd).Some?
    ensures r.Ok? ==> r.value.command == CompileCommand(cpu, Resolve(source, callerDirectory), Resolve(output, callerDirectory), flags)
    ensures r.Ok? ==> r.value.workingDirectory == callerDirectory
    ensures r.Ok? ==>
              (r.value.description == "Compile " + ShowRelative(Resolve(source, callerDirectory), cwd).value + " -> "
                                      + ShowRelative(Resolve(output, callerDirectory), cwd).value)
  {
    var out := Resolve(output, callerDirectory);
    var src := Resolve(source, callerDirectory);
    match (ShowRelative(src, cwd), ShowRelative(out, cwd))
    case (Ok(s), Ok(o)) => Ok(Invocation(CompileCommand(cpu, src, out, flags), "Compile " + s + " -> " + o, callerDirectory))
    case _ => Raise(ValueError)
  }

  /** `str(output_file.with_suffix(".elf.map").relative_to(caller_directory))`: ValueError when the
      output is the root or the map file falls outside the caller's directory. */
  function MapFile(output: Path, callerDirectory: Path): (r: Result<string>)
    ensures r.Ok? <==> WithSuffix(output, ".elf.map").Some?
                       && RelativeTo(WithSuffix(output, ".elf.map").value, callerDirectory).Some?
    ensures r.Ok? ==> r.value == RelStr(RelativeTo(WithSuffix(output, ".elf.map").value, callerDirectory).value)
  {
    match WithSuffix(output, ".elf.map")
    case None => Raise(ValueError)
    case Some(mapFile) =>
      match RelativeTo(mapFile, callerDirectory)
      case None => Raise(ValueError)
      case Some(rel) => Ok(RelStr(rel))
  }

  /** The `link_flags` list: the two memory-usage flags, the map-file flag and the section
      collection flag, each present exactly when its option is set, in that order. */
  function LinkFlags(printMemoryUse: bool, mapFile: Option<string>, gcSections: bool): (r: seq<string>)
    ensures |r| == (if printMemoryUse then 2 else 0) + (if mapFile.Some? then 1 else 0) + (if gcSections then 1 else 0)
    ensures printMemoryUse <==> |r| >= 2 && r[..2] == ["-fuse-ld=bfd", "-Wl,--print-memory-usage"]
    ensures mapFile.Some? ==> r[if printMemoryUse then 2 else 0] == "-Wl,-Map=" + mapFile.value
    ensures gcSections <==> |r| > 0 && r[|r| - 1] == "-Wl,--gc-sections"
  {
    var flags := if printMemoryUse then ["-fuse-ld=bfd", "-Wl,--print-memory-usage"] else [];
    var flags := if mapFile.Some? then flags + ["-Wl,-Map=" + mapFile.value] else flags;
    assert mapFile.Some? ==> ("-Wl,-Map=" + mapFile.value)[1] == 'W' && ("-Wl,-Map=" + mapFile.value)[5] == 'M';
    assert "-fuse-ld=bfd"[1] == 'f' && "-Wl,--gc-sections"[1] == 'W';
    var r := if gcSections then flags + ["-Wl,--gc-sections"] else flags;
    assert !printMemoryUse && |r| >= 2 ==> r[0] != "-fuse-ld=bfd" && r[..2][0] == r[0];
    r
  }

  /** The command list of `link`: `clang <cpu flags> <link flags> <flags> <objects> -T <script> -o <output>`. */
  function LinkCommand(cpu: Cpu.Cpu, objects: seq<Path>, output: Path, linkerScript: Path, flags: seq<string>,
                       linkFlags: seq<string>): (c: seq<Token>)
    ensures var head := [Word(CC)] + Words(Cpu.ArchCflags(cpu, Clang)) + Words(linkFlags) + Words(flags);
              && |c| == |head| + |objects| + 4
              && c[..|head|] == head
              && c[|head|..|head| + |objects|] == PathTokens(objects)
              && c[|c| - 4..] == [Word("-T"), PathToken(linkerScript), Word("-o"), PathToken(output)]
  {
    var head := [Word(CC)] + Words(Cpu.ArchCflags(cpu, Clang)) + Words(linkFlags) + Words(flags);
    head + PathTokens(objects) + [Word("-T"), PathToken(linkerScript), Word("-o"), PathToken(output)]
  }

  /** `link(cpu, objects, output_file, linker_script, flags, print_memory_use, output_map_file,
      gc_sections)`: the link command, run in the caller's directory and described as
      "Link <output>". The map-file flag is computed first, so its ValueError comes before the one
      for an output outside `cwd`. */
  function Link(cpu: Cpu.Cpu, objects: seq<Path>, output: Path, linkerScript: Path, flags: seq<string> := [],
                printMemoryUse: bool := true, outputMapFile: bool := true, gcSections: bool := true,
                callerDirectory: Path, cwd: Path): (r: Result<Invocation>)
    ensures r.Ok? <==> (outputMapFile ==> MapFile(output, callerDirectory).Ok?) && RelativeTo(output, cwd).Some?
    ensures r.Ok? ==>
              r.value.command == LinkCommand(cpu, objects, output, linkerScript, flags,
                                             LinkFlags(printMemoryUse, if outputMapFile then Some(MapFile(output, callerDirectory).value) else None, gcSections))
    ensures r.Ok? ==> r.value.workingDirectory == callerDirectory
    ensures r.Ok? ==> r.value.description == "Link " + ShowRelative(output, cwd).value
  {
    var mapFile := if outputMapFile then MapFile(output, callerDirectory) else Ok("");
    if mapFile.Raise? then Raise(ValueError)
    else
      var lf := LinkFlags(printMemoryUse, if outputMapFile then Some(mapFile.value) else None, gcSections);
      match ShowRelative(output, cwd)
      case Ok(o) => Ok(Invocation(LinkCommand(cpu, objects, output, linkerScript, flags, lf), "Link " + o, callerDirectory))
      case Raise(e) => Raise(e)
  }

  /** Every step runs its output through the `-o` flag: the last two arguments. */
  lemma OutputFollowsDashO(cpu: Cpu.Cpu, source: Path, output: Path, objects: seq<Path>, script: Path,
                           flags: seq<Token>, linkFlags: seq<string>, pm: bool, om: bool, gc: bool,
                           callerDirectory: Path, cwd: Path)
    ensures var r := Preprocess(source, output, flags, callerDirectory, cwd);
              r.Ok? ==> r.value.command[|r.value.command| - 2..] == [Word("-o"), PathToken(output)]
    ensures var r := Compile(cpu, AsPath(source), AsPath(output), flags, callerDirectory, cwd);
              r.Ok? ==> r.value.command[|r.value.command| - 2..] == [Word("-o"), PathToken(output)]
    ensures var r := Link(cpu, objects, output, script, linkFlags, pm, om, gc, callerDirectory, cwd);
              r.Ok? ==> r.value.command[|r.value.command| - 2..] == [Word("-o"), PathToken(output)]
  {
    assert Resolve(AsPath(source), callerDirectory) == source && Resolve(AsPath(output), callerDirectory) == output;
    var r := Link(cpu, objects, output, script, linkFlags, pm, om, gc, callerDirectory, cwd);
    if r.Ok? {
      LinkEndsWithOutput(cpu, objects, output, script, linkFlags,
                         LinkFlags(pm, if om then Some(MapFile(output, callerDirectory).value) else None, gc));
    }
  }

  lemma LinkEndsWithOutput(cpu: Cpu.Cpu, objects: seq<Path>, output: Path, script: Path, flags: seq<string>, linkFlags: seq<string>)
    ensures var c := LinkCommand(cpu, objects, output, script, flags, linkFlags);
              c[|c| - 2..] == [Word("-o"), PathToken(output)]
  {
    var c := LinkCommand(cpu, objects, output, script, flags, linkFlags);
    assert c[|c| - 2..] == c[|c| - 4..][2..];
  }
}
