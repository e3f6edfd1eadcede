# A verified model of the embedded build helpers

This project models, in Dafny, the core of `embedded`. `embedded` is a Python package that builds
firmware for microcontrollers. The model covers five parts:

- **The job limiter.** `build.init` creates one shared `asyncio.BoundedSemaphore`.
  `build.run_command` takes one permit from it around process creation.
  `build.ninja.run` lends every idle permit to ninja as its `-j` value and takes them back in its
  `finally` block. The semaphore is a class (`Build.BoundedSemaphore`) with a counter, a bound and
  a ghost history of the permits taken and handed back. Its methods run as one sequential trace.
- **`run_command`.** A list command is rewritten in place, with paths made relative to the working
  directory, then joined by spaces. The model builds the `"<dir>$ <command>"` label and produces
  the log calls and the outcome chosen by the exit status and the two output streams.
- **Core descriptions.** The Arm Cortex-M and RISC-V cores give their unique ids and their
  architecture flags. A core can also be found by name or read from a CMSIS processor
  description.
- **Toolchain commands.** The model covers the program names of the GCC and Clang families, the
  argument lists of `Clang.preprocess`, `Clang.compile` and `Clang.link`, the Meson cross file,
  and the `meson setup` command.
- **The three generators of `Microcontroller`.**
  - The C register header: a bit-field struct per register, two structs per peripheral and the
    instance pointers.
  - The GNU ld linker script: the MEMORY block and the section placement.
  - The startup source and its header: the vector table, the default and reset handlers, and the
    handler declarations.

Each generator writes to a `Device.TextSink`, a file that records one element per `write` call.
Each generator is proved to write exactly the lines of a specification function. The properties
of the output are then proved about that function. Python values are modelled as follows:

- A dict is the list of its entries in insertion order (`Dicts.Dict`).
- A path is the list of its components (`Paths.Path`).
- An exception is a `Wrappers.Result` or `Wrappers.Outcome` value naming its Python class.
- The process result, the current directory and the file of the calling frame are parameters.

Two facts about the limiter shape the model:

- `init(0)` is accepted, because `BoundedSemaphore(0)` is valid. Only a negative count is
  rejected.
- `run_command` hands its permit back as soon as the process has been created, not when the
  process ends.

## Model

| member | source | states |
|---|---|---|
| Build.BoundedSemaphore.constructor | embedded/build/__init__.py:11-13 | a new limiter holds `job_count` free permits out of `job_count`, none on loan |
| Build.BoundedSemaphore.Acquire | embedded/build/__init__.py:41 | taking a free permit lowers the count by one and records the loan; the counter stays within [0, bound] |
| Build.BoundedSemaphore.Release | embedded/build/ninja.py:10 | handing a permit back succeeds exactly when the count is below the bound (else ValueError and nothing changes); the counter stays within [0, bound] |
| Build.Init | embedded/build/__init__.py:11-13 | `init(job_count)` gives a full limiter whose value and bound are `job_count`; a negative count is refused as asyncio refuses it |
| Build.CaptureCallerDirectory | embedded/build/__init__.py:16-26 | `caller_directory` is filled with the caller's directory only when it is missing or None; a given value and every other keyword are left as they were |
| Build.EffectiveDirectory | embedded/build/__init__.py:30-31 | the working directory is the given one, else the caller's directory |
| Build.RenderTokens | embedded/build/__init__.py:32-39 | the command list is rewritten in place so that every element is a string (a path relative to the working directory), and the shell line is those strings joined by single spaces, in order |
| Build.ShellLineKeepsTokens | embedded/build/__init__.py:39 | splitting the shell line on spaces gives back every element in order, when no element contains a space |
| Build.SuccessReport | embedded/build/__init__.py:53-58 | exit status 0 logs the description at info and the label at debug, or the label alone at info when there is no description |
| Build.FailureReport | embedded/build/__init__.py:59-66 | any other status logs stdout at info only if non-empty, stderr at warning only if non-empty, "No output" only if both are empty, and ends with the label at error |
| Build.Report | embedded/build/__init__.py:53-67 | the exit status alone chooses between the success and the failure log calls |
| Build.RunCommand | embedded/build/__init__.py:28-67 | one permit is taken and handed back, so the count is unchanged even on failure; the shell line and the in-place rewrite are as rendered; a working directory outside the current one raises ValueError; otherwise the log calls are reported and the outcome is RuntimeError exactly when the status is not 0 |
| Ninja.DrainIdle | embedded/build/ninja.py:5-8 | the drain loop takes exactly the permits that were free and leaves the limiter locked |
| Ninja.ReleaseLent | embedded/build/ninja.py:15-17 | the `finally` loop hands back exactly `extra_parallel` permits, none when it is not positive |
| Ninja.NinjaShellLine | embedded/build/ninja.py:14 | ninja is run as `ninja -j <n>` |
| Ninja.Run | embedded/build/ninja.py:3-17 | with v free permits, ninja gets `-j v`; the limiter ends with v free permits (1 when v was 0); its history is the drain, one hand-back, `run_command`'s take and return, then v - 1 hand-backs, whether ninja succeeded or not; the outcome is success exactly on status 0 and RuntimeError on any other status (ValueError for a build directory outside the current one); with a bound of 0 the hand-back raises ValueError |
| Ninja.NinjaBalance | embedded/build/ninja.py:3-17 | over a whole run every permit taken is given back when at least one was free; with none free one more is given back than was taken |
| Ninja.NinjaReserveBounded | embedded/build/ninja.py:3-17 | at every step of a run that starts with v ≥ 1 free permits, the permits held lie between 0 and v |
| Ninja.NinjaReleasesUnheldWhenNoneIdle | embedded/build/ninja.py:5-11 | with no free permit on entry, the first thing `run` does is hand back a permit it never took |
| Ninja.FourJobsOneBusy | embedded/build/ninja.py:3-17 | with four permits and one busy, ninja is told `-j 3` and all four are free once the busy one returns |
| Toolchain.ToolsOf | embedded/compiler.py:10-22 | GCC names the four arm-none-eabi programs and Clang names clang, clang++, llvm-ar and llvm-strip |
| Toolchain.FamiliesDisjoint | embedded/compiler.py:10-22 | no program name is shared between the two families |
| Arm.NewArm | embedded/cpu/arm.py:7-11 | the fields are as given; the unique id is `mcpu`, with "f" appended exactly when floating point is on |
| Arm.CortexM0Plus | embedded/cpu/arm.py:46-60 | `cortex-m0plus`, with `.small-multiply` when asked for; no floating point; 32 external interrupts and the 5 system exceptions SysTick (-1), PendSV (-2), SVCall (-5), HardFault (-13) and NMI (-14) |
| Arm.CortexM4 | embedded/cpu/arm.py:62-68 | `cortex-m4`, with `+nofp` without floating point; the unit is always `fpv4-sp-d16`; the unique ids are `cortex-m4f` and `cortex-m4+nofp` |
| Arm.CortexM7 | embedded/cpu/arm.py:70-76 | `cortex-m7`, with `+nofp` without floating point; no unit is named |
| Arm.CortexM33 | embedded/cpu/arm.py:78-88 | `cortex-m33`, then `+nofp`, then `+nodsp`; no unit is named |
| Arm.UniqueIdsSeparateConfigurations | embedded/cpu/arm.py:62-88 | two configurations of the same core never share a unique id |
| Arm.ArchCflags | embedded/cpu/arm.py:13-30 | the flags as the code builds them. `-mthumb` first. Clang: `--target=arm-none-eabi`, `-mcpu`, then `-mfpu` only when a unit is set. GCC: `-mcpu`, then `-mfpu` only with floating point, naming the stored unit or `None` when there is none. `-mfloat-abi=hard` comes last exactly when floating point is on |
| Arm.GccM7AsksForFpuNone | embedded/cpu/arm.py:22-27 | a Cortex-M7 with floating point built by GCC is given `-mfpu=None` |
| Arm.ArchCflagsIntended | embedded/cpu/arm.py:13-30 | the flags with the "auto" default the GCC path sets up: the same order and the same flags, but every `-mfpu` names the stored unit or "auto" |
| Arm.ArchCflagsNamesRealUnit | embedded/cpu/arm.py:22-27 | unless a unit literally named "None" is stored, the intended flags never ask for `-mfpu=None`; on Clang, and wherever a unit is stored, they are exactly the flags the code builds |
| Arm.FromPdsc | embedded/cpu/arm.py:32-44 | a description without a core gives None; it raises exactly for a Cortex-M4, M7 or M33 core without "fpu" (KeyError) and for a Cortex-M33 with it (TypeError, one argument too few) |
| Arm.FromPdscBuildsCore | embedded/cpu/arm.py:32-44 | CortexM0Plus, CortexM4 and CortexM7 build those cores, the last two with the truth value of "fpu"; any other core gives None |
| Riscv.NewRiscv | embedded/cpu/riscv.py:4-8 | the unique id is "rv", the width in decimal, then the extensions run together |
| Riscv.Hazard3 | embedded/cpu/riscv.py:15-18 | a 32-bit core with its twelve extensions whose unique id is "hazard3" |
| Riscv.ArchCflags | embedded/cpu/riscv.py:10-13 | exactly two flags, `--target=riscv<bits>` then `-march=rv<bits><extensions>`, whatever the compiler |
| Riscv.MarchExtensionsRoundTrip | embedded/cpu/riscv.py:11 | splitting the `-march` extension text on "_" gives every extension, lower-cased, in order |
| Riscv.Hazard3MarchNamesExtensions | embedded/cpu/riscv.py:11-18 | Hazard3's `-march` flag names its twelve extensions, lower-cased, in order |
| Cpu.ArchCflags | embedded/compiler.py:36 | a core's flags come from its own architecture, as the code builds them (a GCC Arm core with floating point and no unit gets `-mfpu=None`); only the Arm flags depend on the compiler |
| Cpu.GetCpuFromName | embedded/cpu/__init__.py:4-17 | a core is found exactly for the known names once lower-cased, and each name gives the core listed for it |
| Cpu.LookupIgnoresCase | embedded/cpu/__init__.py:5 | a name and its lower-cased form find the same core |
| Cpu.NamedCoresHaveDistinctIds | embedded/cpu/__init__.py:4-17 | two names that find cores with the same unique id find the same core |
| ClangCommands.ShowRelative | embedded/compiler.py:27 | a path shown relative to the current directory, or ValueError exactly when it lies outside it |
| ClangCommands.Preprocess | embedded/compiler.py:24-27 | `clang -E -MMD -c <source> <flags> -o <output>` in the caller's directory, described as "Preprocess A -> B"; ValueError exactly when either path lies outside the current directory |
| ClangCommands.Resolve | embedded/compiler.py:31-34 | a relative string argument is taken below the caller's directory; a path, and an absolute string, are kept as they are |
| ClangCommands.CompileCommand | embedded/compiler.py:36-37 | `clang <core flags> -MMD -c <source> <flags> -o <output>`, in that order |
| ClangCommands.Compile | embedded/compiler.py:29-37 | the compile command on the resolved paths, in the caller's directory, described as "Compile A -> B"; ValueError exactly when a resolved path lies outside the current directory |
| ClangCommands.MapFile | embedded/compiler.py:48 | the map file is the output with suffix `.elf.map`, relative to the caller's directory; ValueError when that is impossible |
| ClangCommands.LinkFlags | embedded/compiler.py:43-50 | the two memory-usage flags exactly when asked for, then the map-file flag when there is one, then `--gc-sections` last exactly when asked for |
| ClangCommands.LinkCommand | embedded/compiler.py:51 | `clang <core flags> <link flags> <flags> <objects> -T <script> -o <output>`, in that order |
| ClangCommands.Link | embedded/compiler.py:39-51 | the link command with the link flags in the caller's directory, described as "Link B"; it fails exactly when the map file or the output cannot be made relative |
| ClangCommands.OutputFollowsDashO | embedded/compiler.py:24-51 | every step ends its command with `-o <output>` |
| ClangCommands.LinkEndsWithOutput | embedded/compiler.py:51 | the link command ends with `-o <output>` whatever the flags |
| Meson.QuoteEach | embedded/build/meson.py:8 | every flag is wrapped in single quotes, in order |
| Meson.CArgsRoundTrip | embedded/build/meson.py:8 | splitting the `c_args` text on commas gives back each quoted flag, in order, when no flag holds a comma |
| Meson.LinkArgs | embedded/build/meson.py:9-10 | the link arguments are the `c_args` text followed by the LLD and no-stdlib flags |
| Meson.CpuFamily | embedded/build/meson.py:11-16 | "arm" exactly for an Arm core, "riscv<bits>" for a RISC-V core |
| Meson.BinariesSection | embedded/build/meson.py:17-21 | the four programs of the compiler family |
| Meson.HostMachineSection | embedded/build/meson.py:23-28 | a bare-metal little-endian machine whose `cpu_family` and `cpu` are both the family |
| Meson.BuiltInSection | embedded/build/meson.py:30-32 | `c_args` and `c_link_args` from the core's flags as the code builds them |
| Meson.CrossFileLines | embedded/build/meson.py:7-33 | the three sections in order, separated by empty lines |
| Meson.DefineRoundTrip | embedded/build/meson.py:51 | a `-D<key>=<value>` argument gives back its key and its value text, when the key has no "=" |
| Meson.SetupPrefix | embedded/build/meson.py:36-43 | `meson setup`, then `--reconfigure` exactly when asked for, then `--cross-file <file>` |
| Meson.Defines | embedded/build/meson.py:45-51 | exactly one `-D<key>=<value>` argument per option, in the dict's order |
| Meson.AppendDefines | embedded/build/meson.py:45-51 | the options loop, which spells True and False "true" and "false", appends exactly those arguments after the ones given |
| Meson.SetupCommand | embedded/build/meson.py:36-54 | the arguments in order, with the source and build directories last |
| Meson.Setup | embedded/build/meson.py:35-59 | writes the cross file `build_dir/cross_file.txt` with the cross-file text, runs the command through `run_command` from the caller's directory, and reports its log calls; the outcome is ValueError when the caller's directory lies outside the current one, else success exactly on status 0 and RuntimeError on any other status |
| Device.OneLine | embedded/microcontroller/__init__.py:46-48 | the text fits on one comment line: it holds no line break, and a description without one is kept as it is |
| Device.WriteEach | embedded/microcontroller/__init__.py:81-82 | writing a list line by line appends exactly those lines |
| CHeader.SortByOffset | embedded/microcontroller/__init__.py:61 | the fields ordered by bit offset: sorted, a permutation of the input, and stable (fields sharing an offset keep their order) |
| CHeader.Step | embedded/microcontroller/__init__.py:66-69 | a `reserved_<cursor>` member of width `bit_offset - cursor` comes before the field exactly when the cursor is short of the field |
| CHeader.FieldsLandAtTheirOffsets | embedded/microcontroller/__init__.py:58-69 | with the cursor starting at bit 0, the members before each field of a register with disjoint fields are exactly `bit_offset` bits wide |
| CHeader.StartAtOneShiftsFields | embedded/microcontroller/__init__.py:58-69 | with the cursor starting at 1, as the code has it, the members before each field of a register whose lowest field is not at bit 0 are one bit narrower than its offset |
| CHeader.FieldType | embedded/microcontroller/__init__.py:70-75 | `bool` exactly for one bit, `uint8_t` exactly for 2 to 8 bits (and 0), `int` exactly beyond 8 |
| CHeader.PlainRegistersOnly | embedded/microcontroller/__init__.py:54-56 | exactly the plain registers (one field at bit 0 covering the register) go without a bit-field struct, and only they have the same member in both structs |
| CHeader.Instances | embedded/microcontroller/__init__.py:37-40 | two instance lines for each selected peripheral |
| CHeader.WriteField | embedded/microcontroller/__init__.py:63-76 | one pass of the field loop writes the padding and the field of `Step`, and moves the cursor just past the field |
| CHeader.WriteMembers | embedded/microcontroller/__init__.py:58-76 | the field loop, with the cursor starting at bit 1 as written, writes the layout of the fields |
| CHeader.WriteTypedef | embedded/microcontroller/__init__.py:59-77 | a register's bit-field struct: its description, the fields sorted by offset, and its name |
| CHeader.WriteRegister | embedded/microcontroller/__init__.py:46-79 | a register writes its struct unless it is plain, and gives its member for each of the two structs |
| CHeader.WriteRegisters | embedded/microcontroller/__init__.py:45-79 | the register loop writes every register's struct in order and collects both member lists |
| CHeader.WriteStructs | embedded/microcontroller/__init__.py:80-87 | the peripheral struct and the raw struct, from the collected members |
| CHeader.WritePeripheral | embedded/microcontroller/__init__.py:41-87 | a peripheral writes exactly its text: nothing for a derived one, else its register structs and its two structs |
| CHeader.GenerateCHeader | embedded/microcontroller/__init__.py:31-89 | the header is the includes, then the types of every selected peripheral in order, then all the instance lines |
| CHeader.DerivedPeripheralsOnlyPoint | embedded/microcontroller/__init__.py:37-42 | a selected derived peripheral after any others contributes its two instance lines and no types |
| CHeader.UnselectedPeripheralsAddNothing | embedded/microcontroller/__init__.py:37-38 | a peripheral the target does not name adds nothing to the header |
| LinkerScript.SizeText | embedded/microcontroller/__init__.py:109-114 | the length ends in M exactly for whole mebibytes, in K exactly for whole kibibytes that are not whole mebibytes, and is written in hexadecimal exactly otherwise |
| LinkerScript.SizeRoundTrip | embedded/microcontroller/__init__.py:109-114 | every length reads back as the size it was written from |
| LinkerScript.Attrs | embedded/microcontroller/__init__.py:119-126 | r, w and x appear exactly for read, write and execute access, in that order |
| LinkerScript.OriginText | embedded/microcontroller/__init__.py:127 | at least eight characters, all hexadecimal digits, except a minus sign first for a negative origin |
| LinkerScript.OriginRoundTrip | embedded/microcontroller/__init__.py:107-127 | every origin, negative ones included, reads back as the address it was written from |
| LinkerScript.MemoryLines | embedded/microcontroller/__init__.py:104-127 | one MEMORY line per memory |
| LinkerScript.LastOfNone | embedded/microcontroller/__init__.py:115-118 | a region stays None exactly when no memory fits it (executable and startup for nvm, writable for ram) |
| LinkerScript.LastOfSome | embedded/microcontroller/__init__.py:115-118 | a named region is the last memory that fits it |
| LinkerScript.TextSection | embedded/microcontroller/__init__.py:132-137 | `.text` takes six lines and closes by placing it in nvm |
| LinkerScript.RodataSection | embedded/microcontroller/__init__.py:139-142 | `.rodata` takes four lines and is placed in nvm |
| LinkerScript.DataSection | embedded/microcontroller/__init__.py:144-150 | `.data` closes with `} > nvm AT> ram`: it runs from nvm and is stored in ram |
| LinkerScript.PlacementReadsBack | embedded/microcontroller/__init__.py:147 | a `} > A AT> B` line reads back as run region A and load region B, when neither name holds a space |
| LinkerScript.DataRunsFromNvm | embedded/microcontroller/__init__.py:147 | the `.data` line as written makes nvm the run region and ram the load region, so with two distinct regions `.data` does not run from ram |
| LinkerScript.IntendedDataSection | embedded/microcontroller/__init__.py:144-150 | `.data` with `} > ram AT> nvm`, every other line as written |
| LinkerScript.IntendedDataRunsFromRam | embedded/microcontroller/__init__.py:147-149 | the intended `.data` runs from ram and is stored in nvm, the region whose address `LOADADDR(.data)` gives |
| LinkerScript.BssSection | embedded/microcontroller/__init__.py:152-159 | `.bss` is placed in ram, and the end of RAM is the origin plus the length of ram |
| LinkerScript.SectionLines | embedded/microcontroller/__init__.py:128-161 | the MEMORY block is closed, the entry point is the reset handler, and the four sections follow in order |
| LinkerScript.ScriptText | embedded/microcontroller/__init__.py:99-161 | the script is the MEMORY opening, one line per memory, then the sections placed in the regions the memory loop chose |
| LinkerScript.WriteMemory | embedded/microcontroller/__init__.py:105-127 | one pass of the memory loop writes that memory's line |
| LinkerScript.WriteMemories | embedded/microcontroller/__init__.py:101-127 | the memory loop writes one line per memory and leaves nvm and ram naming the last memory that fits each |
| LinkerScript.GenerateLinkerScript | embedded/microcontroller/__init__.py:92-161 | the file receives exactly the script text |
| LinkerScript.CodeLivesInStartupMemory | embedded/microcontroller/__init__.py:115-147 | code and constants are placed in the last executable startup memory, and `.data` names that memory as its run region |
| LinkerScript.NoRamNamesNone | embedded/microcontroller/__init__.py:117-159 | with no writable memory, `.bss` and the end of RAM refer to a region called None |
| Startup.InterruptNamed | embedded/microcontroller/__init__.py:172-174 | a number is named exactly when some interrupt has it, and then by the last such interrupt in device order |
| Startup.InterruptMaps | embedded/microcontroller/__init__.py:170-175 | the nested loop fills the number-to-name and name-to-number dicts |
| Startup.Resolve | embedded/microcontroller/__init__.py:179-182 | a number is kept and a name becomes its interrupt's number; it fails exactly when the name or the number belongs to no interrupt; the handler is the interrupt's name followed by `_Handler` |
| Startup.NormaliseUsed | embedded/microcontroller/__init__.py:177-183 | the normalisation computes the handler dict: a dict is kept, a list is resolved entry by entry and the first failure is reported |
| Startup.ListedInterruptsGetHandlers | embedded/microcontroller/__init__.py:177-183 | every listed interrupt, by number or by name and however often, maps to `<name>_Handler` |
| Startup.HeaderPrelude | embedded/microcontroller/__init__.py:187-201 | the fixed header ends with the declarations of the reset and default handlers |
| Startup.Declarations | embedded/microcontroller/__init__.py:202-203 | one declaration per handler, in the dict's order |
| Startup.HeaderText | embedded/microcontroller/__init__.py:187-204 | the fixed part, the handler declarations, then the first function's declaration |
| Startup.WriteHeader | embedded/microcontroller/__init__.py:186-204 | the header file receives exactly the header text |
| Startup.VectorPrefix | embedded/microcontroller/__init__.py:207-211 | four lines, the second opening the vector table section |
| Startup.ExceptionEntries | embedded/microcontroller/__init__.py:212-214 | slots 2 to 15 go to the default handler, named from the core's exceptions for -14 to -1, else "Reserved" |
| Startup.IrqEntries | embedded/microcontroller/__init__.py:215-218 | slot 16 + i goes to the handler listed for interrupt i, else the default handler, named after the interrupt or `IRQ<i>` |
| Startup.SourceTail | embedded/microcontroller/__init__.py:221-239 | the source ends with the reset handler calling the first function and closing |
| Startup.WriteExceptions | embedded/microcontroller/__init__.py:212-214 | the exception loop writes exactly those slots |
| Startup.WriteIrqs | embedded/microcontroller/__init__.py:215-218 | the interrupt loop writes exactly those slots |
| Startup.WriteSource | embedded/microcontroller/__init__.py:206-239 | the source receives exactly the lines of the written source and reports its outcome; a core without `interrupts` or `interrupt_count` stops with AttributeError after what it wrote |
| Startup.GenerateStartupSource | embedded/microcontroller/__init__.py:164-239 | the header and the source receive the generated text and the outcome is as computed; nothing is written when `interrupts_used` does not resolve |
| Startup.TableLayout | embedded/microcontroller/__init__.py:209-219 | a completed table has 16 + `interrupt_count` slots, closed right after the last, and slot 16 + i names interrupt i's handler |
| Startup.TableHandlersDeclared | embedded/microcontroller/__init__.py:200-218 | every handler the table names is declared in the header |
| Startup.RiscvStopsAfterResetHandler | embedded/microcontroller/__init__.py:209-213 | on a RISC-V core the source stops after the reset handler entry with AttributeError |
| Startup.CortexM0PlusTableHas48Slots | embedded/microcontroller/__init__.py:209-219 | on a Cortex-M0+ the generator completes with a 48-slot table |
| Paths.WalkUpRoundTrip | embedded/build/__init__.py:34-35 | for a path without `..` components, the relative path computed with `walk_up` leads from the working directory back to the path |
| Paths.WithSuffix | embedded/microcontroller/__init__.py:185 | the header sits next to the output and its name ends in the new suffix; the root has no name and raises ValueError |
| Dicts.FromEntriesGet | embedded/microcontroller/__init__.py:172-175 | a dict filled by assignments reads, for each key, the value of the last assignment to it |

## Left out

- Build.RunCommand: requires a free permit. The code would suspend until another task handed one
  back, and a sequential trace has no other task.
- Meson.Setup: requires a free permit, for the same reason as `run_command`.
- Startup.GenerateStartupSource: requires the header and the source to be different files. An
  output path that already ends in `.h` makes them the same file, and the second `open`
  truncates the header. This case is not modelled.
- Startup.Normalise: `interrupts_used` is a list of numbers and names, or a dict. A plain string,
  which Python also treats as a sequence, is not modelled. Neither are list entries of other
  types.
- Process creation, `communicate` and the asyncio event loop. The exit status and the decoded
  output streams are a parameter (`Build.ProcessResult`).
- Concurrency. Tasks interleaving on the shared semaphore are not modelled, and neither is the
  `build.run_in_thread` decorator of the generators, which is not part of this model.
- The global `shared_semaphore`. `Build.Init` returns the limiter, and every operation receives
  it as a parameter.
- The logger. Each log call is a `Build.LogEvent` with its level and message. Formatting,
  handlers and the `print` in the linker-script loop are left out.
- Call-stack inspection. The file of the calling frame is a parameter (`callerFile`).
- The current directory. It is a parameter (`cwd`).
- File-system effects. `mkdir` is left out. `open`, `write` and `write_text` are a
  `Device.TextSink` or a returned text.
- Reading device descriptions. The SVD file (SVDParser, lxml) and the CMSIS pack index
  (`cmsis_pack_manager`) are not modelled. Peripherals and memories are parameters. The KeyError
  for a part missing from the index is not modelled.
- `Microcontroller.__init__`, `__str__` and `__repr__`, `get_mcus_from_string`,
  `get_cpu_from_mcu` and embedded/cli.py. They are glue over those libraries and the command
  line.
- The `flash_start_offset` of `generate_startup_source`. The code never reads it.
- The "Unsupported CPU" RuntimeError of `create_cross_file`. It cannot be reached with the two
  core kinds.
- Paths are absolute lists of components. Symbolic links, `..` resolution by the file system
  and string arguments to `run_command` that name files are not modelled. `with_suffix` is
  modelled only for the fixed suffixes the code uses.
- `str.lower`, `str.strip` and `str.isspace` cover ASCII only.
- C's bit-field allocation. The header layout is stated as the widths of the declared members. Where
  a C compiler places each bit-field is not modelled: an ABI may move a `uint8_t` field that would
  cross a byte boundary to the next byte.
- Values in `options` are booleans, integers, strings or None. The `str()` of any other type is
  not modelled.
- ClangCommands.Preprocess, ClangCommands.Compile and ClangCommands.Link: each returns the
  invocation it hands to `run_command` rather than running it. Running a command is
  `Build.RunCommand`. The GCC class has no such methods.

## Findings

| source | as written | input that shows it | evidently intended | confidence | as-written member | corrected member |
|---|---|---|---|---|---|---|
| embedded/cpu/arm.py:22-27 | on the GCC path the `-mfpu` flag is built from the stored unit, so the local "auto" default is never used | `CortexM7(True)` with GCC gives `-mthumb -mcpu=cortex-m7 -mfpu=None -mfloat-abi=hard` | `-mfpu=auto` when no unit is stored | not executed | Arm.GccM7AsksForFpuNone | Arm.ArchCflagsNamesRealUnit |
| embedded/microcontroller/__init__.py:58 | the padding cursor starts at bit 1 | a 32-bit register with one 1-bit field at bit 1: no padding is written and the field is the first member | the cursor starts at bit 0, so the members before every field are exactly its bit offset wide | not executed | CHeader.StartAtOneShiftsFields | CHeader.FieldsLandAtTheirOffsets |
| embedded/microcontroller/__init__.py:147 | `} > {nvm} AT> {ram}` makes nvm the run address of `.data` and ram its load address | any part with distinct regions, such as nvm `FLASH` and ram `RAM`: `.data` runs from FLASH, and `LOADADDR(.data)` on line 149 points into RAM | `} > {ram} AT> {nvm}`: run from RAM, initial values stored in the start-up memory | not executed | LinkerScript.DataRunsFromNvm | LinkerScript.IntendedDataRunsFromRam |

The generators and the cross file model the code as written: the header cursor starts at bit 1
(`CHeader.LayoutStart`), a GCC Arm core without a unit gets `-mfpu=None`, and `.data` is placed with
`> nvm AT> ram`. The corrected definitions stand beside them with their properties proved:
`Arm.ArchCflagsIntended`, the layout starting at bit 0, and `LinkerScript.IntendedDataSection`.
