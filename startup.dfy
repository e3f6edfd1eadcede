/** `generate_startup_source` (embedded/microcontroller/__init__.py): a C header declaring the
    linker symbols and interrupt handlers, and a C source holding the vector table, the default
    handler and the reset handler that copies `.data`, zeroes `.bss` and calls the first function. */
module Startup {
  import opened Wrappers
  import opened Text
  import opened Dicts
  import opened Paths
  import opened Device
  import Cpu
  import Arm

  // ---------------------------------------------------------------- the device's interrupts

  /** Every interrupt the peripherals raise, peripheral by peripheral, in the device's order. */
  function AllInterrupts(peripherals: seq<Peripheral>): seq<Interrupt>
  {
    if peripherals == [] then []
    else
      var n := |peripherals| - 1;
      AllInterrupts(peripherals[..n]) + peripherals[n].interrupts
  }

  function ValueEntries(irqs: seq<Interrupt>): (r: seq<(int, string)>)
    ensures |r| == |irqs| && forall i :: 0 <= i < |irqs| ==> r[i] == (irqs[i].value, irqs[i].name)
  {
    seq(|irqs|, i requires 0 <= i < |irqs| => (irqs[i].value, irqs[i].name))
  }

  function NameEntries(irqs: seq<Interrupt>): (r: seq<(string, int)>)
    ensures |r| == |irqs| && forall i :: 0 <= i < |irqs| ==> r[i] == (irqs[i].name, irqs[i].value)
  {
    seq(|irqs|, i requires 0 <= i < |irqs| => (irqs[i].name, irqs[i].value))
  }

  /** `interrupts`: interrupt number to name. */
  function NamesByValue(peripherals: seq<Peripheral>): Dict<int, string>
  {
    FromEntries(ValueEntries(AllInterrupts(peripherals)))
  }

  /** `interrupt_name_to_value`: interrupt name to number. */
  function ValuesByName(peripherals: seq<Peripheral>): Dict<string, int>
  {
    FromEntries(NameEntries(AllInterrupts(peripherals)))
  }

  /** A number is named exactly when some peripheral raises an interrupt with it, and then by the
      last such interrupt in the device's order. */
  lemma InterruptNamed(peripherals: seq<Peripheral>, v: int)
    ensures var irqs := AllInterrupts(peripherals);
              Get(NamesByValue(peripherals), v).None? <==> forall i :: 0 <= i < |irqs| ==> irqs[i].value != v
    ensures var irqs := AllInterrupts(peripherals); var r := Get(NamesByValue(peripherals), v);
              r.Some? ==> exists i :: 0 <= i < |irqs| && irqs[i] == Interrupt(r.value, v)
                                      && forall j :: i < j < |irqs| ==> irqs[j].value != v
  {
    var irqs := AllInterrupts(peripherals);
    var entries := ValueEntries(irqs);
    FromEntriesGet(entries, v);
    LastValueNone(entries, v);
    var r := Get(NamesByValue(peripherals), v);
    assert r == LastValue(entries, v);
    if r.Some? {
      LastValueSome(entries, v);
      var i :| 0 <= i < |entries| && entries[i] == (v, r.value) && forall j :: i < j < |entries| ==> entries[j].0 != v;
      assert irqs[i] == Interrupt(r.value, v);
      assert AllInterrupts(peripherals)[i].value == v;
      forall j | i < j < |irqs|
        ensures irqs[j].value != v
      {
        assert entries[j].0 != v;
      }
    } else {
      forall i | 0 <= i < |irqs|
        ensures irqs[i].value != v
      {
        assert entries[i].0 != v;
      }
    }
  }

  /** Assigning one more interrupt into both maps. */
  lemma EntriesStep(seen: seq<Interrupt>, irq: Interrupt)
    ensures FromEntries(ValueEntries(seen + [irq])) == Set(FromEntries(ValueEntries(seen)), irq.value, irq.name)
    ensures FromEntries(NameEntries(seen + [irq])) == Set(FromEntries(NameEntries(seen)), irq.name, irq.value)
  {
    assert ValueEntries(seen + [irq]) == ValueEntries(seen) + [(irq.value, irq.name)];
    assert NameEntries(seen + [irq]) == NameEntries(seen) + [(irq.name, irq.value)];
    FromEntriesSnoc(ValueEntries(seen), (irq.value, irq.name));
    FromEntriesSnoc(NameEntries(seen), (irq.name, irq.value));
  }

  lemma AllInterruptsStep(peripherals: seq<Peripheral>, p: nat)
    requires p < |peripherals|
    ensures AllInterrupts(peripherals[..p + 1]) == AllInterrupts(peripherals[..p]) + peripherals[p].interrupts
  {
    assert peripherals[..p + 1][..p] == peripherals[..p];
  }

  /** The nested loop over the peripherals' interrupts that fills both maps. */
  method InterruptMaps(peripherals: seq<Peripheral>) returns (byValue: Dict<int, string>, byName: Dict<string, int>)
    ensures byValue == NamesByValue(peripherals) && byName == ValuesByName(peripherals)
  {
    byValue, byName := [], [];
    ghost var seen: seq<Interrupt> := [];
    assert peripherals[..0] == [];
    assert ValueEntries([]) == [] && NameEntries([]) == [];
    for p := 0 to |peripherals|
      invariant seen == AllInterrupts(peripherals[..p])
      invariant byValue == FromEntries(ValueEntries(seen)) && byName == FromEntries(NameEntries(seen))
    {
      AllInterruptsStep(peripherals, p);
      var irqs := peripherals[p].interrupts;
      assert seen + irqs[..0] == seen;
      for i := 0 to |irqs|
        invariant byValue == FromEntries(ValueEntries(seen + irqs[..i]))
        invariant byName == FromEntries(NameEntries(seen + irqs[..i]))
      {
        EntriesStep(seen + irqs[..i], irqs[i]);
        PrefixStep(seen, irqs, i);
        byValue := Set(byValue, irqs[i].value, irqs[i].name);
        byName := Set(byName, irqs[i].name, irqs[i].value);
      }
      assert irqs[..|irqs|] == irqs;
      seen := seen + irqs;
    }
    assert peripherals[..|peripherals|] == peripherals;
  }

  // ---------------------------------------------------------------- interrupts_used

  /** An entry of a list given as `interrupts_used`: an interrupt number, or an interrupt name. */
  datatype IrqRef = Number(n: int) | Named(name: string)

  /** `interrupts_used`: a list of interrupts, or a dict from interrupt number to handler name. */
  datatype Used = UsedList(refs: seq<IrqRef>) | UsedDict(handlers: Dict<int, string>)

  /** One list entry: its number (a name is looked up, KeyError when no interrupt has it) and the
      handler named after the interrupt with that number (KeyError when there is none). */
  function Resolve(ref: IrqRef, byValue: Dict<int, string>, byName: Dict<string, int>): (r: Result<(int, string)>)
    ensures ref.Number? && r.Ok? ==> r.value.0 == ref.n
    ensures ref.Named? ==> (r.Ok? ==> Get(byName, ref.name) == Some(r.value.0))
    ensures r.Ok? <==> (ref.Number? || Get(byName, ref.name).Some?)
                       && Get(byValue, if ref.Number? then ref.n else Get(byName, ref.name).value).Some?
    ensures r.Ok? ==> r.value.1 == Get(byValue, r.value.0).value + "_Handler"
  {
    var number := match ref
      case Number(n) => Ok(n)
      case Named(s) => (match Get(byName, s) case Some(v) => Ok(v) case None => Raise(KeyError));
    match number
    case Raise(e) => Raise(e)
    case Ok(v) =>
      match Get(byValue, v)
      case None => Raise(KeyError)
      case Some(name) => Ok((v, name + "_Handler"))
  }

  predicate AllResolve(refs: seq<IrqRef>, byValue: Dict<int, string>, byName: Dict<string, int>)
  {
    forall i :: 0 <= i < |refs| ==> Resolve(refs[i], byValue, byName).Ok?
  }

  function Resolved(refs: seq<IrqRef>, byValue: Dict<int, string>, byName: Dict<string, int>): (r: seq<(int, string)>)
    requires AllResolve(refs, byValue, byName)
    ensures |r| == |refs| && forall i :: 0 <= i < |refs| ==> r[i] == Resolve(refs[i], byValue, byName).value
  {
    seq(|refs|, i requires 0 <= i < |refs| => Resolve(refs[i], byValue, byName).value)
  }

  lemma ResolvedStep(refs: seq<IrqRef>, i: nat, byValue: Dict<int, string>, byName: Dict<string, int>)
    requires i < |refs| && AllResolve(refs[..i], byValue, byName) && Resolve(refs[i], byValue, byName).Ok?
    ensures AllResolve(refs[..i + 1], byValue, byName)
    ensures Resolved(refs[..i + 1], byValue, byName)
         == Resolved(refs[..i], byValue, byName) + [Resolve(refs[i], byValue, byName).value]
  {
    assert refs[..i + 1] == refs[..i] + [refs[i]];
  }

  /** The handlers dict the rest of the generator reads: a dict is taken as given; a list becomes
      the dict its entries fill in order, or KeyError as soon as one does not resolve. */
  function Normalise(used: Used, byValue: Dict<int, string>, byName: Dict<string, int>): Result<Dict<int, string>>
  {
    match used
    case UsedDict(d) => Ok(d)
    case UsedList(refs) =>
      if AllResolve(refs, byValue, byName) then Ok(FromEntries(Resolved(refs, byValue, byName)))
      else Raise(KeyError)
  }

  /** The `isinstance(interrupts_used, Sequence)` branch of the generator. */
  method NormaliseUsed(used: Used, byValue: Dict<int, string>, byName: Dict<string, int>) returns (r: Result<Dict<int, string>>)
    ensures r == Normalise(used, byValue, byName)
  {
    match used
    case UsedDict(d) =>
      return Ok(d);
    case UsedList(refs) =>
      var d: Dict<int, string> := [];
      assert refs[..0] == [];
      for i := 0 to |refs|
        invariant AllResolve(refs[..i], byValue, byName)
        invariant d == FromEntries(Resolved(refs[..i], byValue, byName))
      {
        var v: int;
        match refs[i] {
          case Number(n) =>
            v := n;
          case Named(s) =>
            var found := Get(byName, s);
            if found.None? {
              assert !Resolve(refs[i], byValue, byName).Ok?;
              return Raise(KeyError);
            }
            v := found.value;
        }
        var name := Get(byValue, v);
        if name.None? {
          assert !Resolve(refs[i], byValue, byName).Ok?;
          return Raise(KeyError);
        }
        assert Resolve(refs[i], byValue, byName) == Ok((v, name.value + "_Handler"));
        ResolvedStep(refs, i, byValue, byName);
        FromEntriesSnoc(Resolved(refs[..i], byValue, byName), (v, name.value + "_Handler"));
        d := Set(d, v, name.value + "_Handler");
      }
      assert refs[..|refs|] == refs;
      return Ok(d);
  }

  /** Every interrupt listed by number or by name gets the handler called after the interrupt's
      own name, `<name>_Handler`, however often and in whatever form it is listed. */
  lemma ListedInterruptsGetHandlers(refs: seq<IrqRef>, byValue: Dict<int, string>, byName: Dict<string, int>, i: nat)
    requires i < |refs|
    requires Normalise(UsedList(refs), byValue, byName).Ok?
    ensures var handler := Resolve(refs[i], byValue, byName).value;
              Get(Normalise(UsedList(refs), byValue, byName).value, handler.0) == Some(handler.1)
  {
    var entries := Resolved(refs, byValue, byName);
    var (v, h) := entries[i];
    FromEntriesGet(entries, v);
    LastValueNone(entries, v);
    LastValueSome(entries, v);
    var k :| 0 <= k < |entries| && entries[k] == (v, LastValue(entries, v).value)
             && forall j :: k < j < |entries| ==> entries[j].0 != v;
    assert entries[k] == Resolve(refs[k], byValue, byName).value;
    assert h == Get(byValue, v).value + "_Handler" == entries[k].1;
  }

  // ---------------------------------------------------------------- the header

  /** `void <handler>(void);`. */
  function Declaration(handler: string): string
  {
    "void " + handler + "(void);\n"
  }

  /** The linker symbols the reset handler reads, each with what it locates. */
  const SymbolDeclarations: seq<string> :=
    ["#pragma once\n\n",
     "#include <stdint.h>\n\n",
     "// Where data is loaded in volatile memory (aka RAM)\n",
     "extern uint32_t _ld_data_start;\n",
     "// Where initial data values are stored in nonvolatile memory (aka flash)\n",
     "extern uint32_t _ld_data_nvm_start;\n",
     "// How large the data section is in bytes\n",
     "extern uint32_t _ld_data_size;\n",
     "// Where the bss section starts in volatile memory (aka RAM)\n",
     "extern uint32_t _ld_bss_start;\n",
     "// How large the bss section is in bytes\n",
     "extern uint32_t _ld_bss_size;\n",
     "extern uint32_t _ld_ram_end;\n"]

  /** The fixed part of the header: the linker symbols and the two handlers the source always
      defines. */
  function HeaderPrelude(): (r: seq<string>)
    ensures |r| == 15 && r[13] == Declaration("Reset_Handler") && r[14] == Declaration("Default_Handler")
  {
    SymbolDeclarations + [Declaration("Reset_Handler"), Declaration("Default_Handler")]
  }

  /** One declaration per handler, in the dict's order. */
  function Declarations(handlers: Dict<int, string>): (r: seq<string>)
    ensures |r| == |handlers| && forall i :: 0 <= i < |handlers| ==> r[i] == Declaration(handlers[i].1)
  {
    seq(|handlers|, i requires 0 <= i < |handlers| => Declaration(handlers[i].1))
  }

  /** `int <first_function>(void);`. */
  function FirstDeclaration(firstFunction: string): string
  {
    "int " + firstFunction + "(void);\n"
  }

  function HeaderText(handlers: Dict<int, string>, firstFunction: string): (r: seq<string>)
    ensures |r| == 15 + |handlers| + 1
    ensures r[..15] == HeaderPrelude() && r[15..15 + |handlers|] == Declarations(handlers)
    ensures r[15 + |handlers|] == FirstDeclaration(firstFunction)
  {
    var p, d := HeaderPrelude(), Declarations(handlers);
    var r := p + d + [FirstDeclaration(firstFunction)];
    assert r[..15] == p && r[15..15 + |handlers|] == d;
    r
  }

  /** The header part of the generator. */
  method WriteHeader(header: TextSink, handlers: Dict<int, string>, firstFunction: string)
    modifies header
    ensures header.text == old(header.text) + HeaderText(handlers, firstFunction)
  {
    WriteEach(header, HeaderPrelude());
    ghost var start := header.text;
    assert handlers[..0] == [] && Declarations([]) == [];
    for i := 0 to |handlers|
      invariant header.text == start + Declarations(handlers[..i])
    {
      header.Write(Declaration(handlers[i].1));
      assert Declarations(handlers[..i + 1]) == Declarations(handlers[..i]) + [Declaration(handlers[i].1)];
      AppendAssoc(start, Declarations(handlers[..i]), [Declaration(handlers[i].1)]);
    }
    assert handlers[..|handlers|] == handlers;
    header.Write(FirstDeclaration(firstFunction));
    AppendAssoc4(old(header.text), HeaderPrelude(), Declarations(handlers), [FirstDeclaration(firstFunction)]);
  }

  // ---------------------------------------------------------------- the source

  /** One vector table entry: the handler, and a comment with the exception or interrupt number
      and its name. */
  function TableEntry(handler: string, number: int, name: string): string
  {
    Indent + handler + ", // " + IntToString(number) + " " + name + "\n"
  }

  const VectorTableOpen := "__attribute__((section(\".vector_table\"),used)) void (*const vector_table[])(void) = {\n"

  /** The include of the header, the opening of the table, and its first two entries: the initial
      stack pointer (the end of RAM) and the reset handler. */
  function VectorPrefix(header: Path): (r: seq<string>)
    ensures |r| == 4 && r[1] == VectorTableOpen
  {
    ["#include \"" + PathStr(header) + "\"\n\n",
     VectorTableOpen,
     Indent + "(void (*)(void)) &_ld_ram_end,\n",
     Indent + "Reset_Handler,\n"]
  }

  /** `cpu.interrupts.get(n, "Reserved")`. */
  function ExceptionName(exceptions: map<int, string>, n: int): string
  {
    if n in exceptions then exceptions[n] else "Reserved"
  }

  /** A system exception's slot: always the default handler. */
  function ExceptionEntry(number: int, name: string): string
  {
    Indent + "Default_Handler, // " + IntToString(number) + " " + name + "\n"
  }

  /** Table slots 2 to 15, the system exceptions -14 to -1: all go to the default handler. */
  function ExceptionEntries(exceptions: map<int, string>): (r: seq<string>)
    ensures |r| == 14
    ensures forall k :: 0 <= k < 14 ==> r[k] == ExceptionEntry(k - 14, ExceptionName(exceptions, k - 14))
  {
    seq(14, k requires 0 <= k < 14 => ExceptionEntry(k - 14, ExceptionName(exceptions, k - 14)))
  }

  /** `interrupts.get(i, f"IRQ{i}")`. */
  function IrqName(byValue: Dict<int, string>, i: nat): string
  {
    GetOr(byValue, i, "IRQ" + NatToString(i))
  }

  /** `interrupts_used.get(i, "Default_Handler")`. */
  function SlotHandler(handlers: Dict<int, string>, i: int): string
  {
    GetOr(handlers, i, "Default_Handler")
  }

  /** Table slots 16 onwards, one per external interrupt. */
  function IrqEntries(count: nat, byValue: Dict<int, string>, handlers: Dict<int, string>): (r: seq<string>)
    ensures |r| == count
    ensures forall i :: 0 <= i < count ==> r[i] == TableEntry(SlotHandler(handlers, i), i, IrqName(byValue, i))
  {
    seq(count, i requires 0 <= i < count => TableEntry(SlotHandler(handlers, i), i, IrqName(byValue, i)))
  }

  /** After the table: a default handler that spins, and the reset handler, which copies `.data`
      from nonvolatile memory, zeroes `.bss` a word at a time and then calls the first function. */
  function SourceTail(firstFunction: string): (r: seq<string>)
    ensures |r| == 18 && r[16] == Indent + firstFunction + "();\n" && r[17] == "}\n"
  {
    ["void Default_Handler(void) {\n",
     Indent + "while (1) {}\n",
     "}\n\n",
     "void Reset_Handler(void) {\n",
     Indent + "// Copy data from flash to RAM\n",
     Indent + "uint32_t* src = &_ld_data_nvm_start;\n",
     Indent + "uint32_t* dest = &_ld_data_start;\n",
     Indent + "for (uint32_t i = 0; i < _ld_data_size / 4; i++) {\n",
     Indent + Indent + "*dest++ = *src++;\n",
     Indent + "}\n",
     Indent + "// Zero out bss\n",
     Indent + "dest = &_ld_bss_start;\n",
     Indent + "for (uint32_t i = 0; i < _ld_bss_size / 4; i++) {\n",
     Indent + Indent + "*dest++ = 0;\n",
     Indent + "}\n",
     Indent + "// Call " + firstFunction + "\n",
     Indent + firstFunction + "();\n",
     "}\n"]
  }

  /** `cpu.interrupts`: only a Cortex-M0+ has it. */
  function ExceptionNames(cpu: Cpu.Cpu): Option<map<int, string>>
  {
    match cpu
    case ArmCore(a) => a.interrupts
    case RiscvCore(_) => None
  }

  /** `cpu.interrupt_count`: only a Cortex-M0+ has it. */
  function InterruptCount(cpu: Cpu.Cpu): Option<nat>
  {
    match cpu
    case ArmCore(a) => a.interruptCount
    case RiscvCore(_) => None
  }

  /** What the source file receives and how the generator ends: a core without `interrupts` stops
      with AttributeError after the table's first two entries, one without `interrupt_count` after
      the system exceptions. */
  function SourceWritten(cpu: Cpu.Cpu, header: Path, byValue: Dict<int, string>, handlers: Dict<int, string>,
                         firstFunction: string): (seq<string>, Outcome)
  {
    match ExceptionNames(cpu)
    case None => (VectorPrefix(header), Raised(AttributeError))
    case Some(exceptions) =>
      match InterruptCount(cpu)
      case None => (VectorPrefix(header) + ExceptionEntries(exceptions), Raised(AttributeError))
      case Some(count) =>
        (VectorPrefix(header) + ExceptionEntries(exceptions) + IrqEntries(count, byValue, handlers)
         + ["};\n"] + SourceTail(firstFunction), Completed)
  }

  /** The source part of the generator. */
  method WriteSource(output: TextSink, cpu: Cpu.Cpu, header: Path, byValue: Dict<int, string>,
                     handlers: Dict<int, string>, firstFunction: string) returns (outcome: Outcome)
    modifies output
    ensures output.text == old(output.text) + SourceWritten(cpu, header, byValue, handlers, firstFunction).0
    ensures outcome == SourceWritten(cpu, header, byValue, handlers, firstFunction).1
  {
    var prefix := VectorPrefix(header);
    WriteEach(output, prefix);
    var exceptions := ExceptionNames(cpu);
    if exceptions.None? {
      return Raised(AttributeError);
    }
    WriteExceptions(output, exceptions.value);
    var count := InterruptCount(cpu);
    if count.None? {
      AppendAssoc(old(output.text), prefix, ExceptionEntries(exceptions.value));
      return Raised(AttributeError);
    }
    WriteIrqs(output, count.value, byValue, handlers);
    output.Write("};\n");
    var tail := SourceTail(firstFunction);
    WriteEach(output, tail);
    ghost var e, q := ExceptionEntries(exceptions.value), IrqEntries(count.value, byValue, handlers);
    AppendAssoc(old(output.text), prefix, e);
    AppendAssoc(old(output.text), prefix + e, q);
    AppendAssoc(old(output.text), prefix + e + q, ["};\n"]);
    AppendAssoc(old(output.text), prefix + e + q + ["};\n"], tail);
    return Completed;
  }

  /** `for i in range(2, 16)`: the system exception slots. */
  method WriteExceptions(output: TextSink, exceptions: map<int, string>)
    modifies output
    ensures output.text == old(output.text) + ExceptionEntries(exceptions)
  {
    ghost var start := output.text;
    ghost var entries := ExceptionEntries(exceptions);
    assert entries[..0] == [];
    for i := 2 to 16
      invariant output.text == start + entries[..i - 2]
    {
      var name := if i - 16 in exceptions then exceptions[i - 16] else "Reserved";
      output.Write(ExceptionEntry(i - 16, name));
      TakeStep(entries, i - 2);
      AppendAssoc(start, entries[..i - 2], [entries[i - 2]]);
    }
    assert entries[..14] == entries;
  }

  /** `for i in range(cpu.interrupt_count)`: one slot per external interrupt. */
  method WriteIrqs(output: TextSink, count: nat, byValue: Dict<int, string>, handlers: Dict<int, string>)
    modifies output
    ensures output.text == old(output.text) + IrqEntries(count, byValue, handlers)
  {
    ghost var start := output.text;
    ghost var entries := IrqEntries(count, byValue, handlers);
    assert entries[..0] == [];
    for i := 0 to count
      invariant output.text == start + entries[..i]
    {
      var name := GetOr(byValue, i, "IRQ" + NatToString(i));
      var handler := GetOr(handlers, i, "Default_Handler");
      output.Write(TableEntry(handler, i, name));
      TakeStep(entries, i);
      AppendAssoc(start, entries[..i], [entries[i]]);
    }
    assert entries[..count] == entries;
  }

  // ---------------------------------------------------------------- the generator

  /** What the generator leaves behind: the header's lines, the source's lines, and how it ended. */
  datatype Written = Written(header: seq<string>, source: seq<string>, outcome: Outcome)

  /** The whole of `generate_startup_source`: nothing is written when `interrupts_used` does not
      resolve or the output has no file name to give a `.h` suffix. */
  function StartupWritten(output: Path, cpu: Cpu.Cpu, peripherals: seq<Peripheral>, firstFunction: string,
                          used: Used): Written
  {
    var byValue := NamesByValue(peripherals);
    match Normalise(used, byValue, ValuesByName(peripherals))
    case Raise(e) => Written([], [], Raised(e))
    case Ok(handlers) =>
      match WithSuffix(output, ".h")
      case None => Written([], [], Raised(ValueError))
      case Some(header) =>
        var (source, outcome) := SourceWritten(cpu, header, byValue, handlers, firstFunction);
        Written(HeaderText(handlers, firstFunction), source, outcome)
  }

  /** `generate_startup_source(output_file, flash_start_offset, first_function, interrupts_used)`
      with the two files as sinks. */
  method GenerateStartupSource(outputFile: TextSink, headerFile: TextSink, output: Path, cpu: Cpu.Cpu,
                               peripherals: seq<Peripheral>, firstFunction: string := "main",
                               used: Used := UsedDict([]))
    returns (outcome: Outcome)
    requires outputFile != headerFile
    modifies outputFile, headerFile
    ensures var w := StartupWritten(output, cpu, peripherals, firstFunction, used);
              && headerFile.text == old(headerFile.text) + w.header
              && outputFile.text == old(outputFile.text) + w.source
              && outcome == w.outcome
  {
    var byValue, byName := InterruptMaps(peripherals);
    var handlers := NormaliseUsed(used, byValue, byName);
    if handlers.Raise? {
      return Raised(handlers.exception);
    }
    var header := WithSuffix(output, ".h");
    if header.None? {
      return Raised(ValueError);
    }
    WriteHeader(headerFile, handlers.value, firstFunction);
    outcome := WriteSource(outputFile, cpu, header.value, byValue, handlers.value, firstFunction);
  }

  // ---------------------------------------------------------------- what the files promise

  /** Table slot `s` of a source line list: the table opens on line 1, so slot `s` is line `s + 2`. */
  function Slot(source: seq<string>, s: nat): string
    requires s + 2 < |source|
  {
    source[s + 2]
  }

  /** A completed source holds a table of 16 + `interrupt_count` slots, closed right after the
      last one, and slot 16 + i names the handler of interrupt i. */
  lemma TableLayout(cpu: Cpu.Cpu, header: Path, byValue: Dict<int, string>, handlers: Dict<int, string>,
                    firstFunction: string, i: nat)
    requires SourceWritten(cpu, header, byValue, handlers, firstFunction).1 == Completed
    requires InterruptCount(cpu).Some? && i < InterruptCount(cpu).value
    ensures var source := SourceWritten(cpu, header, byValue, handlers, firstFunction).0;
            var count := InterruptCount(cpu).value;
              && |source| == 2 + 16 + count + 1 + 18
              && source[2 + 16 + count] == "};\n"
              && Slot(source, 16 + i) == TableEntry(SlotHandler(handlers, i), i, IrqName(byValue, i))
  {
    var count := InterruptCount(cpu).value;
    var exceptions := ExceptionNames(cpu).value;
    var p, e, q := VectorPrefix(header), ExceptionEntries(exceptions), IrqEntries(count, byValue, handlers);
    var source := SourceWritten(cpu, header, byValue, handlers, firstFunction).0;
    assert source == p + e + q + ["};\n"] + SourceTail(firstFunction);
    assert source[18 + i] == q[i];
    assert source[18 + count] == "};\n";
  }

  /** Every handler the table names is declared in the header: a handler from `interrupts_used`
      by its own declaration, the default handler by the fixed one. */
  lemma TableHandlersDeclared(handlers: Dict<int, string>, firstFunction: string, i: int)
    ensures Declaration(SlotHandler(handlers, i)) in HeaderText(handlers, firstFunction)
  {
    var text := HeaderText(handlers, firstFunction);
    match Get(handlers, i)
    case None =>
      assert text[14] == text[..15][14] == Declaration("Default_Handler");
    case Some(h) =>
      var k :| 0 <= k < |handlers| && handlers[k] == (i, h);
      assert text[15 + k] == text[15..15 + |handlers|][k] == Declaration(h);
  }

  /** A RISC-V core has no `interrupts` attribute: the header is complete but the source stops
      after the table's first two entries, with AttributeError. */
  lemma RiscvStopsAfterResetHandler(output: Path, riscv: Cpu.Riscv.RiscvCpu, peripherals: seq<Peripheral>,
                                    firstFunction: string, used: Used)
    requires Normalise(used, NamesByValue(peripherals), ValuesByName(peripherals)).Ok?
    requires |output.parts| > 0
    ensures var w := StartupWritten(output, Cpu.RiscvCore(riscv), peripherals, firstFunction, used);
              && w.outcome == Raised(AttributeError) && |w.source| == 4
              && w.source[3] == Indent + "Reset_Handler,\n"
  {
  }

  /** On a Cortex-M0+ the generator completes, with a table of 48 slots: the 16 of the core and
      its 32 external interrupts. */
  lemma CortexM0PlusTableHas48Slots(output: Path, smallMultiply: bool, peripherals: seq<Peripheral>,
                                    firstFunction: string, used: Used)
    requires Normalise(used, NamesByValue(peripherals), ValuesByName(peripherals)).Ok?
    requires |output.parts| > 0
    ensures var w := StartupWritten(output, Cpu.ArmCore(Arm.CortexM0Plus(smallMultiply)), peripherals, firstFunction, used);
              && w.outcome == Completed && |w.source| == 2 + 48 + 1 + 18
  {
  }
}
