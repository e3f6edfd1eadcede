/** `generate_linker_script` (embedded/microcontroller/__init__.py): a GNU ld script with one
    MEMORY line per memory of the part, and sections placing code and constants in the memory the
    part starts from and data in the last writable one. */
module LinkerScript {
  import opened Wrappers
  import opened Text
  import opened Dicts
  import opened Device

  const KB := 1024
  const MB := 1024 * 1024

  /** A memory of the part, as the device index describes it. */
  datatype MemInfo = MemInfo(start: int, size: nat, read: bool, write: bool, execute: bool, startup: bool)

  // ---------------------------------------------------------------- lengths

  /** `LENGTH`: whole mebibytes as "<n>M", else whole kibibytes as "<n>K", else hexadecimal. */
  function SizeText(size: nat): (r: string)
    ensures |r| >= 2
    ensures r[|r| - 1] == 'M' <==> size % MB == 0
    ensures r[|r| - 1] == 'K' <==> size % MB != 0 && size % KB == 0
    ensures r[1] == 'x' <==> size % KB != 0
  {
    if size % MB == 0 then
      var d := NatToString(size / MB);
      assert |d| >= 2 ==> d[1] in d;
      d + "M"
    else if size % KB == 0 then
      var d := NatToString(size / KB);
      assert |d| >= 2 ==> d[1] in d;
      d + "K"
    else
      var h := HexDigits(size);
      assert h[|h| - 1] in h;
      "0x" + h
  }

  /** How ld reads a `LENGTH` written by `SizeText`: a decimal count of mebibytes or kibibytes, or
      a hexadecimal byte count; None for any other text. */
  function ParseSize(s: string): Option<nat>
  {
    if |s| >= 2 && s[|s| - 1] in "MK" && forall ch <- s[..|s| - 1] :: IsDigit(ch) then
      Some(ParseDecimal(s[..|s| - 1]) * (if s[|s| - 1] == 'M' then MB else KB))
    else if |s| >= 3 && s[..2] == "0x" && forall ch <- s[2..] :: IsHexDigit(ch) then
      Some(ParseHex(s[2..]))
    else None
  }

  /** A count of mebibytes or kibibytes reads back as that many units. */
  lemma ScaledRoundTrip(n: nat, unit: char)
    requires unit == 'M' || unit == 'K'
    ensures ParseSize(NatToString(n) + [unit]) == Some(n * if unit == 'M' then MB else KB)
  {
    var s := NatToString(n) + [unit];
    assert s[..|s| - 1] == NatToString(n);
    DecimalRoundTrip(n);
  }

  /** A hexadecimal byte count reads back as that many bytes. */
  lemma HexSizeRoundTrip(n: nat)
    ensures ParseSize("0x" + HexDigits(n)) == Some(n)
  {
    var h := HexDigits(n);
    var s := "0x" + h;
    assert s[2..] == h && s[..2] == "0x";
    assert s[|s| - 1] in h;
    HexDigitsRoundTrip(n);
  }

  lemma WholeUnits(size: nat, unit: nat)
    requires unit > 0 && size % unit == 0
    ensures size / unit * unit == size
  {
  }

  /** Every length reads back as the size it was written from. */
  lemma SizeRoundTrip(size: nat)
    ensures ParseSize(SizeText(size)) == Some(size)
  {
    if size % MB == 0 {
      assert SizeText(size) == NatToString(size / MB) + ['M'];
      ScaledRoundTrip(size / MB, 'M');
      WholeUnits(size, MB);
    } else if size % KB == 0 {
      assert SizeText(size) == NatToString(size / KB) + ['K'];
      ScaledRoundTrip(size / KB, 'K');
      WholeUnits(size, KB);
    } else {
      assert SizeText(size) == "0x" + HexDigits(size);
      HexSizeRoundTrip(size);
    }
  }

  // ---------------------------------------------------------------- attributes and origin

  /** The access attributes: "r", "w" and "x" for read, write and execute, in that order. */
  function Attrs(read: bool, write: bool, execute: bool): (r: string)
    ensures 'r' in r <==> read
    ensures 'w' in r <==> write
    ensures 'x' in r <==> execute
    ensures forall i, j :: 0 <= i < j < |r| ==> r[i] < r[j]
  {
    (if read then "r" else "") + (if write then "w" else "") + (if execute then "x" else "")
  }

  /** `f"{start:08x}"`: at least eight hexadecimal digits, zero-padded; a negative origin keeps its
      minus sign inside the eight characters. */
  function OriginText(start: int): (r: string)
    ensures |r| >= 8
    ensures start >= 0 ==> forall ch <- r :: IsHexDigit(ch)
    ensures start < 0 ==> r[0] == '-' && forall ch <- r[1..] :: IsHexDigit(ch)
  {
    if start >= 0 then Hex(start, 8)
    else
      var h := Hex(-start, 7);
      assert ("-" + h)[1..] == h;
      "-" + h
  }

  /** How ld reads an origin written by `OriginText`. */
  function ParseOrigin(s: string): int
    requires |s| >= 1
    requires s[0] == '-' ==> forall ch <- s[1..] :: IsHexDigit(ch)
    requires s[0] != '-' ==> forall ch <- s :: IsHexDigit(ch)
  {
    if s[0] == '-' then 0 - ParseHex(s[1..]) else ParseHex(s)
  }

  /** Every origin, negative ones included, reads back as the address it was written from. */
  lemma OriginRoundTrip(start: int)
    ensures var s := OriginText(start);
              && (s[0] == '-' ==> forall ch <- s[1..] :: IsHexDigit(ch))
              && (s[0] != '-' ==> forall ch <- s :: IsHexDigit(ch))
              && ParseOrigin(s) == start
  {
    var s := OriginText(start);
    if start >= 0 {
      assert s[0] in s;
      assert s[0] != '-';
      HexRoundTrip(start, 8);
    } else {
      assert s[1..] == Hex(-start, 7);
      HexRoundTrip(-start, 7);
    }
  }

  /** The MEMORY line of one memory, its origin moved by the flash offset. */
  function MemoryLine(name: string, m: MemInfo, flashStartOffset: int): string
  {
    Indent + name + " (" + Attrs(m.read, m.write, m.execute) + ") : ORIGIN = 0x"
    + OriginText(m.start + flashStartOffset) + ", LENGTH = " + SizeText(m.size) + "\n"
  }

  function MemoryLines(memories: Dict<string, MemInfo>, flashStartOffset: int): (r: seq<string>)
    ensures |r| == |memories|
  {
    if memories == [] then []
    else
      var n := |memories| - 1;
      MemoryLines(memories[..n], flashStartOffset) + [MemoryLine(memories[n].0, memories[n].1, flashStartOffset)]
  }

  // ---------------------------------------------------------------- where sections go

  /** The two regions the sections are placed in. */
  datatype Role = Nvm | Ram

  /** Nonvolatile memory (`nvm`) is executable and the one the part starts from; volatile memory
      (`ram`) is writable. */
  predicate Fits(m: MemInfo, role: Role)
  {
    match role
    case Nvm => m.execute && m.startup
    case Ram => m.write
  }

  /** The name the loop leaves in `nvm` or `ram`: it overwrites the variable at every memory that
      fits, so the last one wins; None when no memory fits. */
  function LastOf(memories: Dict<string, MemInfo>, role: Role): Option<string>
  {
    if memories == [] then None
    else
      var n := |memories| - 1;
      if Fits(memories[n].1, role) then Some(memories[n].0) else LastOf(memories[..n], role)
  }

  /** The region is left unnamed exactly when no memory fits. */
  lemma {:induction false} LastOfNone(memories: Dict<string, MemInfo>, role: Role)
    ensures LastOf(memories, role).None? <==> forall i :: 0 <= i < |memories| ==> !Fits(memories[i].1, role)
  {
    if memories != [] {
      var n := |memories| - 1;
      var front := memories[..n];
      LastOfNone(front, role);
      assert forall i :: 0 <= i < n ==> front[i] == memories[i];
    }
  }

  /** A named region is named after a memory that fits, and no memory after it fits. */
  lemma {:induction false} LastOfSome(memories: Dict<string, MemInfo>, role: Role)
    requires LastOf(memories, role).Some?
    ensures exists i :: 0 <= i < |memories| && memories[i].0 == LastOf(memories, role).value
                        && Fits(memories[i].1, role)
                        && forall j :: i < j < |memories| ==> !Fits(memories[j].1, role)
  {
    var n := |memories| - 1;
    if !Fits(memories[n].1, role) {
      var front := memories[..n];
      LastOfSome(front, role);
      var i :| 0 <= i < |front| && front[i].0 == LastOf(front, role).value && Fits(front[i].1, role)
               && forall j :: i < j < |front| ==> !Fits(front[j].1, role);
      assert memories[i] == front[i];
      forall j | i < j < |memories|
        ensures !Fits(memories[j].1, role)
      {
        if j < n {
          assert memories[j] == front[j];
        }
      }
    }
  }

  /** `f"{name}"` for a name that may still be None. */
  function NameText(name: Option<string>): string
  {
    match name
    case Some(n) => n
    case None => "None"
  }

  /** `.text`: the vector table first, kept even though nothing refers to it, then the code. */
  function TextSection(nvm: string): (r: seq<string>)
    ensures |r| == 6 && r[5] == "} > " + nvm + "\n"
  {
    [Indent + ".text : {\n",
     Indent + Indent + "KEEP(*(.vector_table))\n",
     Indent + Indent + "*(.vector_table)\n",
     Indent + Indent + "*(.text)\n",
     Indent + Indent + "*(.text*)\n",
     "} > " + nvm + "\n"]
  }

  /** `.rodata`: the constants. */
  function RodataSection(nvm: string): (r: seq<string>)
    ensures |r| == 4 && r[3] == "} > " + nvm + "\n"
  {
    [Indent + ".rodata : {\n",
     Indent + Indent + "*(.rodata)\n",
     Indent + Indent + "*(.rodata*)\n",
     "} > " + nvm + "\n"]
  }

  /** `.data`, placed with `> nvm AT> ram`, and the three symbols the reset handler copies it
      with. GNU ld reads the first region as the one the section runs from and the second as the
      one its contents are stored in, so as written `.data` runs from nvm and is stored in ram
      (`DataRunsFromNvm`). */
  function DataSection(nvm: string, ram: string): (r: seq<string>)
    ensures |r| == 7 && r[3] == "} > " + nvm + " AT> " + ram + " \n"
  {
    [Indent + ".data : {\n",
     Indent + Indent + "*(.data)\n",
     Indent + Indent + "*(.data*)\n",
     "} > " + nvm + " AT> " + ram + " \n",
     "_ld_data_start = ADDR(.data);\n",
     "_ld_data_nvm_start = LOADADDR(.data);\n",
     "_ld_data_size = SIZEOF(.data);\n"]
  }

  /** `.bss` in RAM, the two symbols the reset handler zeroes it with, and the end of RAM that the
      vector table starts the stack at. */
  function BssSection(ram: string): (r: seq<string>)
    ensures |r| == 7 && r[3] == "} > " + ram + " \n"
    ensures r[6] == "_ld_ram_end = ORIGIN(" + ram + ") + LENGTH(" + ram + ");\n"
  {
    [Indent + ".bss : {\n",
     Indent + Indent + "*(.bss);\n",
     Indent + Indent + "*(.bss*);\n",
     "} > " + ram + " \n",
     "_ld_bss_start = ADDR(.bss);\n",
     "_ld_bss_size = SIZEOF(.bss);\n",
     "_ld_ram_end = ORIGIN(" + ram + ") + LENGTH(" + ram + ");\n"]
  }

  /** Everything after the memory lines: the end of the MEMORY block, the entry point, and the
      four sections. */
  function SectionLines(nvm: string, ram: string): (r: seq<string>)
    ensures |r| == 28 && r[0] == "}\n" && r[1] == "ENTRY(Reset_Handler);\n\n" && r[27] == "}\n"
    ensures r[3..9] == TextSection(nvm) && r[9..13] == RodataSection(nvm)
    ensures r[13..20] == DataSection(nvm, ram) && r[20..27] == BssSection(ram)
  {
    var t, o, d, b := TextSection(nvm), RodataSection(nvm), DataSection(nvm, ram), BssSection(ram);
    var r := ["}\n", "ENTRY(Reset_Handler);\n\n", "SECTIONS {\n"] + t + o + d + b + ["}\n"];
    assert r[3..9] == t && r[9..13] == o && r[13..20] == d && r[20..27] == b;
    r
  }

  /** The whole script. */
  function ScriptText(memories: Dict<string, MemInfo>, flashStartOffset: int): (r: seq<string>)
    ensures |r| == 1 + |memories| + 28 && r[0] == "MEMORY {\n"
    ensures r[1..1 + |memories|] == MemoryLines(memories, flashStartOffset)
    ensures r[1 + |memories|..] == SectionLines(NameText(LastOf(memories, Nvm)), NameText(LastOf(memories, Ram)))
  {
    ["MEMORY {\n"] + MemoryLines(memories, flashStartOffset)
    + SectionLines(NameText(LastOf(memories, Nvm)), NameText(LastOf(memories, Ram)))
  }

  // ---------------------------------------------------------------- the generator

  /** One pass of the memory loop: the line gets appended and the last nonvolatile and writable
      names move to this memory when it qualifies. */
  lemma ScanStep(memories: Dict<string, MemInfo>, i: nat, flashStartOffset: int)
    requires i < |memories|
    ensures LastOf(memories[..i + 1], Nvm) == if Fits(memories[i].1, Nvm) then Some(memories[i].0) else LastOf(memories[..i], Nvm)
    ensures LastOf(memories[..i + 1], Ram) == if Fits(memories[i].1, Ram) then Some(memories[i].0) else LastOf(memories[..i], Ram)
    ensures MemoryLines(memories[..i + 1], flashStartOffset)
         == MemoryLines(memories[..i], flashStartOffset) + [MemoryLine(memories[i].0, memories[i].1, flashStartOffset)]
  {
    assert memories[..i + 1][..i] == memories[..i];
    assert memories[..i + 1][i] == memories[i];
  }

  /** The body of the memory loop for one memory: its MEMORY line. */
  method WriteMemory(output: TextSink, name: string, m: MemInfo, flashStartOffset: int)
    modifies output
    ensures output.text == old(output.text) + [MemoryLine(name, m, flashStartOffset)]
  {
    var start := m.start + flashStartOffset;
    var size := SizeText(m.size);
    var attrs := Attrs(m.read, m.write, m.execute);
    output.Write(Indent + name + " (" + attrs + ") : ORIGIN = 0x" + OriginText(start) + ", LENGTH = " + size + "\n");
  }

  /** The memory loop: one MEMORY line per memory, in the index's order, remembering the last
      nonvolatile and the last writable memory. */
  method WriteMemories(output: TextSink, memories: Dict<string, MemInfo>, flashStartOffset: int)
    returns (nvm: Option<string>, ram: Option<string>)
    modifies output
    ensures nvm == LastOf(memories, Nvm) && ram == LastOf(memories, Ram)
    ensures output.text == old(output.text) + MemoryLines(memories, flashStartOffset)
  {
    ghost var head := output.text;
    nvm, ram := None, None;
    assert memories[..0] == [];
    for i := 0 to |memories|
      invariant nvm == LastOf(memories[..i], Nvm) && ram == LastOf(memories[..i], Ram)
      invariant output.text == head + MemoryLines(memories[..i], flashStartOffset)
    {
      var name, m := memories[i].0, memories[i].1;
      ScanStep(memories, i, flashStartOffset);
      if m.execute && m.startup {
        nvm := Some(name);
      }
      if m.write {
        ram := Some(name);
      }
      WriteMemory(output, name, m, flashStartOffset);
      AppendAssoc(head, MemoryLines(memories[..i], flashStartOffset), [MemoryLine(name, m, flashStartOffset)]);
    }
    assert memories[..|memories|] == memories;
  }

  /** `generate_linker_script(output_file, flash_start_offset)` for the memories the device index
      lists for the part, on a fresh file. */
  method GenerateLinkerScript(output: TextSink, memories: Dict<string, MemInfo>, flashStartOffset: int := 0)
    modifies output
    ensures output.text == old(output.text) + ScriptText(memories, flashStartOffset)
  {
    output.Write("MEMORY {\n");
    var nvm, ram := WriteMemories(output, memories, flashStartOffset);
    var tail := SectionLines(NameText(nvm), NameText(ram));
    WriteEach(output, tail);
    AppendAssoc4(old(output.text), ["MEMORY {\n"], MemoryLines(memories, flashStartOffset), tail);
  }

  // ---------------------------------------------------------------- what the script promises

  /** Where each region goes, read off the section lines. */
  lemma Placements(nvm: string, ram: string)
    ensures var t := SectionLines(nvm, ram);
              && t[8] == "} > " + nvm + "\n" && t[12] == "} > " + nvm + "\n"
              && t[16] == "} > " + nvm + " AT> " + ram + " \n"
              && t[23] == "} > " + ram + " \n"
              && t[26] == "_ld_ram_end = ORIGIN(" + ram + ") + LENGTH(" + ram + ");\n"
  {
    var t := SectionLines(nvm, ram);
    assert t[8] == t[3..9][5] && t[12] == t[9..13][3] && t[16] == t[13..20][3];
    assert t[23] == t[20..27][3] && t[26] == t[20..27][6];
  }

  /** Code and constants go to the memory the part starts from, and `.data` names it as the region
      it runs from: the three nonvolatile placements name the last executable start-up memory. */
  lemma CodeLivesInStartupMemory(memories: Dict<string, MemInfo>, flashStartOffset: int, nvm: string)
    requires LastOf(memories, Nvm) == Some(nvm)
    ensures var s := ScriptText(memories, flashStartOffset); var k := 1 + |memories|;
              && s[k + 8] == "} > " + nvm + "\n" && s[k + 12] == "} > " + nvm + "\n"
              && s[k + 16] == "} > " + nvm + " AT> " + NameText(LastOf(memories, Ram)) + " \n"
  {
    var s := ScriptText(memories, flashStartOffset);
    var k := 1 + |memories|;
    Placements(nvm, NameText(LastOf(memories, Ram)));
    assert s[k + 8] == s[k..][8] && s[k + 12] == s[k..][12] && s[k + 16] == s[k..][16];
  }

  /** A part with no writable memory still gets a script, but its bss region and the end of RAM
      name `None`, which ld rejects. */
  lemma NoRamNamesNone(memories: Dict<string, MemInfo>, flashStartOffset: int)
    requires forall i :: 0 <= i < |memories| ==> !memories[i].1.write
    ensures var s := ScriptText(memories, flashStartOffset); var k := 1 + |memories|;
              && s[k + 23] == "} > " + "None" + " \n"
              && s[k + 26] == "_ld_ram_end = ORIGIN(" + "None" + ") + LENGTH(" + "None" + ");\n"
  {
    var s := ScriptText(memories, flashStartOffset);
    var k := 1 + |memories|;
    assert forall i :: 0 <= i < |memories| ==> !Fits(memories[i].1, Ram);
    LastOfNone(memories, Ram);
    Placements(NameText(LastOf(memories, Nvm)), "None");
    assert s[k + 23] == s[k..][23] && s[k + 26] == s[k..][26];
  }

  // ---------------------------------------------------------------- where `.data` lives

  /** How GNU ld reads `} > <run> AT> <load>`: the region a section runs from (its VMA) and the
      region its contents are stored in (its LMA). */
  datatype Placement = Placement(runIn: string, loadIn: string)

  /** The placement a section's closing line names, read word by word. */
  function ParsePlacement(line: string): Option<Placement>
  {
    var w := Split(line, ' ');
    if |w| == 6 && w[0] == "}" && w[1] == ">" && w[3] == "AT>" && w[5] == "\n" then Some(Placement(w[2], w[4]))
    else None
  }

  /** A closing line reads back as the two regions it was written with, when neither name holds a
      space. */
  lemma PlacementReadsBack(runIn: string, loadIn: string)
    requires ' ' !in runIn && ' ' !in loadIn
    ensures ParsePlacement("} > " + runIn + " AT> " + loadIn + " \n") == Some(Placement(runIn, loadIn))
  {
    var parts := ["}", ">", runIn, "AT>", loadIn, "\n"];
    assert Join(parts[4..], " ") == loadIn + " " + "\n";
    assert Join(parts[3..], " ") == "AT>" + " " + (loadIn + " " + "\n");
    assert Join(parts[2..], " ") == runIn + " " + ("AT>" + " " + (loadIn + " " + "\n"));
    assert Join(parts, " ") == "} > " + runIn + " AT> " + loadIn + " \n";
    SplitJoin(parts, ' ');
  }

  /** As written, `.data` runs from nvm and is stored in ram: the reverse of what the reset handler
      expects when it copies from `_ld_data_nvm_start = LOADADDR(.data)` into
      `_ld_data_start = ADDR(.data)`. With two distinct regions, `.data` never runs from RAM. */
  lemma DataRunsFromNvm(nvm: string, ram: string)
    requires ' ' !in nvm && ' ' !in ram
    ensures ParsePlacement(DataSection(nvm, ram)[3]) == Some(Placement(nvm, ram))
    ensures nvm != ram ==> ParsePlacement(DataSection(nvm, ram)[3]).value.runIn != ram
  {
    PlacementReadsBack(nvm, ram);
  }

  /** `.data` as evidently intended: `> ram AT> nvm`, everything else as written. */
  function IntendedDataSection(nvm: string, ram: string): (r: seq<string>)
    ensures |r| == 7 && r[3] == "} > " + ram + " AT> " + nvm + " \n"
    ensures r[..3] == DataSection(nvm, ram)[..3] && r[4..] == DataSection(nvm, ram)[4..]
  {
    DataSection(nvm, ram)[3 := "} > " + ram + " AT> " + nvm + " \n"]
  }

  /** The intended section runs from RAM and is stored in the start-up memory, the region
      `LOADADDR(.data)` then lies in. */
  lemma IntendedDataRunsFromRam(nvm: string, ram: string)
    requires ' ' !in nvm && ' ' !in ram
    ensures ParsePlacement(IntendedDataSection(nvm, ram)[3]) == Some(Placement(ram, nvm))
    ensures IntendedDataSection(nvm, ram)[5] == "_ld_data_nvm_start = LOADADDR(.data);\n"
  {
    PlacementReadsBack(ram, nvm);
  }
}
