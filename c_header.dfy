/** `generate_c_header` (embedded/microcontroller/__init__.py): a C header with, for each selected
    peripheral, a bit-field struct per register, a struct of registers, a struct of raw 32-bit
    registers, and two pointers to its instance. */
module CHeader {
  import opened Wrappers
  import opened Text
  import opened Device

  // ---------------------------------------------------------------- field order

  predicate SortedByOffset(fs: seq<Field>)
  {
    forall i, j :: 0 <= i < j < |fs| ==> fs[i].bitOffset <= fs[j].bitOffset
  }

  /** The fields at bit offset `o`, in the order they come. */
  function AtOffset(fs: seq<Field>, o: int): seq<Field>
  {
    if fs == [] then []
    else AtOffset(fs[..|fs| - 1], o) + (if fs[|fs| - 1].bitOffset == o then [fs[|fs| - 1]] else [])
  }

  /** `f` placed into a sorted list after every field whose offset is not larger. */
  function InsertByOffset(sorted: seq<Field>, f: Field): (r: seq<Field>)
    requires SortedByOffset(sorted)
    ensures SortedByOffset(r)
    ensures multiset(r) == multiset(sorted) + multiset{f}
    ensures |r| == |sorted| + 1 && (r[|r| - 1] == f || (sorted != [] && r[|r| - 1] == sorted[|sorted| - 1]))
    decreases |sorted|
  {
    if sorted == [] || sorted[|sorted| - 1].bitOffset <= f.bitOffset then sorted + [f]
    else
      var init := sorted[..|sorted| - 1];
      var last := sorted[|sorted| - 1];
      assert sorted == init + [last];
      InsertByOffset(init, f) + [last]
  }

  /** What one more field adds to the fields at an offset. */
  lemma AtOffsetSnoc(fs: seq<Field>, f: Field, o: int)
    ensures AtOffset(fs + [f], o) == AtOffset(fs, o) + (if f.bitOffset == o then [f] else [])
  {
    assert (fs + [f])[..|fs|] == fs;
  }

  /** Inserting `f` puts it after every field of the same offset and moves none of them. */
  lemma {:induction false} InsertKeepsOrder(sorted: seq<Field>, f: Field, o: int)
    requires SortedByOffset(sorted)
    ensures AtOffset(InsertByOffset(sorted, f), o) == AtOffset(sorted, o) + (if f.bitOffset == o then [f] else [])
    decreases |sorted|
  {
    if sorted == [] || sorted[|sorted| - 1].bitOffset <= f.bitOffset {
      assert InsertByOffset(sorted, f) == sorted + [f];
      AtOffsetSnoc(sorted, f, o);
    } else {
      var init, last := sorted[..|sorted| - 1], sorted[|sorted| - 1];
      assert sorted == init + [last];
      assert InsertByOffset(sorted, f) == InsertByOffset(init, f) + [last];
      InsertKeepsOrder(init, f, o);
      AtOffsetSnoc(InsertByOffset(init, f), last, o);
      AtOffsetSnoc(init, last, o);
      // `f` and `last` have different offsets, so at most one of them is at `o`
      assert last.bitOffset != f.bitOffset;
    }
  }

  lemma InsertKeepsEveryOrder(sorted: seq<Field>, f: Field)
    requires SortedByOffset(sorted)
    ensures forall o :: AtOffset(InsertByOffset(sorted, f), o) == AtOffset(sorted, o) + (if f.bitOffset == o then [f] else [])
  {
    forall o
      ensures AtOffset(InsertByOffset(sorted, f), o) == AtOffset(sorted, o) + (if f.bitOffset == o then [f] else [])
    {
      InsertKeepsOrder(sorted, f, o);
    }
  }

  /** `fields.sort(key=lambda x: x.bit_offset)`: the same fields, ordered by offset, and, as
      Python's sort is stable, fields that share an offset keep their order. */
  function SortByOffset(fs: seq<Field>): (r: seq<Field>)
    ensures SortedByOffset(r)
    ensures multiset(r) == multiset(fs)
    ensures forall o :: AtOffset(r, o) == AtOffset(fs, o)
  {
    if fs == [] then []
    else
      assert fs == fs[..|fs| - 1] + [fs[|fs| - 1]];
      InsertKeepsEveryOrder(SortByOffset(fs[..|fs| - 1]), fs[|fs| - 1]);
      InsertByOffset(SortByOffset(fs[..|fs| - 1]), fs[|fs| - 1])
  }

  // ---------------------------------------------------------------- bit-field layout

  /** A member of a register's bit-field struct: padding starting at a bit, or a field. */
  datatype Member = Reserved(from: int, width: int) | Bits(field: Field)

  /** Where the next field would start: just past the last one placed, or `start` before any. */
  function Cursor(fs: seq<Field>, start: int): int
  {
    if fs == [] then start else fs[|fs| - 1].bitOffset + fs[|fs| - 1].bitWidth
  }

  /** One step of the field loop: padding when the cursor is short of the field, then the field. */
  function Step(f: Field, cursor: int): (ms: seq<Member>)
    ensures 1 <= |ms| <= 2 && ((cursor < f.bitOffset) <==> |ms| == 2)
    ensures ms[|ms| - 1] == Bits(f)
    ensures |ms| == 2 ==> ms[0] == Reserved(cursor, f.bitOffset - cursor)
  {
    (if cursor < f.bitOffset then [Reserved(cursor, f.bitOffset - cursor)] else []) + [Bits(f)]
  }

  /** The members the field loop emits when the cursor starts at `start`. */
  function Layout(fs: seq<Field>, start: int): seq<Member>
  {
    if fs == [] then []
    else Layout(fs[..|fs| - 1], start) + Step(fs[|fs| - 1], Cursor(fs[..|fs| - 1], start))
  }

  function MemberWidth(m: Member): int
  {
    match m
    case Reserved(_, w) => w
    case Bits(f) => f.bitWidth
  }

  /** The number of bits a run of members takes: where the next member starts in the struct. */
  function Width(ms: seq<Member>): int
  {
    if ms == [] then 0 else Width(ms[..|ms| - 1]) + MemberWidth(ms[|ms| - 1])
  }

  lemma {:induction false} WidthAppend(a: seq<Member>, b: seq<Member>)
    ensures Width(a + b) == Width(a) + Width(b)
    decreases |b|
  {
    if b == [] {
      assert a + b == a;
    } else {
      assert (a + b)[..|a + b| - 1] == a + b[..|b| - 1];
      WidthAppend(a, b[..|b| - 1]);
    }
  }

  /** Sorted fields that do not overlap: each ends at or before any later one begins. */
  predicate Disjoint(fs: seq<Field>)
  {
    forall i, j :: 0 <= i < j < |fs| ==> fs[i].bitOffset + fs[i].bitWidth <= fs[j].bitOffset
  }

  /** Appending one step after members `prev`: the field comes last, and the members before it
      take the bits of `prev` plus the padding, if any. */
  lemma StepWidth(prev: seq<Member>, f: Field, cursor: int)
    ensures var ms := prev + Step(f, cursor);
              ms[|ms| - 1] == Bits(f)
              && Width(ms[..|ms| - 1]) == Width(prev) + (if cursor < f.bitOffset then f.bitOffset - cursor else 0)
              && Width(ms) == Width(ms[..|ms| - 1]) + f.bitWidth
  {
    var s := Step(f, cursor);
    var ms := prev + s;
    if |s| == 2 {
      assert ms[..|ms| - 1] == prev + [s[0]];
      WidthAppend(prev, [s[0]]);
    } else {
      assert ms[..|ms| - 1] == prev;
    }
  }

  /** The members emitted for the first `i` fields, then those for field `i`. */
  lemma LayoutSplit(fs: seq<Field>, start: int, i: nat)
    requires i < |fs|
    ensures Layout(fs[..i + 1], start) == Layout(fs[..i], start) + Step(fs[i], Cursor(fs[..i], start))
    ensures i > 0 ==> Cursor(fs[..i], start) == fs[i - 1].bitOffset + fs[i - 1].bitWidth
  {
    assert fs[..i + 1][..i] == fs[..i];
  }

  /** Where the struct ends after the loop has placed the first `k` fields: just past the last
      of them when the cursor starts at 0, one bit short of it when the cursor starts at 1 and no
      field starts at bit 0. */
  lemma {:induction false} LayoutEndsAtCursor(fs: seq<Field>, start: int, k: nat)
    requires Disjoint(fs) && k <= |fs|
    requires start == 0 || (start == 1 && (fs != [] ==> fs[0].bitOffset >= 1))
    ensures Width(Layout(fs[..k], start)) == Cursor(fs[..k], start) - start
    decreases k
  {
    if k == 0 {
      assert fs[..0] == [];
    } else {
      var prev, f := fs[..k - 1], fs[k - 1];
      var c := Cursor(prev, start);
      var before := Layout(prev, start);
      LayoutEndsAtCursor(fs, start, k - 1);
      assert Width(before) == c - start;
      LayoutSplit(fs, start, k - 1);
      assert Layout(fs[..k], start) == before + Step(f, c);
      if k == 1 {
        assert prev == [];
        assert c == start;
      } else {
        assert c == fs[k - 2].bitOffset + fs[k - 2].bitWidth;
        assert c <= f.bitOffset;
      }
      StepWidth(before, f, c);
      assert Width(Layout(fs[..k], start)) == Width(before) + (f.bitOffset - c) + f.bitWidth;
      assert Cursor(fs[..k], start) == f.bitOffset + f.bitWidth by {
        assert fs[..k][k - 1] == f;
      }
    }
  }

  /** With the cursor starting at bit 0, the members declared before each field of a register are
      exactly `bit_offset` bits wide. */
  lemma FieldsLandAtTheirOffsets(fs: seq<Field>, i: nat)
    requires Disjoint(fs) && i < |fs|
    ensures var ms := Layout(fs[..i + 1], 0);
              |ms| >= 1 && ms[|ms| - 1] == Bits(fs[i]) && Width(ms[..|ms| - 1]) == fs[i].bitOffset
  {
    var prev := Layout(fs[..i], 0);
    var c := Cursor(fs[..i], 0);
    LayoutSplit(fs, 0, i);
    LayoutEndsAtCursor(fs, 0, i);
    assert Width(prev) == c;
    if i == 0 {
      assert fs[..i] == [];
    } else {
      assert fs[i - 1].bitOffset + fs[i - 1].bitWidth <= fs[i].bitOffset;
    }
    assert c <= fs[i].bitOffset;
    StepWidth(prev, fs[i], c);
  }

  /** With the cursor starting at 1, as written, the members declared before each field of a
      register whose lowest field is not at bit 0 are one bit narrower than its offset. The
      smallest case is a register with one one-bit field at bit 1: no padding is emitted and the
      field is the first member. */
  lemma StartAtOneShiftsFields(fs: seq<Field>, i: nat)
    requires Disjoint(fs) && i < |fs| && fs[0].bitOffset >= 1
    ensures var ms := Layout(fs[..i + 1], 1);
              |ms| >= 1 && ms[|ms| - 1] == Bits(fs[i]) && Width(ms[..|ms| - 1]) == fs[i].bitOffset - 1
  {
    LayoutSplit(fs, 1, i);
    LayoutEndsAtCursor(fs, 1, i);
    assert i == 0 ==> fs[..i] == [];
    StepWidth(Layout(fs[..i], 1), fs[i], Cursor(fs[..i], 1));
  }

  /** The cursor start the header generator uses: bit 1, as written. `StartAtOneShiftsFields` shows
      what that does to a register whose lowest field is above bit 0. */
  const LayoutStart := 1

  // ---------------------------------------------------------------- text

  /** The C type of a field: `bool` for one bit, `uint8_t` up to eight bits, `int` beyond. */
  function FieldType(bitWidth: nat): (t: string)
    ensures t == "bool" <==> bitWidth == 1
    ensures t == "uint8_t" <==> bitWidth != 1 && bitWidth <= 8
    ensures t == "int" <==> bitWidth > 8
  {
    if bitWidth == 1 then "bool" else if bitWidth <= 8 then "uint8_t" else "int"
  }

  function MemberLine(m: Member): string
  {
    match m
    case Reserved(from, width) =>
      Indent + "int reserved_" + IntToString(from) + ": " + IntToString(width) + ";\n"
    case Bits(f) =>
      Indent + FieldType(f.bitWidth) + " " + f.name + ": " + IntToString(f.bitWidth) + "; // "
      + IntToString(f.bitOffset) + " " + OneLine(f.description) + "\n"
  }

  /** One line per member, in order. */
  function MemberLines(ms: seq<Member>): (r: seq<string>)
    ensures |r| == |ms|
  {
    if ms == [] then [] else MemberLines(ms[..|ms| - 1]) + [MemberLine(ms[|ms| - 1])]
  }

  lemma {:induction false} MemberLinesAppend(a: seq<Member>, b: seq<Member>)
    ensures MemberLines(a + b) == MemberLines(a) + MemberLines(b)
    decreases |b|
  {
    if b == [] {
      assert a + b == a;
    } else {
      assert (a + b)[..|a + b| - 1] == a + b[..|b| - 1];
      MemberLinesAppend(a, b[..|b| - 1]);
    }
  }

  /** A register whose only field covers all of it at bit 0 is a plain `uint32_t`. */
  predicate PlainRegister(r: Register)
  {
    |r.fields| == 1 && r.fields[0].bitOffset == 0 && r.fields[0].bitWidth == r.size
  }

  /** The two comment lines that head a register in both structs. */
  function RegisterComment(r: Register): seq<string>
  {
    [Indent + "// " + OneLine(r.description) + "\n" + Indent + "//\n",
     Indent + "// Address offset: " + IntToString(r.addressOffset) + "\n"]
  }

  function TypeName(group: string, r: Register): string
  {
    group + "_" + r.name + "_Type"
  }

  /** A register's member in the peripheral struct: its bit-field struct, or `uint32_t`. */
  function RegisterEntry(group: string, r: Register): seq<string>
  {
    RegisterComment(r)
    + [if PlainRegister(r) then Indent + "uint32_t " + r.name + ";\n\n"
       else Indent + TypeName(group, r) + " " + r.name + ";\n\n"]
  }

  /** What one more register adds to each of the three register lists. */
  lemma RegisterLoopStep(group: string, rs: seq<Register>, j: nat)
    requires j < |rs|
    ensures RegisterTypedefs(group, rs[..j + 1]) == RegisterTypedefs(group, rs[..j]) + RegisterTypedef(group, rs[j])
    ensures RegisterEntries(group, rs[..j + 1]) == RegisterEntries(group, rs[..j]) + RegisterEntry(group, rs[j])
    ensures RawEntries(rs[..j + 1]) == RawEntries(rs[..j]) + RawEntry(rs[j])
  {
    assert rs[..j + 1][..j] == rs[..j];
  }

  /** A register's member in the raw struct: always `uint32_t`. */
  function RawEntry(r: Register): seq<string>
  {
    RegisterComment(r) + [Indent + "uint32_t " + r.name + ";\n\n"]
  }

  /** The bit-field struct of a register that is not plain. */
  function RegisterTypedef(group: string, r: Register): seq<string>
  {
    if PlainRegister(r) then []
    else
      ["// " + OneLine(r.description) + "\n", "typedef struct _" + TypeName(group, r) + " {\n"]
      + MemberLines(Layout(SortByOffset(r.fields), LayoutStart))
      + ["} " + TypeName(group, r) + ";\n\n"]
  }

  /** Only a plain register goes without a bit-field struct of its own, and only a plain register
      has the same member in both structs. */
  lemma PlainRegistersOnly(group: string, r: Register)
    ensures RegisterTypedef(group, r) == [] <==> PlainRegister(r)
    ensures RegisterEntry(group, r) == RawEntry(r) <==> PlainRegister(r)
  {
    if !PlainRegister(r) {
      TypedMemberIsNotWord(group, r.name);
      assert RegisterEntry(group, r)[2] != RawEntry(r)[2];
    }
  }

  /** A member typed by its bit-field struct never reads as a `uint32_t` member. */
  lemma TypedMemberIsNotWord(group: string, name: string)
    ensures Indent + TypeName(group, Register(name, "", 0, 0, [])) + " " + name + ";\n\n"
            != Indent + "uint32_t " + name + ";\n\n"
  {
    var typed := Indent + TypeName(group, Register(name, "", 0, 0, [])) + " " + name + ";\n\n";
    var word := Indent + "uint32_t " + name + ";\n\n";
    if |typed| == |word| {
      // then the group and register names are two characters together, and the separator after
      // the group name falls on one of the first three letters of "uint32_t"
      assert |group| <= 2;
      assert typed[4 + |group|] == '_';
      assert word[4 + |group|] == "uint"[|group|];
    }
  }

  function RegisterEntries(group: string, rs: seq<Register>): seq<string>
  {
    if rs == [] then [] else RegisterEntries(group, rs[..|rs| - 1]) + RegisterEntry(group, rs[|rs| - 1])
  }

  function RawEntries(rs: seq<Register>): seq<string>
  {
    if rs == [] then [] else RawEntries(rs[..|rs| - 1]) + RawEntry(rs[|rs| - 1])
  }

  function RegisterTypedefs(group: string, rs: seq<Register>): seq<string>
  {
    if rs == [] then [] else RegisterTypedefs(group, rs[..|rs| - 1]) + RegisterTypedef(group, rs[|rs| - 1])
  }

  /** The struct of registers and the struct of raw registers of a peripheral, from their members. */
  function Structs(group: string, registers: seq<string>, rawRegisters: seq<string>): seq<string>
  {
    ["typedef struct _" + group + "_Type {\n"] + registers
    + ["} " + group + "_Type;\n\n", "typedef struct _" + group + "_Raw_Type {\n"]
    + rawRegisters + ["} " + group + "_Raw_Type;\n\n"]
  }

  /** What a selected peripheral writes while it is visited: nothing when it is derived, else its
      register typedefs followed by its two structs. */
  function PeripheralText(p: Peripheral): seq<string>
  {
    if p.derivedFrom.Some? then []
    else
      RegisterTypedefs(p.groupName, p.registers)
      + Structs(p.groupName, RegisterEntries(p.groupName, p.registers), RawEntries(p.registers))
  }

  /** A peripheral is selected when the target names its group, itself, or the peripheral it
      derives from. */
  predicate Selected(p: Peripheral, target: string)
  {
    target == p.groupName || target == p.name || p.derivedFrom == Some(target)
  }

  /** The two pointers to a peripheral's instance, at its base address. */
  function InstanceLines(p: Peripheral): seq<string>
  {
    var address := "0x" + Hex(p.baseAddress, 8);
    [p.groupName + "_Type* " + p.name + " = (" + p.groupName + "_Type*) " + address + ";\n",
     p.groupName + "_Raw_Type* " + p.name + "_REGS = (" + p.groupName + "_Raw_Type*) " + address + ";\n"]
  }

  /** The positions of the peripherals the target selects. */
  function SelectedIndices(ps: seq<Peripheral>, target: string): set<int>
  {
    set i | 0 <= i < |ps| && Selected(ps[i], target)
  }

  function Instances(ps: seq<Peripheral>, target: string): (r: seq<string>)
    ensures |r| == 2 * |SelectedIndices(ps, target)|
  {
    if ps == [] then
      assert SelectedIndices(ps, target) == {};
      []
    else
      var n := |ps| - 1;
      var before := SelectedIndices(ps[..n], target);
      assert forall i :: 0 <= i < n ==> ps[..n][i] == ps[i];
      assert SelectedIndices(ps, target) == if Selected(ps[n], target) then before + {n} else before;
      Instances(ps[..n], target) + (if Selected(ps[n], target) then InstanceLines(ps[n]) else [])
  }

  function PeripheralsText(ps: seq<Peripheral>, target: string): seq<string>
  {
    if ps == [] then []
    else
      PeripheralsText(ps[..|ps| - 1], target)
      + (if Selected(ps[|ps| - 1], target) then PeripheralText(ps[|ps| - 1]) else [])
  }

  const Prelude := "#pragma once\n\n#include <stdbool.h>\n#include <stdint.h>\n\n"

  /** What one more peripheral adds to the types and to the instance pointers. */
  lemma PeripheralLoopStep(ps: seq<Peripheral>, target: string, i: nat)
    requires i < |ps|
    ensures PeripheralsText(ps[..i + 1], target)
            == PeripheralsText(ps[..i], target) + (if Selected(ps[i], target) then PeripheralText(ps[i]) else [])
    ensures Instances(ps[..i + 1], target)
            == Instances(ps[..i], target) + (if Selected(ps[i], target) then InstanceLines(ps[i]) else [])
  {
    assert ps[..i + 1][..i] == ps[..i];
  }

  /** The whole header: the includes, every selected peripheral's types in order, and then the
      instance pointers of every selected peripheral. */
  function HeaderText(ps: seq<Peripheral>, target: string): seq<string>
  {
    [Prelude] + PeripheralsText(ps, target) + Instances(ps, target)
  }

  // ---------------------------------------------------------------- the generator

  /** One pass of the field loop: padding up to the field when the cursor is short of it, then the
      field; the cursor moves just past the field. */
  method WriteField(output: TextSink, currentOffset: int, f: Field) returns (next: int)
    modifies output
    ensures output.text == old(output.text) + MemberLines(Step(f, currentOffset))
    ensures next == f.bitOffset + f.bitWidth
  {
    ghost var step := Step(f, currentOffset);
    ghost var padding: seq<Member> := [];
    if currentOffset < f.bitOffset {
      output.Write(MemberLine(Reserved(currentOffset, f.bitOffset - currentOffset)));
      padding := [step[0]];
      assert MemberLines(padding) == [MemberLine(step[0])];
    }
    assert output.text == old(output.text) + MemberLines(padding);
    next := f.bitOffset + f.bitWidth;
    output.Write(MemberLine(Bits(f)));
    assert step[..|step| - 1] == padding;
    assert MemberLines(step) == MemberLines(padding) + [MemberLine(Bits(f))];
  }

  /** What one more pass of the field loop adds to the text. */
  lemma MembersStep(text: seq<string>, fields: seq<Field>, k: nat)
    requires k < |fields|
    ensures text + MemberLines(Layout(fields[..k + 1], LayoutStart))
            == text + MemberLines(Layout(fields[..k], LayoutStart)) + MemberLines(Step(fields[k], Cursor(fields[..k], LayoutStart)))
    ensures Cursor(fields[..k + 1], LayoutStart) == fields[k].bitOffset + fields[k].bitWidth
  {
    LayoutSplit(fields, LayoutStart, k);
    var done := Layout(fields[..k], LayoutStart);
    var step := Step(fields[k], Cursor(fields[..k], LayoutStart));
    MemberLinesAppend(done, step);
    AppendAssoc(text, MemberLines(done), MemberLines(step));
  }

  /** The field loop of one register, with the cursor starting at `LayoutStart`. */
  method WriteMembers(output: TextSink, fields: seq<Field>)
    modifies output
    ensures output.text == old(output.text) + MemberLines(Layout(fields, LayoutStart))
  {
    ghost var start := output.text;
    var currentOffset := LayoutStart;
    assert fields[..0] == [];
    for k := 0 to |fields|
      invariant currentOffset == Cursor(fields[..k], LayoutStart)
      invariant output.text == start + MemberLines(Layout(fields[..k], LayoutStart))
    {
      MembersStep(start, fields, k);
      currentOffset := WriteField(output, currentOffset, fields[k]);
    }
    assert fields[..|fields|] == fields;
  }

  /** The bit-field struct of a register: its description, the fields in offset order, its name. */
  method WriteTypedef(output: TextSink, group: string, r: Register)
    modifies output
    ensures output.text == old(output.text) + (["// " + OneLine(r.description) + "\n", "typedef struct _" + TypeName(group, r) + " {\n"]
                           + MemberLines(Layout(SortByOffset(r.fields), LayoutStart)) + ["} " + TypeName(group, r) + ";\n\n"])
  {
    ghost var t0 := output.text;
    var a, b := "// " + OneLine(r.description) + "\n", "typedef struct _" + TypeName(group, r) + " {\n";
    output.Write(a);
    output.Write(b);
    assert output.text == t0 + [a, b];
    ghost var t1 := output.text;
    var sorted := SortByOffset(r.fields);
    WriteMembers(output, sorted);
    output.Write("} " + TypeName(group, r) + ";\n\n");
    AppendAssoc4(t0, [a, b], MemberLines(Layout(sorted, LayoutStart)), ["} " + TypeName(group, r) + ";\n\n"]);
  }

  /** One register of a peripheral that is not derived: its bit-field struct, unless it is plain,
      goes straight to the file; its members of the two peripheral structs are returned. */
  method WriteRegister(output: TextSink, group: string, r: Register) returns (entry: seq<string>, rawEntry: seq<string>)
    modifies output
    ensures output.text == old(output.text) + RegisterTypedef(group, r)
    ensures entry == RegisterEntry(group, r) && rawEntry == RawEntry(r)
  {
    var comment := RegisterComment(r);
    if |r.fields| == 1 && r.fields[0].bitOffset == 0 && r.fields[0].bitWidth == r.size {
      entry := comment + [Indent + "uint32_t " + r.name + ";\n\n"];
    } else {
      WriteTypedef(output, group, r);
      entry := comment + [Indent + TypeName(group, r) + " " + r.name + ";\n\n"];
    }
    rawEntry := comment + [Indent + "uint32_t " + r.name + ";\n\n"];
  }

  /** The register loop of one peripheral that is not derived. */
  method WriteRegisters(output: TextSink, p: Peripheral) returns (registers: seq<string>, rawRegisters: seq<string>)
    modifies output
    ensures output.text == old(output.text) + RegisterTypedefs(p.groupName, p.registers)
    ensures registers == RegisterEntries(p.groupName, p.registers)
    ensures rawRegisters == RawEntries(p.registers)
  {
    registers := [];
    rawRegisters := [];
    var rs := p.registers;
    for j := 0 to |rs|
      invariant output.text == old(output.text) + RegisterTypedefs(p.groupName, rs[..j])
      invariant registers == RegisterEntries(p.groupName, rs[..j])
      invariant rawRegisters == RawEntries(rs[..j])
    {
      RegisterLoopStep(p.groupName, rs, j);
      var entry, rawEntry := WriteRegister(output, p.groupName, rs[j]);
      AppendAssoc(old(output.text), RegisterTypedefs(p.groupName, rs[..j]), RegisterTypedef(p.groupName, rs[j]));
      registers := registers + entry;
      rawRegisters := rawRegisters + rawEntry;
    }
    assert rs[..|rs|] == rs;
  }

  /** The two structs of a peripheral, from the members collected by the register loop. */
  method WriteStructs(output: TextSink, group: string, registers: seq<string>, rawRegisters: seq<string>)
    modifies output
    ensures output.text == old(output.text) + Structs(group, registers, rawRegisters)
  {
    output.Write("typedef struct _" + group + "_Type {\n");
    WriteEach(output, registers);
    output.Write("} " + group + "_Type;\n\n");
    output.Write("typedef struct _" + group + "_Raw_Type {\n");
    WriteEach(output, rawRegisters);
    output.Write("} " + group + "_Raw_Type;\n\n");
  }

  /** A peripheral the target selects: nothing for a derived one, else its register typedefs and
      then its two structs. */
  method WritePeripheral(output: TextSink, p: Peripheral)
    modifies output
    ensures output.text == old(output.text) + PeripheralText(p)
  {
    if p.derivedFrom.Some? {
      return;
    }
    var registers, rawRegisters := WriteRegisters(output, p);
    WriteStructs(output, p.groupName, registers, rawRegisters);
    AppendAssoc(old(output.text), RegisterTypedefs(p.groupName, p.registers), Structs(p.groupName, registers, rawRegisters));
  }

  /** `generate_c_header(target_peripheral, output_file)` on a fresh file. */
  method GenerateCHeader(output: TextSink, peripherals: seq<Peripheral>, target: string)
    modifies output
    ensures output.text == old(output.text) + HeaderText(peripherals, target)
  {
    output.Write(Prelude);
    var instances: seq<string> := [];
    for i := 0 to |peripherals|
      invariant output.text == old(output.text) + [Prelude] + PeripheralsText(peripherals[..i], target)
      invariant instances == Instances(peripherals[..i], target)
    {
      var p := peripherals[i];
      PeripheralLoopStep(peripherals, target, i);
      if target != p.groupName && target != p.name && Some(target) != p.derivedFrom {
        assert peripherals[..i + 1] == peripherals[..i] + [p];
        continue;
      }
      instances := instances + InstanceLines(p);
      WritePeripheral(output, p);
      AppendAssoc(old(output.text) + [Prelude], PeripheralsText(peripherals[..i], target), PeripheralText(p));
    }
    assert peripherals[..|peripherals|] == peripherals;
    WriteEach(output, instances);
    AppendAssoc4(old(output.text), [Prelude], PeripheralsText(peripherals, target), Instances(peripherals, target));
  }

  // ---------------------------------------------------------------- what the header promises

  /** Each selected peripheral contributes exactly two instance lines, after all the types; a
      derived one contributes no types. */
  lemma DerivedPeripheralsOnlyPoint(ps: seq<Peripheral>, p: Peripheral, target: string)
    requires Selected(p, target) && p.derivedFrom.Some?
    ensures HeaderText(ps + [p], target) == [Prelude] + PeripheralsText(ps, target) + Instances(ps, target) + InstanceLines(p)
  {
    var all := ps + [p];
    PeripheralLoopStep(all, target, |ps|);
    assert all[..|ps| + 1] == all;
    assert all[..|ps|] == ps;
    assert PeripheralText(p) == [];
    var types, points := PeripheralsText(ps, target), Instances(ps, target);
    assert PeripheralsText(all, target) == types;
    assert Instances(all, target) == points + InstanceLines(p);
    assert HeaderText(all, target) == [Prelude] + types + (points + InstanceLines(p));
  }

  /** A peripheral the target does not name adds nothing to the header. */
  lemma UnselectedPeripheralsAddNothing(ps: seq<Peripheral>, p: Peripheral, target: string)
    requires !Selected(p, target)
    ensures HeaderText(ps + [p], target) == HeaderText(ps, target)
  {
    assert (ps + [p])[..|ps|] == ps;
  }
}
