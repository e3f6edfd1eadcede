/** What the generators of embedded/microcontroller/__init__.py read from a device description
    (peripherals, registers, fields, interrupts) and the file they write to. */
module Device {
  import opened Wrappers
  import opened Text

  /** One bit field of a register. */
  datatype Field = Field(name: string, bitOffset: nat, bitWidth: nat, description: string)

  /** A register: its name, description, byte offset in the peripheral, size in bits and fields. */
  datatype Register = Register(name: string, description: string, addressOffset: nat, size: nat, fields: seq<Field>)

  /** An interrupt line a peripheral raises. */
  datatype Interrupt = Interrupt(name: string, value: int)

  /** A peripheral. A derived one reuses the register layout of the peripheral it names. */
  datatype Peripheral = Peripheral(
    name: string,
    groupName: string,
    derivedFrom: Option<string>,
    baseAddress: nat,
    registers: seq<Register>,
    interrupts: seq<Interrupt>)

  const Indent := "    "

  function StripEach(parts: seq<string>): (r: seq<string>)
    ensures |r| == |parts| && forall i :: 0 <= i < |parts| ==> r[i] == Strip(parts[i])
  {
    seq(|parts|, i requires 0 <= i < |parts| => Strip(parts[i]))
  }

  /** A description made fit for a one-line comment: when it runs over several lines, each line is
      stripped and the lines are joined by single spaces. The result has no line break, and a
      description without one is kept as it is. */
  function OneLine(description: string): (r: string)
    ensures '\n' !in r
    ensures '\n' !in description ==> r == description
  {
    if '\n' in description then
      var lines := Split(description, '\n');
      StripEachAvoids(lines, '\n');
      JoinAvoids(StripEach(lines), " ", '\n');
      Join(StripEach(lines), " ")
    else description
  }

  /** Stripping takes no character in: what no line holds, no stripped line holds. */
  lemma StripEachAvoids(lines: seq<string>, c: char)
    requires forall p <- lines :: c !in p
    ensures forall p <- StripEach(lines) :: c !in p
  {
    var parts := StripEach(lines);
    forall p <- parts
      ensures c !in p
    {
      var i :| 0 <= i < |parts| && parts[i] == p;
      assert lines[i] in lines;
    }
  }

  /** An open file: everything written to it, one `write` call per element. */
  class TextSink {
    var text: seq<string>

    constructor ()
      ensures text == []
    {
      text := [];
    }

    method Write(s: string)
      modifies this
      ensures text == old(text) + [s]
    {
      text := text + [s];
    }
  }

  lemma AppendAssoc<T>(a: seq<T>, b: seq<T>, c: seq<T>)
    ensures a + b + c == a + (b + c)
  {
  }

  lemma AppendAssoc4<T>(a: seq<T>, b: seq<T>, c: seq<T>, d: seq<T>)
    ensures a + b + c + d == a + (b + c + d)
  {
  }

  /** One more element of `s` taken. */
  lemma TakeStep<T>(s: seq<T>, k: nat)
    requires k < |s|
    ensures s[..k + 1] == s[..k] + [s[k]]
  {
  }

  /** One more element of `b` taken after `a`. */
  lemma PrefixStep<T>(a: seq<T>, b: seq<T>, i: nat)
    requires i < |b|
    ensures a + b[..i + 1] == a + b[..i] + [b[i]]
  {
    assert b[..i + 1] == b[..i] + [b[i]];
  }

  /** `for line in lines: output.write(line)`. */
  method WriteEach(output: TextSink, lines: seq<string>)
    modifies output
    ensures output.text == old(output.text) + lines
  {
    for k := 0 to |lines|
      invariant output.text == old(output.text) + lines[..k]
    {
      output.Write(lines[k]);
      assert lines[..k + 1] == lines[..k] + [lines[k]];
    }
    assert lines[..|lines|] == lines;
  }
}
