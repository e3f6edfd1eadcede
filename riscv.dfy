/** RISC-V cores (embedded/cpu/riscv.py): a base ISA width with a list of extensions. */
module Riscv {
  import opened Text

  /** A `RISCV` object. */
  datatype RiscvCpu = RiscvCpu(extensions: seq<string>, bits: int, uniqueId: string)

  /** `RISCV(extensions, bits=32)`: the unique id is "rv", the width in decimal, then the
      extensions run together. */
  function NewRiscv(extensions: seq<string>, bits: int := 32): (c: RiscvCpu)
    ensures c.extensions == extensions && c.bits == bits
    ensures c.uniqueId == "rv" + IntToString(bits) + Join(extensions, "")
  {
    RiscvCpu(extensions, bits, "rv" + IntToString(bits) + Join(extensions, ""))
  }

  const Hazard3Extensions: seq<string> :=
    ["I", "M", "A", "C", "Zicsr", "Zba", "Zbb", "Zbc", "Zbs", "Zbkb", "Zcb", "Zcmp"]

  /** `Hazard3()`: a 32-bit core with twelve fixed extensions whose unique id is replaced by its name. */
  function Hazard3(): (c: RiscvCpu)
    ensures c.bits == 32 && c.extensions == Hazard3Extensions && |c.extensions| == 12
    ensures c.uniqueId == "hazard3"
  {
    NewRiscv(Hazard3Extensions).(uniqueId := "hazard3")
  }

  /** Each extension lower-cased. */
  function LowerEach(parts: seq<string>): (r: seq<string>)
    ensures |r| == |parts| && forall i :: 0 <= i < |parts| ==> r[i] == Lower(parts[i])
  {
    seq(|parts|, i requires 0 <= i < |parts| => Lower(parts[i]))
  }

  /** `"_".join(extensions).lower()`. */
  function MarchExtensions(extensions: seq<string>): string
  {
    Lower(Join(extensions, "_"))
  }

  /** `get_arch_cflags(compiler)`: exactly a target and an `-march` flag, whatever the compiler. */
  function ArchCflags(cpu: RiscvCpu): (r: seq<string>)
    ensures |r| == 2
    ensures r[0] == "--target=riscv" + IntToString(cpu.bits)
    ensures r[1] == "-march=rv" + IntToString(cpu.bits) + MarchExtensions(cpu.extensions)
  {
    ["--target=riscv" + IntToString(cpu.bits), "-march=rv" + IntToString(cpu.bits) + MarchExtensions(cpu.extensions)]
  }

  lemma LowerConcat(a: string, b: string)
    ensures Lower(a + b) == Lower(a) + Lower(b)
  {
    assert forall i :: 0 <= i < |a + b| ==> Lower(a + b)[i] == (Lower(a) + Lower(b))[i];
  }

  /** Lower-casing a joined list is joining the lower-cased parts. */
  lemma {:induction false} LowerJoin(parts: seq<string>, sep: string)
    ensures Lower(Join(parts, sep)) == Join(LowerEach(parts), Lower(sep))
    decreases |parts|
  {
    if |parts| > 1 {
      LowerJoin(parts[1..], sep);
      assert LowerEach(parts[1..]) == LowerEach(parts)[1..];
      LowerConcat(parts[0] + sep, Join(parts[1..], sep));
      LowerConcat(parts[0], sep);
    } else if |parts| == 0 {
      assert Lower("") == "";
    }
  }

  /** The `-march` extension string names every extension, lower-cased and in order: splitting it
      on "_" gives them back when no extension contains "_". */
  lemma MarchExtensionsRoundTrip(extensions: seq<string>)
    requires |extensions| >= 1
    requires forall i :: 0 <= i < |extensions| ==> '_' !in extensions[i]
    ensures Split(MarchExtensions(extensions), '_') == LowerEach(extensions)
  {
    LowerJoin(extensions, "_");
    assert Lower("_") == "_";
    var lowered := LowerEach(extensions);
    forall p <- lowered
      ensures '_' !in p
    {
      var i :| 0 <= i < |lowered| && lowered[i] == p;
      assert forall k :: 0 <= k < |p| ==> p[k] == LowerChar(extensions[i][k]);
    }
    SplitJoin(lowered, '_');
  }

  /** Hazard3's `-march` flag names its twelve extensions, lower-cased, in the order it lists them. */
  lemma Hazard3MarchNamesExtensions()
    ensures Split(MarchExtensions(Hazard3().extensions), '_') == LowerEach(Hazard3Extensions)
  {
    Hazard3NoUnderscore();
    MarchExtensionsRoundTrip(Hazard3Extensions);
  }

  lemma Hazard3NoUnderscore()
    ensures forall i :: 0 <= i < |Hazard3Extensions| ==> '_' !in Hazard3Extensions[i]
  {
    forall i | 0 <= i < |Hazard3Extensions|
      ensures '_' !in Hazard3Extensions[i]
    {
      var e := Hazard3Extensions[i];
      assert forall k :: 0 <= k < |e| ==> 'A' <= e[k] <= 'z';
    }
  }
}
