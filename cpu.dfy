/** A core of either architecture, and the lookup of a core by its name
    (embedded/cpu/__init__.py). */
module Cpu {
  import opened Wrappers
  import opened Text
  import opened Toolchain
  import Arm
  import Riscv

  datatype Cpu = ArmCore(arm: Arm.ArmCpu) | RiscvCore(riscv: Riscv.RiscvCpu)

  function UniqueId(cpu: Cpu): string
  {
    match cpu
    case ArmCore(a) => a.uniqueId
    case RiscvCore(r) => r.uniqueId
  }

  /** `cpu.get_arch_cflags(compiler)`, as the code builds the flags; only the Arm flags depend on
      the compiler. */
  function ArchCflags(cpu: Cpu, compiler: Compiler): (r: seq<string>)
    ensures cpu.RiscvCore? ==> r == Riscv.ArchCflags(cpu.riscv)
    ensures cpu.ArmCore? ==> r == Arm.ArchCflags(cpu.arm, compiler)
    ensures |r| >= 2
  {
    match cpu
    case ArmCore(a) => Arm.ArchCflags(a, compiler)
    case RiscvCore(r) => Riscv.ArchCflags(r)
  }

  /** The names `get_cpu_from_name` knows, once lower-cased. */
  const KnownNames: set<string> :=
    {"hazard3", "riscv32imac", "cm0+", "cortex-m0plus", "cortex-m0+", "cm4", "cortex-m4",
     "cm4f", "cortex-m4f", "cm7", "cortex-m7"}

  /** `get_cpu_from_name(name)`: the name is lower-cased first; an unknown name gives None. */
  function GetCpuFromName(name: string): (r: Option<Cpu>)
    ensures r.Some? <==> Lower(name) in KnownNames
    ensures Lower(name) == "hazard3" ==> r == Some(RiscvCore(Riscv.Hazard3()))
    ensures Lower(name) == "riscv32imac" ==> r == Some(RiscvCore(Riscv.NewRiscv(["I", "M", "A", "C"])))
    ensures Lower(name) in {"cm0+", "cortex-m0plus", "cortex-m0+"} ==> r == Some(ArmCore(Arm.CortexM0Plus()))
    ensures Lower(name) in {"cm4", "cortex-m4"} ==> r == Some(ArmCore(Arm.CortexM4(false)))
    ensures Lower(name) in {"cm4f", "cortex-m4f"} ==> r == Some(ArmCore(Arm.CortexM4(true)))
    ensures Lower(name) in {"cm7", "cortex-m7"} ==> r == Some(ArmCore(Arm.CortexM7(false)))
  {
    var n := Lower(name);
    if n == "hazard3" then Some(RiscvCore(Riscv.Hazard3()))
    else if n == "riscv32imac" then Some(RiscvCore(Riscv.NewRiscv(["I", "M", "A", "C"])))
    else if n in {"cm0+", "cortex-m0plus", "cortex-m0+"} then Some(ArmCore(Arm.CortexM0Plus()))
    else if n in {"cm4", "cortex-m4"} then Some(ArmCore(Arm.CortexM4(false)))
    else if n in {"cm4f", "cortex-m4f"} then Some(ArmCore(Arm.CortexM4(true)))
    else if n in {"cm7", "cortex-m7"} then Some(ArmCore(Arm.CortexM7(false)))
    else None
  }

  lemma LowerIdempotent(s: string)
    ensures Lower(Lower(s)) == Lower(s)
  {
    assert forall i :: 0 <= i < |s| ==> LowerChar(LowerChar(s[i])) == LowerChar(s[i]);
  }

  /** The lookup ignores case: a name and its lower-cased form give the same core. */
  lemma LookupIgnoresCase(name: string)
    ensures GetCpuFromName(name) == GetCpuFromName(Lower(name))
  {
    LowerIdempotent(name);
  }

  /** Each core a name can give, told apart by the length of its unique id and, for the two
      fourteen-character ids, by their ninth character. */
  lemma NamedCoreId(name: string)
    requires GetCpuFromName(name).Some?
    ensures var c := GetCpuFromName(name).value; var id := UniqueId(c);
              || (|id| == 7 && c == RiscvCore(Riscv.Hazard3()))
              || (|id| == 8 && c == RiscvCore(Riscv.NewRiscv(["I", "M", "A", "C"])))
              || (|id| == 13 && c == ArmCore(Arm.CortexM0Plus()))
              || (|id| == 10 && c == ArmCore(Arm.CortexM4(true)))
              || (|id| == 14 && id[8] == '4' && c == ArmCore(Arm.CortexM4(false)))
              || (|id| == 14 && id[8] == '7' && c == ArmCore(Arm.CortexM7(false)))
  {
    var n := Lower(name);
    if n == "riscv32imac" {
      assert |IntToString(32)| == 2;
      assert |Join(["I", "M", "A", "C"], "")| == 4;
    }
  }

  /** The cores a name can give have their own unique ids, so different cores never share one. */
  lemma NamedCoresHaveDistinctIds(a: string, b: string)
    requires GetCpuFromName(a).Some? && GetCpuFromName(b).Some?
    requires UniqueId(GetCpuFromName(a).value) == UniqueId(GetCpuFromName(b).value)
    ensures GetCpuFromName(a) == GetCpuFromName(b)
  {
    NamedCoreId(a);
    NamedCoreId(b);
  }
}
