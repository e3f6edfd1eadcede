/** Arm Cortex-M cores (embedded/cpu/arm.py): the record every constructor fills in, the flags
    that select the core for a compiler, and the mapping from a CMSIS pack's processor entry. */
module Arm {
  import opened Wrappers
  import opened Toolchain

  /** An `ARM` object. `floatingPoint` is the truth value of what the constructor received;
      `interrupts` and `interruptCount` exist only on a Cortex-M0+ (None: no such attribute). */
  datatype ArmCpu = ArmCpu(
    mcpu: string,
    floatingPoint: bool,
    floatingPointUnit: Option<string>,
    uniqueId: string,
    interrupts: Option<map<int, string>>,
    interruptCount: Option<nat>)

  /** `ARM(mcpu, floating_point=False, floating_point_unit=None)`. The unique id is `mcpu`, followed
      by "f" exactly when the core has floating point. */
  function NewArm(mcpu: string, floatingPoint: bool := false, floatingPointUnit: Option<string> := None): (c: ArmCpu)
    ensures c.mcpu == mcpu && c.floatingPoint == floatingPoint && c.floatingPointUnit == floatingPointUnit
    ensures |mcpu| <= |c.uniqueId| && c.uniqueId[..|mcpu|] == mcpu
    ensures |c.uniqueId| == |mcpu| + 1 <==> floatingPoint
    ensures floatingPoint ==> c.uniqueId[|mcpu|] == 'f'
    ensures c.interrupts.None? && c.interruptCount.None?
  {
    ArmCpu(mcpu, floatingPoint, floatingPointUnit, mcpu + (if floatingPoint then "f" else ""), None, None)
  }

  /** The system exceptions a Cortex-M0+ names, by their (negative) exception number. */
  const M0PlusExceptions: map<int, string> :=
    map[-1 := "SysTick", -2 := "PendSV", -5 := "SVCall", -13 := "HardFault", -14 := "NMI"]

  /** `CortexM0Plus(small_multiply=False)`: no floating point, 32 external interrupts and five named
      system exceptions, all between -14 and -1. */
  function CortexM0Plus(smallMultiply: bool := false): (c: ArmCpu)
    ensures c.mcpu == "cortex-m0plus" + (if smallMultiply then ".small-multiply" else "")
    ensures !c.floatingPoint && c.floatingPointUnit.None? && c.uniqueId == c.mcpu
    ensures c.interruptCount == Some(32)
    ensures c.interrupts == Some(M0PlusExceptions)
    ensures c.interrupts.Some? && |c.interrupts.value| == 5
    ensures c.interrupts.Some? ==> forall k <- c.interrupts.value :: -14 <= k <= -1
  {
    var base := NewArm("cortex-m0plus" + (if smallMultiply then ".small-multiply" else ""), false);
    assert M0PlusExceptions.Keys == {-1, -2, -5, -13, -14};
    base.(interrupts := Some(M0PlusExceptions), interruptCount := Some(32))
  }

  /** `"" if floating_point else "+nofp"`. */
  function FpSuffix(floatingPoint: bool): string
  {
    if floatingPoint then "" else "+nofp"
  }

  /** `CortexM4(floating_point)`: the unit is the single-precision FPv4 whether or not it is used. */
  function CortexM4(floatingPoint: bool): (c: ArmCpu)
    ensures c.mcpu == "cortex-m4" + FpSuffix(floatingPoint)
    ensures c.floatingPoint == floatingPoint && c.floatingPointUnit == Some("fpv4-sp-d16")
    ensures c.uniqueId == (if floatingPoint then "cortex-m4f" else "cortex-m4+nofp")
  {
    NewArm("cortex-m4" + FpSuffix(floatingPoint), floatingPoint, Some("fpv4-sp-d16"))
  }

  /** `CortexM7(floating_point)`: no unit is named. */
  function CortexM7(floatingPoint: bool): (c: ArmCpu)
    ensures c.mcpu == "cortex-m7" + FpSuffix(floatingPoint)
    ensures c.floatingPoint == floatingPoint && c.floatingPointUnit.None?
    ensures c.uniqueId == (if floatingPoint then "cortex-m7f" else "cortex-m7+nofp")
  {
    NewArm("cortex-m7" + FpSuffix(floatingPoint), floatingPoint)
  }

  /** `CortexM33(floating_point, dsp)`: "+nofp" comes before "+nodsp"; no unit is named. */
  function CortexM33(floatingPoint: bool, dsp: bool): (c: ArmCpu)
    ensures c.mcpu == "cortex-m33" + FpSuffix(floatingPoint) + (if dsp then "" else "+nodsp")
    ensures c.floatingPoint == floatingPoint && c.floatingPointUnit.None?
    ensures c.uniqueId == c.mcpu + (if floatingPoint then "f" else "")
  {
    NewArm("cortex-m33" + FpSuffix(floatingPoint) + (if dsp then "" else "+nodsp"), floatingPoint)
  }

  /** Every configuration of a core family has its own unique id. */
  lemma UniqueIdsSeparateConfigurations(a: bool, b: bool, c: bool, d: bool)
    ensures CortexM4(a).uniqueId == CortexM4(b).uniqueId ==> a == b
    ensures CortexM7(a).uniqueId == CortexM7(b).uniqueId ==> a == b
    ensures CortexM0Plus(a).uniqueId == CortexM0Plus(b).uniqueId ==> a == b
    ensures CortexM33(a, c).uniqueId == CortexM33(b, d).uniqueId ==> a == b && c == d
  {
    assert |CortexM0Plus(true).uniqueId| != |CortexM0Plus(false).uniqueId|;
    // the lengths of the Cortex-M33 ids tell the four combinations apart
    assert |CortexM33(a, c).uniqueId| == 10 + (if a then 1 else 5) + (if c then 0 else 6);
    assert |CortexM33(b, d).uniqueId| == 10 + (if b then 1 else 5) + (if d then 0 else 6);
  }

  // ---------------------------------------------------------------- compiler flags

  /** `f"-mfpu={unit}"`, where a missing unit prints as Python's `None`. */
  function MfpuFlag(unit: Option<string>): string
  {
    "-mfpu=" + (if unit.Some? then unit.value else "None")
  }

  /** `if floating_point_unit:` on an optional string. */
  predicate UnitSet(unit: Option<string>)
  {
    unit.Some? && unit.value != ""
  }

  /** The text a stored unit prints as: the unit itself, or Python's `None` when there is none. */
  function StoredUnit(cpu: ArmCpu): string
  {
    if cpu.floatingPointUnit.Some? then cpu.floatingPointUnit.value else "None"
  }

  /** `get_arch_cflags(compiler)`.
      Clang: `-mthumb`, `--target=arm-none-eabi`, `-mcpu=<mcpu>`, then `-mfpu=<unit>` only when a
      unit is named. GCC: `-mthumb`, `-mcpu=<mcpu>`, then `-mfpu=<stored unit>` only with floating
      point; the "auto" default is assigned to a local that is never read, so a core without a unit
      is given `-mfpu=None`. Either way `-mfloat-abi=hard` comes last exactly when the core has
      floating point. */
  function ArchCflags(cpu: ArmCpu, compiler: Compiler): (r: seq<string>)
    ensures |r| >= 2 && r[0] == "-mthumb"
    ensures compiler == Clang ==> |r| >= 3 && r[1] == "--target=arm-none-eabi" && r[2] == "-mcpu=" + cpu.mcpu
    ensures compiler == Clang ==>
              |r| == 3 + (if UnitSet(cpu.floatingPointUnit) then 1 else 0) + (if cpu.floatingPoint then 1 else 0)
    ensures compiler == Clang && UnitSet(cpu.floatingPointUnit) ==> r[3] == "-mfpu=" + cpu.floatingPointUnit.value
    ensures compiler == GCC ==> r[1] == "-mcpu=" + cpu.mcpu
    ensures compiler == GCC ==> |r| == (if cpu.floatingPoint then 4 else 2)
    ensures compiler == GCC && cpu.floatingPoint ==> r[2] == MfpuFlag(cpu.floatingPointUnit)
    ensures r[|r| - 1] == "-mfloat-abi=hard" <==> cpu.floatingPoint
    ensures forall f <- r :: IsMfpu(f) ==> f[6..] == StoredUnit(cpu)
  {
    var flags := ["-mthumb"];
    var flags := if compiler == Clang then
                   flags + ["--target=arm-none-eabi", "-mcpu=" + cpu.mcpu]
                   + (if UnitSet(cpu.floatingPointUnit) then [MfpuFlag(cpu.floatingPointUnit)] else [])
                 else
                   flags + ["-mcpu=" + cpu.mcpu] + (if cpu.floatingPoint then [MfpuFlag(cpu.floatingPointUnit)] else []);
    NotMfpuAt("-mthumb", 2);
    NotMfpuAt("--target=arm-none-eabi", 1);
    NotMfpuAt("-mfloat-abi=hard", 3);
    NotMfpuAt("-mcpu=" + cpu.mcpu, 2);
    flags + (if cpu.floatingPoint then ["-mfloat-abi=hard"] else [])
  }

  /** A Cortex-M7 with floating point built by GCC is asked for an FPU called "None". */
  lemma GccM7AsksForFpuNone()
    ensures ArchCflags(CortexM7(true), GCC) == ["-mthumb", "-mcpu=cortex-m7", "-mfpu=None", "-mfloat-abi=hard"]
  {
    var r := ArchCflags(CortexM7(true), GCC);
    assert CortexM7(true).mcpu == "cortex-m7";
    assert "-mcpu=" + "cortex-m7" == "-mcpu=cortex-m7";
    assert MfpuFlag(None) == "-mfpu=None";
    assert r[2] == "-mfpu=None";
  }

  /** The unit `-mfpu` names once the "auto" default is in effect: the stored one, or "auto". */
  function EffectiveUnit(cpu: ArmCpu): string
  {
    if cpu.floatingPointUnit.Some? then cpu.floatingPointUnit.value else "auto"
  }

  /** `get_arch_cflags` as evidently intended: on the GCC path a core without a unit is given
      `-mfpu=auto`. The Clang path is unchanged. */
  function ArchCflagsIntended(cpu: ArmCpu, compiler: Compiler): (r: seq<string>)
    ensures |r| >= 2 && r[0] == "-mthumb"
    ensures compiler == GCC ==> r[1] == "-mcpu=" + cpu.mcpu
    ensures compiler == GCC ==> |r| == (if cpu.floatingPoint then 4 else 2)
    ensures compiler == GCC && cpu.floatingPoint ==> r[2] == "-mfpu=" + EffectiveUnit(cpu)
    ensures r[|r| - 1] == "-mfloat-abi=hard" <==> cpu.floatingPoint
    ensures forall f <- r :: IsMfpu(f) ==> f[6..] == EffectiveUnit(cpu)
  {
    var flags := ["-mthumb"];
    var flags := if compiler == Clang then
                   flags + ["--target=arm-none-eabi", "-mcpu=" + cpu.mcpu]
                   + (if UnitSet(cpu.floatingPointUnit) then ["-mfpu=" + cpu.floatingPointUnit.value] else [])
                 else
                   flags + ["-mcpu=" + cpu.mcpu] + (if cpu.floatingPoint then ["-mfpu=" + EffectiveUnit(cpu)] else []);
    NotMfpuAt("-mthumb", 2);
    NotMfpuAt("--target=arm-none-eabi", 1);
    NotMfpuAt("-mfloat-abi=hard", 3);
    NotMfpuAt("-mcpu=" + cpu.mcpu, 2);
    flags + (if cpu.floatingPoint then ["-mfloat-abi=hard"] else [])
  }

  /** A flag of the form `-mfpu=<unit>`. */
  predicate IsMfpu(flag: string)
  {
    |flag| >= 6 && flag[..6] == "-mfpu="
  }

  lemma NotMfpuAt(flag: string, i: nat)
    requires i < 6 && i < |flag| && flag[i] != "-mfpu="[i]
    ensures !IsMfpu(flag)
  {
  }

  /** With the default in effect, no flag asks for a unit that was never named; where a unit is
      named, and on the Clang path always, the intended flags are those the code builds. */
  lemma ArchCflagsNamesRealUnit(cpu: ArmCpu, compiler: Compiler)
    requires cpu.floatingPointUnit != Some("None")
    ensures "-mfpu=None" !in ArchCflagsIntended(cpu, compiler)
    ensures cpu.floatingPointUnit.Some? || compiler == Clang ==>
              ArchCflagsIntended(cpu, compiler) == ArchCflags(cpu, compiler)
  {
    var r := ArchCflagsIntended(cpu, compiler);
    assert IsMfpu("-mfpu=None") && "-mfpu=None"[6..] == "None";
    assert EffectiveUnit(cpu) != "None";
  }

  // ---------------------------------------------------------------- CMSIS processor entries

  /** A value in a CMSIS pack's processor description. */
  datatype PdscValue = PdscStr(s: string) | PdscInt(i: int) | PdscBool(b: bool) | PdscNone

  /** Python truthiness of such a value. */
  predicate Truthy(v: PdscValue)
  {
    match v
    case PdscStr(s) => s != ""
    case PdscInt(i) => i != 0
    case PdscBool(b) => b
    case PdscNone => false
  }

  /** The cores `from_pdsc` knows that need the "fpu" entry. */
  predicate NeedsFpu(core: PdscValue)
  {
    core == PdscStr("CortexM4") || core == PdscStr("CortexM7") || core == PdscStr("CortexM33")
  }

  /** `ARM.from_pdsc(description)`. A missing or unknown "core" gives None; Cortex-M4 and M7 read
      "fpu" (KeyError when it is absent); Cortex-M33 calls a two-argument constructor with one
      argument, which fails with TypeError once "fpu" has been read. */
  function FromPdsc(description: map<string, PdscValue>): (r: Result<Option<ArmCpu>>)
    ensures "core" !in description ==> r == Ok(None)
    ensures r.Raise? <==> "core" in description && NeedsFpu(description["core"])
                           && ("fpu" !in description || description["core"] == PdscStr("CortexM33"))
    ensures r.Raise? ==> r.exception == (if "fpu" !in description then KeyError else TypeError)
    ensures r.Ok? && r.value.Some? ==> "core" in description
  {
    if "core" in description then
      var core := description["core"];
      if core == PdscStr("CortexM0Plus") then Ok(Some(CortexM0Plus()))
      else if core == PdscStr("CortexM4") then
        if "fpu" in description then Ok(Some(CortexM4(Truthy(description["fpu"])))) else Raise(KeyError)
      else if core == PdscStr("CortexM7") then
        if "fpu" in description then Ok(Some(CortexM7(Truthy(description["fpu"])))) else Raise(KeyError)
      else if core == PdscStr("CortexM33") then
        if "fpu" in description then Raise(TypeError) else Raise(KeyError)
      else Ok(None)
    else Ok(None)
  }

  /** What `from_pdsc` builds for each core it knows. */
  lemma FromPdscBuildsCore(description: map<string, PdscValue>)
    requires "core" in description
    ensures description["core"] == PdscStr("CortexM0Plus") ==> FromPdsc(description) == Ok(Some(CortexM0Plus()))
    ensures description["core"] == PdscStr("CortexM4") && "fpu" in description ==>
              FromPdsc(description) == Ok(Some(CortexM4(Truthy(description["fpu"]))))
    ensures description["core"] == PdscStr("CortexM7") && "fpu" in description ==>
              FromPdsc(description) == Ok(Some(CortexM7(Truthy(description["fpu"]))))
    ensures description["core"] !in {PdscStr("CortexM0Plus"), PdscStr("CortexM4"), PdscStr("CortexM7"), PdscStr("CortexM33")} ==>
              FromPdsc(description) == Ok(None)
  {
  }
}
