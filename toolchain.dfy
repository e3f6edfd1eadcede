/** The two compiler families of embedded/compiler.py and the programs each one names. */
module Toolchain {

  datatype Compiler = GCC | Clang

  /** The four programs a compiler family brings: C compiler, C++ compiler, archiver, strip. */
  datatype Tools = Tools(cCompiler: string, cppCompiler: string, ar: string, strip: string)

  /** The `c_compiler`, `cpp_compiler`, `ar` and `strip` attributes set by each constructor: the
      bare-metal GNU Arm toolchain for GCC, and LLVM's own programs for Clang. */
  function ToolsOf(c: Compiler): (t: Tools)
    ensures c == GCC ==> t == Tools("arm-none-eabi-gcc", "arm-none-eabi-g++", "arm-none-eabi-ar", "arm-none-eabi-strip")
    ensures c == Clang ==> t == Tools("clang", "clang++", "llvm-ar", "llvm-strip")
  {
    match c
    case GCC => Tools("arm-none-eabi-gcc", "arm-none-eabi-g++", "arm-none-eabi-ar", "arm-none-eabi-strip")
    case Clang => Tools("clang", "clang++", "llvm-ar", "llvm-strip")
  }

  function ToolSet(t: Tools): set<string>
  {
    {t.cCompiler, t.cppCompiler, t.ar, t.strip}
  }

  /** No program name is shared between the two families: every GNU name is longer than every
      LLVM one. */
  lemma FamiliesDisjoint()
    ensures ToolSet(ToolsOf(GCC)) !! ToolSet(ToolsOf(Clang))
  {
    assert forall s <- ToolSet(ToolsOf(GCC)) :: |s| >= 16;
    assert forall s <- ToolSet(ToolsOf(Clang)) :: |s| <= 10;
  }
}
