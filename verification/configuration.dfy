/** User-supplied architecture-to-toolchain overrides. */
module Configuration {
  import opened Toolchains

  /**
   * One toolchain name per family. A new object already answers every family: the
   * defaults are the first entries of the NDK tables, with the two x86 defaults
   * crossed (x8664 starts as the first x86 toolchain, x86 as the first x86_64 one)
   * and mips starting as the first ARM toolchain. There is no mips64 field.
   */
  class ArchitectureToolchainMappings {
    var x8664: string
    var x86: string
    var armeabi: string
    var arm64: string
    var mips: string

    constructor ()
      ensures GetX8664() == X86_TOOLCHAIN[0] && GetX86() == X86_64_TOOLCHAIN[0]
      ensures GetArmeabi() == ARM_TOOLCHAIN[0] && GetArm64() == ARM_64_TOOLCHAIN[0]
      ensures GetMips() == ARM_TOOLCHAIN[0]
    {
      x8664 := X86_TOOLCHAIN[0];
      x86 := X86_64_TOOLCHAIN[0];
      armeabi := ARM_TOOLCHAIN[0];
      arm64 := ARM_64_TOOLCHAIN[0];
      mips := ARM_TOOLCHAIN[0];
    }

    function GetArmeabi(): string reads this { armeabi }
    function GetMips(): string reads this { mips }
    function GetX86(): string reads this { x86 }
    function GetArm64(): string reads this { arm64 }
    function GetX8664(): string reads this { x8664 }

    method SetArmeabi(armeabi: string)
      modifies this
      ensures GetArmeabi() == armeabi
      ensures GetMips() == old(GetMips()) && GetX86() == old(GetX86()) && GetArm64() == old(GetArm64()) && GetX8664() == old(GetX8664())
    {
      this.armeabi := armeabi;
    }

    method SetMips(mips: string)
      modifies this
      ensures GetMips() == mips
      ensures GetArmeabi() == old(GetArmeabi()) && GetX86() == old(GetX86()) && GetArm64() == old(GetArm64()) && GetX8664() == old(GetX8664())
    {
      this.mips := mips;
    }

    method SetX86(x86: string)
      modifies this
      ensures GetX86() == x86
      ensures GetArmeabi() == old(GetArmeabi()) && GetMips() == old(GetMips()) && GetArm64() == old(GetArm64()) && GetX8664() == old(GetX8664())
    {
      this.x86 := x86;
    }

    method SetArm64(arm64: string)
      modifies this
      ensures GetArm64() == arm64
      ensures GetArmeabi() == old(GetArmeabi()) && GetMips() == old(GetMips()) && GetX86() == old(GetX86()) && GetX8664() == old(GetX8664())
    {
      this.arm64 := arm64;
    }

    method SetX8664(x8664: string)
      modifies this
      ensures GetX8664() == x8664
      ensures GetArmeabi() == old(GetArmeabi()) && GetMips() == old(GetMips()) && GetX86() == old(GetX86()) && GetArm64() == old(GetArm64())
    {
      this.x8664 := x8664;
    }
  }
}
