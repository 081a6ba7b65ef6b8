/** The processor the player picked: the input record of a battle. */
module CpuProfiles {

  datatype Architecture = X86_64 | Arm64

  datatype CpuProfile = CpuProfile(
    name: string,
    arch: Architecture,
    physicalCores: int,
    maxHP: int,
    maxRAM: int)

  /** What the battle engine's invariants need of a profile. */
  predicate Usable(p: CpuProfile) {
    p.physicalCores >= 0 && p.maxRAM >= 0
  }

  /** The three builds offered on the hardware screen. */
  const IntelCoreI9 := CpuProfile("Intel Core i9", X86_64, 3, 200, 100)
  const AmdRyzen9 := CpuProfile("AMD Ryzen 9", X86_64, 3, 180, 120)
  const AppleM2 := CpuProfile("Apple M2", Arm64, 2, 250, 80)

  /** Every offered build is usable and has between one and three cores. */
  lemma OfferedBuildsUsable()
    ensures forall p :: p in [IntelCoreI9, AmdRyzen9, AppleM2] ==>
      Usable(p) && 1 <= p.physicalCores <= 3
  {
  }
}
