/**
 * Backend selection. The crate compiles exactly the modules whose `cfg`
 * predicate holds for the target, and re-exports their
 * `get_cache_line_size`; the predicates are modelled over the
 * `target_arch` and `target_os` strings.
 */
module Backends {
  import opened Types
  import Arm
  import X86
  import AppleArm

  datatype Backend = X86Backend | ArmBackend | AppleArmBackend

  /** `cfg(any(target_arch = "x86", target_arch = "x86_64"))` */
  predicate X86Enabled(arch: string, os: string) {
    arch == "x86" || arch == "x86_64"
  }

  /** `cfg(all(any(arm, aarch64), not(all(aarch64, macos))))` */
  predicate ArmEnabled(arch: string, os: string) {
    (arch == "arm" || arch == "aarch64") && !(arch == "aarch64" && os == "macos")
  }

  /** `cfg(all(target_arch = "aarch64", target_os = "macos"))` */
  predicate AppleArmEnabled(arch: string, os: string) {
    arch == "aarch64" && os == "macos"
  }

  predicate Enabled(b: Backend, arch: string, os: string) {
    match b
    case X86Backend => X86Enabled(arch, os)
    case ArmBackend => ArmEnabled(arch, os)
    case AppleArmBackend => AppleArmEnabled(arch, os)
  }

  /** The backend compiled for a target; `None` when no module is declared for it. */
  function SelectedBackend(arch: string, os: string): (r: Option<Backend>)
    ensures r.Some? ==> Enabled(r.value, arch, os)
    ensures r.None? <==> !X86Enabled(arch, os) && !ArmEnabled(arch, os) && !AppleArmEnabled(arch, os)
  {
    if X86Enabled(arch, os) then Some(X86Backend)
    else if AppleArmEnabled(arch, os) then Some(AppleArmBackend)
    else if ArmEnabled(arch, os) then Some(ArmBackend)
    else None
  }

  /** At most one backend is compiled for any target, so the re-exports never clash. */
  lemma AtMostOneBackend(arch: string, os: string, b: Backend, c: Backend)
    requires Enabled(b, arch, os) && Enabled(c, arch, os)
    ensures b == c
  {
  }

  /** The selection table, row by row. */
  lemma SelectionTable(os: string)
    ensures SelectedBackend("x86", os) == Some(X86Backend)
    ensures SelectedBackend("x86_64", os) == Some(X86Backend)
    ensures SelectedBackend("arm", os) == Some(ArmBackend)
    ensures SelectedBackend("aarch64", os) == (if os == "macos" then Some(AppleArmBackend) else Some(ArmBackend))
  {
  }

  /** The Apple backend is chosen for aarch64 on macOS and nowhere else. */
  lemma AppleOnlyOnAarch64MacOs(arch: string, os: string)
    ensures SelectedBackend(arch, os) == Some(AppleArmBackend) <==> arch == "aarch64" && os == "macos"
  {
  }

  /** Any architecture outside x86, x86_64, arm and aarch64 gets no backend. */
  lemma OtherArchitecturesHaveNone(arch: string, os: string)
    requires arch !in {"x86", "x86_64", "arm", "aarch64"}
    ensures SelectedBackend(arch, os) == None
  {
  }

  /** Width of `usize` on each supported architecture. */
  function UsizeWidthOf(arch: string): Arm.UsizeWidth {
    if arch == "x86" || arch == "arm" then 32 else 64
  }

  /** What the hardware answers: the ARM cache-type register, CPUID, and the macOS sysctl. */
  datatype Hardware = Hardware(ctr: bv64, cpuid: X86.CpuId, sysctl: AppleArm.SysctlOutcome)

  /**
   * The crate's public `get_cache_line_size` on a target, or `None` when the
   * target has no backend and the function does not exist.
   */
  function GetCacheLineSize(arch: string, os: string, hw: Hardware, level: CacheLevel, cacheType: CacheType)
    : (r: Option<Result<nat>>)
    ensures r.None? <==> SelectedBackend(arch, os).None?
    ensures SelectedBackend(arch, os) == Some(X86Backend) ==>
              r == Some(X86.GetCacheLineSize(hw.cpuid, level, cacheType))
    ensures SelectedBackend(arch, os) == Some(ArmBackend) ==>
              r == Some(Arm.GetCacheLineSize(hw.ctr, UsizeWidthOf(arch), level, cacheType))
    ensures SelectedBackend(arch, os) == Some(AppleArmBackend) ==>
              r == Some(AppleArm.GetCacheLineSize(hw.sysctl, level, cacheType))
  {
    match SelectedBackend(arch, os)
    case None => None
    case Some(X86Backend) => Some(X86.GetCacheLineSize(hw.cpuid, level, cacheType))
    case Some(ArmBackend) => Some(Arm.GetCacheLineSize(hw.ctr, UsizeWidthOf(arch), level, cacheType))
    case Some(AppleArmBackend) => Some(AppleArm.GetCacheLineSize(hw.sysctl, level, cacheType))
  }

  /** On every target and every hardware answer, no query reports `InvalidValue`. */
  lemma NeverInvalidValue(arch: string, os: string, hw: Hardware, level: CacheLevel, cacheType: CacheType)
    ensures GetCacheLineSize(arch, os, hw, level, cacheType) != Some(Err(InvalidValue))
  {
    match SelectedBackend(arch, os)
    case None =>
    case Some(X86Backend) => X86.NeverInvalidValue(hw.cpuid, level, cacheType);
    case Some(ArmBackend) => Arm.ArmOutcomes(hw.ctr, UsizeWidthOf(arch), level, cacheType);
    case Some(AppleArmBackend) =>
  }
}
