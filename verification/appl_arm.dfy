/**
 * The Apple-Silicon backend. macOS user space exposes one cache line size,
 * through the `hw.cachelinesize` sysctl key; the outcome of that call is an
 * input to this model.
 */
module AppleArm {
  import opened Types

  /** `size_of::<size_t>()` on aarch64 macOS. */
  const SIZE_T_BYTES: nat := 8

  type int32 = n: int | -0x8000_0000 <= n < 0x8000_0000

  /** What `sysctlbyname` left behind: its return code, the length it wrote, and the value. */
  datatype SysctlOutcome = SysctlOutcome(ret: int32, len: uint64, value: uint64)

  /** `read_cache_line_size`: the raw value when the call succeeded with a plausible length. */
  function ReadCacheLineSize(s: SysctlOutcome): (r: Result<nat>)
    ensures r.Ok? <==> s.ret == 0 && 0 < s.len <= SIZE_T_BYTES
    ensures r.Ok? ==> r.value == s.value
    ensures r.Err? ==> r.error == Unsupported
  {
    if s.ret == 0 && s.len > 0 && s.len <= SIZE_T_BYTES then Ok(s.value) else Err(Unsupported)
  }

  /** The value is passed through unchecked: even 0 or a value above any page size is reported. */
  lemma ReadCacheLineSizeUnchecked(value: uint64)
    ensures ReadCacheLineSize(SysctlOutcome(0, SIZE_T_BYTES, value)) == Ok(value)
  {
  }

  /** `get_cache_line_size` for Apple Silicon: only L1 is visible, with no instruction/data split. */
  function GetCacheLineSize(s: SysctlOutcome, level: CacheLevel, cacheType: CacheType): (r: Result<nat>)
    ensures level != L1 ==> r == Err(Unsupported)
    ensures level == L1 ==> r == ReadCacheLineSize(s)
    ensures r.Ok? <==> level == L1 && s.ret == 0 && 0 < s.len <= SIZE_T_BYTES
    ensures r.Err? ==> r.error == Unsupported
  {
    match level
    case L1 =>
      (match cacheType
       case Instruction => ReadCacheLineSize(s)
       case Data => ReadCacheLineSize(s)
       case Unified => ReadCacheLineSize(s))
    case _ => Err(Unsupported)
  }

  /** The three cache types are indistinguishable on Apple Silicon. */
  lemma CacheTypeIrrelevant(s: SysctlOutcome, level: CacheLevel, t: CacheType, u: CacheType)
    ensures GetCacheLineSize(s, level, t) == GetCacheLineSize(s, level, u)
  {
  }
}
