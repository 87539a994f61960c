/**
 * The x86 backend. The CPUID instruction is replaced by an abstract record
 * of the leaves the backend consults, each of which may be absent:
 * the vendor string (leaf 0), the feature information (leaf 1), the
 * deterministic cache parameters (leaf 04H in the CPUID reference of the
 * Intel SDM Vol. 2A), and AMD's legacy L1 and L2/L3 cache descriptors
 * (extended leaves 8000_0005h and 8000_0006h, AMD64 APM Vol. 3, Appendix E).
 */
module X86 {
  import opened Types

  type uint4 = n: nat | n < 0x10

  const AMD_VENDOR: string := "AuthenticAMD"

  /** The family fields of leaf 1: base family is EAX[11:8], extended family EAX[27:20]. */
  datatype FeatureInfo = FeatureInfo(baseFamilyId: uint4, extendedFamilyId: uint8)

  /** One deterministic-cache-parameter record. */
  datatype CacheParameter = CacheParameter(level: uint8, cacheType: RawCacheType, coherencyLineSize: nat)

  /** L1 line sizes from the AMD legacy L1 descriptor leaf. */
  datatype L1CacheInfo = L1CacheInfo(dcacheLineSize: uint8, icacheLineSize: uint8)

  /** L2 and L3 line sizes from the AMD legacy L2/L3 descriptor leaf. */
  datatype L2L3CacheInfo = L2L3CacheInfo(l2cacheLineSize: uint8, l3cacheLineSize: uint8)

  /** What the CPUID instruction answers on this processor. */
  datatype CpuId = CpuId(
    vendor: Option<string>,
    featureInfo: Option<FeatureInfo>,
    cacheParameters: Option<seq<CacheParameter>>,
    l1Info: Option<L1CacheInfo>,
    l2l3Info: Option<L2L3CacheInfo>)

  /** The displayed family: base plus extended family when the base family is 0xF. */
  function DisplayFamily(info: FeatureInfo): nat {
    if info.baseFamilyId == 0xF then info.baseFamilyId + info.extendedFamilyId else info.baseFamilyId
  }

  /** The Zen families: base family 0xF with extended family 0x8 to 0xA. */
  predicate IsZen(info: FeatureInfo) {
    info.baseFamilyId == 0xF && 0x8 <= info.extendedFamilyId <= 0xA
  }

  /** `amd_is_zen`: whether the feature information names a Zen family. */
  function AmdIsZen(cpuid: CpuId): (r: Result<bool>)
    ensures r.Err? <==> cpuid.featureInfo.None?
    ensures r.Err? ==> r.error == Unsupported
    ensures r.Ok? ==> (r.value <==> cpuid.featureInfo.value.baseFamilyId == 0xF
                                     && 0x8 <= cpuid.featureInfo.value.extendedFamilyId <= 0xA)
  {
    match cpuid.featureInfo
    case None => Err(Unsupported)
    case Some(info) => Ok(IsZen(info))
  }

  /** The test accepts exactly the displayed families 17h, 18h and 19h. */
  lemma ZenIsFamily17hTo19h(cpuid: CpuId)
    requires cpuid.featureInfo.Some?
    ensures AmdIsZen(cpuid) == Ok(0x17 <= DisplayFamily(cpuid.featureInfo.value) <= 0x19)
  {
  }

  predicate Matches(p: CacheParameter, levelId: uint8, kind: RawCacheType) {
    p.level == levelId && p.cacheType == kind
  }

  /**
   * `filter(..).map(coherency_line_size).min()`: the smallest coherency
   * line size among the records of the requested level and kind, or `None`
   * when no record matches.
   */
  function MinMatchingLineSize(params: seq<CacheParameter>, levelId: uint8, kind: RawCacheType): (r: Option<nat>)
    ensures r.None? <==> forall i | 0 <= i < |params| :: !Matches(params[i], levelId, kind)
    ensures r.Some? ==> exists i | 0 <= i < |params| ::
              Matches(params[i], levelId, kind) && params[i].coherencyLineSize == r.value
    ensures r.Some? ==> forall i | 0 <= i < |params| && Matches(params[i], levelId, kind) ::
              r.value <= params[i].coherencyLineSize
  {
    if |params| == 0 then None
    else
      var rest := MinMatchingLineSize(params[1..], levelId, kind);
      assert forall i | 1 <= i < |params| :: params[i] == params[1..][i - 1];
      if !Matches(params[0], levelId, kind) then rest
      else
        var here := params[0].coherencyLineSize;
        match rest
        case None => Some(here)
        case Some(m) => Some(if m < here then m else here)
  }

  /** `generic_cache_line_size`: minimum over the deterministic cache parameters. */
  function GenericCacheLineSize(cpuid: CpuId, level: CacheLevel, cacheType: CacheType): (r: Result<nat>)
    ensures r == Err(Unsupported) <==> cpuid.cacheParameters.None?
    ensures r == Err(NotPresent) <==>
              (cpuid.cacheParameters.Some? &&
               forall p | p in cpuid.cacheParameters.value :: !Matches(p, AsU8(level), ToRaw(cacheType)))
    ensures r.Ok? ==> exists p | p in cpuid.cacheParameters.value ::
              Matches(p, AsU8(level), ToRaw(cacheType)) && p.coherencyLineSize == r.value
    ensures r.Ok? ==> forall p | p in cpuid.cacheParameters.value && Matches(p, AsU8(level), ToRaw(cacheType)) ::
              r.value <= p.coherencyLineSize
    ensures r != Err(InvalidValue)
  {
    match cpuid.cacheParameters
    case None => Err(Unsupported)
    case Some(params) =>
      match MinMatchingLineSize(params, U8From(level), ToRaw(cacheType))
      case None => Err(NotPresent)
      case Some(n) => Ok(n)
  }

  /** The generic path sees a level only through its numeric id, so `Other(1)` is asked as L1. */
  lemma GenericSeesLevelId(cpuid: CpuId, l: CacheLevel, m: CacheLevel, cacheType: CacheType)
    requires AsU8(l) == AsU8(m)
    ensures GenericCacheLineSize(cpuid, l, cacheType) == GenericCacheLineSize(cpuid, m, cacheType)
  {
  }

  /**
   * `amd_cache_line_size`: the legacy descriptors give the L1 instruction
   * and L1 data lines separately, and L2 and L3 only as unified caches.
   */
  function AmdCacheLineSize(cpuid: CpuId, level: CacheLevel, cacheType: CacheType): (r: Result<nat>)
    ensures r.Ok? ==> (level, cacheType) in {(L1, Instruction), (L1, Data), (L2, Unified), (L3, Unified)}
    ensures (level, cacheType) == (L1, Instruction) ==>
              r == (if cpuid.l1Info.Some? then Ok(cpuid.l1Info.value.icacheLineSize) else Err(Unsupported))
    ensures (level, cacheType) == (L1, Data) ==>
              r == (if cpuid.l1Info.Some? then Ok(cpuid.l1Info.value.dcacheLineSize) else Err(Unsupported))
    ensures (level, cacheType) == (L2, Unified) ==>
              r == (if cpuid.l2l3Info.Some? then Ok(cpuid.l2l3Info.value.l2cacheLineSize) else Err(Unsupported))
    ensures (level, cacheType) == (L3, Unified) ==>
              r == (if cpuid.l2l3Info.Some? then Ok(cpuid.l2l3Info.value.l3cacheLineSize) else Err(Unsupported))
    ensures r == Err(NotPresent) <==>
              (level, cacheType) !in {(L1, Instruction), (L1, Data), (L2, Unified), (L3, Unified)}
    ensures r != Err(InvalidValue)
  {
    match (level, cacheType)
    case (L1, Instruction) =>
      if cpuid.l1Info.Some? then Ok(cpuid.l1Info.value.icacheLineSize) else Err(Unsupported)
    case (L1, Data) =>
      if cpuid.l1Info.Some? then Ok(cpuid.l1Info.value.dcacheLineSize) else Err(Unsupported)
    case (L2, Unified) =>
      if cpuid.l2l3Info.Some? then Ok(cpuid.l2l3Info.value.l2cacheLineSize) else Err(Unsupported)
    case (L3, Unified) =>
      if cpuid.l2l3Info.Some? then Ok(cpuid.l2l3Info.value.l3cacheLineSize) else Err(Unsupported)
    case _ => Err(NotPresent)
  }

  /** The processors `get_cache_line_size` sends to the AMD legacy descriptors. */
  predicate UsesAmdPath(cpuid: CpuId) {
    cpuid.vendor == Some(AMD_VENDOR) && cpuid.featureInfo.Some? && IsZen(cpuid.featureInfo.value)
  }

  /** The processors `get_cache_line_size` sends to the deterministic cache parameters. */
  predicate UsesGenericPath(cpuid: CpuId) {
    && cpuid.vendor.Some?
    && (cpuid.vendor.value != AMD_VENDOR || (cpuid.featureInfo.Some? && !IsZen(cpuid.featureInfo.value)))
  }

  /**
   * `get_cache_line_size` for x86: an AMD processor is first checked for
   * Zen, and the check's own `Unsupported` is passed on; every other vendor
   * goes to the generic path.
   */
  function GetCacheLineSize(cpuid: CpuId, level: CacheLevel, cacheType: CacheType): (r: Result<nat>)
    ensures cpuid.vendor.None? ==> r == Err(Unsupported)
    ensures cpuid.vendor == Some(AMD_VENDOR) && cpuid.featureInfo.None? ==> r == Err(Unsupported)
    ensures UsesAmdPath(cpuid) ==> r == AmdCacheLineSize(cpuid, level, cacheType)
    ensures UsesGenericPath(cpuid) ==> r == GenericCacheLineSize(cpuid, level, cacheType)
  {
    match cpuid.vendor
    case None => Err(Unsupported)
    case Some(v) =>
      if v == AMD_VENDOR then
        (match AmdIsZen(cpuid)
         case Err(e) => Err(e)
         case Ok(zen) =>
           if zen then AmdCacheLineSize(cpuid, level, cacheType)
           else GenericCacheLineSize(cpuid, level, cacheType))
      else GenericCacheLineSize(cpuid, level, cacheType)
  }

  /** Every processor falls into exactly one of the four cases above. */
  lemma DispatchCasesPartition(cpuid: CpuId)
    ensures cpuid.vendor.None?
            || (cpuid.vendor == Some(AMD_VENDOR) && cpuid.featureInfo.None?)
            || UsesAmdPath(cpuid) || UsesGenericPath(cpuid)
    ensures !(UsesAmdPath(cpuid) && UsesGenericPath(cpuid))
  {
  }

  /** A processor that reports no vendor string supports no query. */
  lemma NoVendorUnsupported(cpuid: CpuId, level: CacheLevel, cacheType: CacheType)
    requires cpuid.vendor.None?
    ensures GetCacheLineSize(cpuid, level, cacheType) == Err(Unsupported)
  {
  }

  /** An AMD processor without feature information is `Unsupported`, whatever else it reports. */
  lemma AmdWithoutFeatureInfoUnsupported(cpuid: CpuId, level: CacheLevel, cacheType: CacheType)
    requires cpuid.vendor == Some(AMD_VENDOR) && cpuid.featureInfo.None?
    ensures GetCacheLineSize(cpuid, level, cacheType) == Err(Unsupported)
  {
  }

  /** Another vendor's answer does not depend on the feature information or the AMD leaves. */
  lemma OtherVendorIgnoresAmdLeaves(cpuid: CpuId, fi: Option<FeatureInfo>, l1: Option<L1CacheInfo>,
                                    l2l3: Option<L2L3CacheInfo>, level: CacheLevel, cacheType: CacheType)
    requires cpuid.vendor.Some? && cpuid.vendor.value != AMD_VENDOR
    ensures GetCacheLineSize(cpuid.(featureInfo := fi, l1Info := l1, l2l3Info := l2l3), level, cacheType)
         == GetCacheLineSize(cpuid, level, cacheType)
  {
  }

  /** No x86 query ever reports `InvalidValue`. */
  lemma NeverInvalidValue(cpuid: CpuId, level: CacheLevel, cacheType: CacheType)
    ensures GetCacheLineSize(cpuid, level, cacheType) != Err(InvalidValue)
  {
  }
}
