# cache-line-size, modelled in Dafny

This project models the decision and decoding logic behind the crate's single
query, `get_cache_line_size(level, cache_type) -> Result<usize, CacheInfoError>`.
It covers one backend per target family, and each hardware read is an input to a pure function:

- `types.dfy` (module `Types`) holds the shared vocabulary: `CacheType` with its fixed tags, and `CacheLevel` with
  `from_u8`/`as_u8` and the `From` conversions. It also holds the raw CPUID cache-type tag and its
  conversions, the three-way `CacheInfoError` with its display text, and the `Option`/`Result` shapes.
- `arm.dfy` (module `Arm`) decodes the cache-type register, CTR_EL0 in the Arm Architecture Reference Manual
  for A-profile. IminLine is bits [3:0] and DminLine is bits [19:16]. Each field is log2 of the
  smallest line in 4-byte words. The module also holds the ARM dispatcher. The register value `ctr` and the
  `usize` width (32 or 64) are parameters.
- `x86.dfy` (module `X86`) covers the x86 backend over an abstract CPUID record:
  - Zen detection;
  - the generic "filter by level and kind, take the minimum" path over the deterministic cache
    parameters (leaf 04H in the CPUID reference of the Intel SDM Vol. 2A);
  - the AMD legacy descriptor path (extended leaves 8000_0005h and 8000_0006h, AMD64 APM Vol. 3,
    Appendix E);
  - the vendor dispatch.
- `appl_arm.dfy` (module `AppleArm`) covers the Apple-Silicon backend. It validates the `hw.cachelinesize`
  sysctl outcome `(ret, len, value)` and applies the "L1 only" rule.
- `lib.dfy` (module `Backends`) models the `cfg` predicates as a decision table from
  `(target_arch, target_os)` to a backend, together with the crate-level query that dispatches to it.

Where the code and the crate's prose disagree, the model follows the code:
- ARM answers data and unified queries at every level with DminLine. This includes
  `Other(n)`, so no level is reported as `NotPresent` for data or unified caches.
- No fallback backend is compiled. `src/blanket.rs` is never declared, so on any other
  architecture the crate exports no `get_cache_line_size`. `Backends.GetCacheLineSize` returns
  `None` there instead of `Unsupported`.
- A success is not always a positive size. The Apple backend passes the sysctl value through
  with no positivity or page-size check. The AMD descriptor fields are raw bytes that may be zero.
- `Other(1)` and `L1` are different values. The ARM L1-instruction query compares with
  derived `==` and the AMD descriptor path matches on the `L1` pattern, so both treat
  `Other(1)` as a different level. The generic
  x86 path compares numeric ids, so there `Other(1)` is asked as L1
  (`X86.GenericSeesLevelId`).
- The doc comment on the ARM `get_cache_line_size` says `NotPresent` means the system does not
  support cache parameters, and that `InvalidValue` is returned when the CPU reports an invalid
  value. In the code, `NotPresent` comes only from instruction queries at a level other than L1. `InvalidValue` is
  unreachable, because both fields are masked to 4 bits before decoding (`Arm.ArmOutcomes`).
- The `usize` width (`Backends.UsizeWidthOf`) is a parameter of the ARM decoder, but it never changes an ARM answer.
  A 4-bit field always fits in 32 bits (`Arm.WidthIrrelevant`).

## Model

| member | source | states |
|---|---|---|
| `Types.Tag` | src/types.rs:10-17 | the discriminants are fixed: Data is 1, Instruction is 2, Unified is 3 |
| `Types.TagInjective` | src/types.rs:10-17 | distinct cache types have distinct tags |
| `Types.FromU8` | src/types.rs:35-42 | 1, 2 and 3 map to L1, L2 and L3; every other id n maps to `Other(n)`, both directions |
| `Types.AsU8` | src/types.rs:46-53 | named levels give an id in 1..3, and `Other(n)` gives back exactly n |
| `Types.AsU8FromU8` | src/types.rs:35-53 | every u8 id survives `from_u8` then `as_u8` |
| `Types.FromU8AsU8` | src/types.rs:35-53 | a level survives `as_u8` then `from_u8` exactly when it is not `Other(1..3)`; the result is always canonical |
| `Types.AsU8NotInjective` | src/types.rs:46-53 | `Other(1)`, `Other(2)` and `Other(3)` share ids with L1, L2 and L3 yet are different levels |
| `Types.LevelFrom` | src/types.rs:56-61 | `From<u8> for CacheLevel` agrees with `from_u8` |
| `Types.U8From` | src/types.rs:63-68 | `From<CacheLevel> for u8` agrees with `as_u8` |
| `Types.ToRaw` | src/types.rs:71-80 | every cache type maps to the describable raw tag carrying the same hardware type number (Data 1, Instruction 2, Unified 3; never Null or Reserved) |
| `Types.FromRaw` | src/types.rs:83-93 | defined on Data, Instruction and Unified only, where the crate panics otherwise; it inverts `ToRaw` and keeps the type number |
| `Types.RawRoundTrip` | src/types.rs:71-92 | converting a cache type to the raw tag and back is the identity |
| `Types.ToRawInjective` | src/types.rs:71-80 | equal raw tags mean equal cache types |
| `Types.Message` | src/types.rs:106-118 | every error displays a non-empty message |
| `Types.MessageInjective` | src/types.rs:97-118 | the three errors display three pairwise distinct messages |
| `Arm.ShiftAmount` | src/arm.rs:32 | `field as u32` keeps the low 32 bits: the result is below 2^32 and congruent to the field modulo 2^32, hence the identity below 2^32 |
| `Arm.CheckedShl1` | src/arm.rs:31-33 | `1 << shift` exists exactly when the shift is below the `usize` width, and is then 2^shift below 2^width |
| `Arm.DecodeLineSize` | src/arm.rs:30-35 | `InvalidValue` exactly when the shift reaches the width; otherwise 4 * 2^shift, within `usize` |
| `Arm.DecodeLineSizeScaling` | src/arm.rs:70-74 | fields 0, 1 and 2 decode to 4, 8 and 16 bytes |
| `Arm.DecodeLineSizeDoubles` | src/arm.rs:30-35 | each increment of the field doubles the line size |
| `Arm.DecodeLineSizeInjective` | src/arm.rs:30-35 | in-range fields decode to equal sizes exactly when their shift amounts are equal |
| `Arm.IminLineField` | src/arm.rs:42-45 | IminLine is a 4-bit field |
| `Arm.DminLineField` | src/arm.rs:37-40 | DminLine is a 4-bit field |
| `Arm.IminLineAt` | src/arm.rs:42-45 | a value x below 16 placed in bits [3:0] is read back as IminLine x |
| `Arm.DminLineAt` | src/arm.rs:37-40 | a value x below 16 placed in bits [19:16] is read back as DminLine x |
| `Arm.MaskedFieldDecodes` | src/arm.rs:25-35 | every 4-bit field decodes successfully to 4 * 2^field, between 4 and 131072 bytes |
| `Arm.DecodeIminLine` | src/arm.rs:42-45 | always succeeds with 4 * 2^IminLine, between 4 and 131072; `InvalidValue` is unreachable |
| `Arm.DecodeDminLine` | src/arm.rs:37-40 | always succeeds with 4 * 2^DminLine, between 4 and 131072; `InvalidValue` is unreachable |
| `Arm.IminLineIgnoresOtherBits` | src/arm.rs:42-45 | flipping any bits outside 0..3 leaves the instruction line size unchanged |
| `Arm.DminLineIgnoresOtherBits` | src/arm.rs:37-40 | flipping any bits outside 16..19 leaves the data line size unchanged |
| `Arm.DecodedSizeDeterminesField` | src/arm.rs:37-45 | two registers give the same decoded size exactly when their fields agree |
| `Arm.GetCacheLineSize` | src/arm.rs:53-63 | (L1, Instruction) reads IminLine; Data and Unified at any level read DminLine; `NotPresent` exactly for instruction queries at a level other than L1; no other error |
| `Arm.DataAndUnifiedShareDminLine` | src/arm.rs:58-62 | every data or unified query, at any level, returns the identical value |
| `Arm.WidthIrrelevant` | src/arm.rs:53-63 | a 32-bit and a 64-bit `usize` give the same answer to every ARM query |
| `Arm.ArmOutcomes` | src/arm.rs:53-63 | never `Unsupported` or `InvalidValue`; a success is 4 * 2^k for some k < 16 |
| `X86.AmdIsZen` | src/x86.rs:8-16 | missing feature info is `Unsupported`; otherwise true iff base family is 0xF and extended family is in 0x8..0xA |
| `X86.ZenIsFamily17hTo19h` | src/x86.rs:4-16 | the test accepts exactly the displayed families 17h to 19h |
| `X86.MinMatchingLineSize` | src/x86.rs:27-33 | `None` iff no record matches; otherwise the line size of some matching record and no larger than any matching record's |
| `X86.GenericCacheLineSize` | src/x86.rs:20-34 | `Unsupported` iff the parameters are absent; `NotPresent` iff none matches level id and kind; otherwise the least matching coherency line size; never `InvalidValue` |
| `X86.GenericSeesLevelId` | src/x86.rs:25-30 | levels with the same numeric id get the same generic answer |
| `X86.AmdCacheLineSize` | src/x86.rs:39-63 | only (L1,I), (L1,D), (L2,U) and (L3,U) can succeed; each reads its own descriptor field, and is `Unsupported` when that leaf is absent; every other pair is `NotPresent`; never `InvalidValue` |
| `X86.GetCacheLineSize` | src/x86.rs:79-91 | no vendor, or AMD without feature info, is `Unsupported`; AMD Zen takes the AMD path; non-Zen AMD and every other vendor take the generic path |
| `X86.DispatchCasesPartition` | src/x86.rs:84-90 | every processor falls into one of these cases, and no processor takes both paths |
| `X86.NoVendorUnsupported` | src/x86.rs:84 | a processor with no vendor string is `Unsupported` for every query |
| `X86.AmdWithoutFeatureInfoUnsupported` | src/x86.rs:86 | an AMD processor without feature info is `Unsupported` for every query |
| `X86.OtherVendorIgnoresAmdLeaves` | src/x86.rs:86-90 | for another vendor, feature info and the AMD descriptor leaves do not affect the answer |
| `X86.NeverInvalidValue` | src/x86.rs:8-91 | no x86 query reports `InvalidValue` |
| `AppleArm.ReadCacheLineSize` | src/appl_arm.rs:7-26 | succeeds iff `ret == 0` and `0 < len <= sizeof(size_t)`, returning the raw value unchanged; every failure is `Unsupported` |
| `AppleArm.ReadCacheLineSizeUnchecked` | src/appl_arm.rs:20-22 | the value is not range-checked: any value, zero included, is reported |
| `AppleArm.GetCacheLineSize` | src/appl_arm.rs:31-43 | any level other than L1 is `Unsupported`; L1 is the sysctl read; errors are only ever `Unsupported` |
| `AppleArm.CacheTypeIrrelevant` | src/appl_arm.rs:35-42 | Data, Instruction and Unified get the same answer at every level |
| `Backends.SelectedBackend` | src/lib.rs:13-32 | the chosen backend's `cfg` predicate holds; no backend exactly when none of the three predicates holds |
| `Backends.AtMostOneBackend` | src/lib.rs:13-32 | no target enables two backends |
| `Backends.SelectionTable` | src/lib.rs:13-32 | x86 and x86_64 give x86; arm gives ARM; aarch64 gives Apple on macOS and ARM elsewhere |
| `Backends.AppleOnlyOnAarch64MacOs` | src/lib.rs:29-32 | the Apple backend is selected iff the target is aarch64 on macOS |
| `Backends.OtherArchitecturesHaveNone` | src/lib.rs:13-32 | any other architecture gets no backend, since no fallback module is declared |
| `Backends.GetCacheLineSize` | src/lib.rs:13-32 | the public query exists iff a backend is selected, and is then that backend's answer |
| `Backends.NeverInvalidValue` | src/lib.rs:13-32 | on every target and hardware answer, no query reports `InvalidValue` |

## Left out

- The inline-assembly register reads (`mrs ctr_el0` and `mrc p15`) are left out: the register value is the `ctr` parameter. On 32-bit `arm` the source zero-extends a 32-bit read. The model takes any 64-bit value, which covers that case.
- `CpuId::new`, and raw_cpuid's decoding of CPUID leaves into records, are left out. The CPUID answers are the abstract `X86.CpuId` record. The order and contents of the cache-parameter sequence are whatever the enumeration yields.
- The `sysctlbyname` foreign call is left out: its outcome `(ret, len, value)` is an input.
- `Arm.DecodeLineSize`: requires `ProductFits`, i.e. that the unchecked `words * WORD_SIZE` does not overflow. Only an unmasked shift of width-2 or width-1 breaks this, and no caller passes one: both callers mask the field to 4 bits. The panic or wrap-around on overflow is not modelled.
- `Types.FromRaw`: the panic on a Null or Reserved raw tag is a precondition rather than a modelled outcome.
- `src/blanket.rs` is never declared by `src/lib.rs`, so it is not compiled and is not modelled.
- The command-line example and the sysfs cross-check test are left out. Both are presentation or live-hardware code.
- Concurrency is left out. Every query is a stateless pure function here, as it is in the source.
