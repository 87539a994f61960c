/**
 * Shared vocabulary of the cache-line-size query: the cache type and cache
 * level enumerations, the raw cache-type tag reported by CPUID, and the
 * three-way error every backend reports.
 */
module Types {

  type uint8 = n: nat | n < 0x100
  type uint64 = n: nat | n < 0x1_0000_0000_0000_0000

  /** The conventional Some/None datatype, for hardware reads that may be absent. */
  datatype Option<+T> = None | Some(value: T)

  /** The three outcomes a query may fail with; they are never merged. */
  datatype CacheInfoError = Unsupported | NotPresent | InvalidValue

  /** `Result<usize, CacheInfoError>`: a line size in bytes, or one error. */
  datatype Result<+T> = Ok(value: T) | Err(error: CacheInfoError)

  /** Type of cache being described (a `#[repr(u8)]` enumeration). */
  datatype CacheType = Data | Instruction | Unified

  /** The explicit discriminant of each cache type. */
  function Tag(t: CacheType): (r: uint8)
    ensures 1 <= r <= 3
    ensures t == Data <==> r == 1
    ensures t == Instruction <==> r == 2
  {
    match t
    case Data => 1
    case Instruction => 2
    case Unified => 3
  }

  lemma TagInjective(t: CacheType, u: CacheType)
    ensures Tag(t) == Tag(u) <==> t == u
  {
  }

  /** Cache hierarchy level; `Other` carries any numeric id, including 1, 2 and 3. */
  datatype CacheLevel = L1 | L2 | L3 | Other(id: uint8)

  /** `CacheLevel::from_u8`: the level with the given CPUID numeric identifier. */
  function FromU8(n: uint8): (r: CacheLevel)
    ensures r == L1 <==> n == 1
    ensures r == L2 <==> n == 2
    ensures r == L3 <==> n == 3
    ensures n !in {1, 2, 3} <==> r == Other(n)
  {
    match n
    case 1 => L1
    case 2 => L2
    case 3 => L3
    case _ => Other(n)
  }

  /** `CacheLevel::as_u8`: the numeric identifier of a level. */
  function AsU8(level: CacheLevel): (r: uint8)
    ensures level.Other? ==> r == level.id
    ensures !level.Other? ==> 1 <= r <= 3
  {
    match level
    case L1 => 1
    case L2 => 2
    case L3 => 3
    case Other(n) => n
  }

  /** Every numeric identifier survives the trip through a level. */
  lemma AsU8FromU8(n: uint8)
    ensures AsU8(FromU8(n)) == n
  {
  }

  /** A level survives the trip through its identifier exactly when it is canonical. */
  predicate Canonical(level: CacheLevel) {
    level.Other? ==> level.id !in {1, 2, 3}
  }

  lemma FromU8AsU8(level: CacheLevel)
    ensures FromU8(AsU8(level)) == level <==> Canonical(level)
    ensures Canonical(FromU8(AsU8(level)))
  {
  }

  /** `as_u8` is not injective: `Other(1)`, `Other(2)` and `Other(3)` share the named levels' ids. */
  lemma AsU8NotInjective()
    ensures AsU8(Other(1)) == AsU8(L1) && Other(1) != L1
    ensures AsU8(Other(2)) == AsU8(L2) && Other(2) != L2
    ensures AsU8(Other(3)) == AsU8(L3) && Other(3) != L3
  {
  }

  /** `impl From<u8> for CacheLevel`. */
  function LevelFrom(n: uint8): (r: CacheLevel)
    ensures r == FromU8(n)
  {
    FromU8(n)
  }

  /** `impl From<CacheLevel> for u8`. */
  function U8From(level: CacheLevel): (r: uint8)
    ensures r == AsU8(level)
  {
    AsU8(level)
  }

  /** The cache-type tag as CPUID reports it; `Null` and `Reserved` have no `CacheType`. */
  datatype RawCacheType = RawNull | RawData | RawInstruction | RawUnified | RawReserved

  /** The type field of CPUID leaf 04H, EAX[4:0]: 0 null, 1 data, 2 instruction, 3 unified, 4 and up reserved. */
  function RawTag(raw: RawCacheType): nat {
    match raw
    case RawNull => 0
    case RawData => 1
    case RawInstruction => 2
    case RawUnified => 3
    case RawReserved => 4
  }

  predicate Describable(raw: RawCacheType) {
    raw == RawData || raw == RawInstruction || raw == RawUnified
  }

  /** `impl From<CacheType> for raw_cpuid::CacheType`. */
  function ToRaw(t: CacheType): (r: RawCacheType)
    ensures Describable(r)
    ensures RawTag(r) == Tag(t)
  {
    match t
    case Data => RawData
    case Instruction => RawInstruction
    case Unified => RawUnified
  }

  /** `impl From<raw_cpuid::CacheType> for CacheType`; the crate panics on other tags. */
  function FromRaw(raw: RawCacheType): (r: CacheType)
    requires Describable(raw)
    ensures ToRaw(r) == raw
    ensures Tag(r) == RawTag(raw)
  {
    match raw
    case RawData => Data
    case RawInstruction => Instruction
    case RawUnified => Unified
  }

  lemma RawRoundTrip(t: CacheType)
    ensures FromRaw(ToRaw(t)) == t
  {
  }

  /** `ToRaw` is injective, so comparing raw tags is comparing cache types. */
  lemma ToRawInjective(t: CacheType, u: CacheType)
    ensures ToRaw(t) == ToRaw(u) <==> t == u
  {
  }

  /** The `Display` text of each error. */
  function Message(e: CacheInfoError): (r: string)
    ensures |r| > 0
  {
    match e
    case Unsupported => "retrieving cache metadata is not supported on this system"
    case NotPresent => "the requested cache level/type combination is not present"
    case InvalidValue => "the CPU reported invalid cache metadata"
  }

  /** Distinct errors display distinct messages. */
  lemma MessageInjective(e: CacheInfoError, f: CacheInfoError)
    ensures Message(e) == Message(f) <==> e == f
  {
  }
}
