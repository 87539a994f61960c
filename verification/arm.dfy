/**
 * The generic ARM backend: line sizes decoded from the cache-type register
 * (CTR_EL0 in the Arm Architecture Reference Manual for A-profile). IminLine
 * sits in bits [3:0] and DminLine in bits [19:16]; each holds log2 of the
 * smallest line, counted in 4-byte words. The register value is an input.
 */
module Arm {
  import opened Types

  const WORD_SIZE: nat := 4
  const LINE_SIZE_MASK: bv64 := 0xF
  const DMINLINE_SHIFT: bv64 := 16

  /** Bit width of `usize` on the target: 32 on `arm`, 64 on `aarch64`. */
  type UsizeWidth = w: nat | w == 32 || w == 64 witness 64

  function Pow2(k: nat): (r: nat)
    ensures r >= 1
  {
    if k == 0 then 1 else 2 * Pow2(k - 1)
  }

  lemma {:induction false} Pow2Add(a: nat, b: nat)
    ensures Pow2(a + b) == Pow2(a) * Pow2(b)
    decreases a
  {
    if a > 0 {
      Pow2Add(a - 1, b);
      assert Pow2(a + b) == 2 * Pow2(a - 1 + b);
    }
  }

  lemma {:induction false} Pow2StrictlyMonotone(a: nat, b: nat)
    ensures a < b <==> Pow2(a) < Pow2(b)
    decreases a + b
  {
    if a > 0 && b > 0 {
      Pow2StrictlyMonotone(a - 1, b - 1);
    } else if a == 0 && b > 0 {
      Pow2StrictlyMonotone(0, b - 1);
    } else if a > 0 && b == 0 {
      Pow2StrictlyMonotone(a - 1, 0);
    }
  }

  /** `field as u32`: the cast keeps the low 32 bits of the shift amount. */
  function ShiftAmount(field: uint64): (r: nat)
    ensures r < 0x1_0000_0000
    ensures (field - r) % 0x1_0000_0000 == 0
    ensures field < 0x1_0000_0000 ==> r == field
  {
    field % 0x1_0000_0000
  }

  /** `1usize.checked_shl(shift)`: `None` once the shift reaches the bit width. */
  function CheckedShl1(shift: nat, width: UsizeWidth): (r: Option<nat>)
    ensures r.None? <==> shift >= width
    ensures r.Some? ==> r.value == Pow2(shift) && r.value < Pow2(width)
  {
    if shift < width then
      Pow2StrictlyMonotone(shift, width);
      Some(Pow2(shift))
    else None
  }

  /**
   * `words * WORD_SIZE` is an unchecked multiplication: it stays in range
   * only when the shift is at least two below the width. Every caller
   * passes a 4-bit field, which always meets this.
   */
  predicate ProductFits(field: uint64, width: UsizeWidth) {
    ShiftAmount(field) >= width || ShiftAmount(field) + 2 < width
  }

  /** `decode_line_size`: `WORD_SIZE << field`, or `InvalidValue` when the shift overflows. */
  function DecodeLineSize(field: uint64, width: UsizeWidth): (r: Result<nat>)
    requires ProductFits(field, width)
    ensures r.Err? <==> ShiftAmount(field) >= width
    ensures r.Err? ==> r.error == InvalidValue
    ensures r.Ok? ==> r.value == WORD_SIZE * Pow2(ShiftAmount(field))
    ensures r.Ok? ==> WORD_SIZE <= r.value < Pow2(width)
  {
    match CheckedShl1(ShiftAmount(field), width)
    case None => Err(InvalidValue)
    case Some(words) =>
      var shift := ShiftAmount(field);
      Pow2Add(2, shift);
      Pow2StrictlyMonotone(shift + 2, width);
      Ok(words * WORD_SIZE)
  }

  /** The scaling the crate's `decode_line_size_scaling` test expects: 4, 8 and 16 bytes for fields 0, 1 and 2. */
  lemma DecodeLineSizeScaling(width: UsizeWidth)
    ensures DecodeLineSize(0, width) == Ok(WORD_SIZE)
    ensures DecodeLineSize(1, width) == Ok(WORD_SIZE * 2)
    ensures DecodeLineSize(2, width) == Ok(WORD_SIZE * 4)
  {
  }

  /** Each increment of the field doubles the decoded line size while it fits. */
  lemma DecodeLineSizeDoubles(field: nat, width: UsizeWidth)
    requires field + 3 < width
    ensures DecodeLineSize(field + 1, width).Ok?
    ensures DecodeLineSize(field + 1, width).value == 2 * DecodeLineSize(field, width).value
  {
  }

  /** Distinct in-range fields decode to distinct line sizes. */
  lemma DecodeLineSizeInjective(f: uint64, g: uint64, width: UsizeWidth)
    requires ShiftAmount(f) + 2 < width && ShiftAmount(g) + 2 < width
    ensures DecodeLineSize(f, width) == DecodeLineSize(g, width) <==> ShiftAmount(f) == ShiftAmount(g)
  {
    Pow2StrictlyMonotone(ShiftAmount(f), ShiftAmount(g));
    Pow2StrictlyMonotone(ShiftAmount(g), ShiftAmount(f));
  }

  /** IminLine, bits [3:0]. */
  function IminLineField(ctr: bv64): (r: nat)
    ensures r < 16
  {
    (ctr & LINE_SIZE_MASK) as nat
  }

  /** DminLine, bits [19:16]. */
  function DminLineField(ctr: bv64): (r: nat)
    ensures r < 16
  {
    ((ctr >> DMINLINE_SHIFT) & LINE_SIZE_MASK) as nat
  }

  /** IminLine is exactly bits [3:0]: a register holding only x there reads back x. */
  lemma IminLineAt(x: bv64)
    requires x < 16
    ensures IminLineField(x) == x as nat
  {
  }

  /** DminLine is exactly bits [19:16]: a register holding only x there reads back x. */
  lemma DminLineAt(x: bv64)
    requires x < 16
    ensures DminLineField(x << 16) == x as nat
  {
  }

  /** A 4-bit field always decodes: a power of two between 4 and 131072 bytes. */
  lemma MaskedFieldDecodes(field: uint64, width: UsizeWidth)
    requires field < 16
    ensures ProductFits(field, width)
    ensures DecodeLineSize(field, width).Ok?
    ensures DecodeLineSize(field, width).value == WORD_SIZE * Pow2(field)
    ensures 4 <= DecodeLineSize(field, width).value <= 131072
  {
    Pow2StrictlyMonotone(field, 15);
    assert Pow2(15) == 32768;
  }

  /** `decode_iminline`: the smallest instruction-cache line, never an error. */
  function DecodeIminLine(ctr: bv64, width: UsizeWidth): (r: Result<nat>)
    ensures r.Ok?
    ensures r.value == WORD_SIZE * Pow2(IminLineField(ctr))
    ensures 4 <= r.value <= 131072
  {
    MaskedFieldDecodes(IminLineField(ctr), width);
    DecodeLineSize(IminLineField(ctr), width)
  }

  /** `decode_dminline`: the smallest data or unified line, never an error. */
  function DecodeDminLine(ctr: bv64, width: UsizeWidth): (r: Result<nat>)
    ensures r.Ok?
    ensures r.value == WORD_SIZE * Pow2(DminLineField(ctr))
    ensures 4 <= r.value <= 131072
  {
    MaskedFieldDecodes(DminLineField(ctr), width);
    DecodeLineSize(DminLineField(ctr), width)
  }

  /** IminLine is read from bits 0 to 3 alone: flipping any set of other bits changes nothing. */
  lemma IminLineIgnoresOtherBits(ctr: bv64, flips: bv64, width: UsizeWidth)
    requires flips & 0xF == 0
    ensures DecodeIminLine(ctr ^ flips, width) == DecodeIminLine(ctr, width)
  {
    assert (ctr ^ flips) & LINE_SIZE_MASK == ctr & LINE_SIZE_MASK;
  }

  /** DminLine is read from bits 16 to 19 alone: flipping any set of other bits changes nothing. */
  lemma DminLineIgnoresOtherBits(ctr: bv64, flips: bv64, width: UsizeWidth)
    requires flips & 0xF_0000 == 0
    ensures DecodeDminLine(ctr ^ flips, width) == DecodeDminLine(ctr, width)
  {
    DminLineBitsUnchanged(ctr, flips);
    assert DminLineField(ctr ^ flips) == DminLineField(ctr);
  }

  lemma DminLineBitsUnchanged(ctr: bv64, flips: bv64)
    requires flips & 0xF_0000 == 0
    ensures ((ctr ^ flips) >> DMINLINE_SHIFT) & LINE_SIZE_MASK == (ctr >> DMINLINE_SHIFT) & LINE_SIZE_MASK
  {
  }

  /** Conversely, the decoded size determines the field: registers agree exactly when their fields do. */
  lemma DecodedSizeDeterminesField(ctr: bv64, ctr': bv64, width: UsizeWidth)
    ensures DecodeIminLine(ctr, width) == DecodeIminLine(ctr', width) <==> IminLineField(ctr) == IminLineField(ctr')
    ensures DecodeDminLine(ctr, width) == DecodeDminLine(ctr', width) <==> DminLineField(ctr) == DminLineField(ctr')
  {
    Pow2StrictlyMonotone(IminLineField(ctr), IminLineField(ctr'));
    Pow2StrictlyMonotone(IminLineField(ctr'), IminLineField(ctr));
    Pow2StrictlyMonotone(DminLineField(ctr), DminLineField(ctr'));
    Pow2StrictlyMonotone(DminLineField(ctr'), DminLineField(ctr));
  }

  /**
   * `get_cache_line_size` for ARM: the L1 instruction query reads IminLine,
   * every data or unified query (at any level, `Other` included) reads
   * DminLine, and any other instruction query is `NotPresent`.
   */
  function GetCacheLineSize(ctr: bv64, width: UsizeWidth, level: CacheLevel, cacheType: CacheType): (r: Result<nat>)
    ensures cacheType == Instruction && level == L1 ==> r == DecodeIminLine(ctr, width)
    ensures cacheType != Instruction ==> r == DecodeDminLine(ctr, width)
    ensures r == Err(NotPresent) <==> cacheType == Instruction && level != L1
    ensures r.Err? ==> r.error == NotPresent
  {
    match cacheType
    case Instruction => if level == L1 then DecodeIminLine(ctr, width) else Err(NotPresent)
    case Data => DecodeDminLine(ctr, width)
    case Unified => DecodeDminLine(ctr, width)
  }

  /** ARM reports one data/unified minimum for the whole hierarchy. */
  lemma DataAndUnifiedShareDminLine(ctr: bv64, width: UsizeWidth, l: CacheLevel, m: CacheLevel, t: CacheType, u: CacheType)
    requires t != Instruction && u != Instruction
    ensures GetCacheLineSize(ctr, width, l, t) == GetCacheLineSize(ctr, width, m, u)
  {
  }

  /** Once the fields are masked to 4 bits, the `usize` width never changes an ARM answer. */
  lemma WidthIrrelevant(ctr: bv64, level: CacheLevel, cacheType: CacheType)
    ensures GetCacheLineSize(ctr, 32, level, cacheType) == GetCacheLineSize(ctr, 64, level, cacheType)
  {
  }

  /** Every ARM success is a power-of-two line between 4 and 131072 bytes; no query is `Unsupported`. */
  lemma ArmOutcomes(ctr: bv64, width: UsizeWidth, level: CacheLevel, cacheType: CacheType)
    ensures GetCacheLineSize(ctr, width, level, cacheType) != Err(Unsupported)
    ensures GetCacheLineSize(ctr, width, level, cacheType) != Err(InvalidValue)
    ensures GetCacheLineSize(ctr, width, level, cacheType).Ok? ==>
              exists k: nat | k < 16 :: GetCacheLineSize(ctr, width, level, cacheType).value == WORD_SIZE * Pow2(k)
  {
    if cacheType == Instruction && level == L1 {
      var k := IminLineField(ctr);
      assert GetCacheLineSize(ctr, width, level, cacheType).value == WORD_SIZE * Pow2(k);
    } else if cacheType != Instruction {
      var k := DminLineField(ctr);
      assert GetCacheLineSize(ctr, width, level, cacheType).value == WORD_SIZE * Pow2(k);
    }
  }
}
