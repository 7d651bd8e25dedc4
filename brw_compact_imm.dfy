// The immediate codec of Intel EU instruction compaction: a compacted
// instruction holds 13 immediate bits before Gfx12 (the 13th replicated
// through the high 20), and 12 bits on Gfx12, placed per register type.
// 32-bit values are naturals below 2^32; a mask `& (2^k - 1)` is `% 2^k`,
// `>> k` on an unsigned value is `/ 2^k`, and `(int)x >> k` is the floor
// division of the two's-complement reading of x.
module BrwCompactImm {
  import opened Wrappers
  import opened Bits

  type uint32 = x: nat | x < 0x1_0000_0000

  /** brw_reg_type. */
  datatype RegType = UD | D | UW | W | UB | B | UQ | Q | DF | F | HF | NF | VF | UV | V

  /** `(int)x`: a 32-bit pattern read as two's complement. */
  function Signed32(x: uint32): (r: int)
    ensures -0x8000_0000 <= r < 0x8000_0000 && r % U32 == x
  {
    if x < 0x8000_0000 then x else x - U32
  }

  /** `(short)x`: the low 16 bits read as two's complement. */
  function Signed16(x: uint32): (r: int)
    ensures -0x8000 <= r < 0x8000 && r % 0x1_0000 == x % 0x1_0000
  {
    var lo := x % 0x1_0000;
    if lo < 0x8000 then lo else lo - 0x1_0000
  }

  /** An int stored back into 32 bits. */
  function Unsigned32(v: int): uint32
  {
    v % U32
  }

  /** `((int)x >> k) == 0 || ((int)x >> k) == -1`, for 2^k == d. */
  predicate ShiftsToSign(v: int, d: nat)
    requires d > 0
  {
    v / d == 0 || v / d == -1
  }

  /** The 16-bit types the Gfx12 encoding replicates through both halves. */
  predicate IsReplicated16(t: RegType)
  {
    t == W || t == UW || t == HF
  }

  /** The types that never compact on Gfx12. */
  predicate NeverCompactsGfx12(t: RegType)
  {
    t == NF || t == DF || t == Q || t == UQ || t == B || t == UB
  }

  /** compact_immediate: the compacted bits, or None for the source's -1. */
  function CompactImmediate(ver: nat, t: RegType, imm: uint32): (r: Option<uint32>)
    ensures r.Some? && ver >= 12 ==> r.value < 0x1000
    ensures r.Some? && ver < 12 ==> r.value < 0x2000
    ensures ver >= 12 && NeverCompactsGfx12(t) ==> r.None?
    ensures ver >= 12 && IsReplicated16(t) && imm / 0x1_0000 != imm % 0x1_0000 ==> r.None?
  {
    if ver >= 12 then
      if IsReplicated16(t) && imm / 0x1_0000 != imm % 0x1_0000 then None
      else match t
        case F => if imm % 0x10_0000 == 0 then Some((imm / 0x10_0000) % 0x1000) else None
        case HF => if imm % 0x10 == 0 then Some((imm / 0x10) % 0x1000) else None
        case UD | VF | UV | V => if imm / 0x1000 == 0 then Some(imm % 0x1000) else None
        case UW => if (imm / 0x1000) % 0x10 == 0 then Some(imm % 0x1000) else None
        case D => if ShiftsToSign(Signed32(imm), 0x800) then Some(imm % 0x1000) else None
        case W => if ShiftsToSign(Signed16(imm), 0x800) then Some(imm % 0x1000) else None
        case NF | DF | Q | UQ | B | UB => None
    else if ShiftsToSign(Signed32(imm), 0x1000) then Some(imm % 0x2000)
    else None
  }

  // ---------------------------------------------------------------------
  // Decoders, one per encoding
  // ---------------------------------------------------------------------

  /** `compact_imm << 20`: the F encoding, the high 12 bits. */
  function HighBits(c: uint32): uint32
  {
    (c * 0x10_0000) % U32
  }

  /** `(compact_imm << 20) | (compact_imm << 4)`: the HF encoding. */
  function DecodeHalfFloat(c: uint32): uint32
  {
    Or32(HighBits(c), (c * 0x10) % U32)
  }

  /** `compact_imm << 16 | compact_imm`: the UW encoding. */
  function DecodeUnsignedWord(c: uint32): uint32
  {
    Or32((c * 0x1_0000) % U32, c)
  }

  /** `(int)(compact_imm << 20) >> 20`: the D encoding. */
  function DecodeDword(c: uint32): uint32
  {
    Unsigned32(Signed32(HighBits(c)) / 0x10_0000)
  }

  /** `(int)(compact_imm << 20) >> 4`: bit 11 extended through the high half. */
  function WordHigh(c: uint32): uint32
  {
    Unsigned32(Signed32(HighBits(c)) / 0x10)
  }

  /** `(short)(compact_imm << 4) >> 4`, an int, stored back into 32 bits. */
  function WordLow(c: uint32): uint32
  {
    Unsigned32(Signed16((c * 0x10) % U32) / 0x10)
  }

  /** The W encoding as intended: the sign-extended low half masked to 16 bits. */
  function DecodeWord(c: uint32): uint32
  {
    Or32(WordHigh(c), WordLow(c) % 0x1_0000)
  }

  /** `(int)(compact_imm << 19) >> 19`: the encoding before Gfx12. */
  function DecodeSext13(c: uint32): uint32
  {
    Unsigned32(Signed32((c * 0x8_0000) % U32) / 0x8_0000)
  }

  /** uncompact_immediate with the W case as intended: both halves are the
    * compacted value sign-extended from bit 11. None stands for the types
    * the source marks unreachable. */
  function UncompactImmediate(ver: nat, t: RegType, c: uint32): (r: Option<uint32>)
    ensures ver >= 12 ==> (r.None? <==> NeverCompactsGfx12(t))
    ensures ver < 12 ==> r.Some?
  {
    if ver >= 12 then
      match t
        case F => Some(HighBits(c))
        case HF => Some(DecodeHalfFloat(c))
        case UD | VF | UV | V => Some(c)
        case UW => Some(DecodeUnsignedWord(c))
        case D => Some(DecodeDword(c))
        case W => Some(DecodeWord(c))
        case NF | DF | Q | UQ | B | UB => None
    else Some(DecodeSext13(c))
  }

  /** uncompact_immediate as written: the W case ORs the sign-extended low
    * half in without masking it to 16 bits. */
  function UncompactImmediateAsWritten(ver: nat, t: RegType, c: uint32): (r: Option<uint32>)
    ensures t != W || ver < 12 ==> r == UncompactImmediate(ver, t, c)
  {
    if ver >= 12 && t == W then Some(Or32(WordHigh(c), WordLow(c)))
    else UncompactImmediate(ver, t, c)
  }

  // ---------------------------------------------------------------------
  // Round trips
  // ---------------------------------------------------------------------

  /** The 13-bit decoder gives back every immediate whose bits 12..31 all
    * equal bit 12. */
  lemma Sext13(imm: uint32)
    requires imm < 0x1000 || imm >= U32 - 0x1000
    ensures DecodeSext13(imm % 0x2000) == imm
  {
    var c := imm % 0x2000;
    if imm < 0x1000 {
      assert c * 0x8_0000 < 0x8000_0000;
    } else {
      assert c == imm - (U32 - 0x2000);
      assert 0x8000_0000 <= c * 0x8_0000 < U32;
      assert Signed32(c * 0x8_0000) == (c - 0x2000) * 0x8_0000;
    }
  }

  /** Before Gfx12 an immediate is accepted iff its bits 12..31 all equal
    * bit 12, and every accepted immediate comes back unchanged. */
  lemma RoundTripBeforeGfx12(ver: nat, t: RegType, imm: uint32)
    requires ver < 12
    ensures CompactImmediate(ver, t, imm).Some? <==> imm < 0x1000 || imm >= U32 - 0x1000
    ensures CompactImmediate(ver, t, imm).Some? ==>
              UncompactImmediate(ver, t, CompactImmediate(ver, t, imm).value) == Some(imm)
  {
    var s := Signed32(imm);
    assert ShiftsToSign(s, 0x1000) <==> -0x1000 <= s < 0x1000;
    if imm < 0x1000 || imm >= U32 - 0x1000 {
      Sext13(imm);
    }
  }

  /** Every 13-bit value is the image of the immediate it expands to. */
  lemma Sext13Onto(c: uint32)
    requires c < 0x2000
    ensures var imm := DecodeSext13(c);
            (imm < 0x1000 || imm >= U32 - 0x1000) && imm % 0x2000 == c
  {
    if c < 0x1000 {
      assert c * 0x8_0000 < 0x8000_0000;
      assert DecodeSext13(c) == c;
    } else {
      assert 0x8000_0000 <= c * 0x8_0000 < U32;
      assert Signed32(c * 0x8_0000) == (c as int - 0x2000) * 0x8_0000;
      assert DecodeSext13(c) == c + (U32 - 0x2000);
    }
  }

  /** Before Gfx12 the codec is a bijection between the 13-bit values and
    * the accepted immediates: every compacted value comes back unchanged. */
  lemma CompactOfUncompactBeforeGfx12(ver: nat, t: RegType, c: uint32)
    requires ver < 12 && c < 0x2000
    ensures CompactImmediate(ver, t, UncompactImmediate(ver, t, c).value) == Some(c)
  {
    var imm := DecodeSext13(c);
    Sext13Onto(c);
    RoundTripBeforeGfx12(ver, t, imm);
  }

  /** OR of a 16-bit half shifted up and a 16-bit half is their sum. */
  lemma HalvesOr(hi: nat, lo: nat)
    requires hi < 0x1_0000 && lo < 0x1_0000
    ensures hi * 0x1_0000 < U32
    ensures Or32(hi * 0x1_0000, lo) == hi * 0x1_0000 + lo
  {
    Pow2Widths();
    OrDisjoint(hi, lo, 16);
  }

  /** F keeps the high 12 bits. */
  lemma RoundTripF(imm: uint32)
    requires imm % 0x10_0000 == 0
    ensures HighBits((imm / 0x10_0000) % 0x1000) == imm
  {
    var c := imm / 0x10_0000;
    assert c < 0x1000;
    assert imm == c * 0x10_0000;
  }

  /** D keeps the low 12 bits, bit 11 replicated upwards. */
  lemma RoundTripD(imm: uint32)
    requires ShiftsToSign(Signed32(imm), 0x800)
    ensures DecodeDword(imm % 0x1000) == imm
  {
    var c := imm % 0x1000;
    if imm < 0x800 {
      assert c == imm;
      assert c * 0x10_0000 < 0x8000_0000;
      assert HighBits(c) == c * 0x10_0000;
    } else {
      assert imm >= U32 - 0x800;
      assert c == imm - (U32 - 0x1000);
      assert 0x8000_0000 <= c * 0x10_0000 < U32;
      assert Signed32(HighBits(c)) == (c as int - 0x1000) * 0x10_0000;
      assert Signed32(HighBits(c)) / 0x10_0000 == c as int - 0x1000;
    }
  }

  /** The HF encoding of a replicated immediate is its half shifted down 4. */
  lemma HalfFloatBits(imm: uint32, h: nat)
    requires h < 0x1_0000 && imm == h * 0x1_0000 + h && imm % 0x10 == 0
    ensures h % 0x10 == 0 && (imm / 0x10) % 0x1000 == h / 0x10
  {
    var g := h / 0x10;
    DivMod(imm, 0x10, h * 0x1000 + g, h % 0x10);
    DivMod(h * 0x1000 + g, 0x1000, h, g);
  }

  /** The HF decoder replicates the 16-bit value g << 4 through both halves. */
  lemma HalfFloatDecode(g: nat)
    requires g < 0x1000
    ensures DecodeHalfFloat(g) == (g * 0x10) * 0x1_0000 + g * 0x10
  {
    var h := g * 0x10;
    DivMod(g * 0x10_0000, U32, 0, h * 0x1_0000);
    DivMod(h, U32, 0, h);
    HalvesOr(h, h);
  }

  /** HF keeps the high 12 bits of each replicated half. */
  lemma RoundTripHF(imm: uint32, h: nat)
    requires h < 0x1_0000 && imm == h * 0x1_0000 + h && imm % 0x10 == 0
    ensures DecodeHalfFloat((imm / 0x10) % 0x1000) == imm
  {
    HalfFloatBits(imm, h);
    HalfFloatDecode(h / 0x10);
  }

  /** UW keeps the low 12 bits of each replicated half. */
  lemma RoundTripUW(imm: uint32, h: nat)
    requires h < 0x1000 && imm == h * 0x1_0000 + h
    ensures DecodeUnsignedWord(imm % 0x1000) == imm
  {
    assert imm % 0x1000 == h;
    HalvesOr(h, h);
  }

  /** The high half the W decoder builds from a compacted value whose
    * 16-bit reading is s. */
  lemma WordHighOf(c: uint32, s: int, h: nat)
    requires -0x800 <= s < 0x800 && c == s % 0x1000 && h == s % 0x1_0000
    ensures WordHigh(c) == h * 0x1_0000
  {
    if s >= 0 {
      assert HighBits(c) == s * 0x10_0000;
    } else {
      assert c == s + 0x1000;
      assert HighBits(c) == c * 0x10_0000;
      assert Signed32(c * 0x10_0000) == s * 0x10_0000;
      assert h == s + 0x1_0000;
    }
  }

  /** The low half the W decoder builds, masked to 16 bits. */
  lemma WordLowOf(c: uint32, s: int, h: nat)
    requires -0x800 <= s < 0x800 && c == s % 0x1000 && h == s % 0x1_0000
    ensures WordLow(c) % 0x1_0000 == h
  {
    DivMod(c * 0x10, U32, 0, c * 0x10);
    DivMod(c * 0x10, 0x1_0000, 0, c * 0x10);
    DivMod(s * 0x10, 0x10, s, 0);
    if s >= 0 {
      assert Signed16(c * 0x10) == s * 0x10;
    } else {
      DivMod(s, 0x1000, -1, s + 0x1000);
      assert Signed16(c * 0x10) == s * 0x10;
      DivMod(s, U32, -1, s + U32);
      DivMod(s + U32, 0x1_0000, 0xFFFF, s + 0x1_0000);
      DivMod(s, 0x1_0000, -1, s + 0x1_0000);
    }
  }

  /** W, through the corrected decoder. */
  lemma RoundTripW(imm: uint32, h: nat)
    requires h < 0x1_0000 && imm == h * 0x1_0000 + h
    requires ShiftsToSign(Signed16(imm), 0x800)
    ensures DecodeWord(imm % 0x1000) == imm
  {
    var c := imm % 0x1000;
    var s := Signed16(imm);
    assert c == h % 0x1000 by {
      var a, b := h / 0x1000, h % 0x1000;
      assert imm == (h * 0x10 + a) * 0x1000 + b;
    }
    assert imm % 0x1_0000 == h;
    assert s == h || s == h - 0x1_0000;
    assert -0x800 <= s < 0x800;
    WordHighOf(c, s, h);
    WordLowOf(c, s, h);
    HalvesOr(h, h);
  }

  /** A 32-bit value whose two 16-bit halves are equal. */
  lemma Replicated(imm: uint32)
    requires imm / 0x1_0000 == imm % 0x1_0000
    ensures imm == (imm % 0x1_0000) * 0x1_0000 + imm % 0x1_0000
  {
  }

  /** On Gfx12 every accepted immediate of every type comes back unchanged
    * through the corrected decoder. */
  lemma RoundTripGfx12(ver: nat, t: RegType, imm: uint32)
    requires ver >= 12
    ensures CompactImmediate(ver, t, imm).Some? ==>
              UncompactImmediate(ver, t, CompactImmediate(ver, t, imm).value) == Some(imm)
  {
    if CompactImmediate(ver, t, imm).Some? {
      var h := imm % 0x1_0000;
      match t
      case F => RoundTripF(imm);
      case HF => Replicated(imm); RoundTripHF(imm, h);
      case UW => Replicated(imm); RoundTripUW(imm, h);
      case W => Replicated(imm); RoundTripW(imm, h);
      case D => RoundTripD(imm);
      case _ =>
    }
  }

  /** As written, the W decoder agrees with the corrected one whenever bit
    * 11 of the compacted value is clear. */
  lemma AsWrittenAgreesOnNonNegativeW(ver: nat, c: uint32)
    requires ver >= 12 && c < 0x800
    ensures UncompactImmediateAsWritten(ver, W, c) == UncompactImmediate(ver, W, c)
  {
    assert (c * 0x10) % U32 == c * 0x10 < 0x8000;
    assert WordLow(c) == c;
    assert WordLow(c) % 0x1_0000 == WordLow(c);
  }

  /** The input that shows it: 0xF800F800:W is accepted and compacts to
    * 0x800, which the decoder as written expands to 0xFFFFF800; the
    * corrected decoder gives the immediate back. */
  lemma NegativeWordImmediateBreaks()
    ensures CompactImmediate(12, W, 0xF800_F800) == Some(0x800)
    ensures UncompactImmediateAsWritten(12, W, 0x800) == Some(0xFFFF_F800)
    ensures UncompactImmediate(12, W, 0x800) == Some(0xF800_F800)
  {
    var imm: uint32 := 0xF800_F800;
    assert imm / 0x1_0000 == 0xF800 && imm % 0x1_0000 == 0xF800;
    assert Signed16(imm) == -0x800;
    assert ShiftsToSign(Signed16(imm), 0x800);
    assert imm % 0x1000 == 0x800;
    assert WordHigh(0x800) == 0xF800_0000;
    assert WordLow(0x800) == 0xFFFF_F800;
    Pow2Widths();
    OrSplit(0xF800, 0xFFFF, 0xF800, 16);
    OrAllOnes(0xF800, 16);
    ShiftedIsMul(0xF800, 16);
    ShiftedIsMul(0xFFFF, 16);
    assert Or32(0xF800_0000, 0xFFFF_F800) == 0xFFFF_F800;
    HalvesOr(0xF800, 0xF800);
  }
}
