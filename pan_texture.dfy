// Panfrost texture layout (pan_texture.c): block dimensions of the tiled
// modifiers, the ASTC/AFBC pointer tags, the size of a texture descriptor's
// surface payload, the order in which the payload lists surfaces, checksum
// sizing, and the mip-slice layout of an image.
module PanTexture {
  import opened Wrappers
  import opened Bits

  // ---------------------------------------------------------------------
  // Modifiers and block dimensions
  // ---------------------------------------------------------------------

  /** The AFBC_FORMAT_MOD_BLOCK_SIZE_* field of an AFBC modifier. */
  datatype AfbcBlockSize = Block16x16 | Block32x8 | Block64x4 | Block32x8And64x4 | OtherBlockSize(bits: nat)

  /** The DRM format modifiers the layout code tells apart. */
  datatype Modifier =
    | Linear
    | UInterleaved
    | Afbc(blockSize: AfbcBlockSize, ytr: bool)
    | OtherModifier(id: nat)

  /** The modifiers panfrost_block_dim accepts without faulting. */
  predicate HasBlockDim(m: Modifier)
  {
    m.UInterleaved? || (m.Afbc? && !m.blockSize.OtherBlockSize?)
  }

  /** panfrost_block_dim: the width (or height) in pixels of one block; the
    * two-plane 32x8_64x4 size uses 64x4 blocks for every plane but the first. */
  function BlockDim(m: Modifier, width: bool, plane: nat): (r: nat)
    requires HasBlockDim(m)
    ensures r == 4 || r == 8 || r == 16 || r == 32 || r == 64
    ensures m.UInterleaved? ==> r == 16
  {
    if !m.Afbc? then 16
    else match m.blockSize
      case Block16x16 => 16
      case Block32x8 => if width then 32 else 8
      case Block64x4 => if width then 64 else 4
      case Block32x8And64x4 =>
        if plane != 0 then (if width then 64 else 4) else (if width then 32 else 8)
  }

  /** Every block holds 256 pixels, and is at least as wide as it is high. */
  lemma BlockArea(m: Modifier, plane: nat)
    requires HasBlockDim(m)
    ensures BlockDim(m, true, plane) * BlockDim(m, false, plane) == 256
    ensures BlockDim(m, true, plane) >= BlockDim(m, false, plane)
    ensures BlockDim(m, true, plane) > 16 <==> (m.Afbc? && !m.blockSize.Block16x16?)
  {
  }

  // ---------------------------------------------------------------------
  // Compression tags carried in the low bits of the payload pointers
  // ---------------------------------------------------------------------

  /** panfrost_astc_stretch: the 3-bit stretch code of an ASTC block side. */
  function AstcStretch(dim: nat): (r: nat)
    requires 4 <= dim <= 12
    ensures r < 8
    ensures dim <= 11 ==> r + 4 == dim
    ensures dim == 12 ==> r == 7
  {
    if dim < 11 then dim - 4 else 7
  }

  /** The ASTC tag: stretch(height) << 3 | stretch(width), six bits from
    * which both stretch codes are read back. */
  function AstcTag(blockWidth: nat, blockHeight: nat): (r: nat)
    requires 4 <= blockWidth <= 12 && 4 <= blockHeight <= 12
    ensures r < 64
    ensures r / 8 == AstcStretch(blockHeight) && r % 8 == AstcStretch(blockWidth)
  {
    var h, w := AstcStretch(blockHeight), AstcStretch(blockWidth);
    assert Pow2(3) == 8 by { assert Pow2(1) == 2 && Pow2(2) == 4; }
    OrDisjoint(h, w, 3);
    DivMod(h * 8 + w, 8, h, w);
    BitOr(h * Pow2(3), w)
  }

  datatype TextureDim = Dim1D | Dim2D | Dim3D | DimCube

  /** The MALI_AFBC_SURFACE_FLAG_* bits. */
  datatype AfbcFlag = FlagYtr | FlagPrefetch | FlagWideBlock | FlagCheckPayloadRange

  /** What util_format_description says about the format's layout. */
  datatype FormatLayout = AstcLayout(blockWidth: nat, blockHeight: nat) | OtherLayout

  datatype Tag = AfbcTag(flags: set<AfbcFlag>) | AstcTagBits(bits: nat) | NoTag

  /** pan_is_bifrost. */
  predicate IsBifrost(arch: nat) { arch >= 6 }

  predicate TagDefined(m: Modifier, desc: FormatLayout)
  {
    && (m.Afbc? ==> HasBlockDim(m))
    && (!m.Afbc? && desc.AstcLayout? ==>
          4 <= desc.blockWidth <= 12 && 4 <= desc.blockHeight <= 12)
  }

  /** panfrost_compression_tag: AFBC flags (the last three only on Bifrost),
    * the ASTC stretch codes, or nothing. */
  function CompressionTag(arch: nat, desc: FormatLayout, dim: TextureDim, m: Modifier): (r: Tag)
    requires TagDefined(m, desc)
    ensures m.Afbc? ==> (
      && r.AfbcTag?
      && (FlagYtr in r.flags <==> m.ytr)
      && (FlagPrefetch in r.flags <==> IsBifrost(arch))
      && (FlagWideBlock in r.flags <==> IsBifrost(arch) && !m.blockSize.Block16x16?)
      && (FlagCheckPayloadRange in r.flags <==> IsBifrost(arch) && arch >= 7 && dim != Dim3D))
    ensures !m.Afbc? && desc.AstcLayout? ==> r.AstcTagBits? && r.bits < 64
    ensures !m.Afbc? && !desc.AstcLayout? ==> r == NoTag
  {
    if m.Afbc? then
      var flags := if m.ytr then {FlagYtr} else {};
      if !IsBifrost(arch) then AfbcTag(flags)
      else
        BlockArea(m, 0);
        var flags := flags + {FlagPrefetch};
        var flags := if BlockDim(m, true, 0) > 16 then flags + {FlagWideBlock} else flags;
        var flags := if arch >= 7 && dim != Dim3D then flags + {FlagCheckPayloadRange} else flags;
        AfbcTag(flags)
    else if desc.AstcLayout? then AstcTagBits(AstcTag(desc.blockWidth, desc.blockHeight))
    else NoTag
  }

  // ---------------------------------------------------------------------
  // Surfaces of a texture view and the order the payload lists them in
  // ---------------------------------------------------------------------

  /** One surface: an array layer, a mip level, a cube face and a sample. */
  datatype Surface = Surface(layer: nat, level: nat, face: nat, sample: nat)

  /** The surfaces a view covers, after cube adjustment. */
  datatype Ranges = Ranges(firstLayer: nat, lastLayer: nat, firstLevel: nat, lastLevel: nat,
                           firstFace: nat, lastFace: nat, nrSamples: nat)

  predicate RangesOk(rg: Ranges)
  {
    rg.firstLayer <= rg.lastLayer && rg.firstLevel <= rg.lastLevel
    && rg.firstFace <= rg.lastFace && rg.nrSamples >= 1
  }

  function NumLayers(rg: Ranges): nat requires RangesOk(rg) { rg.lastLayer - rg.firstLayer + 1 }
  function NumLevels(rg: Ranges): nat requires RangesOk(rg) { rg.lastLevel - rg.firstLevel + 1 }
  function NumFaces(rg: Ranges): nat requires RangesOk(rg) { rg.lastFace - rg.firstFace + 1 }

  /** Level, face and sample lie in their ranges; the layer is not bounded above. */
  predicate Inner(rg: Ranges, t: Surface)
  {
    && rg.firstLayer <= t.layer
    && rg.firstLevel <= t.level <= rg.lastLevel
    && rg.firstFace <= t.face <= rg.lastFace
    && t.sample < rg.nrSamples
  }

  predicate InRange(rg: Ranges, t: Surface)
  {
    Inner(rg, t) && t.layer <= rg.lastLayer
  }

  /** A mixed-radix numeral: the digit below a higher-order part. */
  function Combine(hi: nat, radix: nat, digit: nat): nat { hi * radix + digit }

  /** Where a surface sits in the payload: level varies fastest on v7 and
    * later; before that sample varies fastest, then face, then level. */
  function Pos(arch: nat, rg: Ranges, t: Surface): nat
    requires RangesOk(rg) && Inner(rg, t)
  {
    var l, lv, f := t.layer - rg.firstLayer, t.level - rg.firstLevel, t.face - rg.firstFace;
    if arch >= 7 then Combine(Combine(Combine(l, NumFaces(rg), f), rg.nrSamples, t.sample), NumLevels(rg), lv)
    else Combine(Combine(Combine(l, NumLevels(rg), lv), NumFaces(rg), f), rg.nrSamples, t.sample)
  }

  /** panfrost_surface_iter_next as a function: advance the innermost counter,
    * wrapping counters that are at their last value back to their first. */
  function Succ(arch: nat, rg: Ranges, t: Surface): Surface
  {
    if arch >= 7 && t.level < rg.lastLevel then t.(level := t.level + 1)
    else
      var t1 := if arch >= 7 then t.(level := rg.firstLevel) else t;
      if t1.sample + 1 < rg.nrSamples then t1.(sample := t1.sample + 1)
      else
        var t2 := t1.(sample := 0);
        if t2.face < rg.lastFace then t2.(face := t2.face + 1)
        else
          var t3 := t2.(face := rg.firstFace);
          if arch < 7 && t3.level < rg.lastLevel then t3.(level := t3.level + 1)
          else
            var t4 := if arch < 7 then t3.(level := rg.firstLevel) else t3;
            t4.(layer := t4.layer + 1)
  }

  lemma Carry(hi: nat, radix: nat)
    requires radix > 0
    ensures Combine(hi + 1, radix, 0) == Combine(hi, radix, radix - 1) + 1
  {
  }

  /** Each step of the iterator moves one place forward in the payload. */
  lemma SuccPos(arch: nat, rg: Ranges, t: Surface)
    requires RangesOk(rg) && Inner(rg, t)
    ensures Inner(rg, Succ(arch, rg, t))
    ensures Pos(arch, rg, Succ(arch, rg, t)) == Pos(arch, rg, t) + 1
  {
    var l, lv, f, s := t.layer - rg.firstLayer, t.level - rg.firstLevel, t.face - rg.firstFace, t.sample;
    var nLv, nF, nS := NumLevels(rg), NumFaces(rg), rg.nrSamples;
    if arch >= 7 {
      if t.level < rg.lastLevel {
      } else if s + 1 < nS {
        Carry(Combine(Combine(l, nF, f), nS, s), nLv);
      } else if t.face < rg.lastFace {
        Carry(Combine(l, nF, f), nS);
        Carry(Combine(Combine(l, nF, f), nS, s), nLv);
      } else {
        Carry(l, nF);
        Carry(Combine(l, nF, f), nS);
        Carry(Combine(Combine(l, nF, f), nS, s), nLv);
      }
    } else {
      if s + 1 < nS {
      } else if t.face < rg.lastFace {
        Carry(Combine(Combine(l, nLv, lv), nF, f), nS);
      } else if t.level < rg.lastLevel {
        Carry(Combine(l, nLv, lv), nF);
        Carry(Combine(Combine(l, nLv, lv), nF, f), nS);
      } else {
        Carry(l, nLv);
        Carry(Combine(l, nLv, lv), nF);
        Carry(Combine(Combine(l, nLv, lv), nF, f), nS);
      }
    }
  }

  lemma CombineBelow(hi: nat, bound: nat, radix: nat, digit: nat)
    requires hi < bound && digit < radix
    ensures Combine(hi, radix, digit) < bound * radix
  {
    assert (hi + 1) * radix <= bound * radix;
  }

  lemma CombineInjective(h1: nat, d1: nat, h2: nat, d2: nat, radix: nat)
    requires d1 < radix && d2 < radix && Combine(h1, radix, d1) == Combine(h2, radix, d2)
    ensures h1 == h2 && d1 == d2
  {
    DivMod(Combine(h1, radix, d1), radix, h1, d1);
    DivMod(Combine(h2, radix, d2), radix, h2, d2);
  }

  /** The number of surfaces a view covers. */
  function SurfaceCount(rg: Ranges): (r: nat)
    requires RangesOk(rg)
    ensures r > 0
  {
    NumLevels(rg) * NumLayers(rg) * NumFaces(rg) * rg.nrSamples
  }

  /** Surfaces in range sit at distinct places below the surface count. */
  lemma PosInRange(arch: nat, rg: Ranges, t: Surface)
    requires RangesOk(rg) && InRange(rg, t)
    ensures Pos(arch, rg, t) < SurfaceCount(rg)
  {
    var l, lv, f, s := t.layer - rg.firstLayer, t.level - rg.firstLevel, t.face - rg.firstFace, t.sample;
    var nL, nLv, nF, nS := NumLayers(rg), NumLevels(rg), NumFaces(rg), rg.nrSamples;
    if arch >= 7 {
      CombineBelow(l, nL, nF, f);
      CombineBelow(Combine(l, nF, f), nL * nF, nS, s);
      CombineBelow(Combine(Combine(l, nF, f), nS, s), nL * nF * nS, nLv, lv);
      assert nL * nF * nS * nLv == nLv * nL * nF * nS by {
        assert nL * nF * nS * nLv == nLv * (nL * nF * nS);
      }
    } else {
      CombineBelow(l, nL, nLv, lv);
      CombineBelow(Combine(l, nLv, lv), nL * nLv, nF, f);
      CombineBelow(Combine(Combine(l, nLv, lv), nF, f), nL * nLv * nF, nS, s);
      assert nL * nLv * nF * nS == nLv * nL * nF * nS by {
        assert nL * nLv == nLv * nL;
      }
    }
  }

  lemma PosInjective(arch: nat, rg: Ranges, t: Surface, u: Surface)
    requires RangesOk(rg) && Inner(rg, t) && Inner(rg, u) && Pos(arch, rg, t) == Pos(arch, rg, u)
    ensures t == u
  {
    var nLv, nF, nS := NumLevels(rg), NumFaces(rg), rg.nrSamples;
    var lt, lvt, ft := t.layer - rg.firstLayer, t.level - rg.firstLevel, t.face - rg.firstFace;
    var lu, lvu, fu := u.layer - rg.firstLayer, u.level - rg.firstLevel, u.face - rg.firstFace;
    if arch >= 7 {
      CombineInjective(Combine(Combine(lt, nF, ft), nS, t.sample), lvt,
                       Combine(Combine(lu, nF, fu), nS, u.sample), lvu, nLv);
      CombineInjective(Combine(lt, nF, ft), t.sample, Combine(lu, nF, fu), u.sample, nS);
      CombineInjective(lt, ft, lu, fu, nF);
    } else {
      CombineInjective(Combine(Combine(lt, nLv, lvt), nF, ft), t.sample,
                       Combine(Combine(lu, nLv, lvu), nF, fu), u.sample, nS);
      CombineInjective(Combine(lt, nLv, lvt), ft, Combine(lu, nLv, lvu), fu, nF);
      CombineInjective(lt, lvt, lu, lvu, nLv);
    }
  }

  /** Once the layer counter passes the last layer, every surface has been
    * counted. */
  lemma EndPos(arch: nat, rg: Ranges)
    requires RangesOk(rg)
    ensures var t := Surface(rg.lastLayer + 1, rg.firstLevel, rg.firstFace, 0);
      Inner(rg, t) && Pos(arch, rg, t) == SurfaceCount(rg)
  {
    var nL, nLv, nF, nS := NumLayers(rg), NumLevels(rg), NumFaces(rg), rg.nrSamples;
    if arch >= 7 {
      assert nL * nF * nS * nLv == nLv * nL * nF * nS by {
        assert nL * nF * nS * nLv == nLv * (nL * nF * nS);
      }
    } else {
      assert nL * nLv * nF * nS == nLv * nL * nF * nS by {
        assert nL * nLv == nLv * nL;
      }
    }
  }

  /** struct panfrost_surface_iter. The iterator does not keep the first
    * layer; the ghost field remembers it for the proofs. */
  class SurfaceIter {
    var layer: nat
    var lastLayer: nat
    var level: nat
    var firstLevel: nat
    var lastLevel: nat
    var face: nat
    var firstFace: nat
    var lastFace: nat
    var sample: nat
    var firstSample: nat
    var lastSample: nat
    ghost var firstLayer: nat

    ghost function Range(): Ranges
      reads this
    {
      Ranges(firstLayer, lastLayer, firstLevel, lastLevel, firstFace, lastFace, lastSample + 1)
    }

    ghost function Current(): Surface
      reads this
    {
      Surface(layer, level, face, sample)
    }

    ghost predicate Valid()
      reads this
    {
      firstSample == 0 && RangesOk(Range()) && Inner(Range(), Current())
    }

    /** panfrost_surface_iter_begin. */
    constructor (rg: Ranges)
      requires RangesOk(rg)
      ensures Valid() && Range() == rg
      ensures Current() == Surface(rg.firstLayer, rg.firstLevel, rg.firstFace, 0)
    {
      layer := rg.firstLayer;
      lastLayer := rg.lastLayer;
      level, firstLevel := rg.firstLevel, rg.firstLevel;
      lastLevel := rg.lastLevel;
      face, firstFace := rg.firstFace, rg.firstFace;
      lastFace := rg.lastFace;
      sample, firstSample := 0, 0;
      lastSample := rg.nrSamples - 1;
      firstLayer := rg.firstLayer;
    }

    /** panfrost_surface_iter_end. */
    function End(): (r: bool)
      reads this
      ensures r <==> layer > lastLayer
    {
      layer > lastLayer
    }

    /** panfrost_surface_iter_next. */
    method Next(arch: nat)
      requires Valid()
      modifies this
      ensures Valid() && Range() == old(Range())
      ensures Current() == Succ(arch, Range(), old(Current()))
    {
      if arch >= 7 {
        if level < lastLevel {
          level := level + 1;
          return;
        }
        level := firstLevel;
      }
      if sample < lastSample {
        sample := sample + 1;
        return;
      }
      sample := firstSample;
      if face < lastFace {
        face := face + 1;
        return;
      }
      face := firstFace;
      if arch < 7 {
        if level < lastLevel {
          level := level + 1;
          return;
        }
        level := firstLevel;
      }
      layer := layer + 1;
    }
  }

  /** The step that leaves the last layer lands on the end position. */
  lemma SuccLast(arch: nat, rg: Ranges, t: Surface)
    requires RangesOk(rg) && InRange(rg, t) && Succ(arch, rg, t).layer > rg.lastLayer
    ensures Succ(arch, rg, t) == Surface(rg.lastLayer + 1, rg.firstLevel, rg.firstFace, 0)
  {
  }

  // ---------------------------------------------------------------------
  // Counting and sizing the payload
  // ---------------------------------------------------------------------

  /** The layer ranges panfrost_adjust_cube_dimensions accepts for a cube
    * view: inside one cube, or whole cubes. */
  predicate CubeRangeOk(firstLayer: nat, lastLayer: nat)
  {
    firstLayer <= lastLayer
    && (firstLayer / 6 == lastLayer / 6 || (firstLayer % 6 == 0 && lastLayer % 6 == 5))
  }

  /** An image view's level and layer ranges. */
  datatype View = View(dim: TextureDim, firstLevel: nat, lastLevel: nat, firstLayer: nat, lastLayer: nat)

  predicate ViewOk(v: View)
  {
    v.firstLevel <= v.lastLevel && v.firstLayer <= v.lastLayer
    && (v.dim == DimCube ==> CubeRangeOk(v.firstLayer, v.lastLayer))
  }

  /** The surfaces of a view: a cube view's layers are split into a cube
    * index and a face (panfrost_adjust_cube_dimensions). */
  function ViewRanges(v: View, nrSamples: nat): (rg: Ranges)
    requires ViewOk(v) && nrSamples >= 1
    ensures RangesOk(rg)
    ensures v.dim == DimCube ==> rg.firstFace == v.firstLayer % 6 && rg.lastFace == v.lastLayer % 6
    ensures v.dim != DimCube ==> rg.firstLayer == v.firstLayer && rg.lastLayer == v.lastLayer && NumFaces(rg) == 1
  {
    if v.dim == DimCube then
      Ranges(v.firstLayer / 6, v.lastLayer / 6, v.firstLevel, v.lastLevel, v.firstLayer % 6, v.lastLayer % 6, nrSamples)
    else Ranges(v.firstLayer, v.lastLayer, v.firstLevel, v.lastLevel, 0, 0, nrSamples)
  }

  /** panfrost_texture_num_elements: one pointer per surface, two words per
    * surface with a manual stride. */
  function NumElements(v: View, nrSamples: nat, manualStride: bool): nat
    requires ViewOk(v)
  {
    var firstFace, lastFace := if v.dim == DimCube then v.firstLayer % 6 else 0, if v.dim == DimCube then v.lastLayer % 6 else 0;
    var firstLayer, lastLayer := if v.dim == DimCube then v.firstLayer / 6 else v.firstLayer, if v.dim == DimCube then v.lastLayer / 6 else v.lastLayer;
    var levels := 1 + v.lastLevel - v.firstLevel;
    var layers := 1 + lastLayer - firstLayer;
    var faces := 1 + lastFace - firstFace;
    var n := levels * layers * faces * (if nrSamples == 0 then 1 else nrSamples);
    if manualStride then n * 2 else n
  }

  /** The element count is the number of surfaces of the view, doubled
    * with a manual stride. */
  lemma NumElementsCountsSurfaces(v: View, nrSamples: nat, manualStride: bool)
    requires ViewOk(v) && nrSamples >= 1
    ensures NumElements(v, nrSamples, manualStride)
            == (if manualStride then 2 else 1) * SurfaceCount(ViewRanges(v, nrSamples))
  {
    var rg := ViewRanges(v, nrSamples);
    var n := NumLevels(rg) * NumLayers(rg) * NumFaces(rg) * nrSamples;
    assert NumElements(v, nrSamples, false) == n;
  }

  /** A cube view made of whole cubes has one element per layer of the
    * underlying array, as the same range viewed as a 2D array has. */
  lemma CubeCountsEveryLayer(v: View, nrSamples: nat, manualStride: bool)
    requires ViewOk(v) && v.dim == DimCube && v.firstLayer % 6 == 0 && v.lastLayer % 6 == 5
    ensures NumElements(v, nrSamples, manualStride) == NumElements(v.(dim := Dim2D), nrSamples, manualStride)
  {
    var cubes := v.lastLayer / 6 - v.firstLayer / 6 + 1;
    assert cubes * 6 == v.lastLayer - v.firstLayer + 1;
    var levels, ns := v.lastLevel - v.firstLevel + 1, if nrSamples == 0 then 1 else nrSamples;
    assert levels * cubes * 6 * ns == levels * (cubes * 6) * ns;
  }

  /** sizeof(mali_ptr), MALI_SURFACE_LENGTH and MALI_SURFACE_WITH_STRIDE_LENGTH. */
  const MaliPtrSize: nat := 8
  const SurfaceLength: nat := 8
  const SurfaceWithStrideLength: nat := 16

  /** panfrost_estimate_texture_payload_size: assumes a manual stride on
    * Bifrost and for linear images. */
  function EstimatePayloadSize(arch: nat, v: View, nrSamples: nat, m: Modifier): nat
    requires ViewOk(v)
  {
    MaliPtrSize * NumElements(v, nrSamples, IsBifrost(arch) || m == Linear)
  }

  /** The estimate is never below the payload actually written, as long as
    * a manual stride is only used where the estimate assumes one. */
  lemma EstimateCoversPayload(arch: nat, v: View, nrSamples: nat, m: Modifier, manualStride: bool)
    requires ViewOk(v) && nrSamples >= 1
    requires manualStride ==> IsBifrost(arch) || m == Linear
    ensures NumElements(v, nrSamples, false) * (if manualStride then SurfaceWithStrideLength else SurfaceLength)
            <= EstimatePayloadSize(arch, v, nrSamples, m)
  {
    NumElementsCountsSurfaces(v, nrSamples, false);
    NumElementsCountsSurfaces(v, nrSamples, true);
  }

  // ---------------------------------------------------------------------
  // Checksum (transaction elimination) sizing
  // ---------------------------------------------------------------------

  datatype CrcSizing = CrcSizing(stride: nat, size: nat)

  /** panfrost_compute_checksum_size: 8 bytes for every 16x16 tile; the
    * stride covers one row of tiles. */
  function ChecksumSize(width: nat, height: nat): CrcSizing
  {
    var stride := (AlignUp(width, 16) / 16) * 8;
    CrcSizing(stride, stride * (AlignUp(height, 16) / 16))
  }

  /** The checksum covers the image with whole 16x16 tiles, 8 bytes each:
    * ceil(width / 16) * 8 bytes a row, ceil(height / 16) rows. */
  lemma ChecksumCoversTiles(width: nat, height: nat)
    ensures ChecksumSize(width, height).stride == 8 * DivCeil(width, 16)
    ensures ChecksumSize(width, height).size == ChecksumSize(width, height).stride * DivCeil(height, 16)
  {
    TilesOf(width);
    TilesOf(height);
  }

  lemma TilesOf(x: nat)
    ensures AlignUp(x, 16) / 16 == DivCeil(x, 16)
  {
    var q := (x + 15) / 16;
    DivMod(x + 15, 16, q, (x + 15) % 16);
    DivMod(q * 16, 16, q, 0);
  }

  // ---------------------------------------------------------------------
  // Image layout
  // ---------------------------------------------------------------------

  datatype CrcMode = CrcNone | CrcInband | CrcOob

  datatype AfbcSlice = AfbcSlice(headerSize: nat, rowStride: nat, bodySize: nat, surfaceStride: nat)

  datatype Crc = Crc(offset: nat, stride: nat, size: nat)

  /** struct pan_image_slice_layout. */
  datatype SliceLayout = SliceLayout(offset: nat, lineStride: nat, rowStride: nat, surfaceStride: nat,
                                     size: nat, afbc: AfbcSlice, crc: Crc)

  /** struct pan_image_layout. */
  datatype ImageLayout = ImageLayout(modifier: Modifier, dim: TextureDim, width: nat, height: nat, depth: nat,
                                     arraySize: nat, nrSamples: nat, crcMode: CrcMode,
                                     slices: seq<SliceLayout>, arrayStride: nat, dataSize: nat, crcSize: nat)

  /** struct pan_image_explicit_layout. */
  datatype ExplicitLayout = ExplicitLayout(offset: nat, lineStride: nat)

  /** What the layout needs of the format: util_format_get_blocksize and
    * util_format_is_compressed. */
  datatype Format = Format(blockSize: nat, compressed: bool)

  /** The arguments of pan_image_layout_init. */
  datatype Image = Image(modifier: Modifier, format: Format, dim: TextureDim, width: nat, height: nat,
                         depth: nat, arraySize: nat, nrSamples: nat, nrSlices: nat, crcMode: CrcMode)

  predicate ImageOk(img: Image)
  {
    img.modifier.Afbc? ==> HasBlockDim(img.modifier)
  }

  /** AFBC_HEADER_BYTES_PER_TILE. */
  const AfbcHeaderBytesPerTile: nat := 16

  /** Tiled and AFBC images are laid out in whole blocks. */
  predicate ShouldAlign(img: Image) { img.modifier.UInterleaved? || img.modifier.Afbc? }

  /** The block width and height, and 1 << tile_shift. */
  datatype Tiling = Tiling(w: nat, h: nat, div: nat)

  function TilingOf(img: Image): (t: Tiling)
    requires ImageOk(img)
    ensures t.w > 0 && t.h > 0 && (t.div == 1 || t.div == 4)
    ensures ShouldAlign(img) ==> t.w >= 4 && t.h >= 4
  {
    if ShouldAlign(img) then
      Tiling(BlockDim(img.modifier, true, 0), BlockDim(img.modifier, false, 0), if img.format.compressed then 4 else 1)
    else Tiling(1, 1, 1)
  }

  function EffectiveWidth(img: Image, width: nat): nat
    requires ImageOk(img)
  {
    var t := TilingOf(img);
    if ShouldAlign(img) then AlignUp(width, t.w) / t.div else width
  }

  function EffectiveHeight(img: Image, height: nat): nat
    requires ImageOk(img)
  {
    if ShouldAlign(img) then AlignUp(height, TilingOf(img).h) else height
  }

  /** The line stride a slice of this width needs: 64-byte aligned for
    * linear images. */
  function ComputedStride(img: Image, width: nat): (r: nat)
    requires ImageOk(img)
    ensures r >= img.format.blockSize * EffectiveWidth(img, width)
    ensures img.modifier.Linear? ==> r % 64 == 0
  {
    var stride := img.format.blockSize * EffectiveWidth(img, width);
    if img.modifier.Linear? then AlignUp(stride, 64) else stride
  }

  /** u_minify(x, 1). */
  function Minify(x: nat): (r: nat)
    ensures r >= 1 && r <= x + 1
  {
    if x / 2 == 0 then 1 else x / 2
  }

  /** The size of a dimension at mip level l. */
  function LevelSize(x: nat, l: nat): nat
  {
    if l == 0 then x else Minify(LevelSize(x, l - 1))
  }

  /** The explicit layouts pan_image_layout_init rejects before looking at
    * any slice. */
  predicate ExplicitShapeRejected(img: Image, e: Option<ExplicitLayout>)
  {
    e.Some? && (img.depth > 1 || img.nrSamples > 1 || img.arraySize > 1 || img.dim != Dim2D
                || img.nrSlices > 1 || img.crcMode == CrcInband || e.value.offset % 64 != 0)
  }

  /** An explicit line stride below the needed one, or not 64-byte aligned. */
  predicate StrideRejected(img: Image, e: Option<ExplicitLayout>, width: nat)
    requires ImageOk(img)
  {
    e.Some? && (e.value.lineStride < ComputedStride(img, width) || e.value.lineStride % 64 != 0)
  }

  /** Every reason pan_image_layout_init returns false for. */
  predicate LayoutRejected(img: Image, e: Option<ExplicitLayout>)
    requires ImageOk(img)
  {
    ExplicitShapeRejected(img, e) || (img.nrSlices >= 1 && StrideRejected(img, e, img.width))
  }

  /** The running state of the slice loop: the next offset, the next
    * out-of-band checksum offset, and the level's width, height, depth. */
  datatype Cursor = Cursor(offset: nat, oob: nat, width: nat, height: nat, depth: nat)

  datatype Placed = Placed(slice: SliceLayout, next: Cursor)

  /** All dimensions and the pixel size are positive, so every slice has
    * room. */
  predicate Positive(img: Image)
  {
    img.format.blockSize > 0 && img.width > 0 && img.height > 0 && img.depth > 0 && img.nrSamples > 0
  }

  /** What placing one slice at the cursor guarantees. */
  predicate SlicePlaced(img: Image, e: Option<ExplicitLayout>, c: Cursor, p: Placed)
    requires ImageOk(img)
  {
    var sl := p.slice;
    && sl.offset == AlignUp(c.offset, 64)
    && sl.offset + sl.size <= p.next.offset
    && sl.lineStride == (if e.Some? then e.value.lineStride else ComputedStride(img, c.width))
    && ComputedStride(img, c.width) <= sl.lineStride
    && Mul(Mul(c.depth, img.nrSamples), sl.surfaceStride) <= sl.size
    && (img.crcMode != CrcNone ==> sl.crc == SliceCrc(img, c, sl.crc.offset))
    && (img.crcMode == CrcNone ==> sl.crc.size == 0)
    && (img.crcMode == CrcInband ==> sl.crc.offset + sl.crc.size == p.next.offset
                                     && sl.offset + sl.size <= sl.crc.offset + sl.crc.size)
    && (img.crcMode == CrcOob ==> sl.crc.offset == c.oob && p.next.oob == c.oob + sl.crc.size)
    && (img.crcMode != CrcOob ==> p.next.oob == c.oob)
    && p.next.width == Minify(c.width) && p.next.height == Minify(c.height) && p.next.depth == Minify(c.depth)
    && (img.format.blockSize > 0 && c.width > 0 && c.height > 0 && c.depth > 0 && img.nrSamples > 0 ==> sl.size > 0)
  }

  lemma PositiveMultiple(x: nat, a: nat)
    requires a > 0 && x > 0
    ensures AlignUp(x, a) >= a
  {
    var r := AlignUp(x, a);
    var q := r / a;
    assert r == q * a;
    assert q >= 1;
    assert q * a == (q - 1) * a + a;
  }

  /** The lengths of a slice (stride, row stride and surface stride), its
    * AFBC sizes, the bytes of AFBC headers placed before the body, and the
    * bytes of all its surfaces. */
  datatype Shape = Shape(lineStride: nat, rowStride: nat, surfaceStride: nat, afbc: AfbcSlice,
                         headerBytes: nat, full: nat)

  /** The lengths pan_image_layout_init derives from the line stride: the
    * surface stride is one depth layer of one sample, AFBC headers
    * included except on 3D images where they all come first. */
  function SliceShape(img: Image, stride: nat, afbcHeaderSize: (nat, nat) -> nat, c: Cursor): (r: Shape)
    requires ImageOk(img)
    ensures r.lineStride == stride
    ensures r.full == Mul(Mul(c.depth, img.nrSamples), r.surfaceStride)
    ensures (&& img.format.blockSize > 0 && stride >= img.format.blockSize * EffectiveWidth(img, c.width)
             && c.width > 0 && c.height > 0 && c.depth > 0 && img.nrSamples > 0) ==> r.full > 0
  {
    var t := TilingOf(img);
    var ew, eh, ed := EffectiveWidth(img, c.width), EffectiveHeight(img, c.height), c.depth;
    var body := Mul(stride, eh);
    var header := afbcHeaderSize(c.width, c.height);
    var is3d := img.dim == Dim3D;
    var one := if img.modifier.Afbc? && !is3d then body + header else body;
    var headerRow := Mul(ew / t.w, AfbcHeaderBytesPerTile);
    var afbc :=
      if !img.modifier.Afbc? then AfbcSlice(0, 0, 0, 0)
      else if is3d then AfbcSlice(Mul(header, ed), headerRow, Mul(body, ed), header)
      else AfbcSlice(header, headerRow, body, one);
    var headerBytes := if img.modifier.Afbc? && is3d then Mul(header, ed) else 0;
    var full := Mul(Mul(ed, img.nrSamples), one);
    assert (&& img.format.blockSize > 0 && stride >= img.format.blockSize * ew
            && c.width > 0 && c.height > 0 && c.depth > 0 && img.nrSamples > 0) ==> full > 0 by {
      if && img.format.blockSize > 0 && stride >= img.format.blockSize * ew
         && c.width > 0 && c.height > 0 && c.depth > 0 && img.nrSamples > 0 {
        EffectivePositive(img, c.width, c.height);
        MulPositive(img.format.blockSize, ew);
        MulPositive(stride, eh);
        MulPositive(ed, img.nrSamples);
        MulPositive(Mul(ed, img.nrSamples), one);
      }
    }
    Shape(stride, Mul(stride, t.h / t.div), one, afbc, headerBytes, full)
  }


  lemma EffectivePositive(img: Image, width: nat, height: nat)
    requires ImageOk(img) && width > 0 && height > 0
    ensures EffectiveWidth(img, width) > 0 && EffectiveHeight(img, height) > 0
  {
    var t := TilingOf(img);
    if ShouldAlign(img) {
      PositiveMultiple(width, t.w);
      PositiveMultiple(height, t.h);
    }
  }

  /** The checksum region of a slice whose body ends at `end`. */
  function SliceCrc(img: Image, c: Cursor, end: nat): (r: Crc)
  {
    var cs := ChecksumSize(c.width, c.height);
    if img.crcMode == CrcInband then Crc(end, cs.stride, cs.size)
    else if img.crcMode == CrcOob then Crc(c.oob, cs.stride, cs.size)
    else Crc(0, 0, 0)
  }

  /** One iteration of the slice loop of pan_image_layout_init; None when
    * the explicit line stride is rejected. */
  function PlaceSlice(img: Image, e: Option<ExplicitLayout>, afbcHeaderSize: (nat, nat) -> nat, c: Cursor): (r: Option<Placed>)
    requires ImageOk(img)
    ensures r.None? <==> StrideRejected(img, e, c.width)
    ensures r.Some? ==> SlicePlaced(img, e, c, r.value)
  {
    if StrideRejected(img, e, c.width) then None
    else
      var offset := AlignUp(c.offset, 64);
      var stride := if e.Some? then e.value.lineStride else ComputedStride(img, c.width);
      var sh := SliceShape(img, stride, afbcHeaderSize, c);
      var bodyStart := offset + sh.headerBytes;
      var crc := SliceCrc(img, c, bodyStart + sh.full);
      var size := if img.crcMode == CrcInband then sh.full + crc.size else sh.full;
      var next := Cursor(bodyStart + size, if img.crcMode == CrcOob then c.oob + crc.size else c.oob,
                         Minify(c.width), Minify(c.height), Minify(c.depth));
      Some(Placed(SliceLayout(offset, stride, sh.rowStride, sh.surfaceStride, size, sh.afbc, crc), next))
  }

  /** The out-of-band checksum bytes of the given slices. */
  function CrcSum(slices: seq<SliceLayout>): nat
  {
    if slices == [] then 0 else CrcSum(slices[..|slices| - 1]) + slices[|slices| - 1].crc.size
  }

  function InitialOffset(e: Option<ExplicitLayout>): nat
  {
    if e.Some? then e.value.offset else 0
  }

  /** What holds of the slices laid out so far, with c the loop's state. */
  predicate SlicesSoFar(img: Image, e: Option<ExplicitLayout>, slices: seq<SliceLayout>, c: Cursor)
    requires ImageOk(img)
  {
    SlicesDims(img, slices, c) && SlicesValid(img, e, slices) && SlicesPacked(img, e, slices, c)
  }

  /** The loop's level size is that of the next slice. */
  predicate SlicesDims(img: Image, slices: seq<SliceLayout>, c: Cursor)
  {
    && c.width == LevelSize(img.width, |slices|) && c.height == LevelSize(img.height, |slices|)
    && c.depth == LevelSize(img.depth, |slices|)
  }

  /** Every slice so far is well formed. */
  predicate SlicesValid(img: Image, e: Option<ExplicitLayout>, slices: seq<SliceLayout>)
    requires ImageOk(img)
  {
    forall l :: 0 <= l < |slices| ==> SliceOk(img, e, l, slices[l])
  }

  /** The slices so far are placed one after the other, below c.offset, with
    * the out-of-band checksums counted in c.oob. */
  predicate SlicesPacked(img: Image, e: Option<ExplicitLayout>, slices: seq<SliceLayout>, c: Cursor)
  {
    && (forall l :: 0 <= l < |slices| - 1 ==> slices[l].offset + slices[l].size <= slices[l + 1].offset)
    && (forall l :: 0 <= l < |slices| ==> slices[l].offset + slices[l].size <= c.offset)
    && (img.crcMode == CrcInband ==> forall l :: 0 <= l < |slices| ==> slices[l].crc.offset + slices[l].crc.size <= c.offset)
    && c.oob == (if img.crcMode == CrcOob then CrcSum(slices) else 0)
    && (|slices| > 0 ==> slices[0].offset == AlignUp(InitialOffset(e), 64))
    && (|slices| == 0 ==> c.offset == InitialOffset(e))
  }

  /** What each slice of a laid-out image satisfies on its own. */
  predicate SliceOk(img: Image, e: Option<ExplicitLayout>, l: nat, sl: SliceLayout)
    requires ImageOk(img)
  {
    var w, h, d := LevelSize(img.width, l), LevelSize(img.height, l), LevelSize(img.depth, l);
    && sl.offset % 64 == 0
    && sl.lineStride == (if e.Some? then e.value.lineStride else ComputedStride(img, w))
    && ComputedStride(img, w) <= sl.lineStride
    && (img.modifier.Linear? ==> sl.lineStride % 64 == 0)
    && Mul(Mul(d, img.nrSamples), sl.surfaceStride) <= sl.size
    && (img.crcMode != CrcNone ==> sl.crc.stride == ChecksumSize(w, h).stride && sl.crc.size == ChecksumSize(w, h).size)
    && (img.crcMode == CrcNone ==> sl.crc.size == 0)
    && (img.crcMode == CrcInband ==> sl.offset + sl.size <= sl.crc.offset + sl.crc.size)
    && (Positive(img) ==> sl.size > 0)
  }

  lemma LevelSizePositive(x: nat, l: nat)
    requires x > 0 || l > 0
    ensures LevelSize(x, l) > 0
  {
  }

  lemma SlicesStep(img: Image, e: Option<ExplicitLayout>, slices: seq<SliceLayout>, c: Cursor, p: Placed)
    requires ImageOk(img) && SlicesSoFar(img, e, slices, c) && SlicePlaced(img, e, c, p)
    requires e.Some? ==> p.slice.lineStride % 64 == 0
    ensures SlicesSoFar(img, e, slices + [p.slice], p.next)
  {
    ValidStep(img, e, slices, c, p);
    PackedStep(img, e, slices, c, p);
  }

  lemma ValidStep(img: Image, e: Option<ExplicitLayout>, slices: seq<SliceLayout>, c: Cursor, p: Placed)
    requires ImageOk(img) && SlicesDims(img, slices, c) && SlicesValid(img, e, slices) && SlicePlaced(img, e, c, p)
    requires e.Some? ==> p.slice.lineStride % 64 == 0
    ensures SlicesValid(img, e, slices + [p.slice])
  {
    var s2 := slices + [p.slice];
    var l := |slices|;
    PlacedSliceOk(img, e, slices, c, p);
    forall k | 0 <= k < |s2| ensures SliceOk(img, e, k, s2[k]) {
      if k < l { assert s2[k] == slices[k]; }
    }
  }

  lemma PlacedSliceOk(img: Image, e: Option<ExplicitLayout>, slices: seq<SliceLayout>, c: Cursor, p: Placed)
    requires ImageOk(img) && SlicesDims(img, slices, c) && SlicePlaced(img, e, c, p)
    requires e.Some? ==> p.slice.lineStride % 64 == 0
    ensures SliceOk(img, e, |slices|, p.slice)
  {
    var l := |slices|;
    if Positive(img) {
      LevelSizePositive(img.width, l);
      LevelSizePositive(img.height, l);
      LevelSizePositive(img.depth, l);
    }
  }

  lemma PackedStep(img: Image, e: Option<ExplicitLayout>, slices: seq<SliceLayout>, c: Cursor, p: Placed)
    requires ImageOk(img) && SlicesPacked(img, e, slices, c) && SlicePlaced(img, e, c, p)
    ensures SlicesPacked(img, e, slices + [p.slice], p.next)
  {
    var s2 := slices + [p.slice];
    assert s2[..|s2| - 1] == slices;
  }

  /** What pan_image_layout_init guarantees of a layout it accepts. */
  predicate LaidOut(img: Image, e: Option<ExplicitLayout>, layout: ImageLayout)
    requires ImageOk(img)
  {
    var sl := layout.slices;
    && layout.modifier == img.modifier && layout.dim == img.dim && layout.width == img.width
    && layout.height == img.height && layout.depth == img.depth && layout.arraySize == img.arraySize
    && layout.nrSamples == img.nrSamples && layout.crcMode == img.crcMode
    && |sl| == img.nrSlices
    && (forall l :: 0 <= l < |sl| ==> SliceOk(img, e, l, sl[l]))
    && (forall l :: 0 <= l < |sl| - 1 ==> sl[l].offset + sl[l].size <= sl[l + 1].offset)
    && (|sl| > 0 ==> sl[0].offset == InitialOffset(e))
    && layout.arrayStride % 64 == 0
    && (forall l :: 0 <= l < |sl| ==> sl[l].offset + sl[l].size <= layout.arrayStride)
    && (img.crcMode == CrcInband ==> forall l :: 0 <= l < |sl| ==> sl[l].crc.offset + sl[l].crc.size <= layout.arrayStride)
    && (e.None? ==> layout.dataSize == AlignUp(Mul(layout.arrayStride, img.arraySize), 4096))
    && (e.Some? ==> AlignUp(layout.dataSize, 64) == layout.arrayStride
                    && forall l :: 0 <= l < |sl| ==> sl[l].offset + sl[l].size <= layout.dataSize)
    && layout.crcSize == (if img.crcMode == CrcOob then CrcSum(sl) else 0)
  }

  /** pan_image_layout_init: false for the rejected explicit layouts;
    * otherwise each mip slice is placed at the next 64-byte boundary after
    * the previous one, and the array stride, data size and out-of-band
    * checksum size follow. */
  method LayoutInit(img: Image, e: Option<ExplicitLayout>, afbcHeaderSize: (nat, nat) -> nat)
    returns (ok: bool, layout: ImageLayout)
    requires ImageOk(img)
    requires img.depth == 1 || img.nrSamples == 1 || ExplicitShapeRejected(img, e)
    ensures ok <==> !LayoutRejected(img, e)
    ensures ok ==> LaidOut(img, e, layout)
  {
    layout := ImageLayout(img.modifier, img.dim, img.width, img.height, img.depth, img.arraySize,
                          img.nrSamples, img.crcMode, [], 0, 0, 0);
    if ExplicitShapeRejected(img, e) {
      return false, layout;
    }
    var slices: seq<SliceLayout> := [];
    var c := Cursor(InitialOffset(e), 0, img.width, img.height, img.depth);
    var l := 0;
    while l < img.nrSlices
      invariant l == |slices| <= img.nrSlices
      invariant SlicesSoFar(img, e, slices, c)
      invariant e.Some? && l > 0 ==> !StrideRejected(img, e, img.width)
    {
      var r := PlaceSlice(img, e, afbcHeaderSize, c);
      if r.None? {
        return false, layout;
      }
      SlicesStep(img, e, slices, c, r.value);
      slices := slices + [r.value.slice];
      c := r.value.next;
      l := l + 1;
    }
    layout := FinalLayout(img, e, slices, c);
    LaidOutFinal(img, e, slices, c);
    ok := true;
  }

  /** The layout once every slice is placed: the array stride is the end
    * rounded up to 64 bytes; the data size is the explicit end, or all
    * array elements rounded up to a page. */
  function FinalLayout(img: Image, e: Option<ExplicitLayout>, slices: seq<SliceLayout>, c: Cursor): ImageLayout
  {
    var arrayStride := AlignUp(c.offset, 64);
    var dataSize := if e.Some? then c.offset else AlignUp(Mul(arrayStride, img.arraySize), 4096);
    ImageLayout(img.modifier, img.dim, img.width, img.height, img.depth, img.arraySize,
                img.nrSamples, img.crcMode, slices, arrayStride, dataSize, c.oob)
  }

  lemma LaidOutFinal(img: Image, e: Option<ExplicitLayout>, slices: seq<SliceLayout>, c: Cursor)
    requires ImageOk(img) && !ExplicitShapeRejected(img, e)
    requires |slices| == img.nrSlices && SlicesSoFar(img, e, slices, c)
    ensures LaidOut(img, e, FinalLayout(img, e, slices, c))
  {
  }

  /** panfrost_texture_offset. */
  function TextureOffset(layout: ImageLayout, level: nat, arrayIdx: nat, surfaceIdx: nat): nat
    requires level < |layout.slices|
  {
    layout.slices[level].offset + arrayIdx * layout.arrayStride + surfaceIdx * layout.slices[level].surfaceStride
  }

  /** n surfaces of a slice fit in it, and the slice in one array element. */
  predicate SurfacesFit(layout: ImageLayout, level: nat, n: nat)
    requires level < |layout.slices|
  {
    var sl := layout.slices[level];
    Mul(n, sl.surfaceStride) <= sl.size && sl.offset + sl.size <= layout.arrayStride
  }

  /** A laid-out slice holds all its depth layers and samples. */
  lemma LaidOutFits(img: Image, e: Option<ExplicitLayout>, layout: ImageLayout, level: nat)
    requires ImageOk(img) && LaidOut(img, e, layout) && level < |layout.slices|
    ensures SurfacesFit(layout, level, Mul(LevelSize(img.depth, level), img.nrSamples))
  {
    assert SliceOk(img, e, level, layout.slices[level]);
  }

  /** The surface an offset names lies inside its slice, and the slice
    * inside the first array element; other array elements are the same
    * layout moved by whole array strides. */
  lemma TextureOffsetInSlice(layout: ImageLayout, level: nat, arrayIdx: nat, surfaceIdx: nat, n: nat)
    requires level < |layout.slices| && SurfacesFit(layout, level, n) && surfaceIdx < n
    ensures TextureOffset(layout, level, arrayIdx, surfaceIdx)
            == arrayIdx * layout.arrayStride + TextureOffset(layout, level, 0, surfaceIdx)
    ensures layout.slices[level].offset <= TextureOffset(layout, level, 0, surfaceIdx)
    ensures TextureOffset(layout, level, 0, surfaceIdx) + layout.slices[level].surfaceStride
            <= layout.slices[level].offset + layout.slices[level].size <= layout.arrayStride
  {
    var x := layout.slices[level].surfaceStride;
    assert (surfaceIdx + 1) * x <= n * x;
  }

  // ---------------------------------------------------------------------
  // Texture payload
  // ---------------------------------------------------------------------

  /** panfrost_get_layer_stride: a 3D image steps by depth slices, anything
    * else by whole array elements. */
  function LayerStride(layout: ImageLayout, level: nat): nat
    requires level < |layout.slices|
  {
    if layout.dim != Dim3D then layout.arrayStride
    else if layout.modifier.Afbc? then layout.slices[level].afbc.surfaceStride
    else layout.slices[level].surfaceStride
  }

  /** panfrost_get_surface_pointer: a cube view's layer counts six array
    * elements, one per face. */
  function SurfacePointer(layout: ImageLayout, viewDim: TextureDim, base: nat, t: Surface): nat
    requires t.level < |layout.slices|
  {
    var faceMult := if viewDim == DimCube then 6 else 1;
    if layout.dim == Dim3D then base + layout.slices[t.level].offset + t.layer * LayerStride(layout, t.level)
    else base + TextureOffset(layout, t.level, t.layer * faceMult + t.face, t.sample)
  }

  /** A MALI_SURFACE or MALI_SURFACE_WITH_STRIDE descriptor. */
  datatype PayloadEntry = SurfaceEntry(pointer: nat) | SurfaceWithStride(pointer: nat, rowStride: nat, surfaceStride: nat)

  /** The descriptor written for one surface, with the strides of
    * panfrost_get_surface_strides; AFBC before v7 has no row stride. */
  function Entry(arch: nat, layout: ImageLayout, viewDim: TextureDim, base: nat, manualStride: bool, t: Surface): PayloadEntry
    requires t.level < |layout.slices|
  {
    var pointer := SurfacePointer(layout, viewDim, base, t);
    var sl := layout.slices[t.level];
    if !manualStride then SurfaceEntry(pointer)
    else if layout.modifier.Afbc? then SurfaceWithStride(pointer, if arch < 7 then 0 else sl.afbc.rowStride, sl.afbc.surfaceStride)
    else SurfaceWithStride(pointer, sl.rowStride, sl.surfaceStride)
  }

  /** The surfaces the walk has visited before reaching cur, in order, each
    * at its own position; once past the last layer, all of them. */
  ghost predicate Walked(arch: nat, rg: Ranges, visited: seq<Surface>, cur: Surface)
    requires RangesOk(rg) && Inner(rg, cur)
  {
    && |visited| == Pos(arch, rg, cur) <= SurfaceCount(rg)
    && (cur.layer > rg.lastLayer ==> |visited| == SurfaceCount(rg))
    && forall i :: 0 <= i < |visited| ==> InRange(rg, visited[i]) && Pos(arch, rg, visited[i]) == i
  }

  /** Visiting t and stepping to its successor extends the walk. */
  lemma WalkStep(arch: nat, rg: Ranges, visited: seq<Surface>, t: Surface)
    requires RangesOk(rg) && InRange(rg, t) && Walked(arch, rg, visited, t)
    ensures Inner(rg, Succ(arch, rg, t)) && Walked(arch, rg, visited + [t], Succ(arch, rg, t))
  {
    PosInRange(arch, rg, t);
    SuccPos(arch, rg, t);
    if Succ(arch, rg, t).layer > rg.lastLayer {
      SuccLast(arch, rg, t);
      EndPos(arch, rg);
    }
  }

  /** A finished walk has visited every surface in range, each at its position. */
  lemma WalkCovers(arch: nat, rg: Ranges, visited: seq<Surface>)
    requires RangesOk(rg) && |visited| == SurfaceCount(rg)
    requires forall i :: 0 <= i < |visited| ==> InRange(rg, visited[i]) && Pos(arch, rg, visited[i]) == i
    ensures forall t :: InRange(rg, t) ==> Pos(arch, rg, t) < |visited| && visited[Pos(arch, rg, t)] == t
  {
    forall t | InRange(rg, t)
      ensures Pos(arch, rg, t) < |visited| && visited[Pos(arch, rg, t)] == t
    {
      PosInRange(arch, rg, t);
      PosInjective(arch, rg, t, visited[Pos(arch, rg, t)]);
    }
  }

  /** The descriptors of the surfaces ts, in order. */
  function Entries(arch: nat, layout: ImageLayout, viewDim: TextureDim, base: nat, manualStride: bool,
                   ts: seq<Surface>): (r: seq<PayloadEntry>)
    requires forall i :: 0 <= i < |ts| ==> ts[i].level < |layout.slices|
    ensures |r| == |ts| && forall i :: 0 <= i < |ts| ==> r[i] == Entry(arch, layout, viewDim, base, manualStride, ts[i])
  {
    seq(|ts|, i requires 0 <= i < |ts| => Entry(arch, layout, viewDim, base, manualStride, ts[i]))
  }

  /** panfrost_emit_texture_payload: walks the surfaces of the view with the
    * surface iterator and writes one descriptor per surface. The descriptor
    * of each surface sits at its position in the iteration order, so every
    * surface is written exactly once, and there are as many descriptors as
    * panfrost_texture_num_elements counts. */
  method EmitTexturePayload(arch: nat, layout: ImageLayout, v: View, base: nat, manualStride: bool)
    returns (payload: seq<PayloadEntry>)
    requires ViewOk(v) && layout.nrSamples >= 1 && v.lastLevel < |layout.slices|
    ensures |payload| == SurfaceCount(ViewRanges(v, layout.nrSamples))
    ensures |payload| == NumElements(v, layout.nrSamples, false)
    ensures forall t :: InRange(ViewRanges(v, layout.nrSamples), t) ==>
      && Pos(arch, ViewRanges(v, layout.nrSamples), t) < |payload|
      && payload[Pos(arch, ViewRanges(v, layout.nrSamples), t)] == Entry(arch, layout, v.dim, base, manualStride, t)
  {
    var rg := ViewRanges(v, layout.nrSamples);
    payload := WalkSurfaces(arch, layout, v.dim, base, manualStride, rg);
    NumElementsCountsSurfaces(v, layout.nrSamples, false);
  }

  /** The surface walk of panfrost_emit_texture_payload over the ranges rg. */
  method WalkSurfaces(arch: nat, layout: ImageLayout, viewDim: TextureDim, base: nat, manualStride: bool, rg: Ranges)
    returns (payload: seq<PayloadEntry>)
    requires RangesOk(rg) && rg.lastLevel < |layout.slices|
    ensures |payload| == SurfaceCount(rg)
    ensures forall t :: InRange(rg, t) ==>
      Pos(arch, rg, t) < |payload| && payload[Pos(arch, rg, t)] == Entry(arch, layout, viewDim, base, manualStride, t)
  {
    var iter := new SurfaceIter(rg);
    payload := [];
    ghost var visited: seq<Surface> := [];
    while !iter.End()
      invariant iter.Valid() && iter.Range() == rg && Walked(arch, rg, visited, iter.Current())
      invariant forall i :: 0 <= i < |visited| ==> visited[i].level < |layout.slices|
      invariant payload == Entries(arch, layout, viewDim, base, manualStride, visited)
      decreases SurfaceCount(rg) - |visited|
    {
      var t := Surface(iter.layer, iter.level, iter.face, iter.sample);
      WalkStep(arch, rg, visited, t);
      payload := payload + [Entry(arch, layout, viewDim, base, manualStride, t)];
      visited := visited + [t];
      iter.Next(arch);
    }
    WalkCovers(arch, rg, visited);
  }

}
