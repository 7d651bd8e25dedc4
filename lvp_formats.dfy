// Lavapipe format capabilities (gallium/frontends/lavapipe/lvp_formats.c):
// the VkFormat to pipe-format table, the format features derived from what
// the gallium screen supports, the image-format query that checks a usage
// against those features, and the sparse queries.
//
// The screen's is_format_supported and get_param and the u_format
// descriptor queries are parameters here: they are not part of this model.
module LvpFormats {
  import opened Bits

  // ---------------------------------------------------------------------
  // vk_format_to_pipe
  // ---------------------------------------------------------------------

  /** The gallium formats the table names. */
  datatype PipeFormat =
    | NONE
    | R8_UNORM | R8G8_UNORM | R8G8B8_UNORM | R8G8B8A8_UNORM
    | R8_SNORM | R8G8_SNORM | R8G8B8_SNORM | R8G8B8A8_SNORM
    | R8G8B8_SRGB | R8G8B8A8_SRGB | B8G8R8A8_UNORM | B8G8R8A8_SRGB
    | R8_UINT | R8G8_UINT | R8G8B8_UINT | R8G8B8A8_UINT
    | R16_UINT | R16G16_UINT | R16G16B16_UINT | R16G16B16A16_UINT
    | R32_UINT | R32G32_UINT | R32G32B32_UINT | R32G32B32A32_UINT
    | R8_SINT | R8G8_SINT | R8G8B8_SINT | R8G8B8A8_SINT
    | R16_SINT | R16G16_SINT | R16G16B16_SINT | R16G16B16A16_SINT
    | R32_SINT | R32G32_SINT | R32G32B32_SINT | R32G32B32A32_SINT
    | R16_UNORM | R16G16_UNORM | R16G16B16A16_UNORM
    | R16_SNORM | R16G16_SNORM | R16G16B16A16_SNORM
    | R16_FLOAT | R16G16_FLOAT | R16G16B16_FLOAT | R16G16B16A16_FLOAT
    | R32_FLOAT | R32G32_FLOAT | R32G32B32_FLOAT | R32G32B32A32_FLOAT
    | S8_UINT | B5G6R5_UNORM | B5G5R5A1_UNORM | A4R4G4B4_UNORM | Z16_UNORM
    | R10G10B10A2_UNORM | R10G10B10A2_UINT | R11G11B10_FLOAT | R9G9B9E5_FLOAT
    | Z24X8_UNORM | Z32_FLOAT | Z24_UNORM_S8_UINT | Z32_FLOAT_S8X24_UINT
    | DXT1_RGB | DXT1_RGBA | DXT3_RGBA | DXT5_RGBA | RGTC1_UNORM | RGTC2_UNORM
    | DXT1_SRGB | DXT1_SRGBA | DXT3_SRGBA | DXT5_SRGBA | RGTC1_SNORM | RGTC2_SNORM
    | BPTC_RGB_UFLOAT | BPTC_RGB_FLOAT | BPTC_RGBA_UNORM | BPTC_SRGBA

  /** VK_FORMAT_ASTC_12x12_SRGB_BLOCK, the last entry of the table. */
  const AstcLast: nat := 184

  /** format_to_vk_table, indexed by the VkFormat value (from the Vulkan
    * registry); entries the table does not name are zero, PIPE_FORMAT_NONE.
    * VK_FORMAT_R8_SRGB (15) is deliberately absent. */
  function TableEntry(format: nat): PipeFormat
  {
    match format
    // R8..R8G8B8A8, UNORM, SNORM, SRGB
    case 9 => R8_UNORM      case 16 => R8G8_UNORM      case 23 => R8G8B8_UNORM      case 37 => R8G8B8A8_UNORM
    case 10 => R8_SNORM     case 17 => R8G8_SNORM      case 24 => R8G8B8_SNORM      case 38 => R8G8B8A8_SNORM
    case 29 => R8G8B8_SRGB  case 43 => R8G8B8A8_SRGB
    case 44 => B8G8R8A8_UNORM  case 50 => B8G8R8A8_SRGB
    // unsigned and signed integers
    case 13 => R8_UINT      case 20 => R8G8_UINT       case 27 => R8G8B8_UINT       case 41 => R8G8B8A8_UINT
    case 74 => R16_UINT     case 81 => R16G16_UINT     case 88 => R16G16B16_UINT    case 95 => R16G16B16A16_UINT
    case 98 => R32_UINT     case 101 => R32G32_UINT    case 104 => R32G32B32_UINT   case 107 => R32G32B32A32_UINT
    case 14 => R8_SINT      case 21 => R8G8_SINT       case 28 => R8G8B8_SINT       case 42 => R8G8B8A8_SINT
    case 75 => R16_SINT     case 82 => R16G16_SINT     case 89 => R16G16B16_SINT    case 96 => R16G16B16A16_SINT
    case 99 => R32_SINT     case 102 => R32G32_SINT    case 105 => R32G32B32_SINT   case 108 => R32G32B32A32_SINT
    // 16-bit normalized, and the _SFLOAT formats
    case 70 => R16_UNORM    case 77 => R16G16_UNORM    case 91 => R16G16B16A16_UNORM
    case 71 => R16_SNORM    case 78 => R16G16_SNORM    case 92 => R16G16B16A16_SNORM
    case 76 => R16_FLOAT    case 83 => R16G16_FLOAT    case 90 => R16G16B16_FLOAT   case 97 => R16G16B16A16_FLOAT
    case 100 => R32_FLOAT   case 103 => R32G32_FLOAT   case 106 => R32G32B32_FLOAT  case 109 => R32G32B32A32_FLOAT
    case 127 => S8_UINT
    // packed formats, whose component order gallium names the other way
    case 4 => B5G6R5_UNORM  case 8 => B5G5R5A1_UNORM   case 3 => A4R4G4B4_UNORM     case 124 => Z16_UNORM
    case 51 => R8G8B8A8_UNORM  case 52 => R8G8B8A8_SNORM  case 55 => R8G8B8A8_UINT
    case 56 => R8G8B8A8_SINT   case 57 => R8G8B8A8_SRGB
    case 64 => R10G10B10A2_UNORM  case 68 => R10G10B10A2_UINT
    case 122 => R11G11B10_FLOAT   case 123 => R9G9B9E5_FLOAT
    // depth and stencil
    case 125 => Z24X8_UNORM case 126 => Z32_FLOAT      case 129 => Z24_UNORM_S8_UINT  case 130 => Z32_FLOAT_S8X24_UINT
    // block-compressed
    case 131 => DXT1_RGB    case 133 => DXT1_RGBA      case 135 => DXT3_RGBA       case 137 => DXT5_RGBA
    case 139 => RGTC1_UNORM case 141 => RGTC2_UNORM
    case 132 => DXT1_SRGB   case 134 => DXT1_SRGBA     case 136 => DXT3_SRGBA      case 138 => DXT5_SRGBA
    case 140 => RGTC1_SNORM case 142 => RGTC2_SNORM
    case 143 => BPTC_RGB_UFLOAT  case 144 => BPTC_RGB_FLOAT  case 145 => BPTC_RGBA_UNORM  case 146 => BPTC_SRGBA
    case _ => NONE
  }

  /** vk_format_to_pipe: NONE beyond the table, the table entry otherwise. */
  function VkFormatToPipe(format: nat): (r: PipeFormat)
    ensures format > AstcLast ==> r == NONE
  {
    if format > AstcLast then NONE else TableEntry(format)
  }

  /** The A8B8G8R8 _PACK32 formats that alias an R8G8B8A8 format. */
  predicate IsPack32Alias(format: nat)
  {
    format == 51 || format == 52 || format == 55 || format == 56 || format == 57
  }

  /** Only VkFormats 3 to 146 translate, R8_SRGB excepted: no ETC2, EAC
    * or ASTC format has a gallium counterpart. */
  lemma TranslatedRange(format: nat)
    requires VkFormatToPipe(format) != NONE
    ensures 3 <= format <= 146 && format != 15
  {
  }

  /** An alias translates to the same pipe format as the R8G8B8A8 format
    * 14 codes below it. */
  lemma Pack32Aliases(format: nat)
    requires IsPack32Alias(format)
    ensures VkFormatToPipe(format) == VkFormatToPipe(format - 14) != NONE
  {
  }

  // ---------------------------------------------------------------------
  // Format features
  // ---------------------------------------------------------------------

  /** VkFormatFeatureFlags, with the bit values of VkFormatFeatureFlagBits. */
  type FeatureFlags = bv32

  const SampledImageBit: FeatureFlags := 0x1
  const StorageImageBit: FeatureFlags := 0x2
  const StorageImageAtomicBit: FeatureFlags := 0x4
  const UniformTexelBufferBit: FeatureFlags := 0x8
  const StorageTexelBufferBit: FeatureFlags := 0x10
  const StorageTexelBufferAtomicBit: FeatureFlags := 0x20
  const VertexBufferBit: FeatureFlags := 0x40
  const ColorAttachmentBit: FeatureFlags := 0x80
  const ColorAttachmentBlendBit: FeatureFlags := 0x100
  const DepthStencilAttachmentBit: FeatureFlags := 0x200
  const BlitSrcBit: FeatureFlags := 0x400
  const BlitDstBit: FeatureFlags := 0x800
  const SampledImageFilterLinearBit: FeatureFlags := 0x1000
  const TransferSrcBit: FeatureFlags := 0x4000
  const TransferDstBit: FeatureFlags := 0x8000

  /** Every bit that can be reported only for a buffer. */
  const BufferOnlyBits: FeatureFlags :=
    UniformTexelBufferBit | StorageTexelBufferBit | StorageTexelBufferAtomicBit | VertexBufferBit

  predicate Has(flags: FeatureFlags, bit: FeatureFlags)
  {
    flags & bit != 0
  }

  /** VkFormatProperties. */
  datatype FormatProperties = FormatProperties(linear: FeatureFlags, optimal: FeatureFlags, buffer: FeatureFlags)

  datatype Target = Texture2D | Buffer
  datatype Bind = BindDepthStencil | BindSamplerView | BindVertexBuffer | BindConstantBuffer | BindRenderTarget

  /** The gallium screen: is_format_supported and the get_param limits. */
  datatype Screen = Screen(supported: (PipeFormat, Target, Bind) -> bool,
                           max2dSize: nat, maxArrayLayers: nat, max3dLevels: nat)

  /** What the u_format descriptor says about a format. */
  datatype FormatDesc = FormatDesc(compressed: bool, srgb: bool, pureInteger: bool, snorm: bool, components: nat)

  /** The optimal-tiling features of a format the screen can use as a
    * depth/stencil target. */
  const DepthStencilFeatures: FeatureFlags :=
    DepthStencilAttachmentBit | SampledImageBit | TransferSrcBit | TransferDstBit | BlitSrcBit | BlitDstBit

  /** The features of a compressed format the screen can sample from. */
  const CompressedFeatures: FeatureFlags :=
    SampledImageBit | BlitSrcBit | TransferSrcBit | TransferDstBit | SampledImageFilterLinearBit

  function BitIf(c: bool, bit: FeatureFlags): FeatureFlags
  {
    if c then bit else 0
  }

  /** The tiling features of a colour format (neither compressed nor
    * depth/stencil). */
  function ColorFeatures(sc: Screen, d: FormatDesc, p: PipeFormat): FeatureFlags
  {
    var sampler := sc.supported(p, Texture2D, BindSamplerView);
    var rt := sc.supported(p, Texture2D, BindRenderTarget);
    var blittable := !p.R9G9B9E5_FLOAT? && d.components != 3;
    BitIf(sampler, SampledImageBit)
    | BitIf(sampler && !d.pureInteger, SampledImageFilterLinearBit)
    | BitIf(rt, ColorAttachmentBit | StorageImageBit)
    | BitIf(rt && !d.snorm, ColorAttachmentBlendBit)
    | BitIf(p.R32_UINT? || p.R32_SINT?, StorageImageAtomicBit)
    | BitIf(p.R11G11B10_FLOAT? || p.R9G9B9E5_FLOAT?, BlitSrcBit)
    | TransferSrcBit | TransferDstBit
    | BitIf(p.B5G6R5_UNORM? || blittable, BlitSrcBit | BlitDstBit)
  }

  /** The buffer features of a colour format. */
  function ColorBufferFeatures(sc: Screen, d: FormatDesc, p: PipeFormat): FeatureFlags
  {
    StorageTexelBufferBit
    | BitIf(!d.srgb && sc.supported(p, Buffer, BindVertexBuffer), VertexBufferBit)
    | BitIf(sc.supported(p, Buffer, BindConstantBuffer), UniformTexelBufferBit)
    | BitIf(p.R32_UINT? || p.R32_SINT?, StorageTexelBufferAtomicBit)
  }

  /** The properties lvp_physical_device_get_format_properties reports, by
    * kind of format. */
  function FormatPropertiesOf(sc: Screen, desc: PipeFormat -> FormatDesc, format: nat): FormatProperties
  {
    var p := VkFormatToPipe(format);
    PipeFormatProperties(sc, desc(p), p)
  }

  /** The properties of a pipe format with descriptor d. */
  function PipeFormatProperties(sc: Screen, d: FormatDesc, p: PipeFormat): FormatProperties
  {
    if p.NONE? then FormatProperties(0, 0, 0)
    else if sc.supported(p, Texture2D, BindDepthStencil) then FormatProperties(0, DepthStencilFeatures, 0)
    else if d.compressed then
      var fs := BitIf(sc.supported(p, Texture2D, BindSamplerView), CompressedFeatures);
      FormatProperties(fs, fs, 0)
    else
      var fs := ColorFeatures(sc, d, p);
      FormatProperties(fs, fs, ColorBufferFeatures(sc, d, p))
  }

  /** lvp_physical_device_get_format_properties: the features are ORed
    * together bit by bit from the screen's answers. */
  method GetFormatProperties(sc: Screen, desc: PipeFormat -> FormatDesc, format: nat) returns (props: FormatProperties)
    ensures props == FormatPropertiesOf(sc, desc, format)
  {
    var p := VkFormatToPipe(format);
    props := GatherFeatures(sc, desc(p), p);
  }

  /** The body of lvp_physical_device_get_format_properties, once the
    * format is translated. */
  method GatherFeatures(sc: Screen, d: FormatDesc, p: PipeFormat) returns (props: FormatProperties)
    ensures props == PipeFormatProperties(sc, d, p)
  {
    if p.NONE? {
      return FormatProperties(0, 0, 0);
    }
    if sc.supported(p, Texture2D, BindDepthStencil) {
      var features := DepthStencilAttachmentBit | SampledImageBit | TransferSrcBit | TransferDstBit
                      | BlitSrcBit | BlitDstBit;
      return FormatProperties(0, features, 0);
    }
    var features: FeatureFlags := 0;
    var bufferFeatures: FeatureFlags := 0;
    if d.compressed {
      if sc.supported(p, Texture2D, BindSamplerView) {
        features := features | SampledImageBit;
        features := features | BlitSrcBit;
        features := features | TransferSrcBit | TransferDstBit;
        features := features | SampledImageFilterLinearBit;
      }
      return FormatProperties(features, features, bufferFeatures);
    }
    bufferFeatures := ColorBufferFeatureBits(sc, d, p);
    features := ColorFeatureBits(sc, d, p);
    props := FormatProperties(features, features, bufferFeatures);
  }

  /** The buffer features of a colour format, ORed together. */
  method ColorBufferFeatureBits(sc: Screen, d: FormatDesc, p: PipeFormat) returns (features: FeatureFlags)
    ensures features == ColorBufferFeatures(sc, d, p)
  {
    features := StorageTexelBufferBit;
    if !d.srgb && sc.supported(p, Buffer, BindVertexBuffer) {
      features := features | VertexBufferBit;
    }
    if sc.supported(p, Buffer, BindConstantBuffer) {
      features := features | UniformTexelBufferBit;
    }
    if p.R32_UINT? || p.R32_SINT? {
      features := features | StorageTexelBufferAtomicBit;
    }
  }

  /** The tiling features of a colour format, ORed together. */
  method ColorFeatureBits(sc: Screen, d: FormatDesc, p: PipeFormat) returns (features: FeatureFlags)
    ensures features == ColorFeatures(sc, d, p)
  {
    features := SamplerBits(sc, d, p);
    features := RenderTargetBits(sc, d, p, features);
    features := FormatSpecificBits(d, p, features);
  }

  /** The sampling bits of a colour format. */
  method SamplerBits(sc: Screen, d: FormatDesc, p: PipeFormat) returns (features: FeatureFlags)
    ensures var sampler := sc.supported(p, Texture2D, BindSamplerView);
            features == BitIf(sampler, SampledImageBit) | BitIf(sampler && !d.pureInteger, SampledImageFilterLinearBit)
  {
    features := 0;
    if sc.supported(p, Texture2D, BindSamplerView) {
      features := features | SampledImageBit;
      if !d.pureInteger {
        features := features | SampledImageFilterLinearBit;
      }
    }
  }

  /** Adds the render-target bits of a colour format. */
  method RenderTargetBits(sc: Screen, d: FormatDesc, p: PipeFormat, before: FeatureFlags) returns (features: FeatureFlags)
    ensures var rt := sc.supported(p, Texture2D, BindRenderTarget);
            features == before | BitIf(rt, ColorAttachmentBit | StorageImageBit) | BitIf(rt && !d.snorm, ColorAttachmentBlendBit)
  {
    features := before;
    if sc.supported(p, Texture2D, BindRenderTarget) {
      features := features | ColorAttachmentBit;
      if !d.snorm {
        features := features | ColorAttachmentBlendBit;
      }
      features := features | StorageImageBit;
    }
  }

  /** Adds the atomic, transfer and blit bits, which depend on the format
    * itself. */
  method FormatSpecificBits(d: FormatDesc, p: PipeFormat, before: FeatureFlags) returns (features: FeatureFlags)
    ensures features == before | BitIf(p.R32_UINT? || p.R32_SINT?, StorageImageAtomicBit)
                       | BitIf(p.R11G11B10_FLOAT? || p.R9G9B9E5_FLOAT?, BlitSrcBit) | TransferSrcBit | TransferDstBit
                       | BitIf(p.B5G6R5_UNORM? || (!p.R9G9B9E5_FLOAT? && d.components != 3), BlitSrcBit | BlitDstBit)
  {
    features := before;
    if p.R32_UINT? || p.R32_SINT? {
      features := features | StorageImageAtomicBit;
    }
    if p.R11G11B10_FLOAT? || p.R9G9B9E5_FLOAT? {
      features := features | BlitSrcBit;
    }
    features := features | TransferSrcBit | TransferDstBit;
    if p.B5G6R5_UNORM? {
      features := features | BlitSrcBit | BlitDstBit;
    }
    if !p.R9G9B9E5_FLOAT? && d.components != 3 {
      features := features | BlitSrcBit | BlitDstBit;
    }
  }

  /** Which tiling features a colour format has, bit by bit. */
  lemma ColorFeaturesByBit(sc: Screen, d: FormatDesc, p: PipeFormat)
    ensures var fs := ColorFeatures(sc, d, p);
            var sampler := sc.supported(p, Texture2D, BindSamplerView);
            var rt := sc.supported(p, Texture2D, BindRenderTarget);
            var blittable := !p.R9G9B9E5_FLOAT? && d.components != 3;
            && (Has(fs, SampledImageBit) <==> sampler)
            && (Has(fs, SampledImageFilterLinearBit) <==> sampler && !d.pureInteger)
            && (Has(fs, ColorAttachmentBit) <==> rt)
            && (Has(fs, StorageImageBit) <==> rt)
            && (Has(fs, ColorAttachmentBlendBit) <==> rt && !d.snorm)
            && (Has(fs, StorageImageAtomicBit) <==> p.R32_UINT? || p.R32_SINT?)
            && (Has(fs, BlitSrcBit) <==> p.R11G11B10_FLOAT? || p.R9G9B9E5_FLOAT? || p.B5G6R5_UNORM? || blittable)
            && (Has(fs, BlitDstBit) <==> p.B5G6R5_UNORM? || blittable)
            && Has(fs, TransferSrcBit) && Has(fs, TransferDstBit)
            && !Has(fs, DepthStencilAttachmentBit)
            && fs & BufferOnlyBits == 0
  {
  }

  /** Formats without a translation have no features at all. */
  lemma UntranslatedHasNothing(sc: Screen, desc: PipeFormat -> FormatDesc, format: nat)
    requires VkFormatToPipe(format) == NONE
    ensures FormatPropertiesOf(sc, desc, format) == FormatProperties(0, 0, 0)
  {
  }

  /** Linear and optimal tiling have the same features, except for a
    * depth/stencil format, which has none for linear tiling. */
  lemma LinearMatchesOptimal(sc: Screen, desc: PipeFormat -> FormatDesc, format: nat)
    ensures var props := FormatPropertiesOf(sc, desc, format);
            var p := VkFormatToPipe(format);
            if !p.NONE? && sc.supported(p, Texture2D, BindDepthStencil)
            then props.linear == 0 && props.optimal == DepthStencilFeatures
            else props.linear == props.optimal
  {
  }

  /** Only a colour format that is neither compressed nor depth/stencil has
    * buffer features, and such a format always has texel-buffer storage and
    * transfers in both directions; no image tiling reports a buffer-only
    * bit. */
  lemma BufferFeaturesOnlyForColor(sc: Screen, desc: PipeFormat -> FormatDesc, format: nat)
    ensures var props := FormatPropertiesOf(sc, desc, format);
            var p := VkFormatToPipe(format);
            var color := !p.NONE? && !sc.supported(p, Texture2D, BindDepthStencil) && !desc(p).compressed;
            && (props.buffer != 0 <==> color)
            && (color ==> Has(props.buffer, StorageTexelBufferBit)
                          && Has(props.optimal, TransferSrcBit) && Has(props.optimal, TransferDstBit))
            && props.linear & BufferOnlyBits == 0 && props.optimal & BufferOnlyBits == 0
  {
    var p := VkFormatToPipe(format);
    if !p.NONE? && !sc.supported(p, Texture2D, BindDepthStencil) && !desc(p).compressed {
      ColorFeaturesByBit(sc, desc(p), p);
    }
  }

  /** The atomic features belong to the two 32-bit integer formats alone. */
  lemma AtomicsOnlyForR32(sc: Screen, desc: PipeFormat -> FormatDesc, format: nat)
    ensures var props := FormatPropertiesOf(sc, desc, format);
            var p := VkFormatToPipe(format);
            var r32 := (p.R32_UINT? || p.R32_SINT?) && !sc.supported(p, Texture2D, BindDepthStencil) && !desc(p).compressed;
            && (Has(props.optimal, StorageImageAtomicBit) <==> r32)
            && (Has(props.buffer, StorageTexelBufferAtomicBit) <==> r32)
  {
    var p := VkFormatToPipe(format);
    if !p.NONE? && !sc.supported(p, Texture2D, BindDepthStencil) && !desc(p).compressed {
      ColorFeaturesByBit(sc, desc(p), p);
    }
  }

  // ---------------------------------------------------------------------
  // lvp_get_image_format_properties
  // ---------------------------------------------------------------------

  datatype ImageType = Image1D | Image2D | Image3D
  datatype Tiling = TilingLinear | TilingOptimal

  /** VkImageUsageFlags, with the bit values of VkImageUsageFlagBits. */
  type UsageFlags = bv32

  const UsageTransferSrcBit: UsageFlags := 0x1
  const UsageTransferDstBit: UsageFlags := 0x2
  const UsageSampledBit: UsageFlags := 0x4
  const UsageStorageBit: UsageFlags := 0x8
  const UsageColorAttachmentBit: UsageFlags := 0x10
  const UsageDepthStencilAttachmentBit: UsageFlags := 0x20
  const UsageTransientAttachmentBit: UsageFlags := 0x40
  const UsageInputAttachmentBit: UsageFlags := 0x80

  datatype Extent = Extent(width: nat, height: nat, depth: nat)

  /** VkImageFormatProperties; sample counts as the set of counts. */
  datatype ImageFormatProperties = ImageFormatProperties(maxExtent: Extent, maxMipLevels: nat, maxArrayLayers: nat,
                                                         sampleCounts: set<nat>, maxResourceSize: nat)

  datatype VkResult = Success | ErrorFormatNotSupported

  const Uint32Max: nat := 0xFFFF_FFFF

  const NoImageProperties := ImageFormatProperties(Extent(0, 0, 0), 0, 0, {}, 0)

  function TilingFeatures(props: FormatProperties, tiling: Tiling): FeatureFlags
  {
    if tiling == TilingLinear then props.linear else props.optimal
  }

  /** Whether the features allow every usage bit: each usage needs its
    * feature, an input attachment a colour or a depth/stencil attachment,
    * and a transient attachment (or an unknown bit) nothing. */
  predicate UsageAllowed(usage: UsageFlags, features: FeatureFlags)
  {
    && (usage & UsageSampledBit != 0 ==> Has(features, SampledImageBit))
    && (usage & UsageStorageBit != 0 ==> Has(features, StorageImageBit))
    && (usage & UsageColorAttachmentBit != 0 ==> Has(features, ColorAttachmentBit))
    && (usage & UsageDepthStencilAttachmentBit != 0 ==> Has(features, DepthStencilAttachmentBit))
    && (usage & UsageTransferSrcBit != 0 ==> Has(features, TransferSrcBit))
    && (usage & UsageTransferDstBit != 0 ==> Has(features, TransferDstBit))
    && (usage & UsageInputAttachmentBit != 0 ==> Has(features, ColorAttachmentBit | DepthStencilAttachmentBit))
  }

  /** When an image of the format, type, tiling and usage is supported. */
  predicate ImageSupported(features: FeatureFlags, compressed: bool, t: ImageType, usage: UsageFlags)
  {
    && features != 0
    && !(t == Image1D && compressed)
    && UsageAllowed(usage, features)
  }

  /** The number of levels in a complete mip chain whose largest level is
    * n texels across: n, n/2, ... down to 1. */
  function MipChainLength(n: nat): nat
  {
    if n <= 1 then 1 else 1 + MipChainLength(n / 2)
  }

  /** maxMipLevels as written: util_logbase2 of the largest 2D size. */
  function MaxMipLevelsAsWritten(max2dSize: nat): nat
  {
    Log2(max2dSize)
  }

  /** maxMipLevels as section "Image format properties" of the Vulkan
    * specification requires: the length of the complete mip chain of the
    * largest 2D size the source bases it on, util_logbase2 of it plus one. */
  function MaxMipLevels(max2dSize: nat): nat
  {
    Log2(max2dSize) + 1
  }

  lemma {:induction false} MipChainIsLog2PlusOne(n: nat)
    ensures MipChainLength(n) == Log2(n) + 1
  {
    if n > 1 {
      MipChainIsLog2PlusOne(n / 2);
    }
  }

  /** The corrected value is the complete chain of the largest 2D size,
    * one level more than the value as written. */
  lemma MaxMipLevelsIsChain(max2dSize: nat)
    ensures MaxMipLevels(max2dSize) == MipChainLength(max2dSize)
    ensures MaxMipLevels(max2dSize) == MaxMipLevelsAsWritten(max2dSize) + 1
    ensures MaxMipLevels(max2dSize) >= 1
  {
    MipChainIsLog2PlusOne(max2dSize);
  }

  /** For a 16384-texel 2D image the value as written is 14, one level
    * short of the 15-level complete chain. */
  lemma MaxMipLevelsOneShort()
    ensures MaxMipLevelsAsWritten(16384) == 14
    ensures MipChainLength(16384) == 15
    ensures MaxMipLevels(16384) == 15
  {
    Log2Of16384();
    MipChainIsLog2PlusOne(16384);
  }

  lemma Log2Of16384()
    ensures Log2(16384) == 14
  {
    assert Pow2(14) == 16384 by {
      assert Pow2(7) == 128;
      Pow2Add(7, 7);
    }
    Log2OfPow2(14);
  }

  /** The largest extent, mip count, array size and sample counts of an
    * image type, with the largest 2D size for width and height; the mip
    * count is the corrected one, of the largest 2D size for every type. */
  function TypeLimits(sc: Screen, t: ImageType): (r: ImageFormatProperties)
    requires sc.max3dLevels < 31
    ensures r.maxResourceSize == Uint32Max && r.maxMipLevels == MaxMipLevels(sc.max2dSize)
    ensures r.maxExtent.width == sc.max2dSize
    ensures r.sampleCounts == if t == Image2D then {1, 4} else {1}
    ensures r.maxArrayLayers == if t == Image3D then 1 else sc.maxArrayLayers
  {
    var e := match t
      case Image1D => Extent(sc.max2dSize, 1, 1)
      case Image2D => Extent(sc.max2dSize, sc.max2dSize, 1)
      case Image3D => Extent(sc.max2dSize, sc.max2dSize, Pow2(sc.max3dLevels));
    ImageFormatProperties(e, MaxMipLevels(sc.max2dSize), if t == Image3D then 1 else sc.maxArrayLayers,
                          if t == Image2D then {1, 4} else {1}, Uint32Max)
  }

  /** lvp_get_image_format_properties: the tiling's features must be
    * non-empty, a 1D image must not be compressed, and every usage bit
    * needs its feature; otherwise the properties are all zero and the
    * result is VK_ERROR_FORMAT_NOT_SUPPORTED. */
  method GetImageFormatProperties(sc: Screen, desc: PipeFormat -> FormatDesc, format: nat, t: ImageType,
                                  tiling: Tiling, usage: UsageFlags)
    returns (result: VkResult, props: ImageFormatProperties)
    requires sc.max3dLevels < 31
    ensures var features := TilingFeatures(FormatPropertiesOf(sc, desc, format), tiling);
            result == Success <==> ImageSupported(features, desc(VkFormatToPipe(format)).compressed, t, usage)
    ensures result == Success ==> props == TypeLimits(sc, t)
    ensures result == ErrorFormatNotSupported ==> props == NoImageProperties
  {
    var p := VkFormatToPipe(format);
    var formatProps := GetFormatProperties(sc, desc, format);
    var features := if tiling == TilingLinear then formatProps.linear else formatProps.optimal;
    result, props := ImagePropertiesFor(sc, features, desc(p).compressed, t, usage);
  }

  /** The checks and limits of lvp_get_image_format_properties once the
    * tiling's features are known. The shift giving the 3D depth is of a
    * 32-bit value. */
  method ImagePropertiesFor(sc: Screen, features: FeatureFlags, compressed: bool, t: ImageType, usage: UsageFlags)
    returns (result: VkResult, props: ImageFormatProperties)
    requires sc.max3dLevels < 31
    ensures result == Success <==> ImageSupported(features, compressed, t, usage)
    ensures result == Success ==> props == TypeLimits(sc, t)
    ensures result == ErrorFormatNotSupported ==> props == NoImageProperties
  {
    if features == 0 {
      return ErrorFormatNotSupported, NoImageProperties;
    }
    var maxExtent: Extent;
    var maxArraySize: nat;
    var sampleCounts: set<nat> := {1};
    match t {
      case Image1D =>
        if compressed {
          return ErrorFormatNotSupported, NoImageProperties;
        }
        maxExtent := Extent(sc.max2dSize, 1, 1);
        maxArraySize := sc.maxArrayLayers;
      case Image2D =>
        maxExtent := Extent(sc.max2dSize, sc.max2dSize, 1);
        maxArraySize := sc.maxArrayLayers;
        sampleCounts := sampleCounts + {4};
      case Image3D =>
        maxExtent := Extent(sc.max2dSize, sc.max2dSize, Pow2(sc.max3dLevels));
        maxArraySize := 1;
    }
    var maxMipLevels := MaxMipLevels(sc.max2dSize);
    var allowed := CheckUsage(usage, features);
    if !allowed {
      return ErrorFormatNotSupported, NoImageProperties;
    }
    return Success, ImageFormatProperties(maxExtent, maxMipLevels, maxArraySize, sampleCounts, Uint32Max);
  }

  /** The usage tests of lvp_get_image_format_properties, in its order. */
  method CheckUsage(usage: UsageFlags, features: FeatureFlags) returns (allowed: bool)
    ensures allowed == UsageAllowed(usage, features)
  {
    if usage & UsageSampledBit != 0 && features & SampledImageBit == 0 {
      return false;
    }
    if usage & UsageStorageBit != 0 && features & StorageImageBit == 0 {
      return false;
    }
    if usage & UsageColorAttachmentBit != 0 && features & ColorAttachmentBit == 0 {
      return false;
    }
    if usage & UsageDepthStencilAttachmentBit != 0 && features & DepthStencilAttachmentBit == 0 {
      return false;
    }
    if usage & UsageTransferSrcBit != 0 && features & TransferSrcBit == 0 {
      return false;
    }
    if usage & UsageTransferDstBit != 0 && features & TransferDstBit == 0 {
      return false;
    }
    if usage & UsageInputAttachmentBit != 0 && features & (ColorAttachmentBit | DepthStencilAttachmentBit) == 0 {
      return false;
    }
    return true;
  }

  /** Dropping usage bits never turns a supported image unsupported. */
  lemma FewerUsagesStaySupported(features: FeatureFlags, compressed: bool, t: ImageType, usage: UsageFlags, fewer: UsageFlags)
    requires ImageSupported(features, compressed, t, usage) && fewer & !usage == 0
    ensures ImageSupported(features, compressed, t, fewer)
  {
  }

  /** A depth/stencil format has no linear-tiling images at all. */
  lemma DepthStencilNotLinear(sc: Screen, desc: PipeFormat -> FormatDesc, format: nat, t: ImageType, usage: UsageFlags)
    requires VkFormatToPipe(format) != NONE && sc.supported(VkFormatToPipe(format), Texture2D, BindDepthStencil)
    ensures !ImageSupported(TilingFeatures(FormatPropertiesOf(sc, desc, format), TilingLinear),
                            desc(VkFormatToPipe(format)).compressed, t, usage)
  {
  }

  /** A colour format that is neither compressed nor depth/stencil is
    * always supported as a 2D optimal-tiling transfer source and target. */
  lemma ColorTransferSupported(sc: Screen, desc: PipeFormat -> FormatDesc, format: nat)
    requires VkFormatToPipe(format) != NONE && !sc.supported(VkFormatToPipe(format), Texture2D, BindDepthStencil)
    requires !desc(VkFormatToPipe(format)).compressed
    ensures ImageSupported(TilingFeatures(FormatPropertiesOf(sc, desc, format), TilingOptimal), false, Image2D,
                           UsageTransferSrcBit | UsageTransferDstBit)
  {
    BufferFeaturesOnlyForColor(sc, desc, format);
  }

  // ---------------------------------------------------------------------
  // Sparse images
  // ---------------------------------------------------------------------

  /** lvp_GetPhysicalDeviceSparseImageFormatProperties and its "2" variant:
    * sparse images are not supported, so no property is ever reported. */
  method SparseImageFormatPropertyCount(format: nat, t: ImageType, samples: nat, usage: UsageFlags, tiling: Tiling)
    returns (count: nat)
    ensures count == 0
  {
    count := 0;
  }
}
