// Vertex-array state of the GL front end (main/varray.c): the datatype
// bits accepted per API, the format validation with its GL errors, the
// bookkeeping between vertex attributes and buffer binding points, the
// enable/disable path, the interleaved-array layouts and the
// LockArraysEXT state machine.
//
// GLbitfields over vertex attributes are modelled as sets of attribute
// indices (`x |= y` is `x + y`, `x &= ~y` is `x - y`, `x & y` is `x * y`),
// and the type bitmask as a set of named type bits.
module Varray {
  import opened Wrappers

  // ---------------------------------------------------------------------
  // Types, APIs and the legal-type mask
  // ---------------------------------------------------------------------

  /** The GLenum datatypes the *Pointer and *Format calls take. */
  datatype GlType =
    | GlBool | GlByte | GlUnsignedByte | GlShort | GlUnsignedShort | GlInt | GlUnsignedInt
    | GlHalfFloat | GlHalfFloatOes | GlFloat | GlDouble | GlFixed
    | GlUnsignedInt2101010Rev | GlInt2101010Rev | GlUnsignedInt10F11F11FRev
    | OtherType(code: nat)

  /** The *_BIT names of the legal-type bitmask. */
  datatype TypeBit =
    | BoolBit | ByteBit | UnsignedByteBit | ShortBit | UnsignedShortBit | IntBit | UnsignedIntBit
    | HalfBit | FloatBit | DoubleBit | FixedEsBit | FixedGlBit
    | UnsignedInt2101010RevBit | Int2101010RevBit | UnsignedInt10F11F11FRevBit

  /** The bit position each name stands for (`1 << position`). */
  function BitPosition(b: TypeBit): (r: nat)
    ensures r < 15
  {
    match b
    case BoolBit => 0
    case ByteBit => 1
    case UnsignedByteBit => 2
    case ShortBit => 3
    case UnsignedShortBit => 4
    case IntBit => 5
    case UnsignedIntBit => 6
    case HalfBit => 7
    case FloatBit => 8
    case DoubleBit => 9
    case FixedEsBit => 10
    case FixedGlBit => 11
    case UnsignedInt2101010RevBit => 12
    case Int2101010RevBit => 13
    case UnsignedInt10F11F11FRevBit => 14
  }

  /** ALL_TYPE_BITS, `(1 << 15) - 1`. */
  const AllTypeBits: set<TypeBit> :=
    {BoolBit, ByteBit, UnsignedByteBit, ShortBit, UnsignedShortBit, IntBit, UnsignedIntBit,
     HalfBit, FloatBit, DoubleBit, FixedEsBit, FixedGlBit,
     UnsignedInt2101010RevBit, Int2101010RevBit, UnsignedInt10F11F11FRevBit}

  /** Distinct names are distinct bits, so the bitmask and the set agree. */
  lemma BitPositionsDistinct(a: TypeBit, b: TypeBit)
    ensures BitPosition(a) == BitPosition(b) ==> a == b
  {
  }

  datatype Api = ApiOpenGLCompat | ApiOpenGLCore | ApiOpenGLES | ApiOpenGLES2

  predicate IsGles(api: Api) { api == ApiOpenGLES || api == ApiOpenGLES2 }

  predicate IsDesktopGl(api: Api) { api == ApiOpenGLCompat || api == ApiOpenGLCore }

  /** The context version and the extensions and limits the vertex-array
    * code reads. */
  datatype Caps = Caps(
    version: nat,
    halfFloatVertex: bool,          // ARB_half_float_vertex
    oesVertexHalfFloat: bool,       // _mesa_has_OES_vertex_half_float
    es2Compatibility: bool,         // ARB_ES2_compatibility
    type2101010Rev: bool,           // ARB_vertex_type_2_10_10_10_rev
    type10F11F11FRev: bool,         // ARB_vertex_type_10f_11f_11f_rev
    maxRelativeOffset: nat,         // Const.MaxVertexAttribRelativeOffset
    vertexBufferOffsetIsInt32: bool // Const.VertexBufferOffsetIsInt32
  )

  /** type_to_bit: the bit of a datatype, None for 0. */
  function TypeToBit(api: Api, caps: Caps, t: GlType): Option<TypeBit>
  {
    match t
    case GlBool => Some(BoolBit)
    case GlByte => Some(ByteBit)
    case GlUnsignedByte => Some(UnsignedByteBit)
    case GlShort => Some(ShortBit)
    case GlUnsignedShort => Some(UnsignedShortBit)
    case GlInt => Some(IntBit)
    case GlUnsignedInt => Some(UnsignedIntBit)
    case GlHalfFloat | GlHalfFloatOes => if caps.halfFloatVertex then Some(HalfBit) else None
    case GlFloat => Some(FloatBit)
    case GlDouble => Some(DoubleBit)
    case GlFixed => Some(if IsDesktopGl(api) then FixedGlBit else FixedEsBit)
    case GlUnsignedInt2101010Rev => Some(UnsignedInt2101010RevBit)
    case GlInt2101010Rev => Some(Int2101010RevBit)
    case GlUnsignedInt10F11F11FRev => Some(UnsignedInt10F11F11FRevBit)
    case OtherType(_) => None
  }

  /** Two types share a bit only if they are the two HALF_FLOAT enums;
    * unknown types and, without ARB_half_float_vertex, HALF_FLOAT have none;
    * FIXED takes the desktop bit exactly on desktop GL. */
  lemma TypeToBitProperties(api: Api, caps: Caps, s: GlType, t: GlType)
    ensures TypeToBit(api, caps, s).Some? && TypeToBit(api, caps, s) == TypeToBit(api, caps, t) ==>
              s == t || ({s, t} <= {GlHalfFloat, GlHalfFloatOes})
    ensures s.OtherType? ==> TypeToBit(api, caps, s) == None
    ensures (s == GlHalfFloat || s == GlHalfFloatOes) ==>
              (TypeToBit(api, caps, s) == None <==> !caps.halfFloatVertex)
    ensures s == GlFixed ==> (TypeToBit(api, caps, s) == Some(FixedGlBit) <==> IsDesktopGl(api))
    ensures s == GlFixed ==> (TypeToBit(api, caps, s) == Some(FixedEsBit) <==> !IsDesktopGl(api))
  {
  }

  /** get_legal_types_mask. */
  function LegalTypesMask(api: Api, caps: Caps): set<TypeBit>
  {
    if IsGles(api) then
      var m := AllTypeBits - {FixedGlBit, DoubleBit, UnsignedInt10F11F11FRevBit};
      if caps.version < 30 then
        var m' := m - {UnsignedIntBit, IntBit, UnsignedInt2101010RevBit, Int2101010RevBit};
        if !caps.oesVertexHalfFloat then m' - {HalfBit} else m'
      else m
    else
      var m := AllTypeBits - {FixedEsBit};
      var m1 := if !caps.es2Compatibility then m - {FixedGlBit} else m;
      var m2 := if !caps.type2101010Rev then m1 - {UnsignedInt2101010RevBit, Int2101010RevBit} else m1;
      if !caps.type10F11F11FRev then m2 - {UnsignedInt10F11F11FRevBit} else m2
  }

  /** What each API and version allows: ES never takes FIXED_GL, DOUBLE or
    * 10F_11F_11F, and before 3.0 neither the 32-bit integers nor the
    * 2_10_10_10 types, nor HALF without OES_vertex_half_float; desktop GL
    * never takes FIXED_ES; the mask is never empty. */
  lemma LegalTypesRules(api: Api, caps: Caps)
    ensures var m := LegalTypesMask(api, caps);
      && m != {} && BoolBit in m && FloatBit in m && UnsignedByteBit in m
      && (IsGles(api) ==> FixedGlBit !in m && DoubleBit !in m && UnsignedInt10F11F11FRevBit !in m && FixedEsBit in m)
      && (IsGles(api) && caps.version < 30 ==>
            IntBit !in m && UnsignedIntBit !in m && Int2101010RevBit !in m && UnsignedInt2101010RevBit !in m
            && (HalfBit in m <==> caps.oesVertexHalfFloat))
      && (IsGles(api) && caps.version >= 30 ==> IntBit in m && HalfBit in m && Int2101010RevBit in m)
      && (!IsGles(api) ==>
            && FixedEsBit !in m && DoubleBit in m && IntBit in m
            && (FixedGlBit in m <==> caps.es2Compatibility)
            && (Int2101010RevBit in m <==> caps.type2101010Rev)
            && (UnsignedInt10F11F11FRevBit in m <==> caps.type10F11F11FRev))
  {
  }

  // ---------------------------------------------------------------------
  // validate_array_format
  // ---------------------------------------------------------------------

  datatype GlError = InvalidEnum | InvalidOperation | InvalidValue

  datatype ArrayFormat = Rgba | Bgra

  /** BGRA_OR_4: a sizeMax that also admits GL_BGRA. */
  const BgraOr4: int := 5

  /** The BGRA rule of the OpenGL 4.3 core profile specification: only
    * UNSIGNED_BYTE, and the two 2_10_10_10 types when they exist. */
  predicate BgraTypeOk(caps: Caps, t: GlType)
  {
    if caps.type2101010Rev then t == GlUnsignedInt2101010Rev || t == GlInt2101010Rev || t == GlUnsignedByte
    else t == GlUnsignedByte
  }

  /** The error validate_array_format raises, in the order it checks, for a
    * caller mask already intersected with the context's legal types;
    * None when every check passes. */
  function FormatError(api: Api, caps: Caps, legal: set<TypeBit>, sizeMin: int, sizeMax: int, size: int,
                       t: GlType, normalized: bool, relativeOffset: nat, format: ArrayFormat): Option<GlError>
  {
    var sizeMax' := if IsGles(api) && sizeMax == BgraOr4 then 4 else sizeMax;
    var bit := TypeToBit(api, caps, t);
    if bit.None? || bit.value !in legal then Some(InvalidEnum)
    else if format == Bgra && !BgraTypeOk(caps, t) then Some(InvalidOperation)
    else if format == Bgra && !normalized then Some(InvalidOperation)
    else if format != Bgra && (size < sizeMin || size > sizeMax' || size > 4) then Some(InvalidValue)
    else if caps.type2101010Rev && (t == GlUnsignedInt2101010Rev || t == GlInt2101010Rev) && size != 4 then
      Some(InvalidOperation)
    else if relativeOffset > caps.maxRelativeOffset then Some(InvalidValue)
    else if caps.type10F11F11FRev && t == GlUnsignedInt10F11F11FRev && size != 3 then Some(InvalidOperation)
    else None
  }

  /** A format passes validation exactly when its type is legal for the
    * caller and the context, a BGRA format is normalized with one of the
    * BGRA types, an RGBA size lies in [sizeMin, min(sizeMax, 4)], the packed
    * types have their fixed sizes and the relative offset is in range. */
  lemma FormatAcceptedIff(api: Api, caps: Caps, legal: set<TypeBit>, sizeMin: int, sizeMax: int, size: int,
                          t: GlType, normalized: bool, relativeOffset: nat, format: ArrayFormat)
    ensures FormatError(api, caps, legal, sizeMin, sizeMax, size, t, normalized, relativeOffset, format) == None <==>
      && TypeToBit(api, caps, t).Some? && TypeToBit(api, caps, t).value in legal
      && (format == Bgra ==> BgraTypeOk(caps, t) && normalized)
      && (format == Rgba ==> sizeMin <= size <= 4 && size <= sizeMax)
      && (caps.type2101010Rev && (t == GlUnsignedInt2101010Rev || t == GlInt2101010Rev) ==> size == 4)
      && relativeOffset <= caps.maxRelativeOffset
      && (caps.type10F11F11FRev && t == GlUnsignedInt10F11F11FRev ==> size == 3)
  {
  }

  /** The error reported is the one of the first failing check: an illegal
    * type always gives INVALID_ENUM, and a legal type never does; BGRA
    * problems are INVALID_OPERATION, an RGBA size out of range
    * INVALID_VALUE. */
  lemma FormatErrorOrder(api: Api, caps: Caps, legal: set<TypeBit>, sizeMin: int, sizeMax: int, size: int,
                         t: GlType, normalized: bool, relativeOffset: nat, format: ArrayFormat)
    ensures var e := FormatError(api, caps, legal, sizeMin, sizeMax, size, t, normalized, relativeOffset, format);
      var typeOk := TypeToBit(api, caps, t).Some? && TypeToBit(api, caps, t).value in legal;
      && (e == Some(InvalidEnum) <==> !typeOk)
      && (typeOk && format == Bgra && (!BgraTypeOk(caps, t) || !normalized) ==> e == Some(InvalidOperation))
      && (typeOk && format == Rgba && (size < sizeMin || size > 4 || size > sizeMax) ==> e == Some(InvalidValue))
  {
  }

  /** ctx->Array: the cached legal-type mask and the LockArraysEXT range. */
  class ArrayAttribState {
    var legalTypesMask: set<TypeBit>
    var legalTypesMaskApi: Api
    var lockFirst: int
    var lockCount: int

    /** The LockArraysEXT state: unlocked is first = count = 0. */
    ghost predicate Valid()
      reads this
    {
      lockFirst >= 0 && lockCount >= 0 && (lockCount == 0 ==> lockFirst == 0)
    }

    /** The cache holds nothing, or the mask of the API it was computed for. */
    ghost predicate CacheOk(caps: Caps)
      reads this
    {
      legalTypesMask == {} || legalTypesMask == LegalTypesMask(legalTypesMaskApi, caps)
    }

    constructor ()
      ensures Valid() && legalTypesMask == {} && lockFirst == 0 && lockCount == 0
    {
      legalTypesMask, legalTypesMaskApi := {}, ApiOpenGLCompat;
      lockFirst, lockCount := 0, 0;
    }

    /** validate_array_format: refreshes the cached mask when it is unset or
      * was computed for another API, then checks the format against the
      * caller's mask narrowed to it. `integer` and `doubles` only take part
      * in the source's assertion that at most one flag is set. */
    method ValidateArrayFormat(api: Api, caps: Caps, legalTypes: set<TypeBit>, sizeMin: int, sizeMax: int,
                               size: int, t: GlType, normalized: bool, integer: bool, doubles: bool,
                               relativeOffset: nat, format: ArrayFormat)
      returns (ok: bool, err: Option<GlError>)
      requires (if normalized then 1 else 0) + (if integer then 1 else 0) + (if doubles then 1 else 0) <= 1
      modifies this
      ensures legalTypesMask == (if old(legalTypesMask) == {} || old(legalTypesMaskApi) != api
                                 then LegalTypesMask(api, caps) else old(legalTypesMask))
      ensures legalTypesMaskApi == (if old(legalTypesMask) == {} || old(legalTypesMaskApi) != api
                                    then api else old(legalTypesMaskApi))
      ensures lockFirst == old(lockFirst) && lockCount == old(lockCount)
      ensures err == FormatError(api, caps, legalTypes * legalTypesMask, sizeMin, sizeMax, size, t,
                                 normalized, relativeOffset, format)
      ensures ok <==> err.None?
      ensures old(CacheOk(caps)) ==> CacheOk(caps) && legalTypesMask == LegalTypesMask(api, caps)
    {
      if legalTypesMask == {} || legalTypesMaskApi != api {
        legalTypesMask := LegalTypesMask(api, caps);
        legalTypesMaskApi := api;
      }
      var legal := legalTypes * legalTypesMask;
      err := FormatError(api, caps, legal, sizeMin, sizeMax, size, t, normalized, relativeOffset, format);
      ok := err.None?;
    }

    /** glLockArraysEXT. */
    method LockArrays(first: int, count: int) returns (err: Option<GlError>)
      requires Valid()
      modifies this
      ensures Valid()
      ensures legalTypesMask == old(legalTypesMask) && legalTypesMaskApi == old(legalTypesMaskApi)
      ensures err == (if first < 0 || count <= 0 then Some(InvalidValue)
                      else if old(lockCount) != 0 then Some(InvalidOperation) else None)
      ensures err.None? ==> lockFirst == first && lockCount == count
      ensures err.Some? ==> lockFirst == old(lockFirst) && lockCount == old(lockCount)
    {
      if first < 0 {
        return Some(InvalidValue);
      }
      if count <= 0 {
        return Some(InvalidValue);
      }
      if lockCount != 0 {
        return Some(InvalidOperation);
      }
      lockFirst, lockCount := first, count;
      err := None;
    }

    /** glUnlockArraysEXT. */
    method UnlockArrays() returns (err: Option<GlError>)
      requires Valid()
      modifies this
      ensures Valid()
      ensures legalTypesMask == old(legalTypesMask) && legalTypesMaskApi == old(legalTypesMaskApi)
      ensures err == (if old(lockCount) == 0 then Some(InvalidOperation) else None)
      ensures lockFirst == 0 && lockCount == 0
    {
      if lockCount == 0 {
        return Some(InvalidOperation);
      }
      lockFirst, lockCount := 0, 0;
      err := None;
    }
  }

  // ---------------------------------------------------------------------
  // Attributes and buffer binding points
  // ---------------------------------------------------------------------

  /** VERT_ATTRIB_MAX: attributes, and binding points (BufferBinding has
    * one per attribute). */
  const NumAttribs: nat := 32

  /** VERT_ATTRIB_POS and VERT_ATTRIB_GENERIC0, the positions of the
    * gl_vert_attrib enum; only that they differ matters here. */
  const AttribPos: nat := 0
  const AttribGeneric0: nat := 15

  /** Every attribute index. */
  const AllAttribs: set<nat> := set i | 0 <= i < NumAttribs

  /** gl_vertex_buffer_binding: the buffer (None for a null object, an id
    * otherwise), offset, stride, divisor and the attributes bound to it. */
  datatype Binding = Binding(bufferObj: Option<nat>, offset: int, stride: int, instanceDivisor: nat,
                             boundArrays: set<nat>)

  datatype AttributeMapMode = MapIdentity | MapPosition | MapGeneric0

  /** update_attribute_map_mode's choice: GENERIC0 supersedes POSITION. */
  function MapModeFor(enabled: set<nat>): AttributeMapMode
  {
    if AttribGeneric0 in enabled then MapGeneric0
    else if AttribPos in enabled then MapPosition
    else MapIdentity
  }

  /** Every attribute names an existing binding point. */
  predicate WellIndexed(attribBinding: seq<nat>, bindings: seq<Binding>)
  {
    |attribBinding| == NumAttribs && |bindings| == NumAttribs &&
    forall i :: 0 <= i < NumAttribs ==> attribBinding[i] < NumAttribs
  }

  /** The attributes that use binding point b. */
  function BoundTo(attribBinding: seq<nat>, b: nat): set<nat>
  {
    set i | 0 <= i < |attribBinding| && attribBinding[i] == b
  }

  /** VertexAttribBufferMask as it should be: attributes whose binding has
    * a buffer object. */
  function BufferMaskOf(attribBinding: seq<nat>, bindings: seq<Binding>): set<nat>
    requires WellIndexed(attribBinding, bindings)
  {
    set i | 0 <= i < NumAttribs && bindings[attribBinding[i]].bufferObj.Some?
  }

  /** NonZeroDivisorMask as it should be: attributes whose binding has a
    * non-zero instance divisor. */
  function DivisorMaskOf(attribBinding: seq<nat>, bindings: seq<Binding>): set<nat>
    requires WellIndexed(attribBinding, bindings)
  {
    set i | 0 <= i < NumAttribs && bindings[attribBinding[i]].instanceDivisor != 0
  }

  /** Each binding's _BoundArrays lists exactly the attributes that use it. */
  predicate BoundArraysOk(attribBinding: seq<nat>, bindings: seq<Binding>)
    requires WellIndexed(attribBinding, bindings)
  {
    forall b :: 0 <= b < NumAttribs ==> bindings[b].boundArrays == BoundTo(attribBinding, b)
  }

  /** The attribute and binding fields of two binding tables agree apart
    * from _BoundArrays. */
  predicate SameExceptBound(x: Binding, y: Binding)
  {
    x.bufferObj == y.bufferObj && x.offset == y.offset && x.stride == y.stride
    && x.instanceDivisor == y.instanceDivisor
  }

  /** Moving attribute a to binding n changes the bound sets of its old and
    * new binding only, by exactly a. */
  lemma BoundToMove(attribBinding: seq<nat>, a: nat, n: nat, b: nat)
    requires a < |attribBinding|
    ensures BoundTo(attribBinding[a := n], b) ==
      if b == n then BoundTo(attribBinding, b) + {a}
      else if b == attribBinding[a] then BoundTo(attribBinding, b) - {a}
      else BoundTo(attribBinding, b)
  {
  }

  /** The masks after moving attribute a to binding n: only a's bit can
    * change, and it follows binding n. */
  lemma MasksMove(attribBinding: seq<nat>, bindings: seq<Binding>, a: nat, n: nat)
    requires WellIndexed(attribBinding, bindings) && a < NumAttribs && n < NumAttribs
    ensures WellIndexed(attribBinding[a := n], bindings)
    ensures BufferMaskOf(attribBinding[a := n], bindings) ==
      if bindings[n].bufferObj.Some? then BufferMaskOf(attribBinding, bindings) + {a}
      else BufferMaskOf(attribBinding, bindings) - {a}
    ensures DivisorMaskOf(attribBinding[a := n], bindings) ==
      if bindings[n].instanceDivisor != 0 then DivisorMaskOf(attribBinding, bindings) + {a}
      else DivisorMaskOf(attribBinding, bindings) - {a}
  {
  }

  /** A binding's buffer or divisor changing moves exactly its bound
    * attributes in or out of the masks. */
  lemma MasksRebind(attribBinding: seq<nat>, bindings: seq<Binding>, b: nat, nb: Binding)
    requires WellIndexed(attribBinding, bindings) && b < NumAttribs
    requires BoundArraysOk(attribBinding, bindings) && nb.boundArrays == bindings[b].boundArrays
    ensures WellIndexed(attribBinding, bindings[b := nb])
    ensures BoundArraysOk(attribBinding, bindings[b := nb])
    ensures BufferMaskOf(attribBinding, bindings[b := nb]) ==
      if nb.bufferObj.Some? then BufferMaskOf(attribBinding, bindings) + nb.boundArrays
      else BufferMaskOf(attribBinding, bindings) - nb.boundArrays
    ensures DivisorMaskOf(attribBinding, bindings[b := nb]) ==
      if nb.instanceDivisor != 0 then DivisorMaskOf(attribBinding, bindings) + nb.boundArrays
      else DivisorMaskOf(attribBinding, bindings) - nb.boundArrays
  {
    var bs := bindings[b := nb];
    forall i | 0 <= i < NumAttribs
      ensures (i in BufferMaskOf(attribBinding, bs)) ==
              (i in (if nb.bufferObj.Some? then BufferMaskOf(attribBinding, bindings) + nb.boundArrays
                     else BufferMaskOf(attribBinding, bindings) - nb.boundArrays))
      ensures (i in DivisorMaskOf(attribBinding, bs)) ==
              (i in (if nb.instanceDivisor != 0 then DivisorMaskOf(attribBinding, bindings) + nb.boundArrays
                     else DivisorMaskOf(attribBinding, bindings) - nb.boundArrays))
    {
      assert i in nb.boundArrays <==> attribBinding[i] == b;
    }
  }

  /** (int)offset: the low 32 bits of a GLintptr as a signed int. */
  function Int32Of(x: int): (r: int)
    ensures -0x8000_0000 <= r < 0x8000_0000
    ensures (x - r) % 0x1_0000_0000 == 0
  {
    var lo := x % 0x1_0000_0000;
    if lo >= 0x8000_0000 then lo - 0x1_0000_0000 else lo
  }

  /** The initial state of a vertex array object: attribute i on binding i,
    * nothing enabled, no buffers, divisors zero. */
  function InitialBindings(): (r: seq<Binding>)
    ensures |r| == NumAttribs
  {
    seq(NumAttribs, b requires 0 <= b < NumAttribs => Binding(None, 0, 0, 0, {b as nat}))
  }

  /** gl_vertex_array_object: the attribute/binding bitmasks the functions
    * below keep consistent. */
  class VertexArrayObject {
    /** ctx->API == API_OPENGL_COMPAT for the context that owns it. */
    const compat: bool
    var enabled: set<nat>
    var newArrays: set<nat>
    var vertexAttribBufferMask: set<nat>
    var nonZeroDivisorMask: set<nat>
    /** VertexAttrib[i].BufferBindingIndex. */
    var attribBinding: seq<nat>
    var bindings: seq<Binding>
    var attributeMapMode: AttributeMapMode

    /** The bitmask invariants: each binding's _BoundArrays, the buffer
      * and divisor masks are what the attribute-to-binding map implies, and
      * the map mode follows the enabled bits in compat profile. */
    ghost predicate Valid()
      reads this
    {
      && WellIndexed(attribBinding, bindings)
      && enabled <= AllAttribs
      && BoundArraysOk(attribBinding, bindings)
      && vertexAttribBufferMask == BufferMaskOf(attribBinding, bindings)
      && nonZeroDivisorMask == DivisorMaskOf(attribBinding, bindings)
      && attributeMapMode == (if compat then MapModeFor(enabled) else MapIdentity)
    }

    constructor (compatProfile: bool)
      ensures Valid() && compat == compatProfile && enabled == {} && newArrays == {}
    {
      compat := compatProfile;
      enabled, newArrays := {}, {};
      vertexAttribBufferMask, nonZeroDivisorMask := {}, {};
      attribBinding := seq(NumAttribs, i => i);
      bindings := InitialBindings();
      attributeMapMode := MapIdentity;
      new;
      forall b | 0 <= b < NumAttribs
        ensures bindings[b].boundArrays == BoundTo(attribBinding, b)
      {
        assert b in BoundTo(attribBinding, b);
      }
    }

    /** _mesa_vertex_attrib_binding: a no-op when the attribute already uses
      * the binding; otherwise the attribute's bit moves between the two
      * bindings' _BoundArrays, its buffer and divisor bits follow the new
      * binding, and NewArrays gains it if it is enabled. */
    method VertexAttribBinding(attrib: nat, bindingIndex: nat)
      requires Valid() && attrib < NumAttribs && bindingIndex < NumAttribs
      modifies this
      ensures Valid()
      ensures attribBinding == old(attribBinding)[attrib := bindingIndex]
      ensures |bindings| == |old(bindings)| &&
        forall b :: 0 <= b < |bindings| ==> SameExceptBound(bindings[b], old(bindings)[b])
      ensures enabled == old(enabled) && attributeMapMode == old(attributeMapMode)
      ensures newArrays == if old(attribBinding)[attrib] == bindingIndex then old(newArrays)
                           else old(newArrays) + (old(enabled) * {attrib})
      ensures attrib in bindings[bindingIndex].boundArrays
      ensures (attrib in vertexAttribBufferMask <==> bindings[bindingIndex].bufferObj.Some?)
      ensures (attrib in nonZeroDivisorMask <==> bindings[bindingIndex].instanceDivisor != 0)
      ensures forall i :: 0 <= i < NumAttribs && i != attrib ==>
        (i in vertexAttribBufferMask <==> i in old(vertexAttribBufferMask)) &&
        (i in nonZeroDivisorMask <==> i in old(nonZeroDivisorMask))
    {
      if attribBinding[attrib] != bindingIndex {
        var bit := {attrib};
        if bindings[bindingIndex].bufferObj.Some? {
          vertexAttribBufferMask := vertexAttribBufferMask + bit;
        } else {
          vertexAttribBufferMask := vertexAttribBufferMask - bit;
        }
        if bindings[bindingIndex].instanceDivisor != 0 {
          nonZeroDivisorMask := nonZeroDivisorMask + bit;
        } else {
          nonZeroDivisorMask := nonZeroDivisorMask - bit;
        }
        MoveAttrib(attrib, bindingIndex);
        newArrays := newArrays + (enabled * bit);
      }
    }

    /** The _BoundArrays and BufferBindingIndex updates of
      * _mesa_vertex_attrib_binding. */
    method MoveAttrib(attrib: nat, bindingIndex: nat)
      requires WellIndexed(attribBinding, bindings) && BoundArraysOk(attribBinding, bindings)
      requires attrib < NumAttribs && bindingIndex < NumAttribs && attribBinding[attrib] != bindingIndex
      modifies this
      ensures attribBinding == old(attribBinding)[attrib := bindingIndex]
      ensures WellIndexed(attribBinding, bindings) && BoundArraysOk(attribBinding, bindings)
      ensures |bindings| == |old(bindings)| &&
        forall b :: 0 <= b < |bindings| ==> SameExceptBound(bindings[b], old(bindings)[b])
      ensures BufferMaskOf(attribBinding, bindings) ==
        if bindings[bindingIndex].bufferObj.Some? then BufferMaskOf(old(attribBinding), old(bindings)) + {attrib}
        else BufferMaskOf(old(attribBinding), old(bindings)) - {attrib}
      ensures DivisorMaskOf(attribBinding, bindings) ==
        if bindings[bindingIndex].instanceDivisor != 0 then DivisorMaskOf(old(attribBinding), old(bindings)) + {attrib}
        else DivisorMaskOf(old(attribBinding), old(bindings)) - {attrib}
      ensures enabled == old(enabled) && newArrays == old(newArrays) && attributeMapMode == old(attributeMapMode)
      ensures vertexAttribBufferMask == old(vertexAttribBufferMask) && nonZeroDivisorMask == old(nonZeroDivisorMask)
    {
      var ab0, bs0 := attribBinding, bindings;
      var oldIndex := attribBinding[attrib];
      var bs1 := bs0[oldIndex := bs0[oldIndex].(boundArrays := bs0[oldIndex].boundArrays - {attrib})];
      var bs2 := bs1[bindingIndex := bs1[bindingIndex].(boundArrays := bs1[bindingIndex].boundArrays + {attrib})];
      var ab1 := ab0[attrib := bindingIndex];
      forall b | 0 <= b < NumAttribs
        ensures bs2[b].boundArrays == BoundTo(ab1, b)
      {
        BoundToMove(ab0, attrib, bindingIndex, b);
      }
      MasksMove(ab0, bs0, attrib, bindingIndex);
      assert BufferMaskOf(ab1, bs2) == BufferMaskOf(ab1, bs0) by {
        forall i | 0 <= i < NumAttribs ensures SameExceptBound(bs2[ab1[i]], bs0[ab1[i]]) { }
      }
      assert DivisorMaskOf(ab1, bs2) == DivisorMaskOf(ab1, bs0) by {
        forall i | 0 <= i < NumAttribs ensures SameExceptBound(bs2[ab1[i]], bs0[ab1[i]]) { }
      }
      bindings := bs2;
      attribBinding := ab1;
    }

    /** _mesa_bind_vertex_buffer: a negative 32-bit offset the driver
      * cannot take becomes 0; when buffer, offset or stride change, the
      * binding takes them, the buffer mask gains or loses exactly the
      * binding's attributes, and NewArrays gains the enabled ones. */
    method BindVertexBuffer(caps: Caps, index: nat, vbo: Option<nat>, offset: int, stride: int, offsetIsInt32: bool)
      requires Valid() && index < NumAttribs
      modifies this
      ensures Valid()
      ensures var off := if caps.vertexBufferOffsetIsInt32 && Int32Of(offset) < 0 && !offsetIsInt32 && vbo.Some?
                         then 0 else offset;
        var ob := old(bindings)[index];
        if ob.bufferObj == vbo && ob.offset == off && ob.stride == stride then
          bindings == old(bindings) && newArrays == old(newArrays)
          && vertexAttribBufferMask == old(vertexAttribBufferMask)
        else
          && bindings == old(bindings)[index := ob.(bufferObj := vbo, offset := off, stride := stride)]
          && vertexAttribBufferMask == (if vbo.None? then old(vertexAttribBufferMask) - ob.boundArrays
                                        else old(vertexAttribBufferMask) + ob.boundArrays)
          && newArrays == old(newArrays) + (old(enabled) * ob.boundArrays)
      ensures attribBinding == old(attribBinding) && enabled == old(enabled)
      ensures nonZeroDivisorMask == old(nonZeroDivisorMask) && attributeMapMode == old(attributeMapMode)
    {
      var off := offset;
      if caps.vertexBufferOffsetIsInt32 && Int32Of(offset) < 0 && !offsetIsInt32 && vbo.Some? {
        off := 0;
      }
      var b := bindings[index];
      if b.bufferObj != vbo || b.offset != off || b.stride != stride {
        var nb := b.(bufferObj := vbo, offset := off, stride := stride);
        MasksRebind(attribBinding, bindings, index, nb);
        bindings := bindings[index := nb];
        if vbo.None? {
          vertexAttribBufferMask := vertexAttribBufferMask - b.boundArrays;
        } else {
          vertexAttribBufferMask := vertexAttribBufferMask + b.boundArrays;
        }
        newArrays := newArrays + (enabled * b.boundArrays);
      }
    }

    /** vertex_binding_divisor: when the divisor changes, the non-zero
      * divisor mask gains or loses exactly the binding's attributes and
      * NewArrays gains the enabled ones. */
    method VertexBindingDivisor(bindingIndex: nat, divisor: nat)
      requires Valid() && bindingIndex < NumAttribs
      modifies this
      ensures Valid()
      ensures var ob := old(bindings)[bindingIndex];
        if ob.instanceDivisor == divisor then
          bindings == old(bindings) && newArrays == old(newArrays) && nonZeroDivisorMask == old(nonZeroDivisorMask)
        else
          && bindings == old(bindings)[bindingIndex := ob.(instanceDivisor := divisor)]
          && nonZeroDivisorMask == (if divisor != 0 then old(nonZeroDivisorMask) + ob.boundArrays
                                    else old(nonZeroDivisorMask) - ob.boundArrays)
          && newArrays == old(newArrays) + (old(enabled) * ob.boundArrays)
      ensures attribBinding == old(attribBinding) && enabled == old(enabled)
      ensures vertexAttribBufferMask == old(vertexAttribBufferMask) && attributeMapMode == old(attributeMapMode)
    {
      var b := bindings[bindingIndex];
      if b.instanceDivisor != divisor {
        var nb := b.(instanceDivisor := divisor);
        MasksRebind(attribBinding, bindings, bindingIndex, nb);
        bindings := bindings[bindingIndex := nb];
        if divisor != 0 {
          nonZeroDivisorMask := nonZeroDivisorMask + b.boundArrays;
        } else {
          nonZeroDivisorMask := nonZeroDivisorMask - b.boundArrays;
        }
        newArrays := newArrays + (enabled * b.boundArrays);
      }
    }

    /** update_attribute_map_mode: only the compatibility profile leaves the
      * identity mapping. */
    method UpdateAttributeMapMode()
      modifies this
      ensures attributeMapMode == if compat then MapModeFor(enabled) else old(attributeMapMode)
      ensures enabled == old(enabled) && newArrays == old(newArrays) && attribBinding == old(attribBinding)
      ensures bindings == old(bindings) && vertexAttribBufferMask == old(vertexAttribBufferMask)
      ensures nonZeroDivisorMask == old(nonZeroDivisorMask)
    {
      if !compat {
        return;
      }
      if AttribGeneric0 in enabled {
        attributeMapMode := MapGeneric0;
      } else if AttribPos in enabled {
        attributeMapMode := MapPosition;
      } else {
        attributeMapMode := MapIdentity;
      }
    }

    /** _mesa_enable_vertex_array_attribs: only the bits that were disabled
      * change; NewArrays gains exactly those, and the map mode is revisited
      * when POS or GENERIC0 is among them. */
    method EnableAttribs(attribBits: set<nat>)
      requires Valid() && attribBits <= AllAttribs
      modifies this
      ensures Valid()
      ensures enabled == old(enabled) + attribBits
      ensures newArrays == old(newArrays) + (attribBits - old(enabled))
      ensures attribBinding == old(attribBinding) && bindings == old(bindings)
      ensures vertexAttribBufferMask == old(vertexAttribBufferMask) && nonZeroDivisorMask == old(nonZeroDivisorMask)
    {
      var bits := attribBits - enabled;
      assert enabled + attribBits == enabled + bits;
      if bits != {} {
        enabled := enabled + bits;
        newArrays := newArrays + bits;
        if AttribPos in bits || AttribGeneric0 in bits {
          UpdateAttributeMapMode();
        }
      }
    }

    /** _mesa_disable_vertex_array_attribs: only the bits that were enabled
      * change; NewArrays gains exactly those. */
    method DisableAttribs(attribBits: set<nat>)
      requires Valid() && attribBits <= AllAttribs
      modifies this
      ensures Valid()
      ensures enabled == old(enabled) - attribBits
      ensures newArrays == old(newArrays) + (attribBits * old(enabled))
      ensures attribBinding == old(attribBinding) && bindings == old(bindings)
      ensures vertexAttribBufferMask == old(vertexAttribBufferMask) && nonZeroDivisorMask == old(nonZeroDivisorMask)
    {
      var bits := attribBits * enabled;
      assert enabled - attribBits == enabled - bits;
      if bits != {} {
        enabled := enabled - bits;
        newArrays := newArrays + bits;
        if AttribPos in bits || AttribGeneric0 in bits {
          UpdateAttributeMapMode();
        }
      }
    }
  }

  /** The map mode only depends on POS and GENERIC0: a change to any other
    * bit leaves it alone, which is why the source revisits it only then. */
  lemma MapModeOnlyPosGeneric0(e: set<nat>, bits: set<nat>)
    requires AttribPos !in bits && AttribGeneric0 !in bits
    ensures MapModeFor(e + bits) == MapModeFor(e) && MapModeFor(e - bits) == MapModeFor(e)
  {
  }

  // ---------------------------------------------------------------------
  // _mesa_get_interleaved_layout
  // ---------------------------------------------------------------------

  /** The glInterleavedArrays formats. */
  datatype InterleavedFormat =
    | V2f | V3f | C4ubV2f | C4ubV3f | C3fV3f | N3fV3f | C4fN3fV3f | T2fV3f | T4fV4f
    | T2fC4ubV3f | T2fC3fV3f | T2fN3fV3f | T2fC4fN3fV3f | T4fC4fN3fV4f
    | OtherFormat(code: nat)

  /** gl_interleaved_layout; a colour type of OtherType(0) is the zeroed
    * field. */
  datatype InterleavedLayout = InterleavedLayout(
    tflag: bool, cflag: bool, nflag: bool,
    tcomps: nat, ccomps: nat, vcomps: nat, ctype: GlType,
    toffset: nat, coffset: nat, noffset: nat, voffset: nat, defstride: nat)

  /** sizeof(GLfloat). */
  const FloatSize: nat := 4

  /** Bytes of the colour part: four unsigned bytes padded to a float
    * multiple, or ccomps floats. */
  function ColorBytes(l: InterleavedLayout): nat
  {
    if l.ctype == GlUnsignedByte then FloatSize * ((4 + (FloatSize - 1)) / FloatSize) else FloatSize * l.ccomps
  }

  /** The parts present follow each other without gaps in the order
    * texcoord, colour, normal, vertex, and the vertex ends the stride. */
  predicate Packed(l: InterleavedLayout)
  {
    var tEnd := if l.tflag then l.toffset + FloatSize * l.tcomps else 0;
    var cEnd := if l.cflag then l.coffset + ColorBytes(l) else tEnd;
    var nEnd := if l.nflag then l.noffset + FloatSize * 3 else cEnd;
    && l.toffset == 0
    && (l.cflag ==> l.coffset == tEnd)
    && (l.nflag ==> l.noffset == cEnd)
    && l.voffset == nEnd
    && (l.tflag <==> l.tcomps > 0) && (l.cflag <==> l.ccomps > 0)
    && (l.cflag ==> l.ctype == GlUnsignedByte || l.ctype == GlFloat)
    && 2 <= l.vcomps <= 4
  }

  /** _mesa_get_interleaved_layout: None for an unknown format; otherwise a
    * gap-free layout whose vertex comes last,
    * voffset + vcomps * sizeof(GLfloat) == defstride. */
  function GetInterleavedLayout(format: InterleavedFormat): (r: Option<InterleavedLayout>)
    ensures r.None? <==> format.OtherFormat?
    ensures r.Some? ==> Packed(r.value) && r.value.voffset + FloatSize * r.value.vcomps == r.value.defstride
  {
    var f := FloatSize;
    var c := f * ((4 + (f - 1)) / f);
    var z := InterleavedLayout(false, false, false, 0, 0, 0, OtherType(0), 0, 0, 0, 0, 0);
    match format
    case V2f => Some(z.(vcomps := 2, defstride := 2 * f))
    case V3f => Some(z.(vcomps := 3, defstride := 3 * f))
    case C4ubV2f => Some(z.(cflag := true, ccomps := 4, vcomps := 2, ctype := GlUnsignedByte,
                            voffset := c, defstride := c + 2 * f))
    case C4ubV3f => Some(z.(cflag := true, ccomps := 4, vcomps := 3, ctype := GlUnsignedByte,
                            voffset := c, defstride := c + 3 * f))
    case C3fV3f => Some(z.(cflag := true, ccomps := 3, vcomps := 3, ctype := GlFloat,
                           voffset := 3 * f, defstride := 6 * f))
    case N3fV3f => Some(z.(nflag := true, vcomps := 3, voffset := 3 * f, defstride := 6 * f))
    case C4fN3fV3f => Some(z.(cflag := true, nflag := true, ccomps := 4, vcomps := 3, ctype := GlFloat,
                              noffset := 4 * f, voffset := 7 * f, defstride := 10 * f))
    case T2fV3f => Some(z.(tflag := true, tcomps := 2, vcomps := 3, voffset := 2 * f, defstride := 5 * f))
    case T4fV4f => Some(z.(tflag := true, tcomps := 4, vcomps := 4, voffset := 4 * f, defstride := 8 * f))
    case T2fC4ubV3f => Some(z.(tflag := true, cflag := true, tcomps := 2, ccomps := 4, vcomps := 3,
                               ctype := GlUnsignedByte, coffset := 2 * f, voffset := c + 2 * f,
                               defstride := c + 5 * f))
    case T2fC3fV3f => Some(z.(tflag := true, cflag := true, tcomps := 2, ccomps := 3, vcomps := 3,
                              ctype := GlFloat, coffset := 2 * f, voffset := 5 * f, defstride := 8 * f))
    case T2fN3fV3f => Some(z.(tflag := true, nflag := true, tcomps := 2, vcomps := 3,
                              noffset := 2 * f, voffset := 5 * f, defstride := 8 * f))
    case T2fC4fN3fV3f => Some(z.(tflag := true, cflag := true, nflag := true, tcomps := 2, ccomps := 4,
                                 vcomps := 3, ctype := GlFloat, coffset := 2 * f, noffset := 6 * f,
                                 voffset := 9 * f, defstride := 12 * f))
    case T4fC4fN3fV4f => Some(z.(tflag := true, cflag := true, nflag := true, tcomps := 4, ccomps := 4,
                                 vcomps := 4, ctype := GlFloat, coffset := 4 * f, noffset := 8 * f,
                                 voffset := 11 * f, defstride := 15 * f))
    case OtherFormat(_) => None
  }
}
