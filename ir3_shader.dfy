// ir3 shader variants (gallium/drivers/freedreno/ir3/ir3_shader.c): the
// register-footprint fixup and the instruction/constant lengths set after
// assembly, the normalisation of variant keys, the per-shader variant cache
// with its lazily built binning variants, the clamps on the user constants
// and immediates emitted for a variant, and the stream-out vertex limit.
//
// Compilation and assembly are outside this model: their outcome (failure,
// or the figures the assembler reports) is a parameter.
module Ir3Shader {
  import opened Wrappers
  import opened Bits

  /** regid(48, 0): registers from r48.x up are global to a warp. */
  const GlobalRegid: nat := 48 * 4
  /** The largest constlen the assembler fixup keeps. */
  const MaxConstlen: nat := 255
  /** The starting value of max_tf_vtx's running minimum. */
  const NoVertexLimit: nat := 0x7fff_ffff

  function Min(a: int, b: int): int { if a < b then a else b }

  function Max(a: int, b: int): int { if a < b then b else a }

  // ---------------------------------------------------------------------
  // Register footprint
  // ---------------------------------------------------------------------

  /** A shader input: its first register component, its component mask
    * and whether it is fetched by bary.f rather than preloaded. */
  datatype Input = Input(regid: nat, compmask: nat, bary: bool)

  datatype Output = Output(regid: nat)

  /** util_last_bit: the number of bits up to the highest set one. */
  function LastBit(x: nat): (r: nat)
    ensures x == 0 ==> r == 0
    ensures x > 0 ==> r >= 1 && Pow2(r - 1) <= x < Pow2(r)
  {
    if x == 0 then 0 else Log2(x) + 1
  }

  /** The register an input occupies up to its last enabled component, or
    * nothing for inputs that are not preloaded: bary.f inputs, warp-global
    * registers and inputs with no component. */
  function InputFootprint(i: Input): (r: Option<nat>)
    ensures r.None? <==> (i.bary || i.regid >= GlobalRegid || i.compmask == 0)
    ensures r.Some? ==> r.value * 4 <= i.regid + LastBit(i.compmask) - 1 < r.value * 4 + 4
  {
    if i.bary || i.regid >= GlobalRegid || i.compmask == 0 then None
    else Some((i.regid + LastBit(i.compmask) - 1) / 4)
  }

  /** The register count an output at regid rounds up to. */
  function OutputFootprint(o: Output): (r: nat)
    ensures o.regid <= r * 4 < o.regid + 4
  {
    (o.regid + 3) / 4
  }

  /** max_reg after the input loop of fixup_regfootprint over s. */
  function RaiseInputs(m: int, s: seq<Input>): (r: int)
    ensures r >= m
    ensures forall i :: 0 <= i < |s| && InputFootprint(s[i]).Some? ==> r >= InputFootprint(s[i]).value
  {
    if s == [] then m
    else
      var n := |s| - 1;
      var before := RaiseInputs(m, s[..n]);
      assert forall i :: 0 <= i < n ==> s[..n][i] == s[i];
      match InputFootprint(s[n])
      case None => before
      case Some(reg) => Max(before, reg)
  }

  /** max_reg after the output loop of fixup_regfootprint over s. */
  function RaiseOutputs(m: int, s: seq<Output>): (r: int)
    ensures r >= m
    ensures forall i :: 0 <= i < |s| ==> r >= OutputFootprint(s[i])
  {
    if s == [] then m
    else
      var n := |s| - 1;
      var before := RaiseOutputs(m, s[..n]);
      assert forall i :: 0 <= i < n ==> s[..n][i] == s[i];
      Max(before, OutputFootprint(s[n]))
  }

  function RegFootprint(m: int, inputs: seq<Input>, outputs: seq<Output>): int
  {
    RaiseOutputs(RaiseInputs(m, inputs), outputs)
  }

  /** The input loop raises max_reg no further than the largest footprint. */
  lemma {:induction false} RaiseInputsAttained(m: int, s: seq<Input>)
    ensures RaiseInputs(m, s) == m
            || exists i :: 0 <= i < |s| && InputFootprint(s[i]) == Some(RaiseInputs(m, s))
  {
    if s != [] {
      var n := |s| - 1;
      RaiseInputsAttained(m, s[..n]);
      if RaiseInputs(m, s) != m && RaiseInputs(m, s) != RaiseInputs(m, s[..n]) {
        assert InputFootprint(s[n]) == Some(RaiseInputs(m, s));
      } else if RaiseInputs(m, s) != m {
        var i :| 0 <= i < n && InputFootprint(s[..n][i]) == Some(RaiseInputs(m, s[..n]));
        assert s[..n][i] == s[i];
      }
    }
  }

  lemma {:induction false} RaiseOutputsAttained(m: int, s: seq<Output>)
    ensures RaiseOutputs(m, s) == m || exists i :: 0 <= i < |s| && OutputFootprint(s[i]) == RaiseOutputs(m, s)
  {
    if s != [] {
      var n := |s| - 1;
      RaiseOutputsAttained(m, s[..n]);
      if RaiseOutputs(m, s) != m && RaiseOutputs(m, s) != RaiseOutputs(m, s[..n]) {
        assert OutputFootprint(s[n]) == RaiseOutputs(m, s);
      } else if RaiseOutputs(m, s) != m {
        var i :| 0 <= i < n && OutputFootprint(s[..n][i]) == RaiseOutputs(m, s[..n]);
        assert s[..n][i] == s[i];
      }
    }
  }

  /** The fixup never lowers max_reg, covers every preloaded input and every
    * output, and is the least such value: it is the old max_reg or one of
    * the footprints. */
  lemma RegFootprintIsMax(m: int, inputs: seq<Input>, outputs: seq<Output>)
    ensures var r := RegFootprint(m, inputs, outputs);
            && r >= m
            && (forall i :: 0 <= i < |inputs| && InputFootprint(inputs[i]).Some? ==> r >= InputFootprint(inputs[i]).value)
            && (forall i :: 0 <= i < |outputs| ==> r >= OutputFootprint(outputs[i]))
            && (|| r == m
                || (exists i :: 0 <= i < |inputs| && InputFootprint(inputs[i]) == Some(r))
                || (exists i :: 0 <= i < |outputs| && OutputFootprint(outputs[i]) == r))
  {
    RaiseInputsAttained(m, inputs);
    RaiseOutputsAttained(RaiseInputs(m, inputs), outputs);
  }

  // ---------------------------------------------------------------------
  // Lengths fixed up after assembly
  // ---------------------------------------------------------------------

  /** instrlen: whole groups of 16 (a4xx and later) or 4 64-bit instructions. */
  function InstrLen(gpuId: nat, sizedwords: nat): (r: nat)
    ensures var group := if gpuId >= 400 then 32 else 8;
            r * group <= sizedwords < (r + 1) * group
  {
    if gpuId >= 400 then sizedwords / 32 else sizedwords / 8
  }

  /** constlen after assembly: raised to cover the highest constant read,
    * never above 255. */
  function ClampConstlen(constlen: nat, maxConst: nat): (r: nat)
    ensures r <= MaxConstlen
    ensures r == constlen || r == maxConst + 1 || r == MaxConstlen
    ensures r < MaxConstlen ==> r >= constlen && r > maxConst
    ensures r == MaxConstlen <==> Max(constlen, maxConst + 1) >= MaxConstlen
    ensures r < MaxConstlen ==> r == Max(constlen, maxConst + 1)
  {
    Min(MaxConstlen, Max(constlen, maxConst + 1))
  }

  // ---------------------------------------------------------------------
  // Variant keys
  // ---------------------------------------------------------------------

  datatype Stage = Vertex | Fragment | Compute

  /** The key fields the normalisation touches; `rest` stands for the
    * fields it leaves alone. */
  datatype Key = Key(
    hasPerSamp: bool,
    vsaturateS: nat, vsaturateT: nat, vsaturateR: nat, vastcSrgb: nat, vsamples: nat,
    fsaturateS: nat, fsaturateT: nat, fsaturateR: nat, fastcSrgb: nat, fsamples: nat,
    colorTwoSide: bool, halfPrecision: bool, rasterflat: bool,
    rest: nat)

  predicate VertexSamplersClear(k: Key)
  {
    k.vsaturateS == 0 && k.vsaturateT == 0 && k.vsaturateR == 0 && k.vastcSrgb == 0 && k.vsamples == 0
  }

  predicate FragmentSamplersClear(k: Key)
  {
    k.fsaturateS == 0 && k.fsaturateT == 0 && k.fsaturateR == 0 && k.fastcSrgb == 0 && k.fsamples == 0
  }

  /** shader_variant's normalisation: fields only another stage reads are
    * cleared, so that keys differing only there share a variant. */
  function NormalizeKey(stage: Stage, key: Key): (r: Key)
    ensures r.hasPerSamp == key.hasPerSamp && r.rest == key.rest
    ensures stage == Compute ==> r == key
    ensures stage == Fragment ==> (if key.hasPerSamp then VertexSamplersClear(r) else r == key)
    ensures stage == Vertex ==> !r.colorTwoSide && !r.halfPrecision && !r.rasterflat
    ensures stage == Vertex && key.hasPerSamp ==> FragmentSamplersClear(r)
  {
    match stage
    case Fragment =>
      if key.hasPerSamp then key.(vsaturateS := 0, vsaturateT := 0, vsaturateR := 0, vastcSrgb := 0, vsamples := 0)
      else key
    case Vertex =>
      var k := key.(colorTwoSide := false, halfPrecision := false, rasterflat := false);
      if key.hasPerSamp then k.(fsaturateS := 0, fsaturateT := 0, fsaturateR := 0, fastcSrgb := 0, fsamples := 0)
      else k
    case Compute => key
  }

  /** The fields a stage's variant depends on. */
  predicate SameForStage(stage: Stage, a: Key, b: Key)
  {
    && a.hasPerSamp == b.hasPerSamp && a.rest == b.rest
    && (stage == Compute ==> a == b)
    && (stage != Compute ==>
          && (stage == Fragment || !a.hasPerSamp ==>
                a.fsaturateS == b.fsaturateS && a.fsaturateT == b.fsaturateT && a.fsaturateR == b.fsaturateR
                && a.fastcSrgb == b.fastcSrgb && a.fsamples == b.fsamples)
          && (stage == Vertex || !a.hasPerSamp ==>
                a.vsaturateS == b.vsaturateS && a.vsaturateT == b.vsaturateT && a.vsaturateR == b.vsaturateR
                && a.vastcSrgb == b.vastcSrgb && a.vsamples == b.vsamples)
          && (stage == Fragment ==>
                a.colorTwoSide == b.colorTwoSide && a.halfPrecision == b.halfPrecision && a.rasterflat == b.rasterflat))
  }

  /** Two keys normalise to the same key exactly when they agree on every
    * field the stage depends on. */
  lemma NormalizeKeyShares(stage: Stage, a: Key, b: Key)
    ensures NormalizeKey(stage, a) == NormalizeKey(stage, b) <==> SameForStage(stage, a, b)
  {
    var na, nb := NormalizeKey(stage, a), NormalizeKey(stage, b);
    if na == nb {
      assert na.hasPerSamp == a.hasPerSamp && nb.hasPerSamp == b.hasPerSamp;
    }
  }

  lemma NormalizeKeyIdempotent(stage: Stage, key: Key)
    ensures NormalizeKey(stage, NormalizeKey(stage, key)) == NormalizeKey(stage, key)
  {
  }

  // ---------------------------------------------------------------------
  // Variants
  // ---------------------------------------------------------------------

  /** What the compiler and assembler report for a variant. */
  datatype Assembly = Assembly(sizedwords: nat, maxConst: nat, constlen: nat, maxReg: int,
                               inputs: seq<Input>, outputs: seq<Output>)

  /** The outcome of compiling and assembling a new variant. */
  datatype Build = CompileFailed | BufferFailed | Built(asm: Assembly)

  /** ir3_shader_variant; the shader's `variants` list is kept by the
    * shader (see Shader), so there is no `next` field here. */
  class Variant {
    const id: nat
    const key: Key
    const binningPass: bool
    const stage: Stage
    const inputs: seq<Input>
    const outputs: seq<Output>
    var maxReg: int
    var instrlen: nat
    var constlen: nat
    var binning: Variant?

    /** A freshly compiled variant, before assembly. */
    constructor (id: nat, key: Key, binningPass: bool, stage: Stage, asm: Assembly)
      ensures this.id == id && this.key == key && this.binningPass == binningPass && this.stage == stage
      ensures inputs == asm.inputs && outputs == asm.outputs
      ensures maxReg == asm.maxReg && constlen == asm.constlen && instrlen == 0 && binning == null
    {
      this.id := id;
      this.key := key;
      this.binningPass := binningPass;
      this.stage := stage;
      inputs := asm.inputs;
      outputs := asm.outputs;
      maxReg := asm.maxReg;
      constlen := asm.constlen;
      instrlen := 0;
      binning := null;
    }

    /** fixup_regfootprint. */
    method FixupRegfootprint()
      modifies this`maxReg
      ensures maxReg == RegFootprint(old(maxReg), inputs, outputs)
    {
      var i := 0;
      while i < |inputs|
        invariant 0 <= i <= |inputs|
        invariant maxReg == RaiseInputs(old(maxReg), inputs[..i])
      {
        assert inputs[..i + 1][..i] == inputs[..i];
        var input := inputs[i];
        if !input.bary && input.regid < GlobalRegid && input.compmask != 0 {
          var n := LastBit(input.compmask) - 1;
          var regid := (input.regid + n) / 4;
          maxReg := Max(maxReg, regid);
        }
        i := i + 1;
      }
      assert inputs[..i] == inputs;
      ghost var afterInputs := maxReg;
      i := 0;
      while i < |outputs|
        invariant 0 <= i <= |outputs|
        invariant maxReg == RaiseOutputs(afterInputs, outputs[..i])
      {
        assert outputs[..i + 1][..i] == outputs[..i];
        var regid := (outputs[i].regid + 3) / 4;
        maxReg := Max(maxReg, regid);
        i := i + 1;
      }
      assert outputs[..i] == outputs;
    }

    /** The fixups of ir3_shader_assemble once the assembler has produced
      * the binary. */
    method Assemble(gpuId: nat, sizedwords: nat, maxConst: nat)
      modifies this`instrlen, this`constlen, this`maxReg
      ensures instrlen == InstrLen(gpuId, sizedwords)
      ensures constlen == ClampConstlen(old(constlen), maxConst)
      ensures maxReg == RegFootprint(old(maxReg), inputs, outputs)
    {
      if gpuId >= 400 {
        instrlen := sizedwords / (2 * 16);
      } else {
        instrlen := sizedwords / (2 * 4);
      }
      constlen := Min(255, Max(constlen, maxConst + 1));
      FixupRegfootprint();
    }
  }

  // ---------------------------------------------------------------------
  // The variant cache
  // ---------------------------------------------------------------------

  /** The position of the first variant with the given key. */
  function FirstWithKey(vs: seq<Variant>, key: Key): (r: Option<nat>)
    ensures r.Some? ==> r.value < |vs| && vs[r.value].key == key
                        && forall j :: 0 <= j < r.value ==> vs[j].key != key
    ensures r.None? ==> forall j :: 0 <= j < |vs| ==> vs[j].key != key
  {
    if vs == [] then None
    else if vs[0].key == key then Some(0)
    else
      match FirstWithKey(vs[1..], key)
      case None => None
      case Some(i) => Some(i + 1)
  }

  /** The cache holds normalised keys, at most one variant per key, none
    * of them a binning variant, numbered in decreasing order from the head
    * and never above the count. */
  predicate CacheOk(stage: Stage, vs: seq<Variant>, count: nat)
  {
    && (forall i :: 0 <= i < |vs| ==>
          && vs[i].id <= count
          && !vs[i].binningPass
          && vs[i].key == NormalizeKey(stage, vs[i].key))
    && (forall i, j :: 0 <= i < j < |vs| ==> vs[i].id > vs[j].id)
    && (forall i, j :: 0 <= i < j < |vs| ==> vs[i].key != vs[j].key)
  }

  /** A number taken by a failed or binning build keeps the cache valid. */
  lemma CacheCountUp(stage: Stage, vs: seq<Variant>, count: nat)
    requires CacheOk(stage, vs, count)
    ensures CacheOk(stage, vs, count + 1)
  {
  }

  /** A new variant, numbered after every cached one and with a normalised
    * key not in the cache, can go at the head. */
  lemma CachePrepend(stage: Stage, vs: seq<Variant>, count: nat, v: Variant)
    requires CacheOk(stage, vs, count) && FirstWithKey(vs, v.key).None?
    requires v.id == count + 1 && !v.binningPass && v.key == NormalizeKey(stage, v.key)
    ensures CacheOk(stage, [v] + vs, count + 1)
  {
    var ws := [v] + vs;
    assert forall i :: 1 <= i < |ws| ==> ws[i] == vs[i - 1];
  }

  /** ir3_shader: its stage, the list of its variants (newest first) and
    * the count that numbers them. */
  class Shader {
    const stage: Stage
    const gpuId: nat
    var variants: seq<Variant>
    var variantCount: nat

    predicate Valid()
      reads this
    {
      CacheOk(stage, variants, variantCount)
    }

    /** A shader with no variant yet. */
    constructor (stage: Stage, gpuId: nat)
      ensures Valid() && this.stage == stage && this.gpuId == gpuId
      ensures variants == [] && variantCount == 0
    {
      this.stage := stage;
      this.gpuId := gpuId;
      variants := [];
      variantCount := 0;
    }

    /** The walk of shader_variant over the list. */
    method FindVariant(key: Key) returns (v: Variant?)
      ensures v == (match FirstWithKey(variants, key) case None => null case Some(i) => variants[i])
    {
      var i := 0;
      while i < |variants|
        invariant 0 <= i <= |variants|
        invariant forall j :: 0 <= j < i ==> variants[j].key != key
      {
        if variants[i].key == key {
          return variants[i];
        }
        i := i + 1;
      }
      return null;
    }

    /** create_variant: the count is taken for the new variant before it is
      * compiled, so a failed build still uses up a number. */
    method CreateVariant(key: Key, binningPass: bool, build: Build) returns (v: Variant?)
      modifies this`variantCount
      ensures variantCount == old(variantCount) + 1
      ensures v != null <==> build.Built?
      ensures v != null ==>
                && fresh(v) && v.id == variantCount && v.key == key && v.binningPass == binningPass
                && v.stage == stage && v.binning == null
                && v.instrlen == InstrLen(gpuId, build.asm.sizedwords)
                && v.constlen == ClampConstlen(build.asm.constlen, build.asm.maxConst)
                && v.maxReg == RegFootprint(build.asm.maxReg, build.asm.inputs, build.asm.outputs)
    {
      variantCount := variantCount + 1;
      match build
      case CompileFailed =>
        v := null;
      case BufferFailed =>
        v := null;
      case Built(asm) =>
        v := new Variant(variantCount, key, binningPass, stage, asm);
        v.Assemble(gpuId, asm.sizedwords, asm.maxConst);
    }

    /** shader_variant: the cached variant for the normalised key, or a new
      * one put at the head of the list. */
    method ShaderVariant(key: Key, build: Build) returns (v: Variant?)
      requires Valid()
      modifies this`variants, this`variantCount
      ensures Valid()
      ensures var k := NormalizeKey(stage, key);
              match FirstWithKey(old(variants), k)
              case Some(i) =>
                v == old(variants)[i] && variants == old(variants) && variantCount == old(variantCount)
              case None =>
                && variantCount == old(variantCount) + 1
                && (v != null <==> build.Built?)
                && (v != null ==>
                      fresh(v) && v.id == variantCount && v.key == k && !v.binningPass && v.binning == null
                      && variants == [v] + old(variants))
                && (v == null ==> variants == old(variants))
    {
      var k := NormalizeKey(stage, key);
      v := FindVariant(k);
      if v == null {
        ghost var cached := variants;
        v := CreateVariant(k, false, build);
        CacheCountUp(stage, cached, old(variantCount));
        if v != null {
          NormalizeKeyIdempotent(stage, key);
          CachePrepend(stage, cached, old(variantCount), v);
          variants := [v] + variants;
        }
      }
    }

    /** The binning half of ir3_shader_variant: the variant's binning
      * variant is built the first time it is asked for, from the key as
      * given, and reused afterwards. */
    method BinningVariant(base: Variant, key: Key, build: Build) returns (b: Variant?)
      requires Valid()
      modifies base`binning, this`variantCount
      ensures Valid()
      ensures old(base.binning) != null ==> b == base.binning == old(base.binning) && variantCount == old(variantCount)
      ensures old(base.binning) == null ==>
                && variantCount == old(variantCount) + 1 && b == base.binning
                && (b != null <==> build.Built?)
                && (b != null ==> fresh(b) && b.id == variantCount && b.key == key && b.binningPass)
    {
      if base.binning == null {
        CacheCountUp(stage, variants, variantCount);
        base.binning := CreateVariant(key, true, build);
      }
      b := base.binning;
    }

    /** ir3_shader_variant: the variant for the key, or for the binning pass
      * its binning variant. A failed build gives no variant (the source
      * goes on to dereference it in the binning pass). */
    method VariantFor(key: Key, binningPass: bool, build: Build, binningBuild: Build) returns (v: Variant?)
      requires Valid()
      modifies this`variants, this`variantCount, variants`binning
      ensures Valid()
      ensures forall u | u in old(variants) && u.key != NormalizeKey(stage, key) :: u.binning == old(u.binning)
      ensures var k := NormalizeKey(stage, key);
              match FirstWithKey(old(variants), k)
              case Some(i) =>
                var base := old(variants)[i];
                && variants == old(variants)
                && (!binningPass ==> v == base && variantCount == old(variantCount) && base.binning == old(base.binning))
                && (binningPass && old(base.binning) != null ==>
                      v == base.binning == old(base.binning) && variantCount == old(variantCount))
                && (binningPass && old(base.binning) == null ==>
                      && variantCount == old(variantCount) + 1
                      && v == base.binning
                      && (v != null <==> binningBuild.Built?)
                      && (v != null ==> fresh(v) && v.id == variantCount && v.key == key && v.binningPass))
              case None =>
                && variantCount == old(variantCount) + (if build.Built? && binningPass then 2 else 1)
                && (v != null <==> build.Built? && (binningPass ==> binningBuild.Built?))
                && (v != null ==> fresh(v) && v.binningPass == binningPass && v.key == (if binningPass then key else k))
                // a built base variant heads the list; the binning pass hangs its variant off it
                && (!build.Built? ==> variants == old(variants))
                && (build.Built? ==>
                      && |variants| == |old(variants)| + 1 && variants[1..] == old(variants)
                      && fresh(variants[0]) && variants[0].key == k && !variants[0].binningPass
                      && (!binningPass ==> v == variants[0])
                      && (binningPass ==> v == variants[0].binning))
    {
      ghost var cached := variants;
      v := ShaderVariant(key, build);
      if binningPass && v != null {
        assert v in cached || fresh(v) by {
          match FirstWithKey(cached, NormalizeKey(stage, key))
          case Some(i) => assert v == cached[i];
          case None =>
        }
        v := BinningVariant(v, key, binningBuild);
      }
    }
  }

  // ---------------------------------------------------------------------
  // Constant uploads
  // ---------------------------------------------------------------------

  /** emit_user_consts: the dwords of user constant buffer 0 written for a
    * variant, or nothing. The buffer is cut to the variant's uniforms that
    * lie within constlen; the buffer size is expected in whole vec4s. */
  function UserConstsEmit(enabled: bool, bufferSize: nat, numUniforms: nat, constlen: nat): (r: Option<nat>)
    requires DivCeil(bufferSize, 4) % 4 == 0
    ensures r.Some? ==> enabled && 0 < r.value
    ensures r.Some? ==> r.value <= DivCeil(bufferSize, 4) && r.value <= 4 * numUniforms && r.value <= 4 * constlen
    ensures r.Some? ==> r.value == DivCeil(bufferSize, 4) || r.value == 4 * Min(numUniforms, constlen)
    ensures r.None? ==> !enabled || bufferSize == 0 || numUniforms == 0 || constlen == 0
  {
    if !enabled then None
    else
      var size := AlignUp(bufferSize, 4) / 4;
      var maxConst := Min(numUniforms, constlen);
      var clamped := Min(size, 4 * maxConst);
      AlignUpIsDivCeil(bufferSize);
      if clamped > 0 then Some(clamped) else None
  }

  lemma AlignUpIsDivCeil(x: nat)
    ensures AlignUp(x, 4) / 4 == DivCeil(x, 4)
  {
    var a, d := AlignUp(x, 4), DivCeil(x, 4);
    assert a == (a / 4) * 4;
  }

  /** A C int holding the low 32 bits of x. */
  function Int32Of(x: int): (r: int)
    ensures -0x8000_0000 <= r < 0x8000_0000 && (r - x) % 0x1_0000_0000 == 0
  {
    var low := x % 0x1_0000_0000;
    if low < 0x8000_0000 then low else low - 0x1_0000_0000
  }

  /** The vec4 count emit_immediates computes: `MIN2(size + base,
    * constlen) - base` in unsigned arithmetic, stored back in an int. */
  function ImmediateVec4s(count: nat, base: nat, constlen: nat): int
  {
    Int32Of(Min((count + base) % 0x1_0000_0000, constlen) - base)
  }

  /** emit_immediates: the first dword and the dword count written, or
    * nothing when the count is not positive. The size is multiplied by 4
    * as an int, which the source relies on not overflowing. */
  function ImmediatesEmit(count: nat, base: nat, constlen: nat): (r: Option<(nat, nat)>)
    requires count < 0x8000_0000 && base < 0x1_0000_0000 && constlen < 0x1_0000_0000
    requires -0x2000_0000 <= ImmediateVec4s(count, base, constlen) < 0x2000_0000
    ensures r.Some? ==> r.value.1 > 0 && r.value.1 % 4 == 0 && r.value.0 == (base * 4) % 0x1_0000_0000
  {
    var size := ImmediateVec4s(count, base, constlen) * 4;
    if size > 0 then Some(((base * 4) % 0x1_0000_0000, size)) else None
  }

  /** With no wrap-around of count + base, the immediates emitted are
    * exactly those that lie below constlen: something is written iff there
    * are immediates and base < constlen, and then it is the vec4s from base
    * up to min(base + count, constlen). */
  lemma ImmediatesWithinConstlen(count: nat, base: nat, constlen: nat)
    requires count < 0x8000_0000 && base < 0x2000_0000 && constlen < 0x2000_0000
    ensures -0x2000_0000 <= ImmediateVec4s(count, base, constlen) < 0x2000_0000
    ensures var r := ImmediatesEmit(count, base, constlen);
            && (r.Some? <==> count > 0 && base < constlen)
            && (r.Some? ==> r.value == (4 * base, 4 * (Min(base + count, constlen) - base)))
  {
    assert (count + base) % 0x1_0000_0000 == count + base;
    var d := Min(count + base, constlen) - base;
    assert -0x2000_0000 < d < 0x2000_0000;
    assert Int32Of(d) == d;
  }

  // ---------------------------------------------------------------------
  // Stream-out vertex limit
  // ---------------------------------------------------------------------

  /** The stream-out targets are well formed: a stride for each, non-zero
    * (in dwords, below 2^30 so that the byte stride fits 32 bits) for each
    * bound target, whose size is a 32-bit value. */
  predicate TargetsOk(targets: seq<Option<nat>>, strides: seq<nat>)
  {
    && |strides| >= |targets|
    && forall i :: 0 <= i < |targets| && targets[i].Some? ==>
         0 < strides[i] < 0x4000_0000 && targets[i].value < 0x1_0000_0000
  }

  /** The vertices a target of `size` bytes holds at a stride of `stride`
    * dwords. */
  function Capacity(size: nat, stride: nat): nat
    requires stride > 0
  {
    DivFloor(size, 4 * stride)
  }

  /** The vertices each bound target holds, as a running minimum. */
  function TfLimit(targets: seq<Option<nat>>, strides: seq<nat>): (r: nat)
    requires TargetsOk(targets, strides)
    ensures r <= NoVertexLimit
    ensures forall i :: 0 <= i < |targets| && targets[i].Some? ==> r <= Capacity(targets[i].value, strides[i])
  {
    if targets == [] then NoVertexLimit
    else
      var n := |targets| - 1;
      assert forall i :: 0 <= i < n ==> targets[..n][i] == targets[i];
      var before := TfLimit(targets[..n], strides);
      match targets[n]
      case None => before
      case Some(size) => Min(before, Capacity(size, strides[n]))
  }

  /** The limit is one bound target's capacity, or the start value. */
  lemma {:induction false} TfLimitAttained(targets: seq<Option<nat>>, strides: seq<nat>)
    requires TargetsOk(targets, strides)
    ensures TfLimit(targets, strides) == NoVertexLimit
            || exists i :: 0 <= i < |targets| && targets[i].Some?
                           && TfLimit(targets, strides) == Capacity(targets[i].value, strides[i])
  {
    if targets != [] {
      var n := |targets| - 1;
      var r, before := TfLimit(targets, strides), TfLimit(targets[..n], strides);
      assert forall i :: 0 <= i < n ==> targets[..n][i] == targets[i];
      TfLimitAttained(targets[..n], strides);
      if r != before {
        assert r == Capacity(targets[n].value, strides[n]);
      }
    }
  }

  /** max_tf_vtx: no limit (0) on a5xx and later, for a binning variant,
    * without stream-out outputs or without targets; otherwise the fewest
    * vertices a bound target holds. */
  method MaxTfVtx(gpuId: nat, binningPass: bool, numOutputs: nat, targets: seq<Option<nat>>, strides: seq<nat>)
    returns (r: nat)
    requires TargetsOk(targets, strides)
    ensures r == (if gpuId >= 500 || binningPass || numOutputs == 0 || targets == [] then 0
                  else TfLimit(targets, strides))
  {
    if gpuId >= 500 || binningPass || numOutputs == 0 || |targets| == 0 {
      return 0;
    }
    r := NoVertexLimit;
    var i := 0;
    while i < |targets|
      invariant 0 <= i <= |targets|
      invariant r == TfLimit(targets[..i], strides)
    {
      assert targets[..i + 1][..i] == targets[..i];
      var stride := strides[i] * 4;
      if targets[i].Some? {
        var max := targets[i].value / stride;
        assert max == Capacity(targets[i].value, strides[i]);
        if max < r {
          r := max;
        }
      }
      i := i + 1;
    }
    assert targets[..i] == targets;
  }
}
