// ACO intermediate representation: the value types the builder works on,
// the Program that allocates temporaries and carries device parameters
// (init_program), and the helpers of aco_ir.cpp: the s_waitcnt immediate
// codec (wait_imm), reduction identities, opsel legality and the SDWA
// conversion.
module AcoIr {
  import opened Wrappers
  import opened Bits

  // ---------------------------------------------------------------------
  // Chip generations and families
  // ---------------------------------------------------------------------

  datatype ChipClass = GFX6 | GFX7 | GFX8 | GFX9 | GFX10 | GFX10_3

  function Rank(c: ChipClass): nat
  {
    match c
    case GFX6 => 6
    case GFX7 => 7
    case GFX8 => 8
    case GFX9 => 9
    case GFX10 => 10
    case GFX10_3 => 11
  }

  /** `chip >= gen` in the source's enum order. */
  predicate AtLeast(chip: ChipClass, gen: ChipClass)
  {
    Rank(chip) >= Rank(gen)
  }

  /** The GCN/RDNA families the source names; every other one is `OtherFamily`.
    * `Order` follows the enum order of radeon_family for the ones listed. */
  datatype Family =
    | ChipUnknown | Tahiti | Bonaire | Kabini | Hawaii | Tonga | Iceland | Carrizo
    | Stoney | Polaris10 | Polaris11 | Polaris12 | VegaM | Vega10 | Raven | Raven2
    | Renoir | Arcturus | Navi10 | OtherFamily

  /** Families limited to 8 waves per SIMD before GFX10. */
  predicate EightWaveFamily(f: Family)
  {
    f == Polaris10 || f == Polaris11 || f == Polaris12 || f == VegaM
  }

  /** APU families that always run with xnack. */
  predicate XnackFamily(f: Family)
  {
    f == Carrizo || f == Stoney || f == Raven || f == Raven2 || f == Renoir
  }

  /** Pre-GFX9 families with full-rate 32-bit fma. */
  predicate FastFmaFamily(f: Family)
  {
    f == Tahiti || f == Carrizo || f == Hawaii
  }

  // ---------------------------------------------------------------------
  // Registers, temporaries, operands and definitions
  // ---------------------------------------------------------------------

  datatype RegType = Sgpr | Vgpr

  datatype RegClass = RegClass(rtype: RegType, bytes: nat)

  const s1: RegClass := RegClass(Sgpr, 4)
  const s2: RegClass := RegClass(Sgpr, 8)
  const v1: RegClass := RegClass(Vgpr, 4)

  /** Fixed physical registers the builder names, and the numbered rest. */
  datatype PhysReg = M0 | Vcc | Exec | Scc | Reg(index: nat)

  datatype Temp = Temp(id: nat, rc: RegClass)

  /** What an operand reads: a temporary, a constant, or an undefined value of a class. */
  datatype OperandValue =
    | OpTemp(temp: Temp)
    | OpConst(value: nat, cbytes: nat)
    | OpUndef(urc: RegClass)

  datatype Operand = Operand(val: OperandValue, fixed: Option<PhysReg>, is16bit: bool, is24bit: bool)
  {
    predicate IsTemp() { val.OpTemp? }
    predicate IsUndefined() { val.OpUndef? }
    /** Constants carry no register class; temporaries and undefined operands do. */
    predicate HasRegClass() { val.OpTemp? || val.OpUndef? }
    function RC(): RegClass requires HasRegClass() { if val.OpTemp? then val.temp.rc else val.urc }
    function Bytes(): nat
    {
      match val
      case OpTemp(t) => t.rc.bytes
      case OpConst(_, b) => b
      case OpUndef(rc) => rc.bytes
    }
  }

  function TempOp(t: Temp): Operand { Operand(OpTemp(t), None, false, false) }

  /** Operand(uint32_t): a 32-bit constant. */
  function ConstOp(v: nat): Operand { Operand(OpConst(v, 4), None, false, false) }

  /** Operand(rc): an undefined value of class rc. */
  function UndefOp(rc: RegClass): Operand { Operand(OpUndef(rc), None, false, false) }

  datatype Definition = Definition(temp: Temp, fixed: Option<PhysReg>, hint: Option<PhysReg>, precise: bool, nuw: bool)

  function Def(t: Temp): Definition { Definition(t, None, None, false, false) }

  // ---------------------------------------------------------------------
  // Opcodes, formats and instructions
  // ---------------------------------------------------------------------

  /** The scalar opcodes that exist in a 32-bit and a 64-bit (lane-mask) form. */
  datatype WaveSpecificOpcode =
    | s_cselect | s_cmp_lg | s_and | s_andn2 | s_or | s_orn2 | s_not | s_mov | s_wqm
    | s_and_saveexec | s_or_saveexec | s_xnor | s_xor | s_bcnt1_i32 | s_bitcmp1
    | s_ff1_i32 | s_flbit_i32 | s_lshl

  /** The opcodes this model names; every other opcode is `OtherOpcode`. */
  datatype Opcode =
    | p_parallelcopy | p_as_uniform
    // SALU opcodes of one family, in the lane-mask width (wide) or 32-bit width
    | Salu(family: WaveSpecificOpcode, wide: bool)
    | v_lshlrev_b32 | v_mul_u32_u24 | v_mul_lo_u32
    | v_add_u32 | v_add_co_u32 | v_add_co_u32_e64 | v_addc_co_u32
    | v_sub_u32 | v_subrev_u32 | v_sub_co_u32 | v_subrev_co_u32
    | v_sub_co_u32_e64 | v_subrev_co_u32_e64 | v_subb_co_u32 | v_subbrev_co_u32
    | v_readlane_b32 | v_readlane_b32_e64 | v_writelane_b32 | v_writelane_b32_e64
    // 16-bit opcodes that accept opsel
    | v_div_fixup_f16 | v_fma_f16 | v_mad_f16 | v_mad_u16 | v_mad_i16
    | v_med3_f16 | v_med3_i16 | v_med3_u16 | v_min3_f16 | v_min3_i16 | v_min3_u16
    | v_max3_f16 | v_max3_i16 | v_max3_u16 | v_max_u16_e64 | v_max_i16_e64
    | v_min_u16_e64 | v_min_i16_e64 | v_add_i16 | v_sub_i16 | v_add_u16_e64
    | v_sub_u16_e64 | v_lshlrev_b16_e64 | v_lshrrev_b16_e64 | v_ashrrev_i16_e64
    | v_mul_lo_u16_e64
    | v_pack_b32_f16 | v_cvt_pknorm_i16_f16 | v_cvt_pknorm_u16_f16
    | v_mad_u32_u16 | v_mad_i32_i16
    | OtherOpcode(code: nat)

  /** Encoding formats; an instruction's Format is a combination of these bits. */
  datatype FormatBit =
    | PSEUDO | SOP1 | SOP2 | SOPK | SOPP | SOPC | SMEM | DS | MTBUF | MUBUF | MIMG | EXP
    | FLAT | GLOBAL | PSEUDO_BRANCH | PSEUDO_BARRIER | PSEUDO_REDUCTION
    | VOP1 | VOP2 | VOPC | VOP3 | VOP3P | VINTRP | SDWA | DPP

  datatype SdwaSel = SelUnset | SdwaUbyte | SdwaUword | SdwaUdword

  /** The per-format payload an instruction carries beyond operands and definitions. */
  datatype Extra =
    | NoExtra
    | Vop3Mods(neg: seq<bool>, abs: seq<bool>, omod: nat, clamp: bool)
    | SdwaMods(sel: seq<SdwaSel>, dstSel: SdwaSel, dstPreserve: bool,
               sneg: seq<bool>, sabs: seq<bool>, somod: nat, sclamp: bool)

  datatype Instr = Instr(opcode: Opcode, format: set<FormatBit>, ops: seq<Operand>, defs: seq<Definition>, extra: Extra)

  // ---------------------------------------------------------------------
  // Program: temporary allocation and device parameters (init_program)
  // ---------------------------------------------------------------------

  datatype DeviceInfo = DeviceInfo(
    ldsEncodingGranule: nat, ldsAllocGranule: nat, ldsLimit: nat, has16bankLds: bool,
    vgprLimit: nat, physicalVgprs: nat, vgprAllocGranule: nat,
    physicalSgprs: nat, sgprAllocGranule: nat, sgprLimit: nat,
    maxWave64PerSimd: nat, simdPerCu: nat,
    xnackEnabled: bool, sramEccEnabled: bool, hasFastFma32: bool)

  class Program {
    var chipClass: ChipClass
    var family: Family
    var waveSize: nat
    var laneMask: RegClass
    var dev: DeviceInfo
    var wgpMode: bool
    /** Next temporary id, and the register class of every id handed out
      * (id 0 is the null temporary, recorded as s1). */
    var allocationId: nat
    var tempRc: seq<RegClass>

    /** Every id below allocationId has its class recorded; 0 is never handed out. */
    predicate Valid()
      reads this
    {
      allocationId >= 1 && |tempRc| == allocationId && (laneMask == s1 || laneMask == s2)
    }

    /** Everything but the allocation state. */
    ghost function Settings(): (ChipClass, Family, nat, RegClass, DeviceInfo, bool)
      reads this
    {
      (chipClass, family, waveSize, laneMask, dev, wgpMode)
    }

    constructor (chip: ChipClass, wave: nat)
      ensures Valid()
      ensures chipClass == chip && waveSize == wave && allocationId == 1 && tempRc == [s1]
      ensures laneMask == (if wave == 32 then s1 else s2)
    {
      chipClass := chip;
      family := ChipUnknown;
      waveSize := wave;
      laneMask := if wave == 32 then s1 else s2;
      dev := DeviceInfo(0, 0, 0, false, 0, 0, 0, 0, 0, 0, 0, 0, false, false, false);
      wgpMode := false;
      allocationId := 1;
      tempRc := [s1];
    }

    /** Program::allocateId: hands out the next id and records its class. */
    method AllocateId(rc: RegClass) returns (id: nat)
      requires Valid()
      modifies this
      ensures Valid() && 0 < id < |tempRc| && tempRc[id] == rc
      ensures id == old(allocationId) && allocationId == old(allocationId) + 1
      ensures tempRc == old(tempRc) + [rc]
      ensures chipClass == old(chipClass) && waveSize == old(waveSize) && laneMask == old(laneMask)
      ensures family == old(family) && dev == old(dev) && wgpMode == old(wgpMode)
    {
      tempRc := tempRc + [rc];
      id := allocationId;
      allocationId := allocationId + 1;
    }

    /** Program::allocateTmp. */
    method AllocateTmp(rc: RegClass) returns (t: Temp)
      requires Valid()
      modifies this
      ensures Valid() && 0 < t.id < |tempRc| && tempRc[t.id] == rc
      ensures t == Temp(old(allocationId), rc) && allocationId == old(allocationId) + 1
      ensures tempRc == old(tempRc) + [rc]
      ensures chipClass == old(chipClass) && waveSize == old(waveSize) && laneMask == old(laneMask)
      ensures family == old(family) && dev == old(dev) && wgpMode == old(wgpMode)
    {
      var id := AllocateId(rc);
      t := Temp(id, rc);
    }

    /** init_program: chip, family, wave size, lane mask and device limits. */
    method InitProgram(chip: ChipClass, fam: Family, wave: nat, wgp: bool)
      modifies this
      ensures chipClass == chip && waveSize == wave && wgpMode == wgp
      ensures family == (if fam != ChipUnknown then fam else DefaultFamily(chip))
      ensures laneMask == (if wave == 32 then s1 else s2)
      ensures DeviceLimits(chip, fam, family, wave, old(dev.xnackEnabled), dev)
      ensures allocationId == old(allocationId) && tempRc == old(tempRc)
      ensures old(Valid()) ==> Valid()
    {
      var fam' := if fam == ChipUnknown then DefaultFamily(chip) else fam;
      var d := InitDeviceInfo(chip, fam, fam', wave, dev.xnackEnabled);
      chipClass, family, waveSize, wgpMode := chip, fam', wave, wgp;
      laneMask := if wave == 32 then s1 else s2;
      dev := d;
      assert family == fam' && dev == d;
    }
  }

  /** The device parameters init_program sets. `fam` is the family the caller
    * passed, `family` the one the program ended up with (the source tests the
    * former for the LDS banks and SGPR granule, the latter elsewhere); an
    * xnack already enabled stays enabled. */
  predicate DeviceLimits(chip: ChipClass, fam: Family, family: Family, wave: nat, xnack: bool, d: DeviceInfo)
  {
    && LdsLimits(chip, fam, d.ldsEncodingGranule, d.ldsAllocGranule, d.ldsLimit, d.has16bankLds)
    && d.vgprLimit == 256
    && RegisterLimits(chip, fam, wave, d.physicalVgprs, d.vgprAllocGranule,
                      d.physicalSgprs, d.sgprAllocGranule, d.sgprLimit)
    && WaveLimits(chip, family, xnack, d.maxWave64PerSimd, d.simdPerCu,
                  d.xnackEnabled, d.sramEccEnabled, d.hasFastFma32)
  }

  /** The local data share size and granules. */
  predicate LdsLimits(chip: ChipClass, fam: Family, encodingGranule: nat, allocGranule: nat, limit: nat, has16bank: bool)
  {
    && limit == (if AtLeast(chip, GFX7) then 65536 else 32768)
    && encodingGranule == (if AtLeast(chip, GFX7) then 512 else 256)
    && allocGranule == (if AtLeast(chip, GFX10_3) then 1024 else encodingGranule)
    && has16bank == (fam == Kabini || fam == Stoney)
  }

  /** The register-file sizes, limits and allocation granules. */
  predicate RegisterLimits(chip: ChipClass, fam: Family, wave: nat, physicalVgprs: nat, vgprAllocGranule: nat,
                           physicalSgprs: nat, sgprAllocGranule: nat, sgprLimit: nat)
  {
    && physicalVgprs == (if AtLeast(chip, GFX10) then (if wave == 32 then 1024 else 512) else 256)
    && vgprAllocGranule ==
         (if AtLeast(chip, GFX10_3) then (if wave == 32 then 16 else 8)
          else if AtLeast(chip, GFX10) then (if wave == 32 then 8 else 4) else 4)
    && physicalSgprs == (if AtLeast(chip, GFX10) then 5120 else if AtLeast(chip, GFX8) then 800 else 512)
    && sgprLimit == (if AtLeast(chip, GFX10) then 108 else if AtLeast(chip, GFX8) then 102 else 104)
    && sgprAllocGranule ==
         (if AtLeast(chip, GFX10) then 128
          else if AtLeast(chip, GFX8) then (if fam == Tonga || fam == Iceland then 96 else 16) else 8)
  }

  /** Waves per SIMD, SIMDs per CU and the feature flags. */
  predicate WaveLimits(chip: ChipClass, family: Family, xnack: bool, maxWave64PerSimd: nat, simdPerCu: nat,
                       xnackEnabled: bool, sramEccEnabled: bool, hasFastFma32: bool)
  {
    && maxWave64PerSimd ==
         (if AtLeast(chip, GFX10_3) then 16 else if chip == GFX10 then 20
          else if EightWaveFamily(family) then 8 else 10)
    && simdPerCu == (if AtLeast(chip, GFX10) then 2 else 4)
    && xnackEnabled == (XnackFamily(family) || xnack)
    && sramEccEnabled == (family == Arcturus)
    && hasFastFma32 == (AtLeast(chip, GFX9) || FastFmaFamily(family))
  }

  /** The limits init_program sets are consistent: allocation granules divide
    * the register files and the LDS, and the addressable registers fit the
    * physical ones. */
  lemma DeviceLimitsConsistent(chip: ChipClass, fam: Family, family: Family, wave: nat, xnack: bool, d: DeviceInfo)
    requires DeviceLimits(chip, fam, family, wave, xnack, d)
    ensures d.ldsAllocGranule > 0 && d.ldsLimit % d.ldsAllocGranule == 0
    ensures d.ldsAllocGranule % d.ldsEncodingGranule == 0
    ensures d.vgprAllocGranule > 0 && d.physicalVgprs % d.vgprAllocGranule == 0
    ensures d.vgprLimit <= d.physicalVgprs && d.sgprLimit <= d.physicalSgprs
    ensures d.vgprLimit % d.vgprAllocGranule == 0
  {
  }

  /** The device-limit part of init_program, step by step as the source sets it. */
  method InitDeviceInfo(chip: ChipClass, fam: Family, family: Family, wave: nat, xnack: bool) returns (d: DeviceInfo)
    ensures DeviceLimits(chip, fam, family, wave, xnack, d)
  {
    var ldsEncodingGranule, ldsAllocGranule, ldsLimit, has16bankLds := InitLds(chip, fam);
    var physicalVgprs, vgprAllocGranule, physicalSgprs, sgprAllocGranule, sgprLimit :=
      InitRegisterFiles(chip, fam, wave);
    var maxWave64PerSimd, simdPerCu, xnackEnabled, sramEccEnabled, hasFastFma32 :=
      InitWaves(chip, family, xnack);
    d := DeviceInfo(ldsEncodingGranule, ldsAllocGranule, ldsLimit, has16bankLds,
                    256, physicalVgprs, vgprAllocGranule,
                    physicalSgprs, sgprAllocGranule, sgprLimit,
                    maxWave64PerSimd, simdPerCu,
                    xnackEnabled, sramEccEnabled, hasFastFma32);
  }

  /** The LDS size and granules init_program picks per generation. */
  method InitLds(chip: ChipClass, fam: Family)
    returns (encodingGranule: nat, allocGranule: nat, limit: nat, has16bank: bool)
    ensures LdsLimits(chip, fam, encodingGranule, allocGranule, limit, has16bank)
  {
    encodingGranule := if AtLeast(chip, GFX7) then 512 else 256;
    allocGranule := if AtLeast(chip, GFX10_3) then 1024 else encodingGranule;
    limit := if AtLeast(chip, GFX7) then 65536 else 32768;
    has16bank := fam == Kabini || fam == Stoney;
  }

  /** The register-file sizes and granules init_program picks per generation. */
  method InitRegisterFiles(chip: ChipClass, fam: Family, wave: nat)
    returns (physicalVgprs: nat, vgprAllocGranule: nat, physicalSgprs: nat, sgprAllocGranule: nat, sgprLimit: nat)
    ensures RegisterLimits(chip, fam, wave, physicalVgprs, vgprAllocGranule, physicalSgprs, sgprAllocGranule, sgprLimit)
  {
    physicalVgprs, vgprAllocGranule := 256, 4;
    if AtLeast(chip, GFX10) {
      physicalSgprs, sgprAllocGranule, sgprLimit := 5120, 128, 108;
      physicalVgprs := if wave == 32 then 1024 else 512;
      if AtLeast(chip, GFX10_3) {
        vgprAllocGranule := if wave == 32 then 16 else 8;
      } else {
        vgprAllocGranule := if wave == 32 then 8 else 4;
      }
    } else if AtLeast(chip, GFX8) {
      physicalSgprs, sgprAllocGranule, sgprLimit := 800, 16, 102;
      if fam == Tonga || fam == Iceland {
        sgprAllocGranule := 96;
      }
    } else {
      physicalSgprs, sgprAllocGranule, sgprLimit := 512, 8, 104;
    }
  }

  /** Wave occupancy and the feature flags init_program derives from the family. */
  method InitWaves(chip: ChipClass, family: Family, xnack: bool)
    returns (maxWave64PerSimd: nat, simdPerCu: nat, xnackEnabled: bool, sramEccEnabled: bool, hasFastFma32: bool)
    ensures WaveLimits(chip, family, xnack, maxWave64PerSimd, simdPerCu, xnackEnabled, sramEccEnabled, hasFastFma32)
  {
    maxWave64PerSimd :=
      if AtLeast(chip, GFX10_3) then 16
      else if chip == GFX10 then 20
      else if EightWaveFamily(family) then 8
      else 10;
    simdPerCu := if AtLeast(chip, GFX10) then 2 else 4;
    xnackEnabled := XnackFamily(family) || xnack;
    sramEccEnabled := family == Arcturus;
    hasFastFma32 := AtLeast(chip, GFX9) || FastFmaFamily(family);
  }

  /** The family init_program assumes when none is given. */
  function DefaultFamily(chip: ChipClass): Family
  {
    match chip
    case GFX6 => Tahiti
    case GFX7 => Bonaire
    case GFX8 => Polaris10
    case GFX9 => Vega10
    case GFX10 => Navi10
    case GFX10_3 => ChipUnknown
  }

  // ---------------------------------------------------------------------
  // wait_imm: the s_waitcnt immediate
  // ---------------------------------------------------------------------

  const UnsetCounter: bv16 := 0xffff

  /** The largest vm count the chip's encoding holds. */
  function VmMax(chip: ChipClass): bv16 { if AtLeast(chip, GFX9) then 0x3f else 0xf }

  /** The largest lgkm count the chip's encoding holds. */
  function LgkmMax(chip: ChipClass): bv16 { if AtLeast(chip, GFX10) then 0x3f else 0xf }

  /** Field extraction done by the wait_imm(chip, packed) constructor. */
  function DecodeVm(chip: ChipClass, packed: bv16): (r: bv16)
    ensures r <= VmMax(chip)
  {
    (packed & 0xf) | (if AtLeast(chip, GFX9) then (packed >> 10) & 0x30 else 0)
  }

  function DecodeExp(packed: bv16): (r: bv16)
    ensures r <= 0x7
  {
    (packed >> 4) & 0x7
  }

  function DecodeLgkm(chip: ChipClass, packed: bv16): (r: bv16)
    ensures r <= LgkmMax(chip)
  {
    ((packed >> 8) & 0xf) | (if AtLeast(chip, GFX10) then (packed >> 8) & 0x30 else 0)
  }

  /** The counter fields of wait_imm::pack, laid out per generation. */
  function PackFields(chip: ChipClass, vm: bv16, exp: bv16, lgkm: bv16): (r: bv16)
    ensures vm <= VmMax(chip) ==> DecodeVm(chip, r) == vm
    ensures exp <= 0x7 ==> DecodeExp(r) == exp
    ensures lgkm <= LgkmMax(chip) ==> DecodeLgkm(chip, r) == lgkm
    ensures !AtLeast(chip, GFX9) ==> r & 0xf000 == 0
    ensures !AtLeast(chip, GFX10) ==> r & 0x3000 == 0
  {
    match chip
    case GFX10 => ((vm & 0x30) << 10) | ((lgkm & 0x3f) << 8) | ((exp & 0x7) << 4) | (vm & 0xf)
    case GFX10_3 => ((vm & 0x30) << 10) | ((lgkm & 0x3f) << 8) | ((exp & 0x7) << 4) | (vm & 0xf)
    case GFX9 => ((vm & 0x30) << 10) | ((lgkm & 0xf) << 8) | ((exp & 0x7) << 4) | (vm & 0xf)
    case _ => ((lgkm & 0xf) << 8) | ((exp & 0x7) << 4) | (vm & 0xf)
  }

  /** wait_imm::pack. Each counter that is set and fits its field decodes back
    * to itself; unset counters of an older chip fill the bits a newer chip
    * would read. */
  function PackWaitImm(chip: ChipClass, vm: bv16, exp: bv16, lgkm: bv16): (r: bv16)
    requires exp == UnsetCounter || exp <= 0x7
    requires lgkm == UnsetCounter || lgkm <= LgkmMax(chip)
    requires vm == UnsetCounter || vm <= VmMax(chip)
    ensures vm <= VmMax(chip) ==> DecodeVm(chip, r) == vm
    ensures exp <= 0x7 ==> DecodeExp(r) == exp
    ensures lgkm <= LgkmMax(chip) ==> DecodeLgkm(chip, r) == lgkm
    ensures !AtLeast(chip, GFX9) && vm == UnsetCounter ==> r & 0xc000 == 0xc000
    ensures !AtLeast(chip, GFX10) && lgkm == UnsetCounter ==> r & 0x3000 == 0x3000
  {
    var imm := PackFields(chip, vm, exp, lgkm);
    var imm1 := if !AtLeast(chip, GFX9) && vm == UnsetCounter then imm | 0xc000 else imm;
    FillKeepsFields(chip, imm, imm1);
    var imm2 := if !AtLeast(chip, GFX10) && lgkm == UnsetCounter then imm1 | 0x3000 else imm1;
    FillKeepsFields(chip, imm1, imm2);
    imm2
  }

  /** Setting bits 12-15 on a chip that does not read them leaves every
    * decoded counter as it was. */
  lemma FillKeepsFields(chip: ChipClass, x: bv16, y: bv16)
    requires y == x || (y == x | 0xc000 && !AtLeast(chip, GFX9)) || (y == x | 0x3000 && !AtLeast(chip, GFX10))
    ensures DecodeVm(chip, y) == DecodeVm(chip, x) && DecodeExp(y) == DecodeExp(x)
    ensures DecodeLgkm(chip, y) == DecodeLgkm(chip, x)
    ensures y & 0xc000 == (x & 0xc000) | (y & 0xc000) && y & 0x3000 == (x & 0x3000) | (y & 0x3000)
  {
  }

  function Min16(a: bv16, b: bv16): bv16 { if b < a then b else a }

  /** The four hardware wait counters of an s_waitcnt. */
  class WaitImm {
    var vm: bv16
    var exp: bv16
    var lgkm: bv16
    var vs: bv16

    /** Nothing to wait for. */
    predicate Empty()
      reads this
    {
      vm == UnsetCounter && exp == UnsetCounter && lgkm == UnsetCounter && vs == UnsetCounter
    }

    /** wait_imm(): every counter unset. */
    constructor ()
      ensures Empty()
    {
      vm, exp, lgkm, vs := UnsetCounter, UnsetCounter, UnsetCounter, UnsetCounter;
    }

    /** wait_imm(chip, packed): decode an s_waitcnt immediate; vs stays unset. */
    constructor FromPacked(chip: ChipClass, packed: bv16)
      ensures vm == DecodeVm(chip, packed) && exp == DecodeExp(packed)
      ensures lgkm == DecodeLgkm(chip, packed) && vs == UnsetCounter
    {
      vs := UnsetCounter;
      vm := DecodeVm(chip, packed);
      exp := DecodeExp(packed);
      lgkm := DecodeLgkm(chip, packed);
    }

    function Pack(chip: ChipClass): bv16
      reads this
      requires exp == UnsetCounter || exp <= 0x7
      requires lgkm == UnsetCounter || lgkm <= LgkmMax(chip)
      requires vm == UnsetCounter || vm <= VmMax(chip)
    {
      PackWaitImm(chip, vm, exp, lgkm)
    }

    /** wait_imm::combine: the counter-wise minimum, reporting whether any
      * counter of `other` was strictly smaller. */
    method Combine(other: WaitImm) returns (changed: bool)
      modifies this
      ensures changed == (Stricter(old(other.vm), old(vm)) || Stricter(old(other.exp), old(exp)) ||
                          Stricter(old(other.lgkm), old(lgkm)) || Stricter(old(other.vs), old(vs)))
      ensures vm == Min16(old(vm), old(other.vm)) && exp == Min16(old(exp), old(other.exp))
      ensures lgkm == Min16(old(lgkm), old(other.lgkm)) && vs == Min16(old(vs), old(other.vs))
    {
      changed := Stricter(other.vm, vm) || Stricter(other.exp, exp) || Stricter(other.lgkm, lgkm) || Stricter(other.vs, vs);
      var ovm, oexp, olgkm, ovs := other.vm, other.exp, other.lgkm, other.vs;
      vm := Min16(vm, ovm);
      exp := Min16(exp, oexp);
      lgkm := Min16(lgkm, olgkm);
      vs := Min16(vs, ovs);
    }
  }

  /** Counter value `a` waits for more than `b` does (fewer outstanding events). */
  predicate Stricter(a: bv16, b: bv16) { a < b }

  // ---------------------------------------------------------------------
  // Reduction identities
  // ---------------------------------------------------------------------

  datatype ReduceKind = IAdd | IMul | FAdd | FMul | IMin | IMax | UMin | UMax | FMin | FMax | IAnd | IOr | IXor

  /** A ReduceOp is an operation kind at a bit size (iadd8 … fmax64). */
  datatype ReduceOp = ReduceOp(kind: ReduceKind, bits: nat)

  predicate IsFloatKind(k: ReduceKind) { k in {FAdd, FMul, FMin, FMax} }

  /** The ReduceOp enumerators: integer kinds at 8/16/32/64 bits, float kinds at 16/32/64. */
  predicate IsReduceOp(op: ReduceOp)
  {
    if IsFloatKind(op.kind) then op.bits == 16 || op.bits == 32 || op.bits == 64
    else op.bits == 8 || op.bits == 16 || op.bits == 32 || op.bits == 64
  }

  /** get_reduction_identity: dword `idx` of the identity element; None for an
    * operation outside the enum (the source's unreachable). */
  function GetReductionIdentity(op: ReduceOp, idx: nat): (r: Option<nat>)
    ensures r.Some? <==> IsReduceOp(op)
    ensures r.Some? ==> r.value < U32
  {
    if !IsReduceOp(op) then None
    else Some(
      match op.kind
      case IAdd => 0
      case FAdd => 0
      case IOr => 0
      case IXor => 0
      case UMax => 0
      case IMul => if idx != 0 then 0 else 1
      case FMul => (if op.bits == 16 then 0x3c00 else if op.bits == 32 then 0x3f80_0000
                    else if idx != 0 then 0x3ff0_0000 else 0)
      case IMin => (if op.bits == 8 then 0x7f else if op.bits == 16 then 0x7fff
                    else if op.bits == 32 then 0x7fff_ffff
                    else if idx != 0 then 0x7fff_ffff else 0xffff_ffff)
      case IMax => (if op.bits == 8 then 0xffff_ff80 else if op.bits == 16 then 0xffff_8000
                    else if op.bits == 32 then 0x8000_0000
                    else if idx != 0 then 0x8000_0000 else 0)
      case UMin => 0xffff_ffff
      case IAnd => 0xffff_ffff
      case FMin => (if op.bits == 16 then 0x7c00 else if op.bits == 32 then 0x7f80_0000
                    else if idx != 0 then 0x7ff0_0000 else 0)
      case FMax => (if op.bits == 16 then 0xfc00 else if op.bits == 32 then 0xff80_0000
                    else if idx != 0 then 0xfff0_0000 else 0))
  }

  /** 2^bits for the four integer widths. */
  function WidthModulus(bits: nat): nat
  {
    if bits == 8 then 0x100 else if bits == 16 then 0x1_0000
    else if bits == 32 then 0x1_0000_0000 else 0x1_0000_0000_0000_0000
  }

  /** The identity as a `bits`-wide value: dwords 1:0 for 64-bit operations,
    * otherwise dword 0 truncated to the operation's width. */
  function IdentityValue(op: ReduceOp): nat
    requires IsReduceOp(op)
  {
    var lo := GetReductionIdentity(op, 0).value;
    if op.bits == 64 then GetReductionIdentity(op, 1).value * U32 + lo
    else lo % WidthModulus(op.bits)
  }

  /** Two's-complement reading of a `bits`-wide value. */
  function Signed(x: nat, bits: nat): int
  {
    if 2 * x >= WidthModulus(bits) then x - WidthModulus(bits) else x
  }

  /** Bitwise and/or/xor of the low n bits. */
  function BitOp(k: ReduceKind, x: nat, y: nat, n: nat): nat
    decreases n
  {
    if n == 0 then 0
    else
      var a, b := x % 2, y % 2;
      var bit := if k == IAnd then a * b else if k == IOr then (if a + b > 0 then 1 else 0)
                 else (a + b) % 2;
      2 * BitOp(k, x / 2, y / 2, n - 1) + bit
  }

  /** The integer reduction operations on `bits`-wide values. */
  function ApplyInt(k: ReduceKind, bits: nat, x: nat, y: nat): nat
  {
    match k
    case IAdd => (x + y) % WidthModulus(bits)
    case IMul => (x * y) % WidthModulus(bits)
    case UMin => if x <= y then x else y
    case UMax => if x >= y then x else y
    case IMin => if Signed(x, bits) <= Signed(y, bits) then x else y
    case IMax => if Signed(x, bits) >= Signed(y, bits) then x else y
    case _ => BitOp(k, x, y, bits)
  }

  lemma {:induction false} BitOpIdentity(k: ReduceKind, x: nat, n: nat)
    requires k in {IAnd, IOr, IXor}
    requires x < Pow2(n)
    ensures BitOp(k, x, if k == IAnd then Pow2(n) - 1 else 0, n) == x
    decreases n
  {
    if n > 0 {
      var e := if k == IAnd then Pow2(n) - 1 else 0;
      var e' := if k == IAnd then Pow2(n - 1) - 1 else 0;
      assert e / 2 == e' && (k == IAnd ==> e % 2 == 1) && (k != IAnd ==> e % 2 == 0);
      BitOpIdentity(k, x / 2, n - 1);
    }
  }

  lemma WidthIsPow2(bits: nat)
    requires bits in {8, 16, 32, 64}
    ensures WidthModulus(bits) == Pow2(bits)
  {
    Pow2Widths();
  }

  /** The bitwise identities: all ones for and, zero for or and xor. */
  lemma BitwiseIdentityValue(op: ReduceOp)
    requires IsReduceOp(op) && op.kind in {IAnd, IOr, IXor}
    ensures IdentityValue(op) == if op.kind == IAnd then WidthModulus(op.bits) - 1 else 0
  {
  }

  /** Every integer reduction identity is neutral: combining any value of the
    * operation's width with it gives the value back. */
  lemma ReductionIdentityNeutral(op: ReduceOp, x: nat)
    requires IsReduceOp(op) && !IsFloatKind(op.kind)
    requires x < WidthModulus(op.bits)
    ensures ApplyInt(op.kind, op.bits, x, IdentityValue(op)) == x
  {
    match op.kind {
      case IAnd =>
        BitwiseIdentity(op, x);
      case IOr =>
        BitwiseIdentity(op, x);
      case IXor =>
        BitwiseIdentity(op, x);
      case IMin =>
        SignedIdentity(op, x);
      case IMax =>
        SignedIdentity(op, x);
      case _ =>
        ArithmeticIdentity(op, x);
    }
  }

  lemma BitwiseIdentity(op: ReduceOp, x: nat)
    requires IsReduceOp(op) && op.kind in {IAnd, IOr, IXor}
    requires x < WidthModulus(op.bits)
    ensures ApplyInt(op.kind, op.bits, x, IdentityValue(op)) == x
  {
    BitwiseIdentityValue(op);
    WidthIsPow2(op.bits);
    BitOpIdentity(op.kind, x, op.bits);
  }

  /** Zero for add and unsigned max, one for mul, all ones for unsigned min. */
  lemma ArithmeticIdentity(op: ReduceOp, x: nat)
    requires IsReduceOp(op) && op.kind in {IAdd, IMul, UMin, UMax}
    requires x < WidthModulus(op.bits)
    ensures ApplyInt(op.kind, op.bits, x, IdentityValue(op)) == x
  {
    var e := IdentityValue(op);
    if op.kind == IAdd || op.kind == UMax {
      assert e == 0;
    } else if op.kind == IMul {
      assert e == 1;
    } else {
      assert e == WidthModulus(op.bits) - 1;
    }
  }

  /** The signed minimum's identity is the largest signed value, the signed
    * maximum's the smallest. */
  lemma SignedIdentity(op: ReduceOp, x: nat)
    requires IsReduceOp(op) && op.kind in {IMin, IMax}
    requires x < WidthModulus(op.bits)
    ensures ApplyInt(op.kind, op.bits, x, IdentityValue(op)) == x
  {
  }

  // ---------------------------------------------------------------------
  // opsel legality
  // ---------------------------------------------------------------------

  /** Opcodes whose 16-bit halves can always be selected with opsel (GFX9+). */
  predicate OpselAnyOperand(op: Opcode)
  {
    op in {v_div_fixup_f16, v_fma_f16, v_mad_f16, v_mad_u16, v_mad_i16,
           v_med3_f16, v_med3_i16, v_med3_u16, v_min3_f16, v_min3_i16, v_min3_u16,
           v_max3_f16, v_max3_i16, v_max3_u16, v_max_u16_e64, v_max_i16_e64,
           v_min_u16_e64, v_min_i16_e64, v_add_i16, v_sub_i16, v_add_u16_e64,
           v_sub_u16_e64, v_lshlrev_b16_e64, v_lshrrev_b16_e64, v_ashrrev_i16_e64,
           v_mul_lo_u16_e64}
  }

  /** Packing opcodes: opsel on sources, never on the definition (idx == -1). */
  predicate OpselSourcesOnly(op: Opcode)
  {
    op in {v_pack_b32_f16, v_cvt_pknorm_i16_f16, v_cvt_pknorm_u16_f16}
  }

  /** 32-bit mads of 16-bit sources: opsel on sources 0 and 1 only. */
  predicate OpselFirstTwo(op: Opcode)
  {
    op in {v_mad_u32_u16, v_mad_i32_i16}
  }

  /** can_use_opsel: may operand `idx` (-1 is the definition) of `op` read or
    * write the high half? */
  function CanUseOpsel(chip: ChipClass, op: Opcode, idx: int, high: bool): (r: bool)
    ensures (high || idx == -1) && !AtLeast(chip, GFX9) ==> !r
    ensures !(high || idx == -1) || AtLeast(chip, GFX9) ==>
              (r <==> (OpselAnyOperand(op) ||
                       (OpselSourcesOnly(op) && idx != -1) ||
                       (OpselFirstTwo(op) && 0 <= idx < 2)))
  {
    if (high || idx == -1) && !AtLeast(chip, GFX9) then false
    else
      match op
      case v_div_fixup_f16 => true
      case v_fma_f16 => true
      case v_mad_f16 => true
      case v_mad_u16 => true
      case v_mad_i16 => true
      case v_med3_f16 => true
      case v_med3_i16 => true
      case v_med3_u16 => true
      case v_min3_f16 => true
      case v_min3_i16 => true
      case v_min3_u16 => true
      case v_max3_f16 => true
      case v_max3_i16 => true
      case v_max3_u16 => true
      case v_max_u16_e64 => true
      case v_max_i16_e64 => true
      case v_min_u16_e64 => true
      case v_min_i16_e64 => true
      case v_add_i16 => true
      case v_sub_i16 => true
      case v_add_u16_e64 => true
      case v_sub_u16_e64 => true
      case v_lshlrev_b16_e64 => true
      case v_lshrrev_b16_e64 => true
      case v_ashrrev_i16_e64 => true
      case v_mul_lo_u16_e64 => true
      case v_pack_b32_f16 => idx != -1
      case v_cvt_pknorm_i16_f16 => idx != -1
      case v_cvt_pknorm_u16_f16 => idx != -1
      case v_mad_u32_u16 => idx >= 0 && idx < 2
      case v_mad_i32_i16 => idx >= 0 && idx < 2
      case _ => false
  }

  // ---------------------------------------------------------------------
  // convert_to_SDWA
  // ---------------------------------------------------------------------

  /** The operand width, in bytes, an SDWA selection reads or writes (0 when unset). */
  function SelBytes(s: SdwaSel): nat
  {
    match s
    case SelUnset => 0
    case SdwaUbyte => 1
    case SdwaUword => 2
    case SdwaUdword => 4
  }

  /** The selection for a 1-, 2- or 4-byte operand; other widths leave it unset. */
  function SelForBytes(bytes: nat): (r: SdwaSel)
    ensures bytes in {1, 2, 4} ==> SelBytes(r) == bytes
    ensures bytes !in {1, 2, 4} ==> r == SelUnset
  {
    if bytes == 1 then SdwaUbyte else if bytes == 2 then SdwaUword
    else if bytes == 4 then SdwaUdword else SelUnset
  }

  /** Choosing a selection by width and reading back its width are inverse
    * both ways: every 1/2/4-byte width has exactly one selection, and
    * every set selection is the one chosen for its own width. */
  lemma {:induction false} SelRoundTrip(bytes: nat, s: SdwaSel)
    ensures bytes in {1, 2, 4} <==> SelForBytes(bytes) != SelUnset
    ensures bytes in {1, 2, 4} ==> SelBytes(SelForBytes(bytes)) == bytes
    ensures s != SelUnset ==> SelForBytes(SelBytes(s)) == s
  {
  }

  /** The selections of the two sources SDWA reads. */
  function SourceSels(ops: seq<Operand>): (r: seq<SdwaSel>)
    ensures |r| == 2
    ensures forall i :: 0 <= i < 2 ==> r[i] == if i < |ops| then SelForBytes(ops[i].Bytes()) else SelUnset
  {
    [if |ops| > 0 then SelForBytes(ops[0].Bytes()) else SelUnset,
     if |ops| > 1 then SelForBytes(ops[1].Bytes()) else SelUnset]
  }

  /** Whether the input modifiers come from a VOP3 original. */
  predicate HasVop3Mods(instr: Instr)
  {
    VOP3 in instr.format && instr.extra.Vop3Mods?
  }

  /** The input modifiers of the converted instruction: a VOP3 original's,
    * none otherwise. */
  function SdwaInputMods(instr: Instr): (m: Extra)
    ensures m.Vop3Mods?
    ensures HasVop3Mods(instr) ==> m == instr.extra
    ensures !HasVop3Mods(instr) ==> (forall b :: b in m.neg + m.abs ==> !b) && m.omod == 0 && !m.clamp
  {
    if HasVop3Mods(instr) then instr.extra
    else Vop3Mods([false, false, false], [false, false, false], 0, false)
  }

  /** The SDWA operands: the third, the carry-in, is fixed to vcc whatever
    * it holds; nothing else changes. */
  function SdwaOps(ops: seq<Operand>): (r: seq<Operand>)
    ensures |r| == |ops|
    ensures forall i :: 0 <= i < |ops| ==> r[i] == ops[i].(fixed := r[i].fixed)
    ensures forall i :: 0 <= i < |ops| ==> r[i].fixed == (if i == 2 then Some(Vcc) else ops[i].fixed)
  {
    if |ops| >= 3 then ops[..2] + [ops[2].(fixed := Some(Vcc))] + ops[3..] else ops
  }

  /** The SDWA definitions: an SGPR destination is fixed to vcc on GFX8,
    * and so is the carry-out; nothing else changes. */
  function SdwaDefs(chip: ChipClass, defs: seq<Definition>): (r: seq<Definition>)
    requires |defs| >= 1
    ensures |r| == |defs|
    ensures forall i :: 0 <= i < |defs| ==> r[i] == defs[i].(fixed := r[i].fixed)
    ensures r[0].fixed == (if defs[0].temp.rc.rtype == Sgpr && chip == GFX8 then Some(Vcc) else defs[0].fixed)
    ensures forall i :: 1 <= i < |defs| ==> r[i].fixed == (if i == 1 then Some(Vcc) else defs[i].fixed)
  {
    var def0 := if defs[0].temp.rc.rtype == Sgpr && chip == GFX8 then defs[0].(fixed := Some(Vcc)) else defs[0];
    [def0] + (if |defs| >= 2 then [defs[1].(fixed := Some(Vcc))] + defs[2..] else [])
  }

  /** convert_to_SDWA: None if `instr` is already SDWA; otherwise the
    * replacement instruction (the original is what the source hands back). */
  function ConvertToSdwa(chip: ChipClass, instr: Instr): (r: Option<Instr>)
    requires |instr.defs| >= 1
    ensures r.None? <==> SDWA in instr.format
    ensures r.Some? ==> r.value.opcode == instr.opcode && r.value.format == (instr.format - {VOP3}) + {SDWA}
    // operands and definitions are copied in order; only their fixed registers change
    ensures r.Some? ==> |r.value.ops| == |instr.ops| && |r.value.defs| == |instr.defs|
    ensures r.Some? ==> forall i :: 0 <= i < |instr.ops| ==>
              r.value.ops[i] == instr.ops[i].(fixed := r.value.ops[i].fixed)
    ensures r.Some? ==> forall i :: 0 <= i < |instr.defs| ==>
              r.value.defs[i] == instr.defs[i].(fixed := r.value.defs[i].fixed)
    // the carry operand, the carry-out and a GFX8 SGPR destination live in vcc
    ensures r.Some? && |instr.ops| >= 3 ==> r.value.ops[2].fixed == Some(Vcc)
    ensures r.Some? && |instr.defs| >= 2 ==> r.value.defs[1].fixed == Some(Vcc)
    ensures r.Some? ==> (instr.defs[0].temp.rc.rtype == Sgpr && chip == GFX8 ==> r.value.defs[0].fixed == Some(Vcc))
    ensures r.Some? ==> forall i :: 0 <= i < |instr.ops| && i != 2 ==> r.value.ops[i].fixed == instr.ops[i].fixed
    // the selections read each of the first two sources, and write the destination, at its own width
    ensures r.Some? ==> r.value.extra.SdwaMods? && |r.value.extra.sel| == 2
    ensures r.Some? ==> forall i :: 0 <= i < 2 ==>
              var w := if i < |instr.ops| then instr.ops[i].Bytes() else 0;
              (w in {1, 2, 4} ==> SelBytes(r.value.extra.sel[i]) == w)
              && (w !in {1, 2, 4} ==> r.value.extra.sel[i] == SelUnset)
    ensures r.Some? ==> var w := instr.defs[0].temp.rc.bytes;
              (w in {1, 2, 4} ==> SelBytes(r.value.extra.dstSel) == w)
              && (w !in {1, 2, 4} ==> r.value.extra.dstSel == SelUnset)
    ensures r.Some? ==> (r.value.extra.dstPreserve <==> instr.defs[0].temp.rc.bytes in {1, 2})
    // the input modifiers come from a VOP3 original, and are cleared otherwise
    ensures r.Some? && HasVop3Mods(instr) ==>
              r.value.extra.sneg == instr.extra.neg && r.value.extra.sabs == instr.extra.abs
              && r.value.extra.somod == instr.extra.omod && r.value.extra.sclamp == instr.extra.clamp
    ensures r.Some? && !HasVop3Mods(instr) ==>
              (forall b :: b in r.value.extra.sneg + r.value.extra.sabs ==> !b)
              && r.value.extra.somod == 0 && !r.value.extra.sclamp
  {
    if SDWA in instr.format then None
    else
      var mods := SdwaInputMods(instr);
      var dbytes := instr.defs[0].temp.rc.bytes;
      Some(Instr(instr.opcode, (instr.format - {VOP3}) + {SDWA}, SdwaOps(instr.ops), SdwaDefs(chip, instr.defs),
                 SdwaMods(SourceSels(instr.ops), SelForBytes(dbytes), dbytes == 1 || dbytes == 2,
                          mods.neg, mods.abs, mods.omod, mods.clamp)))
  }

  /** Converting is done once: the result is an SDWA instruction, which a
    * second conversion leaves alone, and it names the same registers as
    * the original — every operand reads the same value and every
    * definition writes the same temporary. */
  lemma {:induction false} SdwaConversionKeepsData(chip: ChipClass, instr: Instr)
    requires |instr.defs| >= 1 && SDWA !in instr.format
    ensures ConvertToSdwa(chip, instr).Some?
    ensures ConvertToSdwa(chip, ConvertToSdwa(chip, instr).value).None?
    ensures var s := ConvertToSdwa(chip, instr).value;
            (forall i :: 0 <= i < |instr.ops| ==> s.ops[i].val == instr.ops[i].val && s.ops[i].Bytes() == instr.ops[i].Bytes())
            && (forall i :: 0 <= i < |instr.defs| ==> s.defs[i].temp == instr.defs[i].temp)
  {
    var s := ConvertToSdwa(chip, instr).value;
    forall i | 0 <= i < |instr.ops|
      ensures s.ops[i].val == instr.ops[i].val && s.ops[i].Bytes() == instr.ops[i].Bytes()
    {
      assert s.ops[i] == instr.ops[i].(fixed := s.ops[i].fixed);
    }
  }
}
