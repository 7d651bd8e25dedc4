// Compaction of one Intel EU instruction: the 128-bit instruction's control,
// data-type, sub-register and source bit fields are packed into keys and
// looked up in per-generation tables; the 64-bit compacted instruction holds
// the table indices. The tables themselves are a parameter (`TableLib`).
// An instruction is its 128 raw bits plus the decoded fields the brw_inst.h
// accessors read; brw_inst.h is not part of this model, so the two views are
// independent inputs.
module BrwCompact {
  import opened Wrappers
  import opened Bits
  import opened BrwCompactImm

  /** The parts of gen_device_info the compactor reads. */
  datatype DevInfo = DevInfo(ver: nat, isG4x: bool, isHaswell: bool, isCherryview: bool)

  datatype RegFile = ArchitectureFile | GeneralFile | MessageFile | ImmediateValue

  /** The opcodes the compactor and the jump fix-up tell apart; every other
    * opcode is `Alu`, with its number of sources. */
  datatype Opcode =
    | Send | Sendc | Break | Continue | Halt | If | Iff | Else | Endif | While
    | Add | Nop | Nenop | Alu(nsrc: nat)

  /** is_3src. */
  predicate IsThreeSrc(op: Opcode)
  {
    op.Alu? && op.nsrc == 3
  }

  /** An uncompacted instruction: raw bits and decoded fields. `srcNType` is
    * None for INVALID_REG_TYPE. */
  datatype Inst = Inst(
    raw: nat,
    opcode: Opcode, eot: bool, cmptControl: bool,
    dstFile: RegFile, src0File: RegFile, src1File: RegFile,
    src0Type: Option<RegType>, src1Type: Option<RegType>,
    imm: uint32,
    hwOpcode: nat, debugControl: nat, swsb: nat, accWrControl: nat,
    maskControlEx: nat, flagSubregNr: nat, condModifier: nat, saturate: nat,
    dstRegNr: nat, src0RegNr: nat, src1RegNr: nat, src2RegNr: nat,
    src0RepCtrl: nat, src1RepCtrl: nat, src2RepCtrl: nat,
    src0SubregNr: nat, src1SubregNr: nat, src2SubregNr: nat,
    jip: int, uip: int, jumpCount: int)

  /** A compacted two-source instruction; fields the generation does not
    * set stay 0, as after the source's memset. */
  datatype Compact2 = Compact2(
    hwOpcode: nat, debugControl: nat,
    controlIndex: nat, datatypeIndex: nat, subregIndex: nat,
    src0Index: nat, src1Index: nat,
    swsb: nat, accWrControl: nat, maskControlEx: nat, flagSubregNr: nat,
    condModifier: nat, dstRegNr: nat, src0RegNr: nat, src1RegNr: nat)

  /** A compacted three-source instruction. */
  datatype Compact3 = Compact3(
    hwOpcode: nat, controlIndex: nat, sourceIndex: nat, subregIndex: nat,
    swsb: nat, debugControl: nat, saturate: nat,
    dstRegNr: nat, src0RegNr: nat, src1RegNr: nat, src2RegNr: nat,
    src0RepCtrl: nat, src1RepCtrl: nat, src2RepCtrl: nat,
    src0SubregNr: nat, src1SubregNr: nat, src2SubregNr: nat)

  datatype CompactInst = TwoSrc(two: Compact2) | ThreeSrc(three: Compact3)

  // ---------------------------------------------------------------------
  // Bit fields and keys
  // ---------------------------------------------------------------------

  /** The bit range hi..lo of an instruction, as brw_inst_bits reads it. */
  datatype Span = Span(hi: nat, lo: nat)

  function SpanWidth(s: Span): nat
  {
    if s.hi >= s.lo then s.hi - s.lo + 1 else 0
  }

  function FieldBits(raw: nat, s: Span): (r: nat)
    ensures r < Pow2(SpanWidth(s))
  {
    (raw / Pow2(s.lo)) % Pow2(SpanWidth(s))
  }

  /** The total width of the first n fields. */
  function Width(fs: seq<Span>, n: nat): nat
    requires n <= |fs|
  {
    if n == 0 then 0 else Width(fs, n - 1) + SpanWidth(fs[n - 1])
  }

  /** The first n fields packed, the first one most significant: the
    * source's chain of `brw_inst_bits(...) << shift` ORed together, each
    * shift being the width of the fields after it. */
  function PackUpTo(raw: nat, fs: seq<Span>, n: nat): nat
    requires n <= |fs|
  {
    if n == 0 then 0
    else PackUpTo(raw, fs, n - 1) * Pow2(SpanWidth(fs[n - 1])) + FieldBits(raw, fs[n - 1])
  }

  function Key(raw: nat, fs: seq<Span>): nat
  {
    PackUpTo(raw, fs, |fs|)
  }

  /** A digit below q appended to a number below p stays below p * q. */
  lemma PackStep(a: nat, p: nat, f: nat, q: nat)
    requires a < p && f < q
    ensures a * q + f < p * q
  {
    assert a * q <= (p - 1) * q;
  }

  /** The packed key fits in the total width of its fields. */
  lemma {:induction false} PackBelow(raw: nat, fs: seq<Span>, n: nat)
    requires n <= |fs|
    ensures PackUpTo(raw, fs, n) < Pow2(Width(fs, n))
    decreases n
  {
    if n > 0 {
      var w := SpanWidth(fs[n - 1]);
      PackBelow(raw, fs, n - 1);
      PackStep(PackUpTo(raw, fs, n - 1), Pow2(Width(fs, n - 1)), FieldBits(raw, fs[n - 1]), Pow2(w));
      Pow2Add(Width(fs, n - 1), w);
    }
  }

  lemma KeyBelow(raw: nat, fs: seq<Span>)
    ensures Key(raw, fs) < Pow2(Width(fs, |fs|))
  {
    PackBelow(raw, fs, |fs|);
  }

  /** The fields of the control-index key. */
  function ControlFields(dev: DevInfo): seq<Span>
  {
    if dev.ver >= 12 then
      [Span(95, 92), Span(34, 34), Span(33, 33), Span(32, 32), Span(31, 31),
       Span(28, 28), Span(27, 24), Span(23, 22), Span(21, 19), Span(18, 16)]
    else if dev.ver >= 8 then
      [Span(33, 31), Span(23, 12), Span(10, 9), Span(34, 34), Span(8, 8)]
    else if dev.ver == 7 then [Span(90, 89), Span(31, 31), Span(23, 8)]
    else [Span(31, 31), Span(23, 8)]
  }

  /** The fields of the data-type key; on Gfx12 Src1.RegFile overlaps the
    * immediate and is left out when there is one. */
  function DatatypeFields(dev: DevInfo, isImmediate: bool): seq<Span>
  {
    if dev.ver >= 12 then
      (if isImmediate then [] else [Span(98, 98)]) +
      [Span(91, 88), Span(66, 66), Span(50, 50), Span(49, 48), Span(47, 47),
       Span(46, 46), Span(43, 40), Span(39, 36), Span(35, 35)]
    else if dev.ver >= 8 then [Span(63, 61), Span(94, 89), Span(46, 35)]
    else [Span(63, 61), Span(46, 32)]
  }

  /** The fields of the sub-register key; src1's sub-register is left out
    * when there is an immediate. */
  function SubregFields(dev: DevInfo, isImmediate: bool): seq<Span>
  {
    if dev.ver >= 12 then
      (if isImmediate then [] else [Span(103, 99)]) + [Span(71, 67), Span(55, 51)]
    else
      (if isImmediate then [] else [Span(100, 96)]) + [Span(68, 64), Span(52, 48)]
  }

  function Src0Fields(dev: DevInfo): seq<Span>
  {
    if dev.ver >= 12 then
      [Span(87, 84), Span(83, 81), Span(80, 80), Span(65, 64), Span(45, 44)]
    else [Span(88, 77)]
  }

  function Src1Fields(dev: DevInfo): seq<Span>
  {
    if dev.ver >= 12 then
      [Span(121, 120), Span(119, 116), Span(115, 113), Span(112, 112), Span(97, 96)]
    else [Span(120, 109)]
  }

  function ThreeSrcControlFields(dev: DevInfo): seq<Span>
  {
    if dev.ver >= 12 then
      [Span(95, 92), Span(90, 88), Span(82, 80), Span(50, 50), Span(48, 48),
       Span(42, 40), Span(39, 39), Span(38, 36), Span(34, 34), Span(33, 33),
       Span(32, 32), Span(31, 31), Span(28, 28), Span(27, 24), Span(23, 23),
       Span(22, 22), Span(21, 19), Span(18, 16)]
    else if dev.ver >= 9 || dev.isCherryview then
      [Span(36, 35), Span(34, 32), Span(28, 8)]
    else [Span(34, 32), Span(28, 8)]
  }

  function ThreeSrcSourceFields(dev: DevInfo): seq<Span>
  {
    if dev.ver >= 12 then
      [Span(114, 114), Span(113, 112), Span(98, 98), Span(97, 96), Span(91, 91),
       Span(87, 86), Span(85, 84), Span(83, 83), Span(66, 66), Span(65, 64),
       Span(47, 47), Span(46, 46), Span(45, 44), Span(43, 43), Span(35, 35)]
    else if dev.ver >= 9 || dev.isCherryview then
      [Span(126, 125), Span(105, 104), Span(84, 84), Span(83, 83),
       Span(114, 107), Span(93, 86), Span(72, 65), Span(55, 37)]
    else
      [Span(125, 125), Span(104, 104), Span(83, 83),
       Span(114, 107), Span(93, 86), Span(72, 65), Span(55, 37)]
  }

  const ThreeSrcSubregFields: seq<Span> :=
    [Span(119, 115), Span(103, 99), Span(71, 67), Span(55, 51)]

  /** The control key: 21 bits on Gfx12, 19 on Gfx7 to Gfx11, 17 before; it fits its uint32_t. */
  lemma ControlKeyWidth(dev: DevInfo)
    ensures Width(ControlFields(dev), |ControlFields(dev)|) == (if dev.ver >= 12 then 21 else if dev.ver >= 7 then 19 else 17)
  {
    var fs := ControlFields(dev);
    if dev.ver >= 12 {
      assert Width(fs, 1) == 4;
      assert Width(fs, 2) == 5;
      assert Width(fs, 3) == 6;
      assert Width(fs, 4) == 7;
      assert Width(fs, 5) == 8;
      assert Width(fs, 6) == 9;
      assert Width(fs, 7) == 13;
      assert Width(fs, 8) == 15;
      assert Width(fs, 9) == 18;
      assert Width(fs, 10) == 21;
    } else if dev.ver >= 8 {
      assert Width(fs, 1) == 3;
      assert Width(fs, 2) == 15;
      assert Width(fs, 3) == 17;
      assert Width(fs, 4) == 18;
      assert Width(fs, 5) == 19;
    } else if dev.ver == 7 {
      assert Width(fs, 1) == 2;
      assert Width(fs, 2) == 3;
      assert Width(fs, 3) == 19;
    } else {
      assert Width(fs, 1) == 1;
      assert Width(fs, 2) == 17;
    }
  }

  /** The data-type key: 20 bits on Gfx12 (19 with an immediate), 21 on Gfx8 to Gfx11, 18 before; it fits its uint32_t. */
  lemma DatatypeKeyWidth(dev: DevInfo, isImmediate: bool)
    ensures Width(DatatypeFields(dev, isImmediate), |DatatypeFields(dev, isImmediate)|) == (if dev.ver >= 12 then (if isImmediate then 19 else 20) else if dev.ver >= 8 then 21 else 18)
  {
    var fs := DatatypeFields(dev, isImmediate);
    if dev.ver >= 12 && isImmediate {
      assert Width(fs, 1) == 4;
      assert Width(fs, 2) == 5;
      assert Width(fs, 3) == 6;
      assert Width(fs, 4) == 8;
      assert Width(fs, 5) == 9;
      assert Width(fs, 6) == 10;
      assert Width(fs, 7) == 14;
      assert Width(fs, 8) == 18;
      assert Width(fs, 9) == 19;
    } else if dev.ver >= 12 {
      assert Width(fs, 1) == 1;
      assert Width(fs, 2) == 5;
      assert Width(fs, 3) == 6;
      assert Width(fs, 4) == 7;
      assert Width(fs, 5) == 9;
      assert Width(fs, 6) == 10;
      assert Width(fs, 7) == 11;
      assert Width(fs, 8) == 15;
      assert Width(fs, 9) == 19;
      assert Width(fs, 10) == 20;
    } else if dev.ver >= 8 {
      assert Width(fs, 1) == 3;
      assert Width(fs, 2) == 9;
      assert Width(fs, 3) == 21;
    } else {
      assert Width(fs, 1) == 3;
      assert Width(fs, 2) == 18;
    }
  }

  /** The sub-register key: 15 bits (10 with an immediate); it fits its uint16_t. */
  lemma SubregKeyWidth(dev: DevInfo, isImmediate: bool)
    ensures Width(SubregFields(dev, isImmediate), |SubregFields(dev, isImmediate)|) == (if isImmediate then 10 else 15)
  {
    var fs := SubregFields(dev, isImmediate);
    if dev.ver >= 12 && isImmediate {
      assert Width(fs, 1) == 5;
      assert Width(fs, 2) == 10;
    } else if dev.ver >= 12 {
      assert Width(fs, 1) == 5;
      assert Width(fs, 2) == 10;
      assert Width(fs, 3) == 15;
    } else if isImmediate {
      assert Width(fs, 1) == 5;
      assert Width(fs, 2) == 10;
    } else {
      assert Width(fs, 1) == 5;
      assert Width(fs, 2) == 10;
      assert Width(fs, 3) == 15;
    }
  }

  /** The src0 key: 12 bits; it fits its uint16_t. */
  lemma Src0KeyWidth(dev: DevInfo)
    ensures Width(Src0Fields(dev), |Src0Fields(dev)|) == 12
  {
    var fs := Src0Fields(dev);
    if dev.ver >= 12 {
      assert Width(fs, 1) == 4;
      assert Width(fs, 2) == 7;
      assert Width(fs, 3) == 8;
      assert Width(fs, 4) == 10;
      assert Width(fs, 5) == 12;
    } else {
      assert Width(fs, 1) == 12;
    }
  }

  /** The src1 key: 12 bits; it fits its uint16_t. */
  lemma Src1KeyWidth(dev: DevInfo)
    ensures Width(Src1Fields(dev), |Src1Fields(dev)|) == 12
  {
    var fs := Src1Fields(dev);
    if dev.ver >= 12 {
      assert Width(fs, 1) == 2;
      assert Width(fs, 2) == 6;
      assert Width(fs, 3) == 9;
      assert Width(fs, 4) == 10;
      assert Width(fs, 5) == 12;
    } else {
      assert Width(fs, 1) == 12;
    }
  }

  /** The three-source control key: 36 bits on Gfx12 (a uint64_t), 26 on Cherryview and Gfx9+, 24 on Broadwell. */
  lemma ThreeSrcControlKeyWidth(dev: DevInfo)
    ensures Width(ThreeSrcControlFields(dev), |ThreeSrcControlFields(dev)|) == (if dev.ver >= 12 then 36 else if dev.ver >= 9 || dev.isCherryview then 26 else 24)
  {
    var fs := ThreeSrcControlFields(dev);
    if dev.ver >= 12 {
      assert Width(fs, 1) == 4;
      assert Width(fs, 2) == 7;
      assert Width(fs, 3) == 10;
      assert Width(fs, 4) == 11;
      assert Width(fs, 5) == 12;
      assert Width(fs, 6) == 15;
      assert Width(fs, 7) == 16;
      assert Width(fs, 8) == 19;
      assert Width(fs, 9) == 20;
      assert Width(fs, 10) == 21;
      assert Width(fs, 11) == 22;
      assert Width(fs, 12) == 23;
      assert Width(fs, 13) == 24;
      assert Width(fs, 14) == 28;
      assert Width(fs, 15) == 29;
      assert Width(fs, 16) == 30;
      assert Width(fs, 17) == 33;
      assert Width(fs, 18) == 36;
    } else if dev.ver >= 9 || dev.isCherryview {
      assert Width(fs, 1) == 2;
      assert Width(fs, 2) == 5;
      assert Width(fs, 3) == 26;
    } else {
      assert Width(fs, 1) == 3;
      assert Width(fs, 2) == 24;
    }
  }

  /** The three-source source key: 21 bits on Gfx12, 49 on Cherryview and Gfx9+, 46 on Broadwell (a uint64_t). */
  lemma ThreeSrcSourceKeyWidth(dev: DevInfo)
    ensures Width(ThreeSrcSourceFields(dev), |ThreeSrcSourceFields(dev)|) == (if dev.ver >= 12 then 21 else if dev.ver >= 9 || dev.isCherryview then 49 else 46)
  {
    var fs := ThreeSrcSourceFields(dev);
    if dev.ver >= 12 {
      assert Width(fs, 1) == 1;
      assert Width(fs, 2) == 3;
      assert Width(fs, 3) == 4;
      assert Width(fs, 4) == 6;
      assert Width(fs, 5) == 7;
      assert Width(fs, 6) == 9;
      assert Width(fs, 7) == 11;
      assert Width(fs, 8) == 12;
      assert Width(fs, 9) == 13;
      assert Width(fs, 10) == 15;
      assert Width(fs, 11) == 16;
      assert Width(fs, 12) == 17;
      assert Width(fs, 13) == 19;
      assert Width(fs, 14) == 20;
      assert Width(fs, 15) == 21;
    } else if dev.ver >= 9 || dev.isCherryview {
      assert Width(fs, 1) == 2;
      assert Width(fs, 2) == 4;
      assert Width(fs, 3) == 5;
      assert Width(fs, 4) == 6;
      assert Width(fs, 5) == 14;
      assert Width(fs, 6) == 22;
      assert Width(fs, 7) == 30;
      assert Width(fs, 8) == 49;
    } else {
      assert Width(fs, 1) == 1;
      assert Width(fs, 2) == 2;
      assert Width(fs, 3) == 3;
      assert Width(fs, 4) == 11;
      assert Width(fs, 5) == 19;
      assert Width(fs, 6) == 27;
      assert Width(fs, 7) == 46;
    }
  }

  /** The three-source sub-register key: 20 bits. */
  lemma ThreeSrcSubregKeyWidth()
    ensures Width(ThreeSrcSubregFields, |ThreeSrcSubregFields|) == 20
  {
    var fs := ThreeSrcSubregFields;
    assert Width(fs, 1) == 5;
    assert Width(fs, 2) == 10;
    assert Width(fs, 3) == 15;
    assert Width(fs, 4) == 20;
  }

  // ---------------------------------------------------------------------
  // Tables and the compaction state
  // ---------------------------------------------------------------------

  /** The compaction tables of every generation. */
  datatype TableLib = TableLib(
    g45Control: seq<nat>, g45Datatype: seq<nat>, g45Subreg: seq<nat>, g45Src: seq<nat>,
    gfx6Control: seq<nat>, gfx6Datatype: seq<nat>, gfx6Subreg: seq<nat>, gfx6Src: seq<nat>,
    gfx7Control: seq<nat>, gfx7Datatype: seq<nat>, gfx7Subreg: seq<nat>, gfx7Src: seq<nat>,
    gfx8Control: seq<nat>, gfx8Datatype: seq<nat>, gfx8Subreg: seq<nat>, gfx8Src: seq<nat>,
    gfx11Datatype: seq<nat>,
    gfx12Control: seq<nat>, gfx12Datatype: seq<nat>, gfx12Subreg: seq<nat>,
    gfx12Src0: seq<nat>, gfx12Src1: seq<nat>,
    gfx8ThreeSrcControl: seq<nat>, gfx8ThreeSrcSource: seq<nat>,
    gfx12ThreeSrcControl: seq<nat>, gfx12ThreeSrcSource: seq<nat>, gfx12ThreeSrcSubreg: seq<nat>)

  /** A table of n entries whose last entry is set, as the source asserts. */
  predicate Filled(t: seq<nat>, n: nat)
  {
    |t| == n && n > 0 && t[n - 1] != 0
  }

  /** The declared table sizes. */
  predicate WellSized(lib: TableLib)
  {
    Filled(lib.g45Control, 32) && Filled(lib.g45Datatype, 32) &&
    Filled(lib.g45Subreg, 32) && Filled(lib.g45Src, 32) &&
    Filled(lib.gfx6Control, 32) && Filled(lib.gfx6Datatype, 32) &&
    Filled(lib.gfx6Subreg, 32) && Filled(lib.gfx6Src, 32) &&
    Filled(lib.gfx7Control, 32) && Filled(lib.gfx7Datatype, 32) &&
    Filled(lib.gfx7Subreg, 32) && Filled(lib.gfx7Src, 32) &&
    Filled(lib.gfx8Control, 32) && Filled(lib.gfx8Datatype, 32) &&
    Filled(lib.gfx8Subreg, 32) && Filled(lib.gfx8Src, 32) &&
    Filled(lib.gfx11Datatype, 32) &&
    Filled(lib.gfx12Control, 32) && Filled(lib.gfx12Datatype, 32) &&
    Filled(lib.gfx12Subreg, 32) && Filled(lib.gfx12Src0, 16) && Filled(lib.gfx12Src1, 16) &&
    |lib.gfx8ThreeSrcControl| == 4 && |lib.gfx8ThreeSrcSource| == 4 &&
    |lib.gfx12ThreeSrcControl| == 32 && |lib.gfx12ThreeSrcSource| == 32 &&
    |lib.gfx12ThreeSrcSubreg| == 32
  }

  /** struct compaction_state. */
  datatype CompactionState = CompactionState(
    dev: DevInfo, control: seq<nat>, dataType: seq<nat>, subreg: seq<nat>,
    src0: seq<nat>, src1: seq<nat>)

  /** The generations compaction_state_init knows. */
  predicate KnownGeneration(ver: nat)
  {
    ver == 4 || ver == 5 || ver == 6 || ver == 7 || ver == 8 || ver == 9 || ver == 11 || ver == 12
  }

  /** The number of entries the source's loops search: 32, or the size of
    * the Gfx12 source tables (16) for the source indices on Gfx12. */
  function SrcTableLen(dev: DevInfo): nat
  {
    if dev.ver >= 12 then 16 else 32
  }

  /** compaction_state_init: one table set per generation; None where the
    * source has `unreachable("unknown generation")`. */
  function CompactionStateInit(dev: DevInfo, lib: TableLib): (r: Option<CompactionState>)
    requires WellSized(lib)
    ensures r.Some? <==> KnownGeneration(dev.ver)
    ensures r.Some? ==> r.value.dev == dev && SearchableState(r.value)
  {
    match dev.ver
    case 12 => Some(CompactionState(dev, lib.gfx12Control, lib.gfx12Datatype, lib.gfx12Subreg,
                                    lib.gfx12Src0, lib.gfx12Src1))
    case 11 => Some(CompactionState(dev, lib.gfx8Control, lib.gfx11Datatype, lib.gfx8Subreg,
                                    lib.gfx8Src, lib.gfx8Src))
    case 9 => Some(CompactionState(dev, lib.gfx8Control, lib.gfx8Datatype, lib.gfx8Subreg,
                                   lib.gfx8Src, lib.gfx8Src))
    case 8 => Some(CompactionState(dev, lib.gfx8Control, lib.gfx8Datatype, lib.gfx8Subreg,
                                   lib.gfx8Src, lib.gfx8Src))
    case 7 => Some(CompactionState(dev, lib.gfx7Control, lib.gfx7Datatype, lib.gfx7Subreg,
                                   lib.gfx7Src, lib.gfx7Src))
    case 6 => Some(CompactionState(dev, lib.gfx6Control, lib.gfx6Datatype, lib.gfx6Subreg,
                                   lib.gfx6Src, lib.gfx6Src))
    case 5 => Some(CompactionState(dev, lib.g45Control, lib.g45Datatype, lib.g45Subreg,
                                   lib.g45Src, lib.g45Src))
    case 4 => Some(CompactionState(dev, lib.g45Control, lib.g45Datatype, lib.g45Subreg,
                                   lib.g45Src, lib.g45Src))
    case _ => None
  }

  /** Every loop of the set_*_index searches stays inside its table. */
  predicate SearchableState(c: CompactionState)
  {
    |c.control| >= 32 && |c.dataType| >= 32 && |c.subreg| >= 32 &&
    |c.src0| >= SrcTableLen(c.dev) && |c.src1| >= SrcTableLen(c.dev)
  }

  /** Before Gfx12 the two source indices share one table. */
  lemma SharedSourceTable(dev: DevInfo, lib: TableLib)
    requires WellSized(lib) && KnownGeneration(dev.ver) && dev.ver < 12
    ensures CompactionStateInit(dev, lib).value.src0 == CompactionStateInit(dev, lib).value.src1
  {
  }

  // ---------------------------------------------------------------------
  // Table search
  // ---------------------------------------------------------------------

  /** The first index at or after i below len whose entry is key. */
  function FirstFrom(table: seq<nat>, len: nat, key: nat, i: nat): (r: Option<nat>)
    requires len <= |table| && i <= len
    ensures r.Some? ==> i <= r.value < len && table[r.value] == key &&
                        forall j :: i <= j < r.value ==> table[j] != key
    ensures r.None? ==> forall j :: i <= j < len ==> table[j] != key
    decreases len - i
  {
    if i == len then None
    else if table[i] == key then Some(i)
    else FirstFrom(table, len, key, i + 1)
  }

  function FirstIndex(table: seq<nat>, len: nat, key: nat): Option<nat>
    requires len <= |table|
  {
    FirstFrom(table, len, key, 0)
  }

  /** The search loop of every set_*_index: the first matching entry. */
  method FindIndex(table: seq<nat>, len: nat, key: nat) returns (r: Option<nat>)
    requires len <= |table|
    ensures r == FirstIndex(table, len, key)
    ensures r.Some? ==> r.value < len && table[r.value] == key
    ensures r.None? <==> forall j :: 0 <= j < len ==> table[j] != key
  {
    var i := 0;
    while i < len
      invariant i <= len
      invariant FirstFrom(table, len, key, i) == FirstIndex(table, len, key)
    {
      if table[i] == key {
        return Some(i);
      }
      i := i + 1;
    }
    return None;
  }

  // ---------------------------------------------------------------------
  // Unmapped bits and immediates
  // ---------------------------------------------------------------------

  function Bit(raw: nat, b: nat): nat
  {
    FieldBits(raw, Span(b, b))
  }

  /** A SEND or SENDC that ends the thread. */
  predicate EotSend(inst: Inst)
  {
    (inst.opcode == Send || inst.opcode == Sendc) && inst.eot
  }

  /** Whether a two-source instruction gets past the immediate checks to
    * has_unmapped_bits. */
  predicate ReachesUnmappedCheck(dev: DevInfo, inst: Inst)
  {
    match ImmediateType(inst)
    case None => true
    case Some(ty) => dev.ver >= 6 && CompactImmediate(dev.ver, ty, inst.imm).Some?
  }

  /** The bits the source asserts clear, on the paths that assert them:
    * has_3src_unmapped_bits from Gen8 on, and has_unmapped_bits once it is
    * past the EOT send check. */
  predicate ReservedBitsClear(dev: DevInfo, inst: Inst)
  {
    if IsThreeSrc(inst.opcode) then
      dev.ver >= 8 ==>
        Bit(inst.raw, 7) == 0 &&
        (dev.ver < 12 ==>
           if dev.ver >= 9 || dev.isCherryview then Bit(inst.raw, 127) == 0
           else FieldBits(inst.raw, Span(127, 126)) == 0 && Bit(inst.raw, 105) == 0 &&
                Bit(inst.raw, 84) == 0)
    else
      ReachesUnmappedCheck(dev, inst) && !EotSend(inst) ==>
        Bit(inst.raw, 7) == 0 && (dev.ver < 7 ==> Bit(inst.raw, 90) == 0)
  }

  /** has_unmapped_bits: an EOT send, or a set bit no compacted field holds. */
  function HasUnmappedBits(dev: DevInfo, inst: Inst): (r: bool)
    requires ReservedBitsClear(dev, inst)
    ensures (inst.opcode == Send || inst.opcode == Sendc) && inst.eot ==> r
    ensures dev.ver >= 12 ==> (r <==> (inst.opcode == Send || inst.opcode == Sendc) && inst.eot)
  {
    if (inst.opcode == Sendc || inst.opcode == Send) && inst.eot then true
    else if dev.ver >= 12 then false
    else if dev.ver >= 8 then
      Bit(inst.raw, 95) != 0 || Bit(inst.raw, 47) != 0 || Bit(inst.raw, 11) != 0
    else FieldBits(inst.raw, Span(95, 91)) != 0 || Bit(inst.raw, 47) != 0
  }

  /** has_3src_unmapped_bits: only Broadwell's mixed-precision type bits. */
  function Has3SrcUnmappedBits(dev: DevInfo, inst: Inst): (r: bool)
    requires dev.ver >= 8 && ReservedBitsClear(dev, inst)
    ensures r ==> dev.ver < 9 && !dev.isCherryview
  {
    dev.ver < 12 && !(dev.ver >= 9 || dev.isCherryview) &&
    FieldBits(inst.raw, Span(36, 35)) != 0
  }

  /** has_immediate: the type of the immediate source, src0 first; None
    * when there is none or its type is invalid. */
  function ImmediateType(inst: Inst): (r: Option<RegType>)
    ensures r.Some? ==> inst.src0File == ImmediateValue || inst.src1File == ImmediateValue
    ensures r.Some? && inst.src0File == ImmediateValue ==> r == inst.src0Type
  {
    if inst.src0File == ImmediateValue then inst.src0Type
    else if inst.src1File == ImmediateValue then inst.src1Type
    else None
  }

  // ---------------------------------------------------------------------
  // try_compact_instruction
  // ---------------------------------------------------------------------

  /** The five table indices of a two-source instruction. */
  datatype Indices = Indices(control: nat, dataType: nat, subreg: nat, src0: nat, src1: nat)

  /** set_src1_index for an immediate: the low 4 bits (Gfx12) or the high 5
    * bits of the compacted immediate. */
  function ImmSrc1Index(dev: DevInfo, cimm: uint32): nat
  {
    if dev.ver >= 12 then cimm % 0x10 else cimm / 0x100
  }

  /** The src1 register number for an immediate: the high 8 bits (Gfx12) or
    * the low 8 bits of the compacted immediate. */
  function ImmSrc1RegNr(dev: DevInfo, cimm: uint32): nat
  {
    if dev.ver >= 12 then cimm / 0x10 else cimm % 0x100
  }

  /** The table lookups, in the source's order; None at the first miss. */
  function IndicesSpec(c: CompactionState, inst: Inst, isImm: bool, cimm: uint32): Option<Indices>
    requires SearchableState(c)
  {
    var ctl := FirstIndex(c.control, 32, Key(inst.raw, ControlFields(c.dev)));
    var dt := FirstIndex(c.dataType, 32, Key(inst.raw, DatatypeFields(c.dev, isImm)));
    var sr := FirstIndex(c.subreg, 32, Key(inst.raw, SubregFields(c.dev, isImm)));
    var s0 := FirstIndex(c.src0, SrcTableLen(c.dev), Key(inst.raw, Src0Fields(c.dev)));
    var s1 := if isImm then Some(ImmSrc1Index(c.dev, cimm))
              else FirstIndex(c.src1, SrcTableLen(c.dev), Key(inst.raw, Src1Fields(c.dev)));
    if ctl.None? || dt.None? || sr.None? || s0.None? || s1.None? then None
    else Some(Indices(ctl.value, dt.value, sr.value, s0.value, s1.value))
  }

  /** The compacted two-source instruction built from its indices. */
  function BuildCompact2(dev: DevInfo, inst: Inst, ix: Indices, isImm: bool, cimm: uint32): Compact2
  {
    var src1Reg := if isImm then ImmSrc1RegNr(dev, cimm) else inst.src1RegNr;
    if dev.ver >= 12 then
      Compact2(inst.hwOpcode, inst.debugControl, ix.control, ix.dataType, ix.subreg,
               ix.src0, ix.src1, inst.swsb, 0, 0, 0, 0,
               inst.dstRegNr, inst.src0RegNr, src1Reg)
    else
      Compact2(inst.hwOpcode, inst.debugControl, ix.control, ix.dataType, ix.subreg,
               ix.src0, ix.src1, 0,
               if dev.ver >= 6 then inst.accWrControl else 0,
               if dev.ver >= 6 then 0 else inst.maskControlEx,
               if dev.ver <= 6 then inst.flagSubregNr else 0,
               inst.condModifier, inst.dstRegNr, inst.src0RegNr, src1Reg)
  }

  /** The two-source path of try_compact_instruction. */
  function TryCompact2Spec(c: CompactionState, inst: Inst): Option<Compact2>
    requires SearchableState(c) && ReservedBitsClear(c.dev, inst)
  {
    var ty := ImmediateType(inst);
    var isImm := ty.Some?;
    if isImm && c.dev.ver < 6 then None
    else
      var cimm := if isImm then CompactImmediate(c.dev.ver, ty.value, inst.imm) else Some(0);
      if cimm.None? || HasUnmappedBits(c.dev, inst) then None
      else
        var ix := IndicesSpec(c, inst, isImm, cimm.value);
        if ix.None? then None
        else Some(BuildCompact2(c.dev, inst, ix.value, isImm, cimm.value))
  }

  /** The three-source tables of a generation. */
  function ThreeSrcControlTable(dev: DevInfo, lib: TableLib): seq<nat>
  {
    if dev.ver >= 12 then lib.gfx12ThreeSrcControl else lib.gfx8ThreeSrcControl
  }

  function ThreeSrcSourceTable(dev: DevInfo, lib: TableLib): seq<nat>
  {
    if dev.ver >= 12 then lib.gfx12ThreeSrcSource else lib.gfx8ThreeSrcSource
  }

  /** brw_try_compact_3src_instruction. */
  function TryCompact3Spec(dev: DevInfo, lib: TableLib, inst: Inst): Option<Compact3>
    requires dev.ver >= 8 && ReservedBitsClear(dev, inst)
  {
    var ct := ThreeSrcControlTable(dev, lib);
    var st := ThreeSrcSourceTable(dev, lib);
    var ctl := FirstIndex(ct, |ct|, Key(inst.raw, ThreeSrcControlFields(dev)));
    var src := FirstIndex(st, |st|, Key(inst.raw, ThreeSrcSourceFields(dev)));
    var sub := if dev.ver >= 12 then
                 FirstIndex(lib.gfx12ThreeSrcSubreg, |lib.gfx12ThreeSrcSubreg|,
                            Key(inst.raw, ThreeSrcSubregFields))
               else Some(0);
    if Has3SrcUnmappedBits(dev, inst) || ctl.None? || src.None? || sub.None? then None
    else if dev.ver >= 12 then
      Some(Compact3(inst.hwOpcode, ctl.value, src.value, sub.value, inst.swsb,
                    inst.debugControl, 0, inst.dstRegNr, inst.src0RegNr,
                    inst.src1RegNr, inst.src2RegNr, 0, 0, 0, 0, 0, 0))
    else
      Some(Compact3(inst.hwOpcode, ctl.value, src.value, 0, 0, inst.debugControl,
                    inst.saturate, inst.dstRegNr, inst.src0RegNr, inst.src1RegNr,
                    inst.src2RegNr, inst.src0RepCtrl, inst.src1RepCtrl, inst.src2RepCtrl,
                    inst.src0SubregNr, inst.src1SubregNr, inst.src2SubregNr))
  }

  /** try_compact_instruction: the compacted form, or None where the source
    * returns false and leaves dst alone. */
  function TryCompactSpec(c: CompactionState, lib: TableLib, inst: Inst): Option<CompactInst>
    requires SearchableState(c) && ReservedBitsClear(c.dev, inst)
  {
    if IsThreeSrc(inst.opcode) then
      if c.dev.ver >= 8 then
        var r := TryCompact3Spec(c.dev, lib, inst);
        if r.Some? then Some(ThreeSrc(r.value)) else None
      else None
    else
      var r := TryCompact2Spec(c, inst);
      if r.Some? then Some(TwoSrc(r.value)) else None
  }

  /** The index searches of a two-source instruction, in the source's order. */
  method SetIndices(c: CompactionState, inst: Inst, isImm: bool, cimm: uint32)
    returns (r: Option<Indices>)
    requires SearchableState(c)
    ensures r == IndicesSpec(c, inst, isImm, cimm)
  {
    var ctl := FindIndex(c.control, 32, Key(inst.raw, ControlFields(c.dev)));
    if ctl.None? { return None; }
    var dt := FindIndex(c.dataType, 32, Key(inst.raw, DatatypeFields(c.dev, isImm)));
    if dt.None? { return None; }
    var sr := FindIndex(c.subreg, 32, Key(inst.raw, SubregFields(c.dev, isImm)));
    if sr.None? { return None; }
    var s0 := FindIndex(c.src0, SrcTableLen(c.dev), Key(inst.raw, Src0Fields(c.dev)));
    if s0.None? { return None; }
    var s1: Option<nat>;
    if isImm {
      s1 := Some(ImmSrc1Index(c.dev, cimm));
    } else {
      s1 := FindIndex(c.src1, SrcTableLen(c.dev), Key(inst.raw, Src1Fields(c.dev)));
      if s1.None? { return None; }
    }
    return Some(Indices(ctl.value, dt.value, sr.value, s0.value, s1.value));
  }

  /** brw_try_compact_3src_instruction, with its searches. */
  method TryCompact3(dev: DevInfo, lib: TableLib, inst: Inst) returns (r: Option<Compact3>)
    requires dev.ver >= 8 && ReservedBitsClear(dev, inst)
    ensures r == TryCompact3Spec(dev, lib, inst)
  {
    if Has3SrcUnmappedBits(dev, inst) { return None; }
    var ct := ThreeSrcControlTable(dev, lib);
    var st := ThreeSrcSourceTable(dev, lib);
    var ctl := FindIndex(ct, |ct|, Key(inst.raw, ThreeSrcControlFields(dev)));
    if ctl.None? { return None; }
    var src := FindIndex(st, |st|, Key(inst.raw, ThreeSrcSourceFields(dev)));
    if src.None? { return None; }
    var sub := Some(0);
    if dev.ver >= 12 {
      sub := FindIndex(lib.gfx12ThreeSrcSubreg, |lib.gfx12ThreeSrcSubreg|,
                       Key(inst.raw, ThreeSrcSubregFields));
      if sub.None? { return None; }
    }
    r := TryCompact3Spec(dev, lib, inst);
  }

  /** try_compact_instruction. */
  method TryCompact(c: CompactionState, lib: TableLib, inst: Inst) returns (r: Option<CompactInst>)
    requires SearchableState(c) && ReservedBitsClear(c.dev, inst)
    ensures r == TryCompactSpec(c, lib, inst)
  {
    if IsThreeSrc(inst.opcode) {
      if c.dev.ver >= 8 {
        var t := TryCompact3(c.dev, lib, inst);
        if t.Some? { return Some(ThreeSrc(t.value)); }
      }
      return None;
    }
    var ty := ImmediateType(inst);
    var isImm := ty.Some?;
    var cimm: uint32 := 0;
    if isImm {
      if c.dev.ver < 6 { return None; }
      var ci := CompactImmediate(c.dev.ver, ty.value, inst.imm);
      if ci.None? { return None; }
      cimm := ci.value;
    }
    if HasUnmappedBits(c.dev, inst) { return None; }
    var ix := SetIndices(c, inst, isImm, cimm);
    if ix.None? { return None; }
    return Some(TwoSrc(BuildCompact2(c.dev, inst, ix.value, isImm, cimm)));
  }

  // ---------------------------------------------------------------------
  // Properties of try_compact_instruction
  // ---------------------------------------------------------------------

  /** The cases that never compact: three-source before Gen8, immediates
    * before Gen6, and SEND/SENDC with EOT. */
  lemma NeverCompacted(c: CompactionState, lib: TableLib, inst: Inst)
    requires SearchableState(c) && ReservedBitsClear(c.dev, inst)
    ensures IsThreeSrc(inst.opcode) && c.dev.ver < 8 ==> TryCompactSpec(c, lib, inst).None?
    ensures !IsThreeSrc(inst.opcode) && ImmediateType(inst).Some? && c.dev.ver < 6 ==>
              TryCompactSpec(c, lib, inst).None?
    ensures (inst.opcode == Send || inst.opcode == Sendc) && inst.eot ==>
              TryCompactSpec(c, lib, inst).None?
  {
  }

  /** A compacted two-source instruction's indices name table entries equal
    * to the instruction's keys, the control index the first such entry. */
  lemma IndicesMatchKeys(c: CompactionState, inst: Inst)
    requires SearchableState(c) && ReservedBitsClear(c.dev, inst)
    requires TryCompact2Spec(c, inst).Some?
    ensures var r := TryCompact2Spec(c, inst).value;
            var isImm := ImmediateType(inst).Some?;
            r.controlIndex < 32 && c.control[r.controlIndex] == Key(inst.raw, ControlFields(c.dev)) &&
            (forall j :: 0 <= j < r.controlIndex ==> c.control[j] != Key(inst.raw, ControlFields(c.dev))) &&
            r.datatypeIndex < 32 &&
            c.dataType[r.datatypeIndex] == Key(inst.raw, DatatypeFields(c.dev, isImm)) &&
            r.subregIndex < 32 &&
            c.subreg[r.subregIndex] == Key(inst.raw, SubregFields(c.dev, isImm)) &&
            r.src0Index < SrcTableLen(c.dev) &&
            c.src0[r.src0Index] == Key(inst.raw, Src0Fields(c.dev)) &&
            (!isImm ==> r.src1Index < SrcTableLen(c.dev) &&
                        c.src1[r.src1Index] == Key(inst.raw, Src1Fields(c.dev)))
  {
  }

  /** The compacted immediate, reassembled from the src1 index and src1
    * register number it was split into. */
  function ImmFromFields(dev: DevInfo, r: Compact2): nat
  {
    if dev.ver >= 12 then r.src1RegNr * 0x10 + r.src1Index
    else r.src1Index * 0x100 + r.src1RegNr
  }

  /** A compacted instruction with an immediate holds it recoverably: the
    * src1 fields reassemble the compacted immediate, which the (corrected)
    * decoder expands back to the original 32 bits. */
  lemma ImmediateRecoverable(c: CompactionState, inst: Inst)
    requires SearchableState(c) && ReservedBitsClear(c.dev, inst)
    requires TryCompact2Spec(c, inst).Some? && ImmediateType(inst).Some?
    ensures var r := TryCompact2Spec(c, inst).value;
            UncompactImmediate(c.dev.ver, ImmediateType(inst).value,
                               ImmFromFields(c.dev, r)) == Some(inst.imm)
  {
    var ty := ImmediateType(inst).value;
    var cimm := CompactImmediate(c.dev.ver, ty, inst.imm).value;
    var r := TryCompact2Spec(c, inst).value;
    if c.dev.ver >= 12 {
      assert r.src1Index == cimm % 0x10 && r.src1RegNr == cimm / 0x10;
      RoundTripGfx12(c.dev.ver, ty, inst.imm);
    } else {
      assert r.src1Index == cimm / 0x100 && r.src1RegNr == cimm % 0x100;
      RoundTripBeforeGfx12(c.dev.ver, ty, inst.imm);
    }
    assert ImmFromFields(c.dev, r) == cimm;
  }
}
