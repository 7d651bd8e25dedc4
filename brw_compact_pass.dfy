// brw_compact_instructions: every instruction from start_offset on is
// compacted where the tables allow, the store is packed down in place, jump
// distances and relocations are corrected for the instructions that shrank,
// and the program is padded to a whole uncompacted instruction.
//
// The store is modelled in 8-byte units (one compacted instruction); an
// uncompacted instruction takes two. A slot holding an instruction keeps its
// decoded fields, which is what the jump fix-up reads and writes.
module BrwCompactPass {
  import opened Wrappers
  import opened Bits
  import opened BrwCompactImm
  import opened BrwCompact

  /** One 8-byte unit of the instruction store. */
  datatype Slot =
    | Full(inst: Inst)                       // first half of an uncompacted instruction
    | Upper                                  // its second half
    | Compacted(inst: Inst, enc: CompactInst)
    | NenopPad                               // G45 alignment padding
    | NopPad                                 // padding at the end of the program

  /** next_offset, in 8-byte units. */
  function SlotSize(s: Slot): nat
  {
    if s.Full? then 2 else 1
  }

  /** The store of the first n instructions of an uncompacted program. */
  function Expansion(insts: seq<Inst>, n: nat): (r: seq<Slot>)
    requires n <= |insts|
    ensures |r| == 2 * n
  {
    if n == 0 then [] else Expansion(insts, n - 1) + [Full(insts[n - 1]), Upper]
  }

  predicate IsExpansion(region: seq<Slot>, insts: seq<Inst>)
  {
    region == Expansion(insts, |insts|)
  }

  /** Instruction k of an uncompacted program is at 2k. */
  lemma {:induction false} ExpansionAt(insts: seq<Inst>, n: nat, k: nat)
    requires k < n <= |insts|
    ensures |Expansion(insts, n)| == 2 * n
    ensures Expansion(insts, n)[2 * k] == Full(insts[k]) && Expansion(insts, n)[2 * k + 1] == Upper
    decreases n
  {
    if k < n - 1 {
      ExpansionAt(insts, n - 1, k);
    } else if n > 1 {
      ExpansionAt(insts, n - 1, 0);
    }
  }

  // ---------------------------------------------------------------------
  // The packed layout
  // ---------------------------------------------------------------------

  /** G45 keeps uncompacted instructions 16-byte aligned with a NENOP. */
  predicate NeedsNenop(dev: DevInfo, offset: nat, e: Option<CompactInst>)
  {
    e.None? && dev.isG4x && offset % 2 == 1
  }

  /** The slot an instruction occupies once placed. */
  function InstSlot(inst: Inst, e: Option<CompactInst>): Slot
  {
    if e.Some? then Compacted(inst, e.value) else Full(inst)
  }

  /** What placing one instruction at `offset` writes. */
  function Emit(dev: DevInfo, offset: nat, inst: Inst, e: Option<CompactInst>): seq<Slot>
  {
    if e.Some? then [Compacted(inst, e.value)]
    else if NeedsNenop(dev, offset, e) then [NenopPad, Full(inst), Upper]
    else [Full(inst), Upper]
  }

  function EmitSize(dev: DevInfo, offset: nat, e: Option<CompactInst>): nat
  {
    if e.Some? then 1 else if NeedsNenop(dev, offset, e) then 3 else 2
  }

  /** The offset after the first k instructions are placed. */
  function PackedLen(dev: DevInfo, enc: seq<Option<CompactInst>>, k: nat): nat
    requires k <= |enc|
  {
    if k == 0 then 0
    else var l := PackedLen(dev, enc, k - 1); l + EmitSize(dev, l, enc[k - 1])
  }

  /** The store once the first k instructions are placed. */
  function Packed(dev: DevInfo, insts: seq<Inst>, enc: seq<Option<CompactInst>>, k: nat): seq<Slot>
    requires k <= |insts| == |enc|
  {
    if k == 0 then []
    else var p := Packed(dev, insts, enc, k - 1); p + Emit(dev, |p|, insts[k - 1], enc[k - 1])
  }

  /** Where instruction k lands, after its NENOP if it has one. */
  function InstPos(dev: DevInfo, enc: seq<Option<CompactInst>>, k: nat): nat
    requires k < |enc|
  {
    var l := PackedLen(dev, enc, k);
    if NeedsNenop(dev, l, enc[k]) then l + 1 else l
  }

  /** compacted_counts[k]: the compacted instructions before instruction k,
    * less the NENOPs before it (its own included). */
  function CompactedCount(dev: DevInfo, enc: seq<Option<CompactInst>>, k: nat): int
    requires k < |enc|
  {
    2 * k - InstPos(dev, enc, k)
  }

  function CompactedCounts(dev: DevInfo, enc: seq<Option<CompactInst>>): (r: seq<int>)
    ensures |r| == |enc| && forall k :: 0 <= k < |enc| ==> r[k] == CompactedCount(dev, enc, k)
  {
    seq(|enc|, k requires 0 <= k < |enc| => CompactedCount(dev, enc, k))
  }

  /** The reserved bits of every instruction are clear. */
  predicate AllReservedBitsClear(dev: DevInfo, insts: seq<Inst>)
  {
    forall k {:trigger ReservedBitsClear(dev, insts[k])} :: 0 <= k < |insts| ==> ReservedBitsClear(dev, insts[k])
  }

  /** try_compact_instruction on each of the first n instructions. */
  function Decisions(c: CompactionState, lib: TableLib, insts: seq<Inst>, n: nat): (r: seq<Option<CompactInst>>)
    requires n <= |insts| && SearchableState(c)
    requires AllReservedBitsClear(c.dev, insts)
    ensures |r| == n
  {
    seq(n, k requires 0 <= k < n => TryCompactSpec(c, lib, insts[k]))
  }

  /** enc holds try_compact_instruction's outcome for every instruction. */
  predicate DecidedBy(c: CompactionState, lib: TableLib, insts: seq<Inst>, enc: seq<Option<CompactInst>>)
    requires SearchableState(c) && AllReservedBitsClear(c.dev, insts)
  {
    |enc| == |insts| &&
    forall k {:trigger TryCompactSpec(c, lib, insts[k])} :: 0 <= k < |insts| ==> enc[k] == TryCompactSpec(c, lib, insts[k])
  }

  lemma DecisionsDecide(c: CompactionState, lib: TableLib, insts: seq<Inst>)
    requires SearchableState(c) && AllReservedBitsClear(c.dev, insts)
    ensures DecidedBy(c, lib, insts, Decisions(c, lib, insts, |insts|))
  {
  }

  lemma {:induction false} PackedLength(dev: DevInfo, insts: seq<Inst>, enc: seq<Option<CompactInst>>, k: nat)
    requires k <= |insts| == |enc|
    ensures |Packed(dev, insts, enc, k)| == PackedLen(dev, enc, k)
    decreases k
  {
    if k > 0 {
      PackedLength(dev, insts, enc, k - 1);
    }
  }

  /** The slots instruction k itself takes: one compacted, two uncompacted. */
  function InstSize(e: Option<CompactInst>): nat
  {
    if e.Some? then 1 else 2
  }

  /** Instruction k ends where instruction k + 1's part of the store begins. */
  lemma NextStart(dev: DevInfo, enc: seq<Option<CompactInst>>, k: nat)
    requires k < |enc|
    ensures PackedLen(dev, enc, k + 1) == InstPos(dev, enc, k) + InstSize(enc[k])
    ensures PackedLen(dev, enc, k) <= InstPos(dev, enc, k) <= PackedLen(dev, enc, k) + 1
  {
  }

  /** The packed program is never longer than the original, so instruction
    * k starts at or before its old place: compacted_counts[k] >= 0. */
  lemma {:induction false} PackedNoLonger(dev: DevInfo, enc: seq<Option<CompactInst>>, k: nat)
    requires k <= |enc|
    ensures PackedLen(dev, enc, k) <= 2 * k
    ensures k < |enc| ==> InstPos(dev, enc, k) <= 2 * k &&
                          InstPos(dev, enc, k) + InstSize(enc[k]) <= 2 * k + 2
    decreases k
  {
    if k > 0 {
      PackedNoLonger(dev, enc, k - 1);
    }
  }

  /** Later instructions land later. */
  lemma {:induction false} PackedGrows(dev: DevInfo, enc: seq<Option<CompactInst>>, k: nat, m: nat)
    requires k < m <= |enc|
    ensures InstPos(dev, enc, k) < PackedLen(dev, enc, k + 1) <= PackedLen(dev, enc, m)
    decreases m
  {
    if m > k + 1 {
      PackedGrows(dev, enc, k, m - 1);
    }
  }

  /** The slots of the first m instructions are those of the first k < m. */
  lemma {:induction false} PackedPrefix(dev: DevInfo, insts: seq<Inst>, enc: seq<Option<CompactInst>>, k: nat, m: nat)
    requires k <= m <= |insts| == |enc|
    ensures Packed(dev, insts, enc, k) <= Packed(dev, insts, enc, m)
    decreases m
  {
    if k < m {
      PackedPrefix(dev, insts, enc, k, m - 1);
    }
  }

  /** Instruction k sits at InstPos(k), behind its NENOP if it has one,
    * followed by its upper half if it is uncompacted. */
  lemma PackedAt(dev: DevInfo, insts: seq<Inst>, enc: seq<Option<CompactInst>>, k: nat)
    requires k < |insts| == |enc|
    ensures var p := Packed(dev, insts, enc, |insts|);
            var l := PackedLen(dev, enc, k);
            && InstPos(dev, enc, k) < |p| && p[InstPos(dev, enc, k)] == InstSlot(insts[k], enc[k])
            && (enc[k].None? ==> InstPos(dev, enc, k) + 1 < |p| && p[InstPos(dev, enc, k) + 1] == Upper)
            && (NeedsNenop(dev, l, enc[k]) ==> p[l] == NenopPad)
  {
    PackedPrefix(dev, insts, enc, k + 1, |insts|);
    PackedLength(dev, insts, enc, k);
  }

  /** Changing instruction k leaves the slots of the instructions before it. */
  lemma {:induction false} PackedBefore(dev: DevInfo, insts: seq<Inst>, enc: seq<Option<CompactInst>>,
                                        k: nat, x: Inst, m: nat)
    requires k < |insts| == |enc| && m <= k
    ensures Packed(dev, insts[k := x], enc, m) == Packed(dev, insts, enc, m)
    decreases m
  {
    if m > 0 {
      PackedBefore(dev, insts, enc, k, x, m - 1);
    }
  }

  /** Instruction k's slot lies within the first m > k instructions' slots. */
  lemma PosInside(dev: DevInfo, insts: seq<Inst>, enc: seq<Option<CompactInst>>, k: nat, m: nat)
    requires k < m <= |insts| == |enc|
    ensures InstPos(dev, enc, k) < |Packed(dev, insts, enc, m)|
  {
    PackedLength(dev, insts, enc, m);
    PackedGrows(dev, enc, k, m);
  }

  /** Changing the last of the first k + 1 instructions changes its slot only. */
  lemma ReplaceLast(dev: DevInfo, insts: seq<Inst>, enc: seq<Option<CompactInst>>, k: nat, x: Inst)
    requires k < |insts| == |enc|
    ensures InstPos(dev, enc, k) < |Packed(dev, insts, enc, k + 1)|
    ensures Packed(dev, insts[k := x], enc, k + 1) ==
            Packed(dev, insts, enc, k + 1)[InstPos(dev, enc, k) := InstSlot(x, enc[k])]
  {
    var p := Packed(dev, insts, enc, k);
    PackedLength(dev, insts, enc, k);
    PackedBefore(dev, insts, enc, k, x, k);
    assert Packed(dev, insts[k := x], enc, k + 1) == p + Emit(dev, |p|, x, enc[k]);
    EmitReplace(dev, p, insts[k], x, enc[k]);
  }

  /** Changing instruction k changes its slot and nothing else. */
  lemma {:induction false} PackedReplace(dev: DevInfo, insts: seq<Inst>, enc: seq<Option<CompactInst>>,
                                         k: nat, x: Inst, m: nat)
    requires k < m <= |insts| == |enc|
    ensures InstPos(dev, enc, k) < |Packed(dev, insts, enc, m)|
    ensures Packed(dev, insts[k := x], enc, m) ==
            Packed(dev, insts, enc, m)[InstPos(dev, enc, k) := InstSlot(x, enc[k])]
    decreases m
  {
    if m == k + 1 {
      ReplaceLast(dev, insts, enc, k, x);
    } else {
      var ys := insts[k := x];
      var p := Packed(dev, insts, enc, m - 1);
      var e := Emit(dev, |p|, insts[m - 1], enc[m - 1]);
      PackedReplace(dev, insts, enc, k, x, m - 1);
      PosInside(dev, insts, enc, k, m - 1);
      PackedLength(dev, insts, enc, m - 1);
      PackedLength(dev, ys, enc, m - 1);
      assert ys[m - 1] == insts[m - 1];
      assert Packed(dev, ys, enc, m) == p[InstPos(dev, enc, k) := InstSlot(x, enc[k])] + e;
      UpdateThenAppend(p, e, InstPos(dev, enc, k), InstSlot(x, enc[k]));
    }
  }

  lemma UpdateThenAppend(p: seq<Slot>, e: seq<Slot>, i: nat, v: Slot)
    requires i < |p|
    ensures p[i := v] + e == (p + e)[i := v]
  {
  }

  /** Placing x instead of y at the end of p differs in x's slot only. */
  lemma EmitReplace(dev: DevInfo, p: seq<Slot>, y: Inst, x: Inst, e: Option<CompactInst>)
    ensures var at := if NeedsNenop(dev, |p|, e) then |p| + 1 else |p|;
            at < |p + Emit(dev, |p|, y, e)| &&
            p + Emit(dev, |p|, x, e) == (p + Emit(dev, |p|, y, e))[at := InstSlot(x, e)]
  {
  }

  /** On G45 every uncompacted instruction starts 16-byte aligned. */
  lemma G45Aligned(dev: DevInfo, enc: seq<Option<CompactInst>>, k: nat)
    requires dev.isG4x && k < |enc| && enc[k].None?
    ensures InstPos(dev, enc, k) % 2 == 0
  {
  }

  /** Instruction k of the packed program is at byte 8 * (2k - compacted_counts[k]). */
  lemma InstructionPlaced(dev: DevInfo, insts: seq<Inst>, enc: seq<Option<CompactInst>>, k: nat)
    requires k < |insts| == |enc|
    ensures var p := Packed(dev, insts, enc, |insts|);
            var at := 2 * k - CompactedCounts(dev, enc)[k];
            0 <= at < |p| && p[at] == InstSlot(insts[k], enc[k])
  {
    PackedAt(dev, insts, enc, k);
  }

  // ---------------------------------------------------------------------
  // Jump fix-up
  // ---------------------------------------------------------------------

  /** C's `x / 2`, which rounds toward zero. */
  function Half(x: int): int
  {
    if x >= 0 then x / 2 else -((-x) / 2)
  }

  /** The old IP that a distance d, in 8-byte units, from old IP k reaches. */
  function Target(k: nat, d: int): int
  {
    k + Half(d)
  }

  predicate Reads(counts: seq<int>, k: nat, d: int)
  {
    k < |counts| && 0 <= Target(k, d) < |counts|
  }

  /** d less compacted_between(k, k + d / 2). */
  function Retarget(counts: seq<int>, k: nat, d: int): int
    requires Reads(counts, k, d)
  {
    d - (counts[Target(k, d)] - counts[k])
  }

  /** 2^shift in update_uip_jip: JIP and UIP count bytes on Gfx8+ and
    * compacted instructions before. */
  function JipUnit(dev: DevInfo): nat
  {
    if dev.ver >= 8 then 8 else 1
  }

  /** 2^shift in update_gfx4_jump_count: the jump count counts uncompacted
    * instructions on G45 and compacted ones on Gfx5. */
  function Gfx4Unit(dev: DevInfo): nat
  {
    if dev.isG4x then 2 else 1
  }

  /** ENDIF, WHILE and, up to Gfx7, ELSE have no UIP to update. */
  predicate JipOnly(dev: DevInfo, op: Opcode)
  {
    op == Endif || op == While || (op == Else && dev.ver <= 7)
  }

  /** BRW_ARF_IP, the instruction pointer's architecture register. */
  const ArfIp: nat := 0x40

  predicate WritesIp(inst: Inst)
  {
    inst.dstFile == ArchitectureFile && inst.dstRegNr == ArfIp
  }

  /** The compacted_counts entries update_uip_jip reads are in range. */
  predicate UipJipReads(dev: DevInfo, inst: Inst, k: nat, counts: seq<int>)
  {
    Reads(counts, k, inst.jip / JipUnit(dev)) &&
    (JipOnly(dev, inst.opcode) || Reads(counts, k, inst.uip / JipUnit(dev)))
  }

  /** The compacted_counts entries the fix-up of one instruction reads are
    * in range. */
  predicate FixReads(dev: DevInfo, inst: Inst, k: nat, compacted: bool, counts: seq<int>)
  {
    match inst.opcode
    case Break | Continue | Halt =>
      if dev.ver >= 6 then UipJipReads(dev, inst, k, counts)
      else Reads(counts, k, inst.jumpCount * Gfx4Unit(dev))
    case If | Iff | Else | Endif | While =>
      if dev.ver >= 7 then UipJipReads(dev, inst, k, counts)
      else if dev.ver == 6 then Reads(counts, k, inst.jumpCount)
      else Reads(counts, k, inst.jumpCount * Gfx4Unit(dev))
    case Add => compacted || !WritesIp(inst) || Reads(counts, k, Signed32(inst.imm) / 8)
    case _ => true
  }

  /** update_uip_jip. */
  function UpdateUipJip(dev: DevInfo, inst: Inst, k: nat, counts: seq<int>): Inst
    requires UipJipReads(dev, inst, k, counts)
  {
    var u := JipUnit(dev);
    var jip := Retarget(counts, k, inst.jip / u) * u;
    if JipOnly(dev, inst.opcode) then inst.(jip := jip)
    else inst.(jip := jip, uip := Retarget(counts, k, inst.uip / u) * u)
  }

  /** update_gfx4_jump_count. */
  function UpdateGfx4JumpCount(dev: DevInfo, inst: Inst, k: nat, counts: seq<int>): Inst
    requires Reads(counts, k, inst.jumpCount * Gfx4Unit(dev))
  {
    var u := Gfx4Unit(dev);
    inst.(jumpCount := Retarget(counts, k, inst.jumpCount * u) / u)
  }

  /** The fix-up of the instruction whose old IP is k. */
  function FixJump(dev: DevInfo, inst: Inst, k: nat, compacted: bool, counts: seq<int>): Inst
    requires FixReads(dev, inst, k, compacted, counts)
  {
    match inst.opcode
    case Break | Continue | Halt =>
      if dev.ver >= 6 then UpdateUipJip(dev, inst, k, counts)
      else UpdateGfx4JumpCount(dev, inst, k, counts)
    case If | Iff | Else | Endif | While =>
      if dev.ver >= 7 then UpdateUipJip(dev, inst, k, counts)
      else if dev.ver == 6 then inst.(jumpCount := Retarget(counts, k, inst.jumpCount))
      else UpdateGfx4JumpCount(dev, inst, k, counts)
    case Add =>
      if !compacted && WritesIp(inst) then
        inst.(imm := Unsigned32(Retarget(counts, k, Signed32(inst.imm) / 8) * 8))
      else inst
    case _ => inst
  }

  /** The fix-up of one slot of the store. */
  function FixSlot(dev: DevInfo, s: Slot, k: nat, counts: seq<int>): Slot
    requires s.Full? ==> FixReads(dev, s.inst, k, false, counts)
    requires s.Compacted? ==> FixReads(dev, s.inst, k, true, counts)
  {
    match s
    case Full(inst) => Full(FixJump(dev, inst, k, false, counts))
    case Compacted(inst, e) => Compacted(FixJump(dev, inst, k, true, counts), e)
    case _ => s
  }

  /** Every jump lands inside compacted_counts. */
  predicate JumpsInRange(dev: DevInfo, insts: seq<Inst>, enc: seq<Option<CompactInst>>, counts: seq<int>)
  {
    |insts| == |enc| == |counts| &&
    forall k :: 0 <= k < |insts| ==> FixReads(dev, insts[k], k, enc[k].Some?, counts)
  }

  /** The first n instructions, fixed up. */
  function FixAll(dev: DevInfo, insts: seq<Inst>, enc: seq<Option<CompactInst>>, counts: seq<int>, n: nat): (r: seq<Inst>)
    requires n <= |insts| && JumpsInRange(dev, insts, enc, counts)
    ensures |r| == n
  {
    if n == 0 then []
    else FixAll(dev, insts, enc, counts, n - 1) + [FixJump(dev, insts[n - 1], n - 1, enc[n - 1].Some?, counts)]
  }

  lemma {:induction false} FixAt(dev: DevInfo, insts: seq<Inst>, enc: seq<Option<CompactInst>>, counts: seq<int>, n: nat, k: nat)
    requires k < n <= |insts| && JumpsInRange(dev, insts, enc, counts)
    ensures FixAll(dev, insts, enc, counts, n)[k] == FixJump(dev, insts[k], k, enc[k].Some?, counts)
    decreases n
  {
    if k < n - 1 {
      FixAt(dev, insts, enc, counts, n - 1, k);
    }
  }

  // ---------------------------------------------------------------------
  // What the fix-up achieves
  // ---------------------------------------------------------------------

  /** A distance of t - k uncompacted instructions becomes the distance
    * between the two instructions' new places. */
  lemma RetargetLands(dev: DevInfo, enc: seq<Option<CompactInst>>, k: nat, t: nat)
    requires k < |enc| && t < |enc|
    ensures Reads(CompactedCounts(dev, enc), k, 2 * (t - k))
    ensures Retarget(CompactedCounts(dev, enc), k, 2 * (t - k)) == InstPos(dev, enc, t) - InstPos(dev, enc, k)
  {
    assert Half(2 * (t - k)) == t - k;
  }

  /** With JIP (and UIP) pointing at instruction t before compaction, they
    * point at it after: in bytes on Gfx8+, in compacted instructions on
    * Gfx6 and Gfx7. */
  lemma UipJipLands(dev: DevInfo, enc: seq<Option<CompactInst>>, inst: Inst, k: nat, t: nat, t2: nat)
    requires k < |enc| && t < |enc| && t2 < |enc|
    requires inst.jip == 2 * JipUnit(dev) * (t - k)
    requires inst.uip == 2 * JipUnit(dev) * (t2 - k)
    ensures UipJipReads(dev, inst, k, CompactedCounts(dev, enc))
    ensures var r := UpdateUipJip(dev, inst, k, CompactedCounts(dev, enc));
            && r.jip == JipUnit(dev) * (InstPos(dev, enc, t) - InstPos(dev, enc, k))
            && r.uip == (if JipOnly(dev, inst.opcode) then inst.uip
                         else JipUnit(dev) * (InstPos(dev, enc, t2) - InstPos(dev, enc, k)))
            && r == inst.(jip := r.jip, uip := r.uip)
  {
    DivMod(inst.jip, JipUnit(dev), 2 * (t - k), 0);
    DivMod(inst.uip, JipUnit(dev), 2 * (t2 - k), 0);
    RetargetLands(dev, enc, k, t);
    RetargetLands(dev, enc, k, t2);
  }

  /** The Gfx6 IF/ELSE/ENDIF/WHILE jump count, in compacted instructions. */
  lemma Gfx6JumpCountLands(dev: DevInfo, enc: seq<Option<CompactInst>>, inst: Inst, k: nat, t: nat)
    requires dev.ver == 6 && k < |enc| && t < |enc|
    requires inst.opcode in {If, Iff, Else, Endif, While} && inst.jumpCount == 2 * (t - k)
    ensures FixReads(dev, inst, k, false, CompactedCounts(dev, enc))
    ensures FixJump(dev, inst, k, false, CompactedCounts(dev, enc)) ==
            inst.(jumpCount := InstPos(dev, enc, t) - InstPos(dev, enc, k))
  {
    RetargetLands(dev, enc, k, t);
  }

  /** The Gfx4/5 jump count: in compacted instructions on Gfx5, and in
    * uncompacted instructions, rounded down, on G45. */
  lemma Gfx4JumpCountLands(dev: DevInfo, enc: seq<Option<CompactInst>>, inst: Inst, k: nat, t: nat)
    requires k < |enc| && t < |enc|
    requires inst.jumpCount * Gfx4Unit(dev) == 2 * (t - k)
    ensures Reads(CompactedCounts(dev, enc), k, inst.jumpCount * Gfx4Unit(dev))
    ensures UpdateGfx4JumpCount(dev, inst, k, CompactedCounts(dev, enc)) ==
            inst.(jumpCount := (InstPos(dev, enc, t) - InstPos(dev, enc, k)) / Gfx4Unit(dev))
  {
    RetargetLands(dev, enc, k, t);
  }

  /** An ADD to the IP register with an immediate of 16 * (t - k) bytes
    * jumps to instruction t's new place. */
  lemma IpAddLands(dev: DevInfo, enc: seq<Option<CompactInst>>, inst: Inst, k: nat, t: nat)
    requires k < |enc| && t < |enc|
    requires inst.opcode == Add && WritesIp(inst) && Signed32(inst.imm) == 16 * (t - k)
    ensures FixReads(dev, inst, k, false, CompactedCounts(dev, enc))
    ensures FixJump(dev, inst, k, false, CompactedCounts(dev, enc)) ==
            inst.(imm := Unsigned32(8 * (InstPos(dev, enc, t) - InstPos(dev, enc, k))))
  {
    assert Signed32(inst.imm) / 8 == 2 * (t - k);
    RetargetLands(dev, enc, k, t);
  }

  /** The fix-up only ever changes JIP, UIP, the jump count and the IP
    * immediate, and leaves every other instruction alone. */
  lemma FixJumpOnlyJumps(dev: DevInfo, inst: Inst, k: nat, compacted: bool, counts: seq<int>)
    requires FixReads(dev, inst, k, compacted, counts)
    ensures var r := FixJump(dev, inst, k, compacted, counts);
            && r == inst.(jip := r.jip, uip := r.uip, jumpCount := r.jumpCount, imm := r.imm)
            && (inst.opcode !in {Break, Continue, Halt, If, Iff, Else, Endif, While, Add} ==> r == inst)
            && (inst.opcode == Add && (compacted || !WritesIp(inst)) ==> r == inst)
            && (JipOnly(dev, inst.opcode) ==> r.uip == inst.uip)
  {
  }

  // ---------------------------------------------------------------------
  // The pass
  // ---------------------------------------------------------------------

  /** The state of the first loop after src instructions: they are packed
    * into region[..offset], and the ones still to read are in place. */
  predicate PackedSoFar(dev: DevInfo, insts: seq<Inst>, enc: seq<Option<CompactInst>>, region0: seq<Slot>,
                        src: nat, region: seq<Slot>, offset: nat, count: int)
  {
    && src <= |insts| == |enc| && |region| == |region0| == 2 * |insts|
    && offset == PackedLen(dev, enc, src) <= 2 * src && count == 2 * src - offset
    && |Packed(dev, insts, enc, src)| == offset
    && (forall j :: 0 <= j < offset ==> region[j] == Packed(dev, insts, enc, src)[j])
    && (forall j :: 2 * src <= j < |region| ==> region[j] == region0[j])
  }

  /** `region` with the slots `w` written from `offset` on. */
  function Splice(region: seq<Slot>, offset: nat, w: seq<Slot>): (r: seq<Slot>)
    requires offset + |w| <= |region|
    ensures |r| == |region|
    ensures forall j :: 0 <= j < |region| && (j < offset || j >= offset + |w|) ==> r[j] == region[j]
    ensures forall j :: 0 <= j < |w| ==> r[offset + j] == w[j]
  {
    region[..offset] + w + region[offset + |w|..]
  }

  /** One turn of the first loop extends the packed part by the slots of
    * instruction src. */
  lemma PlaceStep(dev: DevInfo, insts: seq<Inst>, enc: seq<Option<CompactInst>>, region0: seq<Slot>,
                  src: nat, region: seq<Slot>, offset: nat, w: seq<Slot>)
    requires PackedSoFar(dev, insts, enc, region0, src, region, offset, 2 * src - offset) && src < |insts|
    requires w == Emit(dev, offset, insts[src], enc[src]) && offset + |w| <= |region|
    ensures PackedSoFar(dev, insts, enc, region0, src + 1, Splice(region, offset, w), offset + |w|, 2 * (src + 1) - (offset + |w|))
  {
    PackedNoLonger(dev, enc, src + 1);
    PackedLength(dev, insts, enc, src + 1);
    var p := Packed(dev, insts, enc, src);
    assert Packed(dev, insts, enc, src + 1) == p + w;
    SpliceExtends(region, p, w);
  }

  /** Writing w after a prefix p of the store leaves p + w in front. */
  lemma SpliceExtends(region: seq<Slot>, p: seq<Slot>, w: seq<Slot>)
    requires |p| + |w| <= |region| && forall j :: 0 <= j < |p| ==> region[j] == p[j]
    ensures forall j :: 0 <= j < |p| + |w| ==> Splice(region, |p|, w)[j] == (p + w)[j]
  {
    var r := Splice(region, |p|, w);
    forall j | 0 <= j < |p| + |w|
      ensures r[j] == (p + w)[j]
    {
      if j >= |p| {
        assert r[|p| + (j - |p|)] == w[j - |p|];
      }
    }
  }

  /** The old_ip entries written so far: instruction k's new place holds k. */
  predicate OldIpSoFar(dev: DevInfo, enc: seq<Option<CompactInst>>, src: nat, oldIp: seq<int>)
  {
    src <= |enc| && forall k :: 0 <= k < src ==> InstPos(dev, enc, k) < |oldIp| && oldIp[InstPos(dev, enc, k)] == k
  }

  lemma OldIpStep(dev: DevInfo, enc: seq<Option<CompactInst>>, src: nat, oldIp: seq<int>, oldIp': seq<int>)
    requires OldIpSoFar(dev, enc, src, oldIp) && src < |enc| && |oldIp'| == |oldIp|
    requires forall j :: 0 <= j < PackedLen(dev, enc, src) && j < |oldIp| ==> oldIp'[j] == oldIp[j]
    requires InstPos(dev, enc, src) < |oldIp| && oldIp'[InstPos(dev, enc, src)] == src
    ensures OldIpSoFar(dev, enc, src + 1, oldIp')
  {
    forall k | 0 <= k < src
      ensures InstPos(dev, enc, k) < PackedLen(dev, enc, src)
    {
      PackedGrows(dev, enc, k, src);
    }
  }

  /** try_compact_instruction on instruction k. */
  method CompactAt(c: CompactionState, lib: TableLib, inst: Inst,
                   ghost insts: seq<Inst>, ghost enc: seq<Option<CompactInst>>, ghost k: nat)
    returns (e: Option<CompactInst>)
    requires SearchableState(c) && AllReservedBitsClear(c.dev, insts)
    requires DecidedBy(c, lib, insts, enc) && k < |insts| && inst == insts[k]
    ensures e == enc[k]
  {
    e := TryCompact(c, lib, inst);
  }

  /** Everything the first loop of brw_compact_instructions knows after
    * `src` instructions: the packed prefix, the compacted_counts entries
    * and the old_ip entries written so far. */
  predicate PackState(dev: DevInfo, insts: seq<Inst>, enc: seq<Option<CompactInst>>, region0: seq<Slot>,
                      src: nat, region: seq<Slot>, offset: nat, count: int, counts: seq<int>, oldIp: seq<int>)
  {
    && |counts| == |insts| && |oldIp| == 2 * |insts| + 1
    && PackedSoFar(dev, insts, enc, region0, src, region, offset, count)
    && (forall k :: 0 <= k < src ==> counts[k] == CompactedCount(dev, enc, k))
    && OldIpSoFar(dev, enc, src, oldIp)
  }

  lemma PackStateStep(dev: DevInfo, insts: seq<Inst>, enc: seq<Option<CompactInst>>, region0: seq<Slot>,
                      src: nat, region: seq<Slot>, offset: nat, count: int, counts: seq<int>, oldIp: seq<int>,
                      w: seq<Slot>, counts': seq<int>, oldIp': seq<int>)
    requires PackState(dev, insts, enc, region0, src, region, offset, count, counts, oldIp)
    requires src < |insts| && w == Emit(dev, offset, insts[src], enc[src])
    requires counts' == counts[src := CompactedCount(dev, enc, src)]
    requires if NeedsNenop(dev, offset, enc[src]) then oldIp' == oldIp[offset := src][offset + 1 := src]
             else oldIp' == oldIp[offset := src]
    ensures offset + |w| <= |region|
    ensures PackState(dev, insts, enc, region0, src + 1, Splice(region, offset, w), offset + |w|,
                      count + 2 - |w|, counts', oldIp')
  {
    PackedNoLonger(dev, enc, src);
    NextStart(dev, enc, src);
    PlaceStep(dev, insts, enc, region0, src, region, offset, w);
    OldIpStep(dev, enc, src, oldIp, oldIp');
  }

  /** One turn of the first loop, given the decision `e` for instruction
    * src: its slots go at `offset`, its compacted_counts entry and old_ip
    * entries are written. */
  method PlaceAt(dev: DevInfo, inst: Inst, e: Option<CompactInst>,
                 region: seq<Slot>, offset: nat, count: int, counts: seq<int>, oldIp: seq<int>, src: nat,
                 ghost enc: seq<Option<CompactInst>>)
    returns (region': seq<Slot>, offset': nat, count': int, counts': seq<int>, oldIp': seq<int>)
    requires src < |enc| && e == enc[src] && src < |counts| && offset + 1 < |oldIp|
    requires offset == PackedLen(dev, enc, src) && count == 2 * src - offset
    requires offset + |Emit(dev, offset, inst, e)| <= |region|
    ensures region' == Splice(region, offset, Emit(dev, offset, inst, e))
    ensures offset' == offset + |Emit(dev, offset, inst, e)| && count' == count + 2 - |Emit(dev, offset, inst, e)|
    ensures counts' == counts[src := CompactedCount(dev, enc, src)]
    ensures if NeedsNenop(dev, offset, e) then oldIp' == oldIp[offset := src][offset + 1 := src]
            else oldIp' == oldIp[offset := src]
  {
    var w: seq<Slot>;
    oldIp' := oldIp[offset := src];
    counts' := counts[src := count];
    count' := count;
    if e.Some? {
      w := [Compacted(inst, e.value)];
      count' := count' + 1;
    } else {
      w := [];
      if offset % 2 == 1 && dev.isG4x {
        w := [NenopPad];
        count' := count' - 1;
        counts' := counts'[src := count'];
        oldIp' := oldIp'[offset + 1 := src];
      }
      w := w + [Full(inst), Upper];
    }
    region' := Splice(region, offset, w);
    offset' := offset + |w|;
  }

  /** One turn of the first loop: instruction src is read from its old
    * place, compacted if it can be, and placed at `offset`. */
  method PackOne(c: CompactionState, lib: TableLib, region0: seq<Slot>,
                 ghost insts: seq<Inst>, ghost enc: seq<Option<CompactInst>>, src: nat,
                 region: seq<Slot>, offset: nat, count: int, counts: seq<int>, oldIp: seq<int>)
    returns (region': seq<Slot>, offset': nat, count': int, counts': seq<int>, oldIp': seq<int>)
    requires SearchableState(c) && IsExpansion(region0, insts)
    requires AllReservedBitsClear(c.dev, insts)
    requires DecidedBy(c, lib, insts, enc)
    requires src < |insts| && |region0| / 2 == |insts|
    requires PackState(c.dev, insts, enc, region0, src, region, offset, count, counts, oldIp)
    ensures PackState(c.dev, insts, enc, region0, src + 1, region', offset', count', counts', oldIp')
  {
    ExpansionAt(insts, |insts|, src);
    var inst := region[2 * src].inst;
    var e := CompactAt(c, lib, inst, insts, enc, src);
    PackStateStep(c.dev, insts, enc, region0, src, region, offset, count, counts, oldIp,
                  Emit(c.dev, offset, inst, e), counts[src := CompactedCount(c.dev, enc, src)],
                  if NeedsNenop(c.dev, offset, e) then oldIp[offset := src][offset + 1 := src] else oldIp[offset := src]);
    region', offset', count', counts', oldIp' := PlaceAt(c.dev, inst, e, region, offset, count, counts, oldIp, src, enc);
  }

  /** The first loop of brw_compact_instructions: each instruction is read
    * from its old place, compacted if it can be, and written at `offset`,
    * which never overtakes the instructions still to be read. Returns the
    * packed store, its length, compacted_counts and old_ip. */
  method PackRegion(c: CompactionState, lib: TableLib, region0: seq<Slot>,
                    ghost insts: seq<Inst>, ghost enc: seq<Option<CompactInst>>)
    returns (region: seq<Slot>, len: nat, counts: seq<int>, oldIp: seq<int>)
    requires SearchableState(c) && IsExpansion(region0, insts)
    requires AllReservedBitsClear(c.dev, insts)
    requires DecidedBy(c, lib, insts, enc)
    ensures && len == PackedLen(c.dev, enc, |insts|) <= |region|
            && region[..len] == Packed(c.dev, insts, enc, |insts|)
            && counts == CompactedCounts(c.dev, enc)
            && |oldIp| == |region0| + 1 && len < |oldIp| && oldIp[len] == |insts|
            && OldIpSoFar(c.dev, enc, |insts|, oldIp)
  {
    var n := |region0| / 2;
    region := region0;
    counts := seq(n, _ => 0);
    oldIp := seq(2 * n + 1, _ => 0);
    var offset: nat := 0;
    var count := 0;
    var src := 0;
    while src < n
      invariant n == |insts| && src <= n
      invariant PackState(c.dev, insts, enc, region0, src, region, offset, count, counts, oldIp)
    {
      region, offset, count, counts, oldIp := PackOne(c, lib, region0, insts, enc, src, region, offset, count, counts, oldIp);
      src := src + 1;
    }
    PackDone(c.dev, insts, enc, region0, region, offset, count, counts, oldIp);
    oldIp := oldIp[offset := n];
    len := offset;
  }

  /** After the first loop: the packed prefix is the whole program, and
    * old_ip's entry past the end is still free. */
  lemma PackDone(dev: DevInfo, insts: seq<Inst>, enc: seq<Option<CompactInst>>, region0: seq<Slot>,
                 region: seq<Slot>, offset: nat, count: int, counts: seq<int>, oldIp: seq<int>)
    requires PackState(dev, insts, enc, region0, |insts|, region, offset, count, counts, oldIp)
    ensures offset == PackedLen(dev, enc, |insts|) <= |region| && offset < |oldIp|
    ensures region[..offset] == Packed(dev, insts, enc, |insts|)
    ensures counts == CompactedCounts(dev, enc)
    ensures OldIpSoFar(dev, enc, |insts|, oldIp[offset := |insts|])
  {
    PackedLength(dev, insts, enc, |insts|);
    forall k | 0 <= k < |insts|
      ensures InstPos(dev, enc, k) < offset
    {
      PackedGrows(dev, enc, k, |insts|);
    }
  }

  /** The program while the second loop runs: the first k instructions
    * fixed up, the rest as they were. */
  ghost function Mixed(dev: DevInfo, insts: seq<Inst>, enc: seq<Option<CompactInst>>, counts: seq<int>, k: nat): (r: seq<Inst>)
    requires k <= |insts| && JumpsInRange(dev, insts, enc, counts)
    ensures |r| == |insts| && (k < |insts| ==> r[k] == insts[k])
  {
    FixAll(dev, insts, enc, counts, k) + insts[k..]
  }

  /** What the second loop finds at the start of instruction k. */
  lemma SlotAt(dev: DevInfo, insts: seq<Inst>, enc: seq<Option<CompactInst>>, counts: seq<int>, k: nat)
    requires k < |insts| && JumpsInRange(dev, insts, enc, counts)
    ensures var p := Packed(dev, Mixed(dev, insts, enc, counts, k), enc, |insts|);
            var l := PackedLen(dev, enc, k);
            && InstPos(dev, enc, k) < |p| && p[InstPos(dev, enc, k)] == InstSlot(insts[k], enc[k])
            && (if NeedsNenop(dev, l, enc[k]) then p[l] == NenopPad else InstPos(dev, enc, k) == l)
  {
    PackedAt(dev, Mixed(dev, insts, enc, counts, k), enc, k);
  }

  /** Fixing up instruction k's slot moves the second loop on to k + 1. */
  lemma FixStep(dev: DevInfo, insts: seq<Inst>, enc: seq<Option<CompactInst>>, counts: seq<int>, k: nat)
    requires k < |insts| && JumpsInRange(dev, insts, enc, counts)
    ensures var s := InstSlot(insts[k], enc[k]);
            && (s.Full? ==> FixReads(dev, s.inst, k, false, counts))
            && (s.Compacted? ==> FixReads(dev, s.inst, k, true, counts))
            && InstPos(dev, enc, k) < |Packed(dev, Mixed(dev, insts, enc, counts, k), enc, |insts|)|
            && Packed(dev, Mixed(dev, insts, enc, counts, k), enc, |insts|)[InstPos(dev, enc, k) := FixSlot(dev, s, k, counts)]
               == Packed(dev, Mixed(dev, insts, enc, counts, k + 1), enc, |insts|)
            && InstPos(dev, enc, k) + SlotSize(s) == PackedLen(dev, enc, k + 1)
  {
    var n := |insts|;
    var mix := Mixed(dev, insts, enc, counts, k);
    var fix := FixJump(dev, insts[k], k, enc[k].Some?, counts);
    FixAt(dev, insts, enc, counts, k + 1, k);
    assert mix[k := fix] == Mixed(dev, insts, enc, counts, k + 1);
    PackedReplace(dev, mix, enc, k, fix, n);
    NextStart(dev, enc, k);
  }

  /** Before the first one, nothing is fixed up. */
  lemma MixedStart(dev: DevInfo, insts: seq<Inst>, enc: seq<Option<CompactInst>>, counts: seq<int>)
    requires JumpsInRange(dev, insts, enc, counts)
    ensures Mixed(dev, insts, enc, counts, 0) == insts
  {
    assert [] + insts[0..] == insts;
  }

  /** Once every instruction is fixed up, the program is FixAll's. */
  lemma MixedDone(dev: DevInfo, insts: seq<Inst>, enc: seq<Option<CompactInst>>, counts: seq<int>)
    requires JumpsInRange(dev, insts, enc, counts)
    ensures Mixed(dev, insts, enc, counts, |insts|) == FixAll(dev, insts, enc, counts, |insts|)
  {
    assert insts[|insts|..] == [];
  }

  /** What the second loop knows: the first k instructions are fixed up,
    * and `offset` is at instruction k, or at its NENOP if `passed` is
    * false and it has one. */
  ghost predicate FixState(dev: DevInfo, insts: seq<Inst>, enc: seq<Option<CompactInst>>, counts: seq<int>,
                     k: nat, passed: bool, fixed: seq<Slot>, offset: nat)
  {
    && JumpsInRange(dev, insts, enc, counts) && k <= |insts|
    && fixed == Packed(dev, Mixed(dev, insts, enc, counts, k), enc, |insts|)
    && offset == PackedLen(dev, enc, k) + (if passed then 1 else 0)
    && (passed ==> k < |insts| && NeedsNenop(dev, PackedLen(dev, enc, k), enc[k]))
  }

  /** One turn of the second loop: step over a NENOP, or fix up the
    * instruction at `offset` and step over it. */
  method FixNext(dev: DevInfo, fixed: seq<Slot>, offset: nat, oldIp: seq<int>, counts: seq<int>,
                 ghost insts: seq<Inst>, ghost enc: seq<Option<CompactInst>>, ghost k: nat, ghost passed: bool)
    returns (fixed': seq<Slot>, offset': nat, ghost k': nat, ghost passed': bool)
    requires FixState(dev, insts, enc, counts, k, passed, fixed, offset) && offset < |fixed|
    requires forall j :: 0 <= j < |insts| ==> InstPos(dev, enc, j) < |oldIp| && oldIp[InstPos(dev, enc, j)] == j
    ensures FixState(dev, insts, enc, counts, k', passed', fixed', offset') && offset < offset'
    ensures |fixed'| == |fixed|
  {
    FixAtInstruction(dev, insts, enc, counts, k, passed, fixed, offset);
    var slot := fixed[offset];
    if slot == NenopPad {
      fixed', offset', k', passed' := fixed, offset + 1, k, true;
    } else {
      var thisOldIp := oldIp[offset];
      assert thisOldIp == k;
      fixed' := fixed[offset := FixSlot(dev, slot, thisOldIp, counts)];
      offset' := offset + SlotSize(slot);
      k', passed' := k + 1, false;
    }
  }

  /** What the second loop finds at `offset` while it is not done: the
    * NENOP before instruction k, or instruction k itself; fixing it up or
    * stepping over the NENOP keeps the loop's state. */
  lemma FixAtInstruction(dev: DevInfo, insts: seq<Inst>, enc: seq<Option<CompactInst>>, counts: seq<int>,
                         k: nat, passed: bool, fixed: seq<Slot>, offset: nat)
    requires FixState(dev, insts, enc, counts, k, passed, fixed, offset) && offset < |fixed|
    ensures k < |insts|
    ensures fixed[offset] == NenopPad ==> FixState(dev, insts, enc, counts, k, true, fixed, offset + 1)
    ensures fixed[offset] != NenopPad ==>
      && offset == InstPos(dev, enc, k) && fixed[offset] == InstSlot(insts[k], enc[k])
      && (fixed[offset].Full? ==> FixReads(dev, fixed[offset].inst, k, false, counts))
      && (fixed[offset].Compacted? ==> FixReads(dev, fixed[offset].inst, k, true, counts))
      && FixState(dev, insts, enc, counts, k + 1, false, fixed[offset := FixSlot(dev, fixed[offset], k, counts)],
                  offset + SlotSize(fixed[offset]))
  {
    PackedLength(dev, Mixed(dev, insts, enc, counts, k), enc, |insts|);
    if k == |insts| {
      assert false;
    }
    SlotAt(dev, insts, enc, counts, k);
    ghost var l := PackedLen(dev, enc, k);
    if fixed[offset] == NenopPad {
      assert !passed && offset == l;
    } else {
      if !passed {
        assert !NeedsNenop(dev, l, enc[k]);
      }
      assert offset == InstPos(dev, enc, k);
      FixStep(dev, insts, enc, counts, k);
    }
  }

  /** The second loop: walk the packed store instruction by instruction
    * (next_offset) and fix up each one's jumps, reading its old IP from
    * old_ip. */
  method FixJumps(dev: DevInfo, region: seq<Slot>, oldIp: seq<int>, counts: seq<int>,
                  ghost insts: seq<Inst>, ghost enc: seq<Option<CompactInst>>)
    returns (fixed: seq<Slot>)
    requires JumpsInRange(dev, insts, enc, counts) && region == Packed(dev, insts, enc, |insts|)
    requires forall k :: 0 <= k < |insts| ==> InstPos(dev, enc, k) < |oldIp| && oldIp[InstPos(dev, enc, k)] == k
    ensures fixed == Packed(dev, FixAll(dev, insts, enc, counts, |insts|), enc, |insts|)
  {
    ghost var k: nat := 0;
    ghost var passed := false;
    fixed := region;
    var offset: nat := 0;
    MixedStart(dev, insts, enc, counts);
    while offset < |fixed|
      invariant FixState(dev, insts, enc, counts, k, passed, fixed, offset)
      invariant |fixed| == |region|
      decreases |fixed| - offset
    {
      fixed, offset, k, passed := FixNext(dev, fixed, offset, oldIp, counts, insts, enc, k, passed);
    }
    PackedLength(dev, insts, enc, |insts|);
    if k < |insts| {
      NextStart(dev, enc, k);
      PackedGrows(dev, enc, k, |insts|);
    }
    MixedDone(dev, insts, enc, counts);
  }

  /** Relocations at or after the compacted code, each on an instruction
    * boundary inside it (the source asserts the alignment and indexes
    * compacted_counts with it). */
  predicate RelocsInRange(relocs: seq<int>, start: nat, n: nat)
  {
    forall i :: 0 <= i < |relocs| && relocs[i] >= start ==>
      relocs[i] % 16 == 0 && (relocs[i] - start) / 16 < n
  }

  /** Each relocation in the compacted code moves back 8 bytes per
    * instruction compacted before it. */
  function Relocated(relocs: seq<int>, start: nat, counts: seq<int>): (r: seq<int>)
    requires RelocsInRange(relocs, start, |counts|)
    ensures |r| == |relocs|
  {
    seq(|relocs|, i requires 0 <= i < |relocs| =>
      if relocs[i] < start then relocs[i] else relocs[i] - 8 * counts[(relocs[i] - start) / 16])
  }

  /** The relocation loop. */
  method Relocate(relocs: seq<int>, start: nat, counts: seq<int>) returns (r: seq<int>)
    requires RelocsInRange(relocs, start, |counts|)
    ensures r == Relocated(relocs, start, counts)
  {
    r := relocs;
    var i := 0;
    while i < |r|
      invariant i <= |r| == |relocs|
      invariant forall j :: 0 <= j < i ==> r[j] == Relocated(relocs, start, counts)[j]
      invariant forall j :: i <= j < |r| ==> r[j] == relocs[j]
    {
      if r[i] >= start {
        var idx := (r[i] - start) / 16;
        r := r[i := r[i] - counts[idx] * 8];
      }
      i := i + 1;
    }
  }

  /** A relocation on the instruction at old byte offset start + 16 * k
    * ends up on that instruction's new place. */
  lemma RelocationLands(relocs: seq<int>, start: nat, dev: DevInfo, enc: seq<Option<CompactInst>>, i: nat)
    requires start % 16 == 0 && i < |relocs| && relocs[i] >= start
    requires RelocsInRange(relocs, start, |enc|)
    ensures var k := (relocs[i] - start) / 16;
            Relocated(relocs, start, CompactedCounts(dev, enc))[i] == start + 8 * InstPos(dev, enc, k)
  {
    var k := (relocs[i] - start) / 16;
    DivMod(relocs[i] - start, 16, k, 0);
  }

  /** The store padded with a compacted NOP to a whole number of
    * uncompacted instructions. */
  function Padded(body: seq<Slot>): (r: seq<Slot>)
    ensures |r| % 2 == 0 && body <= r && |r| <= |body| + 1
    ensures |r| > |body| ==> r[|body|] == NopPad
  {
    if |body| % 2 == 1 then body + [NopPad] else body
  }

  /** Whether brw_compact_instructions does anything: not with compaction
    * disabled for debugging, nor on the original Gen4. */
  predicate Compacts(dev: DevInfo, noCompaction: bool)
  {
    !noCompaction && !(dev.ver == 4 && !dev.isG4x)
  }

  /** What the pass demands of the program it compacts. */
  predicate PassReady(dev: DevInfo, lib: TableLib, insts: seq<Inst>, relocs: seq<int>, start: nat)
  {
    && WellSized(lib) && KnownGeneration(dev.ver)
    && AllReservedBitsClear(dev, insts)
    && var enc := Decisions(CompactionStateInit(dev, lib).value, lib, insts, |insts|);
       JumpsInRange(dev, insts, enc, CompactedCounts(dev, enc)) &&
       RelocsInRange(relocs, start, |insts|)
  }

  /** The compacted code that replaces insts. */
  function CompactedProgram(dev: DevInfo, lib: TableLib, insts: seq<Inst>, relocs: seq<int>, start: nat): seq<Slot>
    requires PassReady(dev, lib, insts, relocs, start)
  {
    var enc := Decisions(CompactionStateInit(dev, lib).value, lib, insts, |insts|);
    Padded(Packed(dev, FixAll(dev, insts, enc, CompactedCounts(dev, enc), |insts|), enc, |insts|))
  }

  /** The relocation offsets once insts has been compacted. */
  function CompactedRelocs(dev: DevInfo, lib: TableLib, insts: seq<Inst>, relocs: seq<int>, start: nat): seq<int>
    requires PassReady(dev, lib, insts, relocs, start)
  {
    var enc := Decisions(CompactionStateInit(dev, lib).value, lib, insts, |insts|);
    Relocated(relocs, start, CompactedCounts(dev, enc))
  }

  /** brw_compact_instructions on the code from start_offset on: the
    * compacted, fixed-up and padded code, and the moved relocations. */
  method CompactRegion(dev: DevInfo, lib: TableLib, region0: seq<Slot>, relocs: seq<int>, start: nat,
                       ghost insts: seq<Inst>)
    returns (padded: seq<Slot>, relocs': seq<int>)
    requires IsExpansion(region0, insts) && PassReady(dev, lib, insts, relocs, start)
    ensures padded == CompactedProgram(dev, lib, insts, relocs, start) && |padded| % 2 == 0
    ensures relocs' == CompactedRelocs(dev, lib, insts, relocs, start)
  {
    var c := CompactionStateInit(dev, lib).value;
    ghost var enc := Decisions(c, lib, insts, |insts|);
    DecisionsDecide(c, lib, insts);
    var region, len, counts, oldIp := PackRegion(c, lib, region0, insts, enc);
    var body := FixJumps(dev, region[..len], oldIp, counts, insts, enc);
    assert body == Packed(dev, FixAll(dev, insts, enc, CompactedCounts(dev, enc), |insts|), enc, |insts|);
    PackedLength(dev, FixAll(dev, insts, enc, CompactedCounts(dev, enc), |insts|), enc, |insts|);
    padded := body;
    if len % 2 == 1 {
      padded := body + [NopPad];
    }
    assert padded == Padded(body);
    relocs' := Relocate(relocs, start, counts);
  }

  /** Appending an even number of slots at a 16-byte aligned offset keeps
    * the end aligned. */
  lemma AppendedOffsets(start: nat, n: nat)
    requires start % 16 == 0 && n % 2 == 0
    ensures 8 * (start / 8) == start && (start + 8 * n) % 16 == 0
    ensures 8 * (start / 8 + n) == start + 8 * n
  {
    var q, h := start / 16, n / 2;
    assert start == q * 16 && n == h * 2;
    DivMod(start, 8, 2 * q, 0);
    DivMod(start + 8 * n, 16, q + h, 0);
  }

  /** struct brw_codegen: the instruction store (in 8-byte units), its end
    * in bytes, the instruction count and the relocation offsets. */
  class Codegen {
    const dev: DevInfo
    var store: seq<Slot>
    var nextInsnOffset: nat
    var nrInsn: nat
    var relocs: seq<int>

    constructor (dev: DevInfo, insts: seq<Inst>, relocs: seq<int>)
      ensures this.dev == dev && IsExpansion(store, insts) && this.relocs == relocs
      ensures nextInsnOffset == 16 * |insts| && nrInsn == |insts|
    {
      this.dev := dev;
      store := Expansion(insts, |insts|);
      nextInsnOffset := 16 * |insts|;
      nrInsn := |insts|;
      this.relocs := relocs;
    }

    /** brw_compact_instructions(p, start_offset, NULL). */
    method CompactInstructions(startOffset: nat, lib: TableLib, noCompaction: bool, ghost insts: seq<Inst>)
      requires startOffset % 16 == 0 && startOffset / 8 <= |store| && nextInsnOffset == 8 * |store|
      requires IsExpansion(store[startOffset / 8..], insts)
      requires Compacts(dev, noCompaction) ==> PassReady(dev, lib, insts, relocs, startOffset)
      modifies this
      ensures !Compacts(dev, noCompaction) ==> unchanged(this)
      ensures Compacts(dev, noCompaction) ==>
                && store == old(store)[..startOffset / 8] +
                            CompactedProgram(dev, lib, insts, old(relocs), startOffset)
                && nextInsnOffset == 8 * |store| && nextInsnOffset % 16 == 0
                && nrInsn == nextInsnOffset / 16
                && relocs == CompactedRelocs(dev, lib, insts, old(relocs), startOffset)
    {
      if noCompaction {
        return;
      }
      if dev.ver == 4 && !dev.isG4x {
        return;
      }
      var s := startOffset / 8;
      var padded, relocs' := CompactRegion(dev, lib, store[s..], relocs, startOffset, insts);
      AppendedOffsets(startOffset, |padded|);
      store := store[..s] + padded;
      nextInsnOffset := startOffset + 8 * |padded|;
      nrInsn := nextInsnOffset / 16;
      relocs := relocs';
    }
  }
}
