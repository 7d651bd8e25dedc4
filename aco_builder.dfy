// The ACO instruction builder: control-word encoders, the wave-size opcode
// adapter, the insertion context (nowhere, end, start, or before a cursor),
// the per-format instruction factory, the fixed/hinted register helpers and
// the cost-based lowerings (vadd32, vsub32, v_mul_imm), with an evaluator
// that gives the emitted VALU code its 32-bit meaning.
module AcoBuilder {
  import opened Wrappers
  import opened Bits
  import opened AcoIr

  // ---------------------------------------------------------------------
  // Control-word encoders
  // ---------------------------------------------------------------------

  const DppRowSlBase: bv32 := 0x100
  const DppRowSrBase: bv32 := 0x110
  const DppRowRrBase: bv32 := 0x120

  /** dpp_quad_perm: four 2-bit lane selectors, lane0 in the lowest field. */
  function DppQuadPerm(lane0: bv32, lane1: bv32, lane2: bv32, lane3: bv32): (r: bv32)
    requires lane0 < 4 && lane1 < 4 && lane2 < 4 && lane3 < 4
    ensures r < 0x100
    ensures r & 3 == lane0 && (r >> 2) & 3 == lane1 && (r >> 4) & 3 == lane2 && (r >> 6) & 3 == lane3
  {
    lane0 | (lane1 << 2) | (lane2 << 4) | (lane3 << 6)
  }

  /** A row control: the base selects the operation, the low nibble the amount. */
  function DppRow(base: bv32, amount: bv32): (r: bv32)
    requires base == DppRowSlBase || base == DppRowSrBase || base == DppRowRrBase
    requires 0 < amount < 16
    ensures r & 0xf == amount && r & !0xf == base
  {
    base | amount
  }

  /** dpp_row_sl: shift left within a row by 1 to 15 lanes. */
  function DppRowSl(amount: bv32): (r: bv32)
    requires 0 < amount < 16
    ensures r & 0xf == amount && r >> 4 == 0x10
  {
    DppRow(DppRowSlBase, amount)
  }

  /** dpp_row_sr: shift right within a row. */
  function DppRowSr(amount: bv32): (r: bv32)
    requires 0 < amount < 16
    ensures r & 0xf == amount && r >> 4 == 0x11
  {
    DppRow(DppRowSrBase, amount)
  }

  /** dpp_row_rr: rotate right within a row. */
  function DppRowRr(amount: bv32): (r: bv32)
    requires 0 < amount < 16
    ensures r & 0xf == amount && r >> 4 == 0x12
  {
    DppRow(DppRowRrBase, amount)
  }

  /** The quad permutations and the three row controls occupy disjoint ranges,
    * so a control word names exactly one operation and amount. */
  lemma DppControlsDistinct(l0: bv32, l1: bv32, l2: bv32, l3: bv32, a: bv32, b: bv32)
    requires l0 < 4 && l1 < 4 && l2 < 4 && l3 < 4
    requires 0 < a < 16 && 0 < b < 16
    ensures DppQuadPerm(l0, l1, l2, l3) != DppRowSl(a)
    ensures DppQuadPerm(l0, l1, l2, l3) != DppRowSr(a) && DppQuadPerm(l0, l1, l2, l3) != DppRowRr(a)
    ensures DppRowSl(a) != DppRowSr(b) && DppRowSl(a) != DppRowRr(b) && DppRowSr(a) != DppRowRr(b)
    ensures DppRowSl(a) == DppRowSl(b) ==> a == b
  {
    var q := DppQuadPerm(l0, l1, l2, l3);
    assert q >> 4 < 0x10;
  }

  /** ds_pattern_bitmode: and, or and xor masks in 5-bit fields at bits 0, 5 and 10. */
  function DsPatternBitmode(andMask: bv32, orMask: bv32, xorMask: bv32): (r: bv32)
    requires andMask < 32 && orMask < 32 && xorMask < 32
    ensures r < 0x8000
    ensures r & 0x1f == andMask && (r >> 5) & 0x1f == orMask && (r >> 10) & 0x1f == xorMask
  {
    andMask | (orMask << 5) | (xorMask << 10)
  }

  const SendmsgGs: bv32 := 2
  const SendmsgGsDone: bv32 := 3
  const SendmsgIdMask: bv32 := 0xf

  function BoolBit(b: bool): bv32 { if b then 1 else 0 }

  /** The GS message layout: message id, cut at bit 4, emit at bit 5, stream at bits 8-9. */
  function GsMessage(id: bv32, cut: bool, emit: bool, stream: bv32): (r: bv32)
    requires id == SendmsgGs || id == SendmsgGsDone
    requires stream < 4
    ensures r & SendmsgIdMask == id
    ensures ((r >> 4) & 1 == 1) == cut && ((r >> 5) & 1 == 1) == emit && (r >> 8) & 3 == stream
    ensures r < 0x400
  {
    id | (BoolBit(cut) << 4) | (BoolBit(emit) << 5) | (stream << 8)
  }

  /** sendmsg_gs. */
  function SendmsgGsMessage(cut: bool, emit: bool, stream: bv32): (r: bv32)
    requires stream < 4
    ensures r & SendmsgIdMask == SendmsgGs
    ensures ((r >> 4) & 1 == 1) == cut && ((r >> 5) & 1 == 1) == emit && (r >> 8) & 3 == stream
  {
    GsMessage(SendmsgGs, cut, emit, stream)
  }

  /** sendmsg_gs_done. */
  function SendmsgGsDoneMessage(cut: bool, emit: bool, stream: bv32): (r: bv32)
    requires stream < 4
    ensures r & SendmsgIdMask == SendmsgGsDone
    ensures ((r >> 4) & 1 == 1) == cut && ((r >> 5) & 1 == 1) == emit && (r >> 8) & 3 == stream
  {
    GsMessage(SendmsgGsDone, cut, emit, stream)
  }

  // ---------------------------------------------------------------------
  // Wave-size adapter
  // ---------------------------------------------------------------------

  /** w64or32: the lane-mask-wide opcode on wave64, the 32-bit counterpart
    * otherwise. Only the 18 wave-specific families can be passed (the
    * source's unreachable default is ruled out by the type). */
  function W64or32(waveSize: nat, op: WaveSpecificOpcode): (r: Opcode)
    ensures r.Salu? && r.family == op
    ensures r.wide <==> waveSize == 64
  {
    if waveSize == 64 then Salu(op, true) else Salu(op, false)
  }

  /** Different wave-specific opcodes never collapse onto one opcode, and the
    * two wave sizes never share one. */
  lemma W64or32Injective(w1: nat, w2: nat, a: WaveSpecificOpcode, b: WaveSpecificOpcode)
    ensures W64or32(w1, a) == W64or32(w2, b) <==> a == b && (w1 == 64 <==> w2 == 64)
  {
  }

  // ---------------------------------------------------------------------
  // Insertion context
  // ---------------------------------------------------------------------

  /** Where the next instruction goes: nowhere (no target list), appended,
    * prepended, or before the cursor position. */
  datatype Cursor = Nowhere | AtEnd | AtStart | Before(pos: nat)

  datatype Placement = Placement(list: seq<Instr>, cursor: Cursor)

  predicate WellPlaced(p: Placement)
  {
    p.cursor.Before? ==> p.cursor.pos <= |p.list|
  }

  /** One Builder::insert. */
  function InsertOne(p: Placement, i: Instr): (r: Placement)
    requires WellPlaced(p)
    ensures WellPlaced(r) && r.cursor.Before? == p.cursor.Before?
  {
    match p.cursor
    case Nowhere => p
    case AtEnd => Placement(p.list + [i], AtEnd)
    case AtStart => Placement([i] + p.list, AtStart)
    case Before(k) => Placement(p.list[..k] + [i] + p.list[k..], Before(k + 1))
  }

  /** A run of inserts, in call order. */
  function InsertAll(p: Placement, xs: seq<Instr>): (r: Placement)
    requires WellPlaced(p)
    ensures WellPlaced(r)
    decreases |xs|
  {
    if xs == [] then p else InsertOne(InsertAll(p, xs[..|xs| - 1]), xs[|xs| - 1])
  }

  function Reverse(xs: seq<Instr>): (r: seq<Instr>)
    ensures |r| == |xs|
    decreases |xs|
  {
    if xs == [] then [] else Reverse(xs[1..]) + [xs[0]]
  }

  lemma {:induction false} ReverseSnoc(xs: seq<Instr>, x: Instr)
    ensures Reverse(xs + [x]) == [x] + Reverse(xs)
    decreases |xs|
  {
    if xs == [] {
      assert Reverse([x]) == Reverse([]) + [x];
    } else {
      assert (xs + [x])[1..] == xs[1..] + [x];
      ReverseSnoc(xs[1..], x);
    }
  }

  /** What a run of inserts does in each mode: nothing without a list; the
    * instructions in call order at the end; in reverse order at the start;
    * in call order just before the original cursor, which ends up after
    * them, with everything else in the list unchanged. */
  lemma {:induction false} InsertAllEffect(p: Placement, xs: seq<Instr>)
    requires WellPlaced(p)
    ensures p.cursor.Nowhere? ==> InsertAll(p, xs) == p
    ensures p.cursor.AtEnd? ==> InsertAll(p, xs) == Placement(p.list + xs, AtEnd)
    ensures p.cursor.AtStart? ==> InsertAll(p, xs) == Placement(Reverse(xs) + p.list, AtStart)
    ensures p.cursor.Before? ==>
              InsertAll(p, xs) == Placement(p.list[..p.cursor.pos] + xs + p.list[p.cursor.pos..],
                                            Before(p.cursor.pos + |xs|))
    decreases |xs|
  {
    if xs != [] {
      var init := xs[..|xs| - 1];
      var x := xs[|xs| - 1];
      assert xs == init + [x];
      InsertAllEffect(p, init);
      if p.cursor.AtStart? {
        ReverseSnoc(init, x);
      } else if p.cursor.Before? {
        var k := p.cursor.pos;
        var q := InsertAll(p, init);
        assert q.list[..k + |init|] == p.list[..k] + init;
        assert q.list[k + |init|..] == p.list[k..];
      }
    }
  }

  /** Inserting two runs one after the other is inserting their concatenation. */
  lemma {:induction false} InsertAllAppend(p: Placement, xs: seq<Instr>, ys: seq<Instr>)
    requires WellPlaced(p)
    ensures InsertAll(p, xs + ys) == InsertAll(InsertAll(p, xs), ys)
    decreases |ys|
  {
    if ys == [] {
      assert xs + ys == xs;
    } else {
      var init := ys[..|ys| - 1];
      assert (xs + ys)[..|xs + ys| - 1] == xs + init;
      assert (xs + ys)[|xs + ys| - 1] == ys[|ys| - 1];
      InsertAllAppend(p, xs, init);
    }
  }

  // ---------------------------------------------------------------------
  // Per-format instruction factory
  // ---------------------------------------------------------------------

  /** The builder's generated factory methods, one per encoding (pseudo, sop1, …). */
  datatype Factory =
    | FPseudo | FSop1 | FSop2 | FSopk | FSopp | FSopc | FSmem | FDs | FMubuf | FMtbuf
    | FMimg | FExp | FBranch | FBarrier | FReduction | FVop1 | FVop1Sdwa | FVop2
    | FVop2Sdwa | FVopc | FVop3 | FVop3p | FVintrp | FVop1Dpp | FVop2Dpp | FVopcDpp
    | FVop1E64 | FVop2E64 | FVopcE64 | FFlat | FGlobal

  /** The Format bits each factory method sets. */
  function FactoryFormat(f: Factory): set<FormatBit>
  {
    match f
    case FPseudo => {PSEUDO}
    case FSop1 => {SOP1}
    case FSop2 => {SOP2}
    case FSopk => {SOPK}
    case FSopp => {SOPP}
    case FSopc => {SOPC}
    case FSmem => {SMEM}
    case FDs => {DS}
    case FMubuf => {MUBUF}
    case FMtbuf => {MTBUF}
    case FMimg => {MIMG}
    case FExp => {EXP}
    case FBranch => {PSEUDO_BRANCH}
    case FBarrier => {PSEUDO_BARRIER}
    case FReduction => {PSEUDO_REDUCTION}
    case FVop1 => {VOP1}
    case FVop1Sdwa => {VOP1, SDWA}
    case FVop2 => {VOP2}
    case FVop2Sdwa => {VOP2, SDWA}
    case FVopc => {VOPC}
    case FVop3 => {VOP3}
    case FVop3p => {VOP3P}
    case FVintrp => {VINTRP}
    case FVop1Dpp => {VOP1, DPP}
    case FVop2Dpp => {VOP2, DPP}
    case FVopcDpp => {VOPC, DPP}
    case FVop1E64 => {VOP1, VOP3}
    case FVop2E64 => {VOP2, VOP3}
    case FVopcE64 => {VOPC, VOP3}
    case FFlat => {FLAT}
    case FGlobal => {GLOBAL}
  }

  /** The (definitions, operands) counts for which a factory method exists. */
  predicate ShapeOk(f: Factory, d: nat, o: nat)
  {
    match f
    case FPseudo => (d <= 4 && o <= 5) || (d == 8 && o == 1) || (d == 1 && o == 8)
    case FSop1 => (d == 0 && o == 1) || (d == 1 && o == 0) || (d == 1 && o == 1) || (d == 2 && o == 1) || (d == 3 && o == 2)
    case FSop2 => 1 <= d <= 2 && 2 <= o <= 3
    case FSopk => d <= 2 && o <= 1
    case FSopp => d <= 1 && o <= 1
    case FSopc => d == 1 && o == 2
    case FSmem => (d == 0 && o in {0, 3, 4}) || (d == 1 && o in {0, 2, 3})
    case FDs => (d == 1 && 1 <= o <= 2) || (d == 0 && 3 <= o <= 4)
    case FMubuf => (d == 0 && o == 4) || (d == 1 && o == 3)
    case FMtbuf => (d == 0 && o == 4) || (d == 1 && o == 3)
    case FMimg => d <= 1 && 3 <= o <= 7
    case FExp => d == 0 && o == 4
    case FBranch => d == 1 && o <= 1
    case FBarrier => d == 0 && o == 0
    case FReduction => d == 3 && o == 2
    case FVop1 => (d == 0 && o == 0) || (d == 1 && o == 1) || (d == 2 && o == 2)
    case FVop1Sdwa => d == 1 && o == 1
    case FVop2 => 1 <= d <= 2 && 2 <= o <= 3
    case FVop2Sdwa => 1 <= d <= 2 && 2 <= o <= 3
    case FVopc => 1 <= d <= 2 && o == 2
    case FVop3 => (d == 1 && 1 <= o <= 3) || (d == 2 && o == 2)
    case FVop3p => d == 1 && 2 <= o <= 3
    case FVintrp => d == 1 && 2 <= o <= 3
    case FVop1Dpp => d == 1 && o == 1
    case FVop2Dpp => 1 <= d <= 2 && 2 <= o <= 3
    case FVopcDpp => 1 <= d <= 2 && o == 2
    case FVop1E64 => d == 1 && o == 1
    case FVop2E64 => 1 <= d <= 2 && 2 <= o <= 3
    case FVopcE64 => 1 <= d <= 2 && o == 2
    case FFlat => (d == 0 && o == 3) || (d == 1 && o == 2)
    case FGlobal => (d == 0 && o == 3) || (d == 1 && o == 2)
  }

  /** The definitions as the factory stores them: precise and nuw taken from the builder. */
  function Flagged(defs: seq<Definition>, precise: bool, nuw: bool): (r: seq<Definition>)
    ensures |r| == |defs|
    ensures forall i :: 0 <= i < |defs| ==>
              r[i].temp == defs[i].temp && r[i].fixed == defs[i].fixed && r[i].hint == defs[i].hint
    ensures forall i :: 0 <= i < |defs| ==> r[i].precise == precise && r[i].nuw == nuw
  {
    seq(|defs|, i requires 0 <= i < |defs| => defs[i].(precise := precise, nuw := nuw))
  }

  /** The builder's flags replace whatever the definitions carried: flagging
    * twice is flagging once with the later flags, and flagging with the
    * flags the definitions already carry changes nothing. */
  lemma {:induction false} FlaggedOverrides(defs: seq<Definition>, p1: bool, n1: bool, p2: bool, n2: bool)
    ensures Flagged(Flagged(defs, p1, n1), p2, n2) == Flagged(defs, p2, n2)
    ensures (forall i :: 0 <= i < |defs| ==> defs[i].precise == p1 && defs[i].nuw == n1) ==>
              Flagged(defs, p1, n1) == defs
  {
    var a := Flagged(Flagged(defs, p1, n1), p2, n2);
    var b := Flagged(defs, p2, n2);
    assert |a| == |b|;
    forall i | 0 <= i < |a| ensures a[i] == b[i] { }
    if forall i :: 0 <= i < |defs| ==> defs[i].precise == p1 && defs[i].nuw == n1 {
      var c := Flagged(defs, p1, n1);
      forall i | 0 <= i < |c| ensures c[i] == defs[i] { }
    }
  }

  // ---------------------------------------------------------------------
  // Fixed and hinted registers
  // ---------------------------------------------------------------------

  /** The registers the builder has helpers for. */
  predicate BuilderReg(reg: PhysReg) { reg == M0 || reg == Vcc || reg == Exec || reg == Scc }

  /** vcc and exec (with their high halves) hold a lane mask: only an SGPR
    * class of at most 8 bytes fits. */
  predicate FitsReg(reg: PhysReg, rc: RegClass)
  {
    (reg == Vcc || reg == Exec) ==> rc.rtype == Sgpr && rc.bytes <= 8
  }

  /** m0(tmp), vcc(tmp), exec(tmp), scc(tmp): the temporary as an operand fixed to the register. */
  function FixedOp(reg: PhysReg, t: Temp): (r: Operand)
    requires BuilderReg(reg) && FitsReg(reg, t.rc)
    ensures r.IsTemp() && r.val.temp == t && r.fixed == Some(reg) && !r.is16bit && !r.is24bit
  {
    TempOp(t).(fixed := Some(reg))
  }

  /** m0(def), vcc(def), …: the definition fixed to the register, otherwise unchanged. */
  function FixedDef(reg: PhysReg, d: Definition): (r: Definition)
    requires BuilderReg(reg) && FitsReg(reg, d.temp.rc)
    ensures r.fixed == Some(reg) && r.(fixed := d.fixed) == d
  {
    d.(fixed := Some(reg))
  }

  /** hint_m0(def), hint_vcc(def), …: the definition with a register hint, otherwise unchanged. */
  function HintDef(reg: PhysReg, d: Definition): (r: Definition)
    requires BuilderReg(reg) && FitsReg(reg, d.temp.rc)
    ensures r.hint == Some(reg) && r.(hint := d.hint) == d
  {
    d.(hint := Some(reg))
  }

  /** set16bit: the operand marked as reading 16 bits, otherwise unchanged. */
  function Set16bit(o: Operand): (r: Operand)
    ensures r.is16bit && r.(is16bit := o.is16bit) == o
  {
    o.(is16bit := true)
  }

  /** set24bit: the operand marked as reading 24 bits, otherwise unchanged. */
  function Set24bit(o: Operand): (r: Operand)
    ensures r.is24bit && r.(is24bit := o.is24bit) == o
  {
    o.(is24bit := true)
  }

  // ---------------------------------------------------------------------
  // What emitted VALU code computes
  // ---------------------------------------------------------------------

  /** 2^24: the 24-bit multiply reads the low 24 bits of each source. */
  const Low24: nat := 0x100_0000

  /** A register file: temporary id to value. */
  type Env = map<nat, nat>

  /** The 32-bit value of temporary `id` (0 when never written). */
  function RegVal(env: Env, id: nat): (r: nat)
    ensures r < U32
  {
    if id in env then env[id] % U32 else 0
  }

  /** The 32-bit value an operand reads. */
  function Val(env: Env, o: Operand): (r: nat)
    ensures r < U32
  {
    match o.val
    case OpTemp(t) => RegVal(env, t.id)
    case OpConst(v, _) => v % U32
    case OpUndef(_) => 0
  }

  predicate AddOpcode(op: Opcode) { op == v_add_u32 || op == v_add_co_u32 || op == v_add_co_u32_e64 }
  predicate SubOpcode(op: Opcode) { op == v_sub_u32 || op == v_sub_co_u32 || op == v_sub_co_u32_e64 }
  predicate SubrevOpcode(op: Opcode) { op == v_subrev_u32 || op == v_subrev_co_u32 || op == v_subrev_co_u32_e64 }

  /** The value the opcodes the lowerings emit leave in their first
    * definition, given their first two operands' values; None for every
    * other opcode, which the model treats as leaving registers alone. */
  function OpResult(op: Opcode, a: nat, b: nat): Option<nat>
  {
    match op
    case p_parallelcopy => Some(a)
    case v_lshlrev_b32 => Some(Shl32(b, a % 32))
    case v_add_u32 | v_add_co_u32 | v_add_co_u32_e64 => Some((a + b) % U32)
    case v_sub_u32 | v_sub_co_u32 | v_sub_co_u32_e64 => Some((a + U32 - b) % U32)
    case v_subrev_u32 | v_subrev_co_u32 | v_subrev_co_u32_e64 => Some((b + U32 - a) % U32)
    case v_mul_lo_u32 => Some(MulLo32(a, b))
    case v_mul_u32_u24 => Some(MulLo32(a % Low24, b % Low24))
    case _ => None
  }

  /** One instruction's effect on the register file: its first definition
    * receives the opcode's result; carry/borrow lane masks are not modelled. */
  function Step(env: Env, i: Instr): Env
  {
    if |i.defs| == 0 then env
    else
      var a := if |i.ops| > 0 then Val(env, i.ops[0]) else 0;
      var b := if |i.ops| > 1 then Val(env, i.ops[1]) else 0;
      match OpResult(i.opcode, a, b)
      case Some(v) => env[i.defs[0].temp.id := v]
      case None => env
  }

  /** Running a sequence of instructions in order. */
  function EvalSeq(code: seq<Instr>, env: Env): Env
    decreases |code|
  {
    if code == [] then env else Step(EvalSeq(code[..|code| - 1], env), code[|code| - 1])
  }

  /** The id an instruction may write (its first definition), if any. */
  predicate WritesOnly(i: Instr, fence: nat, d: nat)
  {
    |i.defs| > 0 ==> i.defs[0].temp.id >= fence || i.defs[0].temp.id == d
  }

  /** Every instruction of `code` writes a temporary at or above `fence`, or `d`. */
  predicate CodeWritesOnly(code: seq<Instr>, fence: nat, d: nat)
  {
    forall j :: 0 <= j < |code| ==> WritesOnly(code[j], fence, d)
  }

  lemma StepKeeps(env: Env, i: Instr, k: nat)
    requires |i.defs| > 0 ==> i.defs[0].temp.id != k
    ensures RegVal(Step(env, i), k) == RegVal(env, k)
  {
  }

  lemma {:induction false} EvalSeqAppend(xs: seq<Instr>, ys: seq<Instr>, env: Env)
    ensures EvalSeq(xs + ys, env) == EvalSeq(ys, EvalSeq(xs, env))
    decreases |ys|
  {
    if ys == [] {
      assert xs + ys == xs;
    } else {
      assert (xs + ys)[..|xs + ys| - 1] == xs + ys[..|ys| - 1];
      assert (xs + ys)[|xs + ys| - 1] == ys[|ys| - 1];
      EvalSeqAppend(xs, ys[..|ys| - 1], env);
    }
  }

  /** Code that never writes below `fence` (except `d`) leaves those temporaries alone. */
  lemma {:induction false} EvalSeqKeeps(code: seq<Instr>, env: Env, fence: nat, d: nat, k: nat)
    requires CodeWritesOnly(code, fence, d) && k < fence && k != d
    ensures RegVal(EvalSeq(code, env), k) == RegVal(env, k)
    decreases |code|
  {
    if code != [] {
      EvalSeqKeeps(code[..|code| - 1], env, fence, d, k);
      StepKeeps(EvalSeq(code[..|code| - 1], env), code[|code| - 1], k);
    }
  }

  lemma CodeWritesOnlyAppend(xs: seq<Instr>, ys: seq<Instr>, fence: nat, d: nat)
    requires CodeWritesOnly(xs, fence, d) && CodeWritesOnly(ys, fence, d)
    ensures CodeWritesOnly(xs + ys, fence, d)
  {
    forall j | 0 <= j < |xs + ys|
      ensures WritesOnly((xs + ys)[j], fence, d)
    {
      if j < |xs| { assert (xs + ys)[j] == xs[j]; } else { assert (xs + ys)[j] == ys[j - |xs|]; }
    }
  }

  lemma CodeWritesOnlyWeaken(code: seq<Instr>, fence: nat, d: nat, fence0: nat, d0: nat)
    requires CodeWritesOnly(code, fence, d) && fence0 <= fence && (d == d0 || d >= fence0)
    ensures CodeWritesOnly(code, fence0, d0)
  {
    forall j | 0 <= j < |code| ensures WritesOnly(code[j], fence0, d0) {
      assert WritesOnly(code[j], fence, d);
    }
  }

  lemma EvalOne(x: Instr, env: Env)
    ensures EvalSeq([x], env) == Step(env, x)
  {
    assert [x][..0] == [];
  }

  lemma EvalTwo(x: Instr, y: Instr, env: Env)
    ensures EvalSeq([x, y], env) == Step(Step(env, x), y)
  {
    assert [x, y][..1] == [x];
    EvalOne(x, env);
  }

  /** An operand that reads no temporary at or above `fence`. */
  predicate Below(o: Operand, fence: nat)
  {
    o.IsTemp() ==> o.val.temp.id < fence
  }

  /** Run from register file env, `code` leaves a + b (mod 2^32) in temporary d. */
  predicate Adds(code: seq<Instr>, d: nat, a: Operand, b: Operand, env: Env)
  {
    RegVal(EvalSeq(code, env), d) == (Val(env, a) + Val(env, b)) % U32
  }

  /** Run from env, `code` leaves a - b (mod 2^32) in temporary d. */
  predicate Subtracts(code: seq<Instr>, d: nat, a: Operand, b: Operand, env: Env)
  {
    RegVal(EvalSeq(code, env), d) == (Val(env, a) + U32 - Val(env, b)) % U32
  }

  /** Run from env, `code` leaves k times temporary x's value (mod 2^32) in temporary d. */
  predicate Scales(code: seq<Instr>, d: nat, x: nat, k: nat, env: Env)
  {
    RegVal(EvalSeq(code, env), d) == MulLo32(RegVal(env, x), k)
  }

  /** p_parallelcopy of `src` into temporary f. */
  predicate CopyInto(cp: Instr, f: nat, src: Operand)
  {
    cp.opcode == p_parallelcopy && |cp.defs| > 0 && cp.defs[0].temp.id == f && |cp.ops| > 0 && cp.ops[0] == src
  }

  lemma StepCopy(env: Env, cp: Instr)
    requires cp.opcode == p_parallelcopy && |cp.defs| > 0 && |cp.ops| > 0
    ensures RegVal(Step(env, cp), cp.defs[0].temp.id) == Val(env, cp.ops[0])
  {
  }

  lemma StepAdd(env: Env, r: Instr)
    requires AddOpcode(r.opcode) && |r.defs| > 0 && |r.ops| >= 2
    ensures RegVal(Step(env, r), r.defs[0].temp.id) == (Val(env, r.ops[0]) + Val(env, r.ops[1])) % U32
  {
  }

  lemma StepSub(env: Env, r: Instr)
    requires SubOpcode(r.opcode) && |r.defs| > 0 && |r.ops| >= 2
    ensures RegVal(Step(env, r), r.defs[0].temp.id) == (Val(env, r.ops[0]) + U32 - Val(env, r.ops[1])) % U32
  {
  }

  lemma StepSubrev(env: Env, r: Instr)
    requires SubrevOpcode(r.opcode) && |r.defs| > 0 && |r.ops| >= 2
    ensures RegVal(Step(env, r), r.defs[0].temp.id) == (Val(env, r.ops[1]) + U32 - Val(env, r.ops[0])) % U32
  {
  }

  lemma StepShift(env: Env, r: Instr, d: nat, s: nat, x: nat)
    requires r.opcode == v_lshlrev_b32 && |r.defs| > 0 && |r.ops| >= 2 && r.defs[0].temp.id == d
    requires r.ops[0] == ConstOp(s) && s < 32 && Val(env, r.ops[1]) == x
    ensures RegVal(Step(env, r), d) == Shl32(x, s)
  {
    assert Val(env, r.ops[0]) == s;
    assert s % 32 == s;
  }

  lemma StepMulLo(env: Env, r: Instr, d: nat, a: nat, b: nat)
    requires r.opcode == v_mul_lo_u32 && |r.defs| > 0 && |r.ops| >= 2 && r.defs[0].temp.id == d
    requires Val(env, r.ops[0]) == a && Val(env, r.ops[1]) == b
    ensures RegVal(Step(env, r), d) == MulLo32(a, b)
  {
  }

  lemma StepMul24(env: Env, r: Instr, d: nat, a: nat, b: nat)
    requires r.opcode == v_mul_u32_u24 && |r.defs| > 0 && |r.ops| >= 2 && r.defs[0].temp.id == d
    requires Val(env, r.ops[0]) % Low24 == a && Val(env, r.ops[1]) % Low24 == b
    ensures RegVal(Step(env, r), d) == MulLo32(a, b)
  {
  }

  /** The copy vadd32/vsub32 may emit first leaves its source's value in the
    * fresh temporary and every older temporary alone. */
  lemma CopyFirst(env: Env, cp: Instr, fence: nat, src: Operand, x: Operand)
    requires CopyInto(cp, fence, src) && Below(x, fence)
    ensures Val(Step(env, cp), TempOp(Temp(fence, v1))) == Val(env, src)
    ensures Val(Step(env, cp), x) == Val(env, x)
  {
    StepCopy(env, cp);
    if x.IsTemp() { StepKeeps(env, cp, x.val.temp.id); }
  }

  /** What vadd32 emits: the prepared operands, then an instruction on them
    * that is an add exactly when there is no carry-in. */
  predicate AddEmitted(a: Operand, b: Operand, copy: bool, fence: nat, x: Operand, y: Operand, swap: bool,
                       cp: Option<Instr>, prep: seq<Instr>, r: Instr, code: seq<Instr>, carryIn: Operand)
  {
    && SecondPrepared(a, b, copy, fence, x, y, swap, cp, prep) && code == prep + [r]
    && (AddOpcode(r.opcode) <==> carryIn.IsUndefined())
    && |r.defs| > 0 && |r.ops| >= 2 && r.ops[0] == x && r.ops[1] == y
  }

  /** The code vadd32 emits adds its two inputs, in either operand order and
    * with or without the copy of the second one into a fresh VGPR. */
  lemma AddCode(code: seq<Instr>, r: Instr, d: nat, a: Operand, b: Operand, env: Env, copy: bool, fence: nat,
                x: Operand, y: Operand, swap: bool, cp: Option<Instr>, prep: seq<Instr>, carryIn: Operand)
    requires AddEmitted(a, b, copy, fence, x, y, swap, cp, prep, r, code, carryIn) && r.defs[0].temp.id == d
    ensures carryIn.IsUndefined() && Below(a, fence) && Below(b, fence) ==> Adds(code, d, a, b, env)
  {
    if carryIn.IsUndefined() && Below(a, fence) && Below(b, fence) {
      var env1 := env;
      if cp.Some? {
        assert code == [cp.value, r];
        EvalTwo(cp.value, r, env);
        env1 := Step(env, cp.value);
        CopyFirst(env, cp.value, fence, if swap then a else b, r.ops[0]);
      } else {
        assert code == [r];
        EvalOne(r, env);
      }
      StepAdd(env1, r);
    }
  }

  /** What vsub32 emits: the prepared operands, then the subtract on them. */
  predicate SubEmitted(a: Operand, b: Operand, fence: nat, x: Operand, y: Operand, reverse: bool, cp: Option<Instr>,
                       prep: seq<Instr>, r: Instr, code: seq<Instr>, chip: ChipClass, co: bool, borrow: Operand, dst: Definition)
  {
    && SecondPrepared(a, b, true, fence, x, y, reverse, cp, prep) && code == prep + [r]
    && SubShape(r, chip, co, borrow, reverse, dst) && r.ops[0] == x && r.ops[1] == y
  }

  /** The code vsub32 emits subtracts b from a: sub with the operands in
    * order, subrev with them swapped, the second one possibly copied first. */
  lemma SubCode(code: seq<Instr>, r: Instr, d: nat, a: Operand, b: Operand, env: Env, fence: nat, x: Operand, y: Operand,
                reverse: bool, cp: Option<Instr>, prep: seq<Instr>, chip: ChipClass, co: bool, borrow: Operand, dst: Definition)
    requires SubEmitted(a, b, fence, x, y, reverse, cp, prep, r, code, chip, co, borrow, dst) && dst.temp.id == d
    ensures borrow.IsUndefined() && Below(a, fence) && Below(b, fence) ==> Subtracts(code, d, a, b, env)
  {
    if borrow.IsUndefined() && Below(a, fence) && Below(b, fence) {
      SubCodeRun(code, r, d, a, b, env, fence, x, y, reverse, cp, prep);
    }
  }

  /** SubCode once the subtract is known to be a sub (or subrev, swapped). */
  lemma SubCodeRun(code: seq<Instr>, r: Instr, d: nat, a: Operand, b: Operand, env: Env, fence: nat,
                   x: Operand, y: Operand, reverse: bool, cp: Option<Instr>, prep: seq<Instr>)
    requires SecondPrepared(a, b, true, fence, x, y, reverse, cp, prep) && code == prep + [r]
    requires if reverse then SubrevOpcode(r.opcode) else SubOpcode(r.opcode)
    requires |r.defs| > 0 && r.defs[0].temp.id == d && |r.ops| >= 2 && r.ops[0] == x && r.ops[1] == y
    requires Below(a, fence) && Below(b, fence)
    ensures Subtracts(code, d, a, b, env)
  {
    var env1 := env;
    if cp.Some? {
      assert code == [cp.value, r];
      EvalTwo(cp.value, r, env);
      env1 := Step(env, cp.value);
      CopyFirst(env, cp.value, fence, if reverse then a else b, r.ops[0]);
    } else {
      assert code == [r];
      EvalOne(r, env);
    }
    if reverse { StepSubrev(env1, r); } else { StepSub(env1, r); }
  }

  /** Adding x and then subtracting it again, modulo 2^32. */
  lemma AddThenSub(y: nat, x: nat)
    requires x < U32
    ensures ((y + x) % U32 + U32 - x) % U32 == y % U32
  {
    var r := y % U32;
    ModAddBoth(y, x);
    if r + x >= U32 {
      assert (y + x) % U32 == r + x - U32;
    } else {
      assert (y + x) % U32 == r + x;
    }
  }

  /** Subtracting x from x * (k + 1) gives x * k, modulo 2^32. */
  lemma ShiftSubScales(x: nat, k: nat)
    requires x < U32
    ensures (MulLo32(x, k + 1) + U32 - x) % U32 == MulLo32(x, k)
  {
    AddThenSub(MulLo32(x, k), x);
  }

  /** The builder went from (e0, p0) to (e, p) by inserting e's new tail. */
  ghost predicate Extension(e0: seq<Instr>, p0: Placement, e: seq<Instr>, p: Placement)
  {
    |e0| <= |e| && e[..|e0|] == e0 && WellPlaced(p0) && p == InsertAll(p0, e[|e0|..])
  }

  lemma ExtensionOne(e0: seq<Instr>, p0: Placement, x: Instr)
    requires WellPlaced(p0)
    ensures Extension(e0, p0, e0 + [x], InsertOne(p0, x))
  {
    assert (e0 + [x])[|e0|..] == [x];
    assert [x][..0] == [];
  }

  lemma ExtensionTrans(e0: seq<Instr>, p0: Placement, e1: seq<Instr>, p1: Placement, e2: seq<Instr>, p2: Placement)
    requires Extension(e0, p0, e1, p1) && Extension(e1, p1, e2, p2)
    ensures Extension(e0, p0, e2, p2)
    ensures e2[|e0|..] == e1[|e0|..] + e2[|e1|..]
  {
    assert e2[..|e1|] == e1;
    assert e2[|e0|..] == e1[|e0|..] + e2[|e1|..];
    InsertAllAppend(p0, e1[|e0|..], e2[|e1|..]);
  }

  /** A lowering went from (e0, p0) to (e, p): it inserted at least one
    * instruction, and what it inserted writes only temporaries at or above
    * `fence` (the ones it allocated) and d. */
  ghost predicate Lowered(e0: seq<Instr>, p0: Placement, fence: nat, d: nat, e: seq<Instr>, p: Placement)
  {
    Extension(e0, p0, e, p) && |e| > |e0| && CodeWritesOnly(e[|e0|..], fence, d)
  }

  /** How vadd32/vsub32 prepare their operands for a VOP2: the second must be
    * a VGPR temporary, so a and b are swapped unless b already is one; then,
    * when `copy` is set, a second operand that is an SGPR or has no register
    * class is first copied into the fresh VGPR `fence` (the only code emitted). */
  predicate SecondPrepared(a: Operand, b: Operand, copy: bool, fence: nat, x: Operand, y: Operand, swap: bool,
                           cp: Option<Instr>, code: seq<Instr>)
  {
    var y0 := if swap then a else b;
    && (swap <==> !(b.IsTemp() && b.RC().rtype == Vgpr))
    && x == (if swap then b else a)
    && (cp.Some? <==> copy && (!y0.HasRegClass() || y0.RC().rtype == Sgpr))
    && (cp.None? ==> code == [] && y == y0)
    && (cp.Some? ==> code == [cp.value] && CopyInto(cp.value, fence, y0) && y == TempOp(Temp(fence, v1)))
  }

  /** After that preparation the second operand has VGPR class, and what was
    * emitted writes only the fresh temporary. */
  lemma SecondIsVgpr(a: Operand, b: Operand, copy: bool, fence: nat, x: Operand, y: Operand, swap: bool,
                     cp: Option<Instr>, code: seq<Instr>)
    requires SecondPrepared(a, b, copy, fence, x, y, swap, cp, code)
    ensures copy ==> y.HasRegClass() && y.RC().rtype == Vgpr
    ensures CodeWritesOnly(code, fence, fence)
  {
  }

  /** A lowering's last instruction, writing d, after code that wrote only
    * temporaries at or above `fence`. */
  lemma LastInstr(e0: seq<Instr>, p0: Placement, e1: seq<Instr>, p1: Placement, r: Instr, fence: nat, d: nat)
    requires Extension(e0, p0, e1, p1) && CodeWritesOnly(e1[|e0|..], fence, fence)
    requires |r.defs| > 0 && r.defs[0].temp.id == d
    ensures WellPlaced(p1) && Lowered(e0, p0, fence, d, e1 + [r], InsertOne(p1, r))
    ensures (e1 + [r])[|e0|..] == e1[|e0|..] + [r]
  {
    ExtensionOne(e1, p1, r);
    ExtensionTrans(e0, p0, e1, p1, e1 + [r], InsertOne(p1, r));
    assert (e1 + [r])[|e0|..] == e1[|e0|..] + [r];
    CodeWritesOnlyWeaken(e1[|e0|..], fence, fence, fence, d);
    CodeWritesOnlyAppend(e1[|e0|..], [r], fence, d);
  }

  /** The add after vadd32's operand preparation completes its lowering. */
  lemma AddPrepLowered(e0: seq<Instr>, p0: Placement, e1: seq<Instr>, p1: Placement, r: Instr, fence: nat,
                       a: Operand, b: Operand, copy: bool, x: Operand, y: Operand, swap: bool, cp: Option<Instr>,
                       prep: seq<Instr>, chip: ChipClass, carryOut: bool, carryIn: Operand, dst: Definition,
                       dst': Definition, lm: RegClass, e: seq<Instr>, p: Placement)
    requires Extension(e0, p0, e1, p1) && prep == e1[|e0|..] && SecondPrepared(a, b, copy, fence, x, y, swap, cp, prep)
    requires WellPlaced(p1) && e == e1 + [r] && p == InsertOne(p1, r)
    requires AddShape(r, chip, carryOut, carryIn, dst', lm) && dst'.temp == dst.temp && r.ops[0] == x && r.ops[1] == y
    ensures Lowered(e0, p0, fence, dst.temp.id, e, p) && e[|e| - 1] == r
    ensures !copy ==> |e| == |e0| + 1
    ensures copy ==> r.ops[1].HasRegClass() && r.ops[1].RC().rtype == Vgpr
    ensures AddEmitted(a, b, copy, fence, x, y, swap, cp, prep, r, e[|e0|..], carryIn)
  {
    SecondIsVgpr(a, b, copy, fence, x, y, swap, cp, prep);
    LastInstr(e0, p0, e1, p1, r, fence, dst.temp.id);
  }

  /** The literal fallback of v_mul_imm, placed: the copy of imm into the
    * fresh f, then the v_mul_lo_u32 into d. */
  /** The builder went from (e0, p0) to (e1, p1) by inserting the one
    * instruction cp: a copy of the constant imm into the temporary f. */
  ghost predicate LiteralCopied(e0: seq<Instr>, p0: Placement, cp: Instr, e1: seq<Instr>, p1: Placement, f: Temp, imm: nat)
  {
    WellPlaced(p0) && e1 == e0 + [cp] && p1 == InsertOne(p0, cp) && CopyInto(cp, f.id, ConstOp(imm))
  }

  lemma LiteralLowered(e0: seq<Instr>, p0: Placement, fence: nat, cp: Instr, e1: seq<Instr>, p1: Placement, r: Instr,
                       f: Temp, tmp: Temp, imm: nat, d: nat, env: Env, e: seq<Instr>, p: Placement)
    requires LiteralCopied(e0, p0, cp, e1, p1, f, imm) && e == e1 + [r] && p == InsertOne(p1, r)
    requires f.id >= fence > tmp.id && imm < U32
    requires r.opcode == v_mul_lo_u32 && |r.defs| > 0 && r.defs[0].temp.id == d
    requires |r.ops| >= 2 && r.ops[0] == TempOp(f) && r.ops[1] == TempOp(tmp)
    ensures MulLowered(e0, p0, fence, d, e, p, r, MulLo, true, tmp.id, imm, env)
  {
    ExtensionOne(e0, p0, cp);
    assert e1[|e0|..] == [cp];
    LastInstr(e0, p0, e1, p1, r, fence, d);
    assert e[|e0|..] == [cp] + [r] == [cp, r];
    MulLoScales(cp, r, f, tmp, imm, d, env);
  }

  /** The subtract after vsub32's operand preparation completes its lowering. */
  lemma SubLowered(e0: seq<Instr>, p0: Placement, e1: seq<Instr>, p1: Placement, r: Instr, fence: nat,
                   a: Operand, b: Operand, x: Operand, y: Operand, reverse: bool, cp: Option<Instr>, prep: seq<Instr>,
                   chip: ChipClass, co: bool, borrow: Operand, dst: Definition, e: seq<Instr>, p: Placement)
    requires |e0| <= |e1| && |r.ops| >= 2
    requires Extension(e0, p0, e1, p1) && prep == e1[|e0|..] && SecondPrepared(a, b, true, fence, x, y, reverse, cp, prep)
    requires WellPlaced(p1) && e == e1 + [r] && p == InsertOne(p1, r)
    requires SubShape(r, chip, co, borrow, reverse, dst) && r.ops[0] == x && r.ops[1] == y
    ensures Lowered(e0, p0, fence, dst.temp.id, e, p) && e[|e|- 1] == r
    ensures SubEmitted(a, b, fence, x, y, reverse, cp, prep, r, e[|e0|..], chip, co, borrow, dst)
    ensures reverse == !(b.IsTemp() && b.RC().rtype == Vgpr)
    ensures r.ops[1].HasRegClass() && r.ops[1].RC().rtype == Vgpr
  {
    SecondIsVgpr(a, b, true, fence, x, y, reverse, cp, prep);
    LastInstr(e0, p0, e1, p1, r, fence, dst.temp.id);
  }

  /** Two lowerings in a row: the first wrote temporaries at or above f0 or
    * d0, the second ones at or above f1 (allocated later) or d. */
  lemma ThenLowered(e0: seq<Instr>, p0: Placement, e1: seq<Instr>, p1: Placement, e2: seq<Instr>, p2: Placement,
                    f0: nat, d0: nat, f1: nat, d: nat)
    requires Extension(e0, p0, e1, p1) && CodeWritesOnly(e1[|e0|..], f0, d0)
    requires Extension(e1, p1, e2, p2) && CodeWritesOnly(e2[|e1|..], f1, d)
    requires f0 <= f1 && (d0 == d || d0 >= f0)
    ensures Extension(e0, p0, e2, p2) && CodeWritesOnly(e2[|e0|..], f0, d)
    ensures e2[|e0|..] == e1[|e0|..] + e2[|e1|..]
  {
    ExtensionTrans(e0, p0, e1, p1, e2, p2);
    CodeWritesOnlyWeaken(e1[|e0|..], f0, d0, f0, d);
    CodeWritesOnlyWeaken(e2[|e1|..], f1, d, f0, d);
    CodeWritesOnlyAppend(e1[|e0|..], e2[|e1|..], f0, d);
  }

  /** A lowering that starts with one instruction writing only `fence`
    * (freshly allocated) and goes on with a lowering allocating above it. */
  lemma LoweredAfterOne(e0: seq<Instr>, p0: Placement, i: Instr, e1: seq<Instr>, p1: Placement,
                        e2: seq<Instr>, p2: Placement, fence: nat, d: nat)
    requires WellPlaced(p0) && e1 == e0 + [i] && p1 == InsertOne(p0, i) && CodeWritesOnly([i], fence, fence)
    requires Lowered(e1, p1, fence + 1, d, e2, p2)
    ensures Lowered(e0, p0, fence, d, e2, p2) && e2[|e0|..] == [i] + e2[|e1|..]
  {
    ExtensionOne(e0, p0, i);
    assert e1[|e0|..] == [i];
    ThenLowered(e0, p0, e1, p1, e2, p2, fence, fence, fence + 1, d);
  }

  /** The builder went from (e0, p0) to (e1, p1) by inserting the one
    * instruction sh: v_lshlrev_b32 of t by s into the fresh temporary u = fence. */
  ghost predicate ShiftedInto(e0: seq<Instr>, p0: Placement, sh: Instr, e1: seq<Instr>, p1: Placement,
                              fence: nat, u: Temp, t: Temp, s: nat)
  {
    && WellPlaced(p0) && e1 == e0 + [sh] && p1 == InsertOne(p0, sh)
    && sh.opcode == v_lshlrev_b32 && |sh.defs| > 0 && sh.defs[0].temp.id == u.id
    && sh.ops == [ConstOp(s), TempOp(t)] && u.id == fence && t.id < fence && s < 32
  }

  /** v_mul_imm's shift-and-add as a whole: the shift into the fresh
    * `fence`, then an add lowering allocating above it, leaves
    * tmp * (2^s + 1) in d. */
  lemma ShiftAddOnce(e0: seq<Instr>, p0: Placement, sh: Instr, e1: seq<Instr>, p1: Placement,
                     e2: seq<Instr>, p2: Placement, fence: nat, u: Temp, t: Temp, s: nat, imm: nat, d: nat, env: Env)
    requires ShiftedInto(e0, p0, sh, e1, p1, fence, u, t, s) && Lowered(e1, p1, fence + 1, d, e2, p2)
    requires imm == Pow2(s) + 1
    requires UndefOp(s2).IsUndefined() && Below(TempOp(u), fence + 1) && Below(TempOp(t), fence + 1) ==>
      Adds(e2[|e1|..], d, TempOp(u), TempOp(t), EvalSeq([sh], env))
    ensures Lowered(e0, p0, fence, d, e2, p2)
    ensures Scales(e2[|e0|..], d, t.id, imm, env)
  {
    ScalesKeep([], fence, t.id, env);
    assert e2[|e0|..] == [] + e2[|e0|..];
    assert [sh] == [] + [sh];
    ShiftAddLowered(e0, p0, sh, e1, p1, e2, p2, fence, u, t, t, s, [], e2[|e0|..], 1, imm, d, env);
  }

  /** A v_mul_imm lowering went from (e0, p0) to (e, p): it ends in r, has
    * the length and final opcode `plan` asks for and, when `exact`, leaves
    * k times temporary t's value (mod 2^32) in d. */
  ghost predicate MulLowered(e0: seq<Instr>, p0: Placement, fence: nat, d: nat, e: seq<Instr>, p: Placement,
                             r: Instr, plan: MulPlan, exact: bool, t: nat, k: nat, env: Env)
  {
    && Lowered(e0, p0, fence, d, e, p) && e[|e| - 1] == r && MulEnds(plan, r, |e| - |e0|)
    && (exact ==> Scales(e[|e0|..], d, t, k, env))
  }

  /** v_mul_imm's shift-and-subtract as a whole: the shift into the fresh
    * `fence`, then a subtract lowering allocating above it, leaves
    * tmp * (2^s - 1) in d. */
  lemma ShiftSubLowered(e0: seq<Instr>, p0: Placement, sh: Instr, e1: seq<Instr>, p1: Placement,
                        e2: seq<Instr>, p2: Placement, fence: nat, u: Temp, t: Temp, s: nat, imm: nat, d: nat, env: Env)
    requires ShiftedInto(e0, p0, sh, e1, p1, fence, u, t, s) && Lowered(e1, p1, fence + 1, d, e2, p2)
    requires imm + 1 == Pow2(s)
    requires UndefOp(s2).IsUndefined() && Below(TempOp(u), fence + 1) && Below(TempOp(t), fence + 1) ==>
      Subtracts(e2[|e1|..], d, TempOp(u), TempOp(t), EvalSeq([sh], env))
    ensures Lowered(e0, p0, fence, d, e2, p2)
    ensures |e2| >= |e0| + 2
    ensures Scales(e2[|e0|..], d, t.id, imm, env)
  {
    assert CodeWritesOnly([sh], fence, fence);
    LoweredAfterOne(e0, p0, sh, e1, p1, e2, p2, fence, d);
    ScalesKeep([], fence, t.id, env);
    ScalesShift([], sh, t, s, u.id, env);
    ScalesUnwritten([], sh, t.id, t.id, 1, env);
    assert [] + [sh] == [sh];
    ShiftThenSub(e2[|e0|..], sh, e2[|e1|..], u, t, s, imm, d, fence + 1, env);
  }

  /** A shift of t by s into the fresh u, then an add lowering of u and v,
    * after code0 left t * kv in v: t * (2^s + kv). */
  lemma ShiftAddLowered(e0: seq<Instr>, p0: Placement, sh: Instr, e1: seq<Instr>, p1: Placement,
                        e2: seq<Instr>, p2: Placement, fence: nat, u: Temp, v: Temp, t: Temp, s: nat,
                        code0: seq<Instr>, code: seq<Instr>, kv: nat, k: nat, d: nat, env: Env)
    requires ShiftedInto(e0, p0, sh, e1, p1, fence, u, t, s) && Lowered(e1, p1, fence + 1, d, e2, p2)
    requires code == code0 + e2[|e0|..]
    requires Scales(code0, t.id, t.id, 1, env) && Scales(code0, v.id, t.id, kv, env) && v.id < fence && k == Pow2(s) + kv
    requires UndefOp(s2).IsUndefined() && Below(TempOp(u), fence + 1) && Below(TempOp(v), fence + 1) ==>
      Adds(e2[|e1|..], d, TempOp(u), TempOp(v), EvalSeq(code0 + [sh], env))
    ensures Lowered(e0, p0, fence, d, e2, p2)
    ensures Scales(code, d, t.id, k, env)
  {
    assert CodeWritesOnly([sh], fence, fence);
    LoweredAfterOne(e0, p0, sh, e1, p1, e2, p2, fence, d);
    ScalesShift(code0, sh, t, s, u.id, env);
    ScalesUnwritten(code0, sh, v.id, t.id, kv, env);
    assert code == code0 + [sh] + e2[|e1|..];
    ThenAdd(code0 + [sh], e2[|e1|..], code, t.id, u, v, Pow2(s), kv, k, d, env);
  }

  /** An add lowering of t and v, after code0 left t * kv in v: t * (1 + kv). */
  lemma AddLowered(code0: seq<Instr>, tail: seq<Instr>, t: Temp, v: Temp, kv: nat, k: nat, d: nat, fence: nat, env: Env)
    requires Scales(code0, t.id, t.id, 1, env) && Scales(code0, v.id, t.id, kv, env)
    requires t.id < fence && v.id < fence && k == 1 + kv
    requires UndefOp(s2).IsUndefined() && Below(TempOp(t), fence) && Below(TempOp(v), fence) ==>
      Adds(tail, d, TempOp(t), TempOp(v), EvalSeq(code0, env))
    ensures Scales(code0 + tail, d, t.id, k, env)
  {
    ThenAdd(code0, tail, code0 + tail, t.id, t, v, 1, kv, k, d, env);
  }

  /** One inserted instruction that writes d is a lowering into d, and
    * what holds of [r] holds of the code emitted. */
  lemma SingleLowered(e0: seq<Instr>, p0: Placement, fence: nat, r: Instr, d: nat, e: seq<Instr>, p: Placement,
                      x: nat, k: nat, cond: bool, env: Env)
    requires WellPlaced(p0) && e == e0 + [r] && p == InsertOne(p0, r)
    requires |r.defs| > 0 && r.defs[0].temp.id == d
    requires cond ==> Scales([r], d, x, k, env)
    ensures Lowered(e0, p0, fence, d, e, p) && |e| - |e0| == 1
    ensures cond ==> Scales(e[|e0|..], d, x, k, env)
  {
    ExtensionRefl(e0, p0);
    LastInstr(e0, p0, e0, p0, r, fence, d);
    assert e[|e0|..] == [r];
  }

  /** The single v_lshlrev_b32 of a set-bit pass, placed and scaling tmp by 2^shift. */
  lemma ShiftLowered(e0: seq<Instr>, p0: Placement, fence: nat, r: Instr, tmp: Temp, shift: nat, d: nat,
                     code0: seq<Instr>, k: nat, env: Env, e: seq<Instr>, p: Placement)
    requires WellPlaced(p0) && e == e0 + [r] && p == InsertOne(p0, r)
    requires r.opcode == v_lshlrev_b32 && |r.defs| > 0 && r.defs[0].temp.id == d
    requires |r.ops| >= 2 && r.ops[0] == ConstOp(shift) && r.ops[1] == TempOp(tmp)
    requires Scales(code0, tmp.id, tmp.id, 1, env) && shift < 32 && k == Pow2(shift)
    ensures Lowered(e0, p0, fence, d, e, p)
    ensures Scales(code0 + e[|e0|..], d, tmp.id, k, env)
  {
    ExtensionRefl(e0, p0);
    LastInstr(e0, p0, e0, p0, r, fence, d);
    assert e[|e0|..] == [r];
    ScalesShift(code0, r, tmp, shift, d, env);
  }

  lemma ExtensionRefl(e0: seq<Instr>, p0: Placement)
    requires WellPlaced(p0)
    ensures Extension(e0, p0, e0, p0) && e0[|e0|..] == []
  {
  }

  // ---------------------------------------------------------------------
  // What the multiply lowerings compute
  // ---------------------------------------------------------------------

  /** Code that writes only temporaries at or above `fence` keeps t (below it). */
  lemma ScalesKeep(code: seq<Instr>, fence: nat, t: nat, env: Env)
    requires CodeWritesOnly(code, fence, fence) && t < fence
    ensures Scales(code, t, t, 1, env)
  {
    EvalSeqKeeps(code, env, fence, fence, t);
    MulLo32One(RegVal(env, t));
  }

  /** An instruction that does not write u keeps what code left in u. */
  lemma ScalesUnwritten(code: seq<Instr>, i: Instr, u: nat, t: nat, k: nat, env: Env)
    requires Scales(code, u, t, k, env) && (|i.defs| > 0 ==> i.defs[0].temp.id != u)
    ensures Scales(code + [i], u, t, k, env)
  {
    EvalSeqAppend(code, [i], env);
    EvalOne(i, EvalSeq(code, env));
    StepKeeps(EvalSeq(code, env), i, u);
  }

  /** v_lshlrev_b32 d, s, t after code that kept t leaves t * 2^s in d. */
  lemma ScalesShift(code: seq<Instr>, sh: Instr, t: Temp, s: nat, d: nat, env: Env)
    requires Scales(code, t.id, t.id, 1, env) && s < 32
    requires sh.opcode == v_lshlrev_b32 && |sh.defs| > 0 && sh.defs[0].temp.id == d
    requires |sh.ops| >= 2 && sh.ops[0] == ConstOp(s) && sh.ops[1] == TempOp(t)
    ensures Scales(code + [sh], d, t.id, Pow2(s), env)
  {
    EvalSeqAppend(code, [sh], env);
    var env1, x := EvalSeq(code, env), RegVal(env, t.id);
    EvalOne(sh, env1);
    assert Val(env1, sh.ops[1]) == x by { MulLo32One(x); }
    StepShift(env1, sh, d, s, x);
    Shl32IsMulLo(x, s);
  }

  /** Adding what code left in u and v gives the sum of their multiples. */
  lemma ThenAdd(c1: seq<Instr>, c2: seq<Instr>, code: seq<Instr>, t: nat, u: Temp, v: Temp, ku: nat, kv: nat, k: nat,
                d: nat, env: Env)
    requires Scales(c1, u.id, t, ku, env) && Scales(c1, v.id, t, kv, env)
    requires Adds(c2, d, TempOp(u), TempOp(v), EvalSeq(c1, env))
    requires code == c1 + c2 && k == ku + kv
    ensures Scales(code, d, t, k, env)
  {
    EvalSeqAppend(c1, c2, env);
    MulLo32Sum(RegVal(env, t), ku, kv, k);
  }

  /** Subtracting t from what code left in u (t * (k + 1)) gives t * k. */
  lemma ThenSubOne(c1: seq<Instr>, c2: seq<Instr>, t: Temp, u: Temp, k: nat, d: nat, env: Env)
    requires Scales(c1, u.id, t.id, k + 1, env) && Scales(c1, t.id, t.id, 1, env)
    requires Subtracts(c2, d, TempOp(u), TempOp(t), EvalSeq(c1, env))
    ensures Scales(c1 + c2, d, t.id, k, env)
  {
    EvalSeqAppend(c1, c2, env);
    var x := RegVal(env, t.id);
    MulLo32One(x);
    var e1 := EvalSeq(c1, env);
    assert Val(e1, TempOp(u)) == MulLo32(x, k + 1) && Val(e1, TempOp(t)) == x;
    ShiftSubScales(x, k);
  }

  /** (tmp << s) - tmp, the subtract run after the shift: tmp * (2^s - 1). */
  lemma ShiftThenSub(code: seq<Instr>, sh: Instr, tail: seq<Instr>, u: Temp, t: Temp, s: nat, k: nat, d: nat, fence: nat, env: Env)
    requires Scales([sh], u.id, t.id, Pow2(s), env) && Scales([sh], t.id, t.id, 1, env)
    requires code == [sh] + tail && u.id < fence && t.id < fence && k + 1 == Pow2(s)
    requires UndefOp(s2).IsUndefined() && Below(TempOp(u), fence) && Below(TempOp(t), fence) ==>
      Subtracts(tail, d, TempOp(u), TempOp(t), EvalSeq([sh], env))
    ensures Scales(code, d, t.id, k, env)
  {
    ThenSubOne([sh], tail, t, u, k, d, env);
  }

  /** A copy of the constant 0, or of t itself, scales t by 0 or 1. */
  lemma CopyScales(r: Instr, d: nat, src: Operand, t: nat, k: nat, env: Env)
    requires CopyInto(r, d, src)
    requires (src == ConstOp(0) && k == 0) || (src.IsTemp() && src.val.temp.id == t && k == 1)
    ensures Scales([r], d, t, k, env)
  {
    EvalOne(r, env);
    StepCopy(env, r);
    MulLo32One(RegVal(env, t));
  }

  /** v_mul_u32_u24 d, imm, t: t * imm whenever both are below 2^24. */
  lemma Mul24Scales(r: Instr, d: nat, t: Temp, imm: nat, env: Env)
    requires r.opcode == v_mul_u32_u24 && |r.defs| > 0 && r.defs[0].temp.id == d
    requires |r.ops| >= 2 && r.ops[0] == ConstOp(imm) && r.ops[1] == TempOp(t)
    requires imm < Low24 && RegVal(env, t.id) < Low24
    ensures Scales([r], d, t.id, imm, env)
  {
    var x := RegVal(env, t.id);
    assert Val(env, r.ops[0]) % Low24 == imm;
    assert Val(env, r.ops[1]) % Low24 == x;
    EvalOne(r, env);
    StepMul24(env, r, d, imm, x);
    MulLo32Comm(imm, x);
  }

  /** The literal fallback: a copy of imm into f, then v_mul_lo_u32 d, f, t. */
  lemma MulLoScales(cp: Instr, r: Instr, f: Temp, t: Temp, imm: nat, d: nat, env: Env)
    requires CopyInto(cp, f.id, ConstOp(imm)) && imm < U32 && f.id != t.id
    requires r.opcode == v_mul_lo_u32 && |r.defs| > 0 && r.defs[0].temp.id == d
    requires |r.ops| >= 2 && r.ops[0] == TempOp(f) && r.ops[1] == TempOp(t)
    ensures Scales([cp, r], d, t.id, imm, env)
  {
    EvalTwo(cp, r, env);
    var env1 := Step(env, cp);
    StepCopy(env, cp);
    StepKeeps(env, cp, t.id);
    var x := RegVal(env, t.id);
    StepMulLo(env1, r, d, imm, x);
    MulLo32Comm(imm, x);
  }

  // ---------------------------------------------------------------------
  // Opcode choice of the add and subtract lowerings
  // ---------------------------------------------------------------------

  /** The add vadd32 emits: with a carry-in the add-with-carry, a carry-less
    * add only from GFX9 on and only without a requested carry-out, and the
    * VOP3 carry-out encoding only on GFX10+. */
  function VAddOpcode(chip: ChipClass, carryOut: bool, hasCarryIn: bool): (op: Opcode)
    ensures AddOpcode(op) <==> !hasCarryIn
    ensures op == v_add_u32 <==> !hasCarryIn && !carryOut && AtLeast(chip, GFX9)
    ensures op == v_add_co_u32_e64 <==> !hasCarryIn && carryOut && AtLeast(chip, GFX10)
  {
    if hasCarryIn then v_addc_co_u32
    else if AtLeast(chip, GFX10) && carryOut then v_add_co_u32_e64
    else if !AtLeast(chip, GFX9) || carryOut then v_add_co_u32
    else v_add_u32
  }

  /** The instruction vadd32 ends with: the chosen add in its encoding, the
    * destination first, the carry definition (in the lane-mask class, hinted
    * to vcc in the VOP2 forms) whenever the opcode has one, and the
    * carry-in as third operand when there is one. */
  predicate AddShape(r: Instr, chip: ChipClass, carryOut: bool, carryIn: Operand, dst: Definition, lm: RegClass)
  {
    && r.opcode == VAddOpcode(chip, carryOut, !carryIn.IsUndefined())
    && r.format == (if r.opcode == v_add_co_u32_e64 then {VOP3} else {VOP2})
    && |r.defs| == (if r.opcode == v_add_u32 then 1 else 2) && r.defs[0] == dst
    && (|r.defs| == 2 ==> r.defs[1].temp.rc == lm && (r.opcode != v_add_co_u32_e64 ==> r.defs[1].hint == Some(Vcc)))
    && |r.ops| == (if carryIn.IsUndefined() then 2 else 3) && (|r.ops| == 3 ==> r.ops[2] == carryIn)
  }

  /** The instruction vsub32 ends with: the chosen subtract in its encoding,
    * the destination first and, exactly when there is a carry-out, a fresh
    * s2 carry hinted to vcc; the borrow as third operand when there is one. */
  predicate SubShape(r: Instr, chip: ChipClass, carryOut: bool, borrow: Operand, reverse: bool, dst: Definition)
  {
    && (!borrow.IsUndefined() ==> carryOut)
    && r.opcode == VSubOpcode(chip, carryOut, !borrow.IsUndefined(), reverse)
    && r.format == (if r.opcode == v_sub_co_u32_e64 || r.opcode == v_subrev_co_u32_e64 then {VOP3} else {VOP2})
    && |r.defs| == (if carryOut then 2 else 1) && r.defs[0] == dst
    && (carryOut ==> r.defs[1].hint == Some(Vcc) && r.defs[1].temp.rc == s2)
    && |r.ops| == (if borrow.IsUndefined() then 2 else 3) && (|r.ops| == 3 ==> r.ops[2] == borrow)
  }

  /** vsub32 asks for a carry-out when its caller does, when there is a
    * borrow-in, and always before GFX9 (which has no carry-less subtract). */
  function ForcedCarry(chip: ChipClass, carryOut: bool, hasBorrow: bool): (co: bool)
    ensures co <==> carryOut || hasBorrow || !AtLeast(chip, GFX9)
  {
    carryOut || hasBorrow || !AtLeast(chip, GFX9)
  }

  /** The subtract vsub32 emits for a (forced) carry-out, a borrow and the
    * operand order: a plain subtract exactly when there is no borrow, the
    * reversed form exactly when the operands were swapped, the carry-less
    * forms exactly without carry-out, and VOP3 only on GFX10+. */
  function VSubOpcode(chip: ChipClass, carryOut: bool, hasBorrow: bool, reverse: bool): (op: Opcode)
    requires hasBorrow ==> carryOut
    ensures SubOpcode(op) <==> !hasBorrow && !reverse
    ensures SubrevOpcode(op) <==> !hasBorrow && reverse
    ensures (op == v_subb_co_u32 || op == v_subbrev_co_u32) <==> hasBorrow && carryOut
    ensures (op == v_sub_u32 || op == v_subrev_u32) <==> !carryOut
    ensures (op == v_sub_co_u32_e64 || op == v_subrev_co_u32_e64) <==> carryOut && !hasBorrow && AtLeast(chip, GFX10)
  {
    var base :=
      if carryOut then
        if !hasBorrow then (if reverse then v_subrev_co_u32 else v_sub_co_u32)
        else (if reverse then v_subbrev_co_u32 else v_subb_co_u32)
      else if reverse then v_subrev_u32 else v_sub_u32;
    if AtLeast(chip, GFX10) && base == v_subrev_co_u32 then v_subrev_co_u32_e64
    else if AtLeast(chip, GFX10) && base == v_sub_co_u32 then v_sub_co_u32_e64
    else base
  }

  // ---------------------------------------------------------------------
  // How v_mul_imm multiplies by a constant
  // ---------------------------------------------------------------------

  /** The code shapes v_mul_imm chooses between. */
  datatype MulPlan =
    | CopyZero            // p_parallelcopy dst, 0
    | CopyTmp             // p_parallelcopy dst, tmp
    | ShiftBy(s: nat)     // v_lshlrev_b32 dst, s, tmp
    | Mul24               // v_mul_u32_u24 dst, imm, tmp
    | ShiftAdd(s: nat)    // (tmp << s) + tmp
    | ShiftSub(s: nat)    // (tmp << s) - tmp
    | SetBits             // one shift and one add per set bit
    | MulLo               // s1 copy of imm, then v_mul_lo_u32

  /** The cost of v_mul_lo_u32 against a plain VALU instruction: its latency
    * ratio (1.6x on GFX10+, 4x before), plus one for a literal operand. */
  function MulCost(chip: ChipClass, immIsLiteral: bool): (c: nat)
    ensures c == 1 <==> AtLeast(chip, GFX10)
    ensures c > 2 <==> !AtLeast(chip, GFX10)
  {
    if AtLeast(chip, GFX10) then 1 else 4 + (if immIsLiteral then 1 else 0)
  }

  /** The estimated length of the set-bit decomposition: one instruction per
    * set bit with v_lshl_add_u32 (GFX9+), else a shift per set bit above bit
    * 0 plus an add per set bit but one. */
  function InstrsRequired(chip: ChipClass, imm: nat): (n: nat)
    requires imm > 0
    ensures AtLeast(chip, GFX9) ==> n == PopCount(imm)
    ensures !AtLeast(chip, GFX9) ==> n == 2 * PopCount(imm) - imm % 2 - 1
  {
    PopCountPositive(imm);
    if AtLeast(chip, GFX9) then PopCount(imm)
    else (PopCount(imm) - imm % 2) + (PopCount(imm) - 1)
  }

  /** The choice v_mul_imm makes, first match wins. */
  function MulImmPlan(chip: ChipClass, imm: nat, bits24: bool, immIsLiteral: bool): (p: MulPlan)
    requires imm < U32
    ensures p == CopyZero <==> imm == 0
    ensures p == CopyTmp <==> imm == 1
    ensures p.ShiftBy? <==> imm > 1 && IsPow2(imm)
    ensures p.ShiftBy? ==> imm == Pow2(p.s) && p.s < 32
    ensures p == Mul24 ==> bits24 && imm > 1 && !IsPow2(imm)
    ensures p.ShiftAdd? ==> imm == Pow2(p.s) + 1 && p.s < 32
    ensures p.ShiftSub? ==> imm + 1 == Pow2(p.s) && p.s < 32 && MulCost(chip, immIsLiteral) > 2
    ensures p == SetBits ==> imm > 1 && InstrsRequired(chip, imm) < MulCost(chip, immIsLiteral)
    ensures p == MulLo ==> imm > 1 && !bits24 && InstrsRequired(chip, imm) >= MulCost(chip, immIsLiteral)
  {
    if imm == 0 then CopyZero
    else if imm == 1 then CopyTmp
    else if IsPow2(imm) then
      Pow2OfLowest(imm);
      LowestSetBitBelow32(imm);
      ShiftBy(LowestSetBit(imm))
    else if bits24 then Mul24
    else if IsPow2(imm - 1) then
      Pow2OfLowest(imm - 1);
      LowestSetBitBelow32(imm - 1);
      ShiftAdd(LowestSetBit(imm - 1))
    else if MulCost(chip, immIsLiteral) > 2 && IsPow2((imm + 1) % U32) then
      Pow2OfLowest((imm + 1) % U32);
      LowestSetBitBelow32((imm + 1) % U32);
      ShiftSub(LowestSetBit((imm + 1) % U32))
    else if InstrsRequired(chip, imm) < MulCost(chip, immIsLiteral) then SetBits
    else MulLo
  }

  /** From GFX10 on v_mul_lo_u32 is cheap enough that v_mul_imm never
    * decomposes a constant into set bits or a shift-and-subtract. */
  lemma MulPlanOnGfx10(chip: ChipClass, imm: nat, bits24: bool, immIsLiteral: bool)
    requires imm < U32 && AtLeast(chip, GFX10)
    ensures var p := MulImmPlan(chip, imm, bits24, immIsLiteral); p != SetBits && !p.ShiftSub?
  {
    if imm > 0 { PopCountPositive(imm); }
  }

  /** What v_mul_imm's result is, and how many instructions it emitted (n),
    * for each plan. */
  /** What each plan needs of imm. */
  predicate PlanFits(p: MulPlan, imm: nat)
  {
    match p
    case CopyZero => imm == 0
    case CopyTmp => imm == 1
    case ShiftBy(s) => imm == Pow2(s) && s < 32
    case Mul24 => true
    case ShiftAdd(s) => imm == Pow2(s) + 1 && s < 32
    case ShiftSub(s) => imm + 1 == Pow2(s) && s < 32
    case SetBits => imm > 1
    case MulLo => true
  }

  /** The plans that emit a single instruction. */
  predicate SingleStep(p: MulPlan)
  {
    p.CopyZero? || p.CopyTmp? || p.ShiftBy? || p.Mul24?
  }

  predicate MulEnds(p: MulPlan, r: Instr, n: nat)
  {
    match p
    case CopyZero => n == 1 && r.opcode == p_parallelcopy && r.ops == [ConstOp(0)]
    case CopyTmp => n == 1 && r.opcode == p_parallelcopy
    case ShiftBy(s) => n == 1 && r.opcode == v_lshlrev_b32 && |r.ops| == 2 && r.ops[0] == ConstOp(s)
    case Mul24 => n == 1 && r.opcode == v_mul_u32_u24
    case ShiftAdd(_) => n >= 2 && AddOpcode(r.opcode)
    case ShiftSub(_) => n >= 2 && SubOpcode(r.opcode)
    case SetBits => n >= 1 && (AddOpcode(r.opcode) || r.opcode == v_lshlrev_b32)
    case MulLo => n == 2 && r.opcode == v_mul_lo_u32
  }

  /** What v_mul_imm's set-bit loop keeps, with the bits `done` of imm
    * handled and the bits rem left, in builder state (e, p, alloc): the
    * code emitted since (e0, p0) writes only temporaries from `fence` on
    * (and dst once rem is empty), res is the last instruction emitted if
    * any, and the running sum cur, when there is one, holds tmp * done. */
  ghost predicate SetBitsState(e0: seq<Instr>, p0: Placement, fence: nat, dst: Definition, tmp: Temp, env: Env,
                               rem: nat, cur: Option<Temp>, res: Option<Instr>, done: nat,
                               e: seq<Instr>, p: Placement, alloc: nat)
  {
    && tmp.id < fence <= alloc && Extension(e0, p0, e, p)
    && (cur.None? ==> done == 0)
    && (res.Some? <==> |e| > |e0|) && (res.Some? ==> e[|e| - 1] == res.value)
    && (res.Some? ==> AddOpcode(res.value.opcode) || res.value.opcode == v_lshlrev_b32)
    && (rem != 0 ==> CodeWritesOnly(e[|e0|..], fence, fence))
    && (rem == 0 ==> cur == Some(dst.temp) && res.Some? && CodeWritesOnly(e[|e0|..], fence, dst.temp.id))
    && (cur.Some? && rem != 0 ==> cur.value.id < alloc)
    && (cur.Some? ==> Scales(e[|e0|..], cur.value.id, tmp.id, done, env))
  }

  /** A pass that emitted code into tmpDst (a fresh temporary, or dst for
    * the last bit) keeps the loop's state. */
  lemma PassEmits(e0: seq<Instr>, p0: Placement, fence: nat, dst: Definition, tmp: Temp, env: Env,
                  rem: nat, cur: Option<Temp>, res: Option<Instr>, done: nat,
                  e1: seq<Instr>, p1: Placement, a0: nat, f1: nat, tmpDst: Definition, shift: nat, r: Instr, code0: seq<Instr>,
                  rem2: nat, cur2: Option<Temp>, res2: Option<Instr>, done2: nat, e2: seq<Instr>, p2: Placement, a2: nat)
    requires SetBitsState(e0, p0, fence, dst, tmp, env, rem, cur, res, done, e1, p1, a0)
    requires rem2 == rem - Pow2(shift) && done2 == done + Pow2(shift) && cur2 == Some(tmpDst.temp) && res2 == Some(r)
    requires 0 < rem && Pow2(shift) <= rem && a0 <= f1 <= a2
    requires rem2 != 0 ==> tmpDst.temp.id == a0 < f1
    requires rem2 == 0 ==> tmpDst == dst
    requires Lowered(e1, p1, f1, tmpDst.temp.id, e2, p2) && e2[|e2| - 1] == r
    requires AddOpcode(r.opcode) || r.opcode == v_lshlrev_b32
    requires code0 == e1[|e0|..] && Scales(code0 + e2[|e1|..], tmpDst.temp.id, tmp.id, done2, env)
    ensures SetBitsState(e0, p0, fence, dst, tmp, env, rem2, cur2, res2, done2, e2, p2, a2)
  {
    ThenLowered(e0, p0, e1, p1, e2, p2, fence, fence, f1, tmpDst.temp.id);
    if rem - Pow2(shift) != 0 {
      CodeWritesOnlyWeaken(e2[|e0|..], fence, tmpDst.temp.id, fence, fence);
    }
  }

  /** A pass for bit 0 with no running sum emits nothing and makes tmp the
    * running sum (tmp * 1). */
  lemma PassSkips(e0: seq<Instr>, p0: Placement, fence: nat, dst: Definition, tmp: Temp, env: Env,
                  rem: nat, res: Option<Instr>, e1: seq<Instr>, p1: Placement, a0: nat,
                  rem2: nat, cur2: Option<Temp>, done2: nat, a1: nat)
    requires SetBitsState(e0, p0, fence, dst, tmp, env, rem, None, res, 0, e1, p1, a0)
    requires rem > 1 && a0 <= a1 && rem2 == rem - 1 && cur2 == Some(tmp) && done2 == 1
    ensures SetBitsState(e0, p0, fence, dst, tmp, env, rem2, cur2, res, done2, e1, p1, a1)
  {
    ScalesKeep(e1[|e0|..], fence, tmp.id, env);
  }

  // ---------------------------------------------------------------------
  // The builder
  // ---------------------------------------------------------------------

  /** A block's instruction vector. */
  class InstrList {
    var instrs: seq<Instr>

    constructor (s: seq<Instr>)
      ensures instrs == s
    {
      instrs := s;
    }
  }

  class Builder {
    var program: Program?
    var useIterator: bool
    /** Only meaningful when useIterator is false: prepend instead of append. */
    var start: bool
    var lm: RegClass
    var instructions: InstrList?
    var it: nat
    var isPrecise: bool
    var isNuw: bool
    /** Every instruction inserted through this builder, in call order. */
    ghost var emitted: seq<Instr>

    /** The target list and where the next insert goes. */
    ghost function Place(): Placement
      reads this, instructions
    {
      if instructions == null then Placement([], Nowhere)
      else Placement(instructions.instrs,
                     if useIterator then Before(it) else if start then AtStart else AtEnd)
    }

    predicate Valid()
      reads this, instructions, program
    {
      && (instructions != null && useIterator ==> it <= |instructions.instrs|)
      && (lm == s1 || lm == s2)
      && (program != null ==> program.Valid())
    }

    /** The configuration an insert leaves alone. */
    ghost function Config(): (Program?, InstrList?, bool, bool, RegClass, bool, bool)
      reads this
    {
      (program, instructions, useIterator, start, lm, isPrecise, isNuw)
    }

    /** Builder(pgm), Builder(pgm, block) and Builder(pgm, instrs): append to
      * `instrs` (or nowhere); the lane mask comes from the program, s2 without one. */
    constructor (pgm: Program?, instrs: InstrList?)
      requires pgm != null ==> pgm.Valid()
      ensures Valid() && emitted == []
      ensures program == pgm && instructions == instrs && !useIterator && !start
      ensures lm == (if pgm != null then pgm.laneMask else s2) && !isPrecise && !isNuw
    {
      program := pgm;
      useIterator := false;
      start := false;
      lm := if pgm != null then pgm.laneMask else s2;
      instructions := instrs;
      it := 0;
      isPrecise := false;
      isNuw := false;
      emitted := [];
    }

    /** precise(): a copy of the builder that marks definitions precise. */
    method Precise() returns (b: Builder)
      requires Valid()
      ensures fresh(b) && b.Valid() && b.isPrecise && b.emitted == []
      ensures (b.program, b.instructions, b.useIterator, b.start, b.lm, b.isNuw, b.it) ==
              (program, instructions, useIterator, start, lm, isNuw, it)
    {
      b := new Builder(program, instructions);
      b.useIterator, b.start, b.lm, b.it, b.isPrecise, b.isNuw := useIterator, start, lm, it, true, isNuw;
    }

    /** nuw(): a copy of the builder that marks definitions no-unsigned-wrap. */
    method Nuw() returns (b: Builder)
      requires Valid()
      ensures fresh(b) && b.Valid() && b.isNuw && b.emitted == []
      ensures (b.program, b.instructions, b.useIterator, b.start, b.lm, b.isPrecise, b.it) ==
              (program, instructions, useIterator, start, lm, isPrecise, it)
    {
      b := new Builder(program, instructions);
      b.useIterator, b.start, b.lm, b.it, b.isPrecise, b.isNuw := useIterator, start, lm, it, isPrecise, true;
    }

    /** moveEnd(block): switch the target list, keeping the mode. */
    method MoveEnd(instrs: InstrList)
      requires Valid() && (useIterator ==> it <= |instrs.instrs|)
      modifies this
      ensures Valid() && instructions == instrs
      ensures (program, useIterator, start, lm, isPrecise, isNuw, it, emitted) ==
              old((program, useIterator, start, lm, isPrecise, isNuw, it, emitted))
    {
      instructions := instrs;
    }

    /** reset(), reset(block), reset(instrs): append to `instrs`, or nowhere. */
    method Reset(instrs: InstrList?)
      requires Valid()
      modifies this
      ensures Valid() && instructions == instrs && !useIterator && !start
      ensures (program, lm, isPrecise, isNuw, it, emitted) == old((program, lm, isPrecise, isNuw, it, emitted))
    {
      useIterator := false;
      start := false;
      instructions := instrs;
    }

    /** reset(instrs, it): insert before position `pos` of `instrs`. */
    method ResetAt(instrs: InstrList, pos: nat)
      requires Valid() && pos <= |instrs.instrs|
      modifies this
      ensures Valid() && instructions == instrs && useIterator && !start && it == pos
      ensures Place() == Placement(instrs.instrs, Before(pos))
      ensures (program, lm, isPrecise, isNuw, emitted) == old((program, lm, isPrecise, isNuw, emitted))
    {
      useIterator := true;
      start := false;
      instructions := instrs;
      it := pos;
    }

    /** insert: place `instr` according to the mode; the instruction is
      * handed back even when there is no target list. */
    method Insert(instr: Instr) returns (r: Instr)
      requires Valid()
      modifies this, instructions
      ensures Valid() && r == instr && Config() == old(Config())
      ensures program == old(program) && (program != null ==> unchanged(program))
      ensures Place() == InsertOne(old(Place()), instr) && emitted == old(emitted) + [instr]
    {
      if instructions != null {
        if useIterator {
          instructions.instrs := instructions.instrs[..it] + [instr] + instructions.instrs[it..];
          it := it + 1;
        } else if !start {
          instructions.instrs := instructions.instrs + [instr];
        } else {
          instructions.instrs := [instr] + instructions.instrs;
        }
      }
      emitted := emitted + [instr];
      r := instr;
    }

    /** The generated factory methods (pseudo, sop1, vop2, vop3, …): build an
      * instruction of the factory's format from definitions and operands,
      * flag the definitions precise/nuw from the builder, and insert it. */
    method Emit(f: Factory, opcode: Opcode, defs: seq<Definition>, ops: seq<Operand>) returns (r: Instr)
      requires Valid() && ShapeOk(f, |defs|, |ops|)
      modifies this, instructions
      ensures Valid() && Config() == old(Config()) && program == old(program)
      ensures program != null ==> unchanged(program)
      ensures r == Instr(opcode, FactoryFormat(f), ops, Flagged(defs, isPrecise, isNuw), NoExtra)
      ensures forall i :: 0 <= i < |defs| ==>
                r.defs[i].temp == defs[i].temp && r.defs[i].fixed == defs[i].fixed && r.defs[i].hint == defs[i].hint
                && r.defs[i].precise == isPrecise && r.defs[i].nuw == isNuw
      ensures Place() == InsertOne(old(Place()), r) && emitted == old(emitted) + [r]
    {
      var instr := Instr(opcode, FactoryFormat(f), ops, Flagged(defs, isPrecise, isNuw), NoExtra);
      r := Insert(instr);
    }

    /** The sop1/sop2/sopc overloads taking a wave-specific opcode. */
    method EmitWave(f: Factory, opcode: WaveSpecificOpcode, defs: seq<Definition>, ops: seq<Operand>) returns (r: Instr)
      requires Valid() && program != null && f in {FSop1, FSop2, FSopc} && ShapeOk(f, |defs|, |ops|)
      modifies this, instructions
      ensures Valid() && Config() == old(Config()) && program == old(program)
      ensures r.opcode == W64or32(program.waveSize, opcode) && r.format == FactoryFormat(f)
      ensures r.ops == ops && r.defs == Flagged(defs, isPrecise, isNuw)
      ensures Place() == InsertOne(old(Place()), r) && emitted == old(emitted) + [r]
    {
      r := Emit(f, W64or32(program.waveSize, opcode), defs, ops);
    }

    /** tmp(rc): a fresh temporary. */
    method Tmp(rc: RegClass) returns (t: Temp)
      requires Valid() && program != null
      modifies program
      ensures Valid() && t == Temp(old(program.allocationId), rc) && t.id > 0
      ensures program.allocationId == old(program.allocationId) + 1 && program.Settings() == old(program.Settings())
    {
      t := program.AllocateTmp(rc);
    }

    /** def(rc): a definition of a fresh temporary. */
    method NewDef(rc: RegClass) returns (d: Definition)
      requires Valid() && program != null
      modifies program
      ensures Valid() && d == Def(Temp(old(program.allocationId), rc)) && d.temp.id > 0
      ensures program.allocationId == old(program.allocationId) + 1 && program.Settings() == old(program.Settings())
    {
      var t := program.AllocateTmp(rc);
      d := Def(t);
    }

    /** def(rc, reg): a definition of a fresh id fixed to a physical register. */
    method NewFixedDef(rc: RegClass, reg: PhysReg) returns (d: Definition)
      requires Valid() && program != null
      modifies program
      ensures Valid() && d == Definition(Temp(old(program.allocationId), rc), Some(reg), None, false, false)
      ensures program.allocationId == old(program.allocationId) + 1 && program.Settings() == old(program.Settings())
    {
      var id := program.AllocateId(rc);
      d := Definition(Temp(id, rc), Some(reg), None, false, false);
    }

    /** hint_m0(rc), hint_vcc(rc), …: a fresh definition hinted to the register. */
    method NewHintDef(reg: PhysReg, rc: RegClass) returns (d: Definition)
      requires Valid() && program != null && BuilderReg(reg) && FitsReg(reg, rc)
      modifies program
      ensures Valid() && d == HintDef(reg, Def(Temp(old(program.allocationId), rc)))
      ensures program.allocationId == old(program.allocationId) + 1 && program.Settings() == old(program.Settings())
    {
      var t := NewDef(rc);
      d := HintDef(reg, t);
    }

    /** copy(dst, op): a p_parallelcopy of `op` into `dst`. */
    method Copy(dst: Definition, op: Operand) returns (r: Instr)
      requires Valid()
      modifies this, instructions
      ensures Valid() && Config() == old(Config()) && program == old(program)
      ensures program != null ==> unchanged(program)
      ensures r == Instr(p_parallelcopy, {PSEUDO}, [op], Flagged([dst], isPrecise, isNuw), NoExtra)
      ensures CopyInto(r, dst.temp.id, op)
      ensures Place() == InsertOne(old(Place()), r) && emitted == old(emitted) + [r]
    {
      r := Emit(FPseudo, p_parallelcopy, [dst], [op]);
    }

    /** as_uniform(op): a VGPR temporary is moved into a fresh SGPR temporary
      * of the same size in dwords (p_as_uniform); anything else is already
      * uniform and comes back as it is, with nothing emitted. */
    method AsUniform(op: Operand) returns (t: Temp)
      requires Valid() && program != null && op.IsTemp()
      modifies this, instructions, program
      ensures Valid() && Config() == old(Config()) && program == old(program)
      ensures t.rc.rtype == Sgpr
      ensures op.val.temp.rc.rtype == Sgpr ==> t == op.val.temp && emitted == old(emitted)
      ensures op.val.temp.rc.rtype == Vgpr ==>
        && t == Temp(old(program.allocationId), RegClass(Sgpr, 4 * ((op.Bytes() + 3) / 4)))
        && t.rc.bytes >= op.Bytes()
        && emitted == old(emitted) + [Instr(p_as_uniform, {PSEUDO}, [op], Flagged([Def(t)], isPrecise, isNuw), NoExtra)]
      ensures Extension(old(emitted), old(Place()), emitted, Place())
    {
      ExtensionOne(emitted, Place(), Instr(p_as_uniform, {PSEUDO}, [op], [], NoExtra));
      if op.val.temp.rc.rtype == Vgpr {
        var d := NewDef(RegClass(Sgpr, 4 * ((op.Bytes() + 3) / 4)));
        ghost var e0, p0 := emitted, Place();
        var r := Emit(FPseudo, p_as_uniform, [d], [op]);
        ExtensionOne(e0, p0, r);
        t := d.temp;
      } else {
        t := op.val.temp;
        assert emitted[|emitted|..] == [];
      }
    }

    /** readlane: the VOP3 encoding from GFX8 on, the VOP2 one before. */
    method ReadLane(dst: Definition, vsrc: Operand, lane: Operand) returns (r: Instr)
      requires Valid() && program != null
      modifies this, instructions
      ensures Valid() && Config() == old(Config()) && program == old(program)
      ensures AtLeast(program.chipClass, GFX8) ==> r.opcode == v_readlane_b32_e64 && r.format == {VOP3}
      ensures !AtLeast(program.chipClass, GFX8) ==> r.opcode == v_readlane_b32 && r.format == {VOP2}
      ensures r.ops == [vsrc, lane] && r.defs == Flagged([dst], isPrecise, isNuw)
      ensures Place() == InsertOne(old(Place()), r) && emitted == old(emitted) + [r]
    {
      if AtLeast(program.chipClass, GFX8) {
        r := Emit(FVop3, v_readlane_b32_e64, [dst], [vsrc, lane]);
      } else {
        r := Emit(FVop2, v_readlane_b32, [dst], [vsrc, lane]);
      }
    }

    /** writelane: the VOP3 encoding from GFX8 on, the VOP2 one before. */
    method WriteLane(dst: Definition, val: Operand, lane: Operand, vsrc: Operand) returns (r: Instr)
      requires Valid() && program != null
      modifies this, instructions
      ensures Valid() && Config() == old(Config()) && program == old(program)
      ensures AtLeast(program.chipClass, GFX8) ==> r.opcode == v_writelane_b32_e64 && r.format == {VOP3}
      ensures !AtLeast(program.chipClass, GFX8) ==> r.opcode == v_writelane_b32 && r.format == {VOP2}
      ensures r.ops == [val, lane, vsrc] && r.defs == Flagged([dst], isPrecise, isNuw)
      ensures Place() == InsertOne(old(Place()), r) && emitted == old(emitted) + [r]
    {
      if AtLeast(program.chipClass, GFX8) {
        r := Emit(FVop3, v_writelane_b32_e64, [dst], [val, lane, vsrc]);
      } else {
        r := Emit(FVop2, v_writelane_b32, [dst], [val, lane, vsrc]);
      }
    }

    /** The second operand of a VOP2 must be a VGPR: pick the order, and
      * before register allocation copy an SGPR or class-less value into a
      * fresh VGPR. `copied` says whether that copy was emitted. */
    method VgprSecond(a: Operand, b: Operand, copy: bool) returns (x: Operand, y: Operand, swap: bool, cp: Option<Instr>)
      requires Valid() && program != null
      modifies this, instructions, program
      ensures Valid() && Config() == old(Config()) && program == old(program)
      ensures program.allocationId >= old(program.allocationId) && program.Settings() == old(program.Settings())
      ensures Extension(old(emitted), old(Place()), emitted, Place())
      ensures SecondPrepared(a, b, copy, old(program.allocationId), x, y, swap, cp, emitted[|old(emitted)|..])
    {
      ghost var e0, p0 := emitted, Place();
      swap := !(b.IsTemp() && b.RC().rtype == Vgpr);
      x, y := if swap then b else a, if swap then a else b;
      if copy && (!y.HasRegClass() || y.RC().rtype == Sgpr) {
        var d := NewDef(v1);
        var c := Copy(d, y);
        ExtensionOne(e0, p0, c);
        assert emitted[|e0|..] == [c];
        cp := Some(c);
        y := TempOp(d.temp);
      } else {
        cp := None;
        assert emitted[|emitted|..] == [];
      }
    }

    /** The definitions of vadd32's add: dst, then for every form but the
      * carry-less one a fresh lane-mask carry, hinted to vcc outside VOP3. */
    method AddDefs(dst: Definition, op: Opcode) returns (defs: seq<Definition>)
      requires Valid() && program != null
      modifies program
      ensures Valid() && program.allocationId >= old(program.allocationId) && program.Settings() == old(program.Settings())
      ensures |defs| == (if op == v_add_u32 then 1 else 2) && defs[0] == dst
      ensures |defs| == 2 ==> defs[1].temp.rc == lm && (op != v_add_co_u32_e64 ==> defs[1].hint == Some(Vcc))
    {
      defs := [dst];
      if op == v_add_co_u32_e64 {
        var carry := NewDef(lm);
        defs := defs + [carry];
      } else if op != v_add_u32 {
        var carry := NewHintDef(Vcc, lm);
        defs := defs + [carry];
      }
    }

    /** The final add of vadd32, with its carry definition when the opcode has one. */
    method EmitAdd(dst: Definition, x: Operand, y: Operand, carryOut: bool, carryIn: Operand) returns (r: Instr)
      requires Valid() && program != null
      modifies this, instructions, program
      ensures Valid() && Config() == old(Config()) && program == old(program)
      ensures program.allocationId >= old(program.allocationId) && program.Settings() == old(program.Settings())
      ensures Place() == InsertOne(old(Place()), r) && emitted == old(emitted) + [r]
      ensures AddShape(r, program.chipClass, carryOut, carryIn, dst.(precise := isPrecise, nuw := isNuw), lm)
      ensures r.ops[0] == x && r.ops[1] == y
    {
      var op := VAddOpcode(program.chipClass, carryOut, !carryIn.IsUndefined());
      var defs := AddDefs(dst, op);
      var ops := if carryIn.IsUndefined() then [x, y] else [x, y, carryIn];
      var f := if op == v_add_co_u32_e64 then FVop3 else FVop2;
      assert FactoryFormat(f) == if op == v_add_co_u32_e64 then {VOP3} else {VOP2};
      r := Emit(f, op, defs, ops);
    }

    /** vadd32 without its semantics: the operands prepared, then the add. */
    method AddLowering(dst: Definition, a: Operand, b: Operand, carryOut: bool, carryIn: Operand, postRa: bool)
      returns (r: Instr, x: Operand, y: Operand, swap: bool, ghost cp: Option<Instr>, ghost prep: seq<Instr>)
      requires Valid() && program != null
      modifies this, instructions, program
      ensures Valid() && Config() == old(Config()) && program == old(program)
      ensures program.allocationId >= old(program.allocationId) && program.Settings() == old(program.Settings())
      ensures Lowered(old(emitted), old(Place()), old(program.allocationId), dst.temp.id, emitted, Place())
      ensures emitted[|emitted| - 1] == r
      ensures postRa ==> |emitted| == |old(emitted)| + 1
      ensures AddShape(r, program.chipClass, carryOut, carryIn, dst.(precise := isPrecise, nuw := isNuw), lm)
      ensures !postRa ==> r.ops[1].HasRegClass() && r.ops[1].RC().rtype == Vgpr
      ensures AddEmitted(a, b, !postRa, old(program.allocationId), x, y, swap, cp, prep, r, emitted[|old(emitted)|..], carryIn)
    {
      ghost var e0, p0, fence := emitted, Place(), program.allocationId;
      x, y, swap, cp := VgprSecond(a, b, !postRa);
      ghost var e1, p1 := emitted, Place();
      prep := e1[|e0|..];
      r := EmitAdd(dst, x, y, carryOut, carryIn);
      AddPrepLowered(e0, p0, e1, p1, r, fence, a, b, !postRa, x, y, swap, cp, prep, program.chipClass, carryOut, carryIn,
                     dst, dst.(precise := isPrecise, nuw := isNuw), lm, emitted, Place());
    }

    /** vadd32: a 32-bit VALU add of a and b into dst, the opcode chosen by
      * VAddOpcode; b is made a VGPR first (before register allocation).
      * Without a carry-in the emitted code leaves a + b (mod 2^32) in dst
      * and writes no temporary older than itself other than dst. */
    method VAdd32(dst: Definition, a: Operand, b: Operand, carryOut: bool, carryIn: Operand, postRa: bool, ghost env: Env) returns (r: Instr)
      requires Valid() && program != null
      modifies this, instructions, program
      ensures Valid() && Config() == old(Config()) && program == old(program)
      ensures program.allocationId >= old(program.allocationId) && program.Settings() == old(program.Settings())
      ensures Lowered(old(emitted), old(Place()), old(program.allocationId), dst.temp.id, emitted, Place())
      ensures emitted[|emitted| - 1] == r
      ensures postRa ==> |emitted| == |old(emitted)| + 1
      ensures AddShape(r, program.chipClass, carryOut, carryIn, dst.(precise := isPrecise, nuw := isNuw), lm)
      ensures !postRa ==> r.ops[1].HasRegClass() && r.ops[1].RC().rtype == Vgpr
      ensures carryIn.IsUndefined() && Below(a, old(program.allocationId)) && Below(b, old(program.allocationId)) ==>
        Adds(emitted[|old(emitted)|..], dst.temp.id, a, b, env)
    {
      ghost var e0, fence := emitted, program.allocationId;
      var x, y, swap; ghost var cp, prep;
      r, x, y, swap, cp, prep := AddLowering(dst, a, b, carryOut, carryIn, postRa);
      AddCode(emitted[|e0|..], r, dst.temp.id, a, b, env, !postRa, fence, x, y, swap, cp, prep, carryIn);
    }

    /** The final subtract of vsub32, built directly (so without precise/nuw
      * flags) with a fresh s2 carry hinted to vcc when it has a carry-out. */
    method EmitSub(dst: Definition, x: Operand, y: Operand, carryOut: bool, borrow: Operand, reverse: bool) returns (r: Instr)
      requires Valid() && program != null && (!borrow.IsUndefined() ==> carryOut)
      modifies this, instructions, program
      ensures Valid() && Config() == old(Config()) && program == old(program)
      ensures program.allocationId >= old(program.allocationId) && program.Settings() == old(program.Settings())
      ensures Place() == InsertOne(old(Place()), r) && emitted == old(emitted) + [r]
      ensures SubShape(r, program.chipClass, carryOut, borrow, reverse, dst) && r.ops[0] == x && r.ops[1] == y
    {
      var op := VSubOpcode(program.chipClass, carryOut, !borrow.IsUndefined(), reverse);
      var defs := [dst];
      if carryOut {
        var carry := Tmp(s2);
        defs := defs + [Def(carry).(hint := Some(Vcc))];
      }
      var ops := if borrow.IsUndefined() then [x, y] else [x, y, borrow];
      var vop3 := op == v_sub_co_u32_e64 || op == v_subrev_co_u32_e64;
      r := Insert(Instr(op, if vop3 then {VOP3} else {VOP2}, ops, defs, NoExtra));
    }

    /** vsub32 up to its final subtract: the operands prepared as for vadd32
      * (always copying the second into a VGPR), then the subtract with the
      * carry-out ForcedCarry asks for. */
    method SubLowering(dst: Definition, a: Operand, b: Operand, carryOut: bool, borrow: Operand)
      returns (r: Instr, x: Operand, y: Operand, reverse: bool, ghost cp: Option<Instr>, ghost prep: seq<Instr>)
      requires Valid() && program != null
      modifies this, instructions, program
      ensures Valid() && Config() == old(Config()) && program == old(program)
      ensures program.allocationId >= old(program.allocationId) && program.Settings() == old(program.Settings())
      ensures Lowered(old(emitted), old(Place()), old(program.allocationId), dst.temp.id, emitted, Place())
      ensures emitted[|emitted| - 1] == r
      ensures SubEmitted(a, b, old(program.allocationId), x, y, reverse, cp, prep, r, emitted[|old(emitted)|..],
                         program.chipClass, ForcedCarry(program.chipClass, carryOut, !borrow.IsUndefined()), borrow, dst)
      ensures reverse == !(b.IsTemp() && b.RC().rtype == Vgpr)
      ensures SubShape(r, program.chipClass, ForcedCarry(program.chipClass, carryOut, !borrow.IsUndefined()), borrow, reverse, dst)
      ensures r.ops[1].HasRegClass() && r.ops[1].RC().rtype == Vgpr
    {
      ghost var e0, p0, fence := emitted, Place(), program.allocationId;
      var co := ForcedCarry(program.chipClass, carryOut, !borrow.IsUndefined());
      x, y, reverse, cp := VgprSecond(a, b, true);
      ghost var e1, p1 := emitted, Place();
      prep := e1[|e0|..];
      r := EmitSub(dst, x, y, co, borrow, reverse);
      SubLowered(e0, p0, e1, p1, r, fence, a, b, x, y, reverse, cp, prep, program.chipClass, co, borrow, dst,
                 emitted, Place());
    }

    /** vsub32: a 32-bit VALU subtract a - b into dst. A borrow-in, or a chip
      * before GFX9, forces the carry-out form; the operands are swapped (and
      * the reversed opcode used) unless b is a VGPR temporary, and the second
      * one made a VGPR. Without a borrow the emitted code leaves a - b
      * (mod 2^32) in dst. */
    method VSub32(dst: Definition, a: Operand, b: Operand, carryOut: bool, borrow: Operand, ghost env: Env) returns (r: Instr)
      requires Valid() && program != null
      modifies this, instructions, program
      ensures Valid() && Config() == old(Config()) && program == old(program)
      ensures program.allocationId >= old(program.allocationId) && program.Settings() == old(program.Settings())
      ensures Lowered(old(emitted), old(Place()), old(program.allocationId), dst.temp.id, emitted, Place())
      ensures emitted[|emitted| - 1] == r
      ensures SubShape(r, program.chipClass, ForcedCarry(program.chipClass, carryOut, !borrow.IsUndefined()),
                       borrow, !(b.IsTemp() && b.RC().rtype == Vgpr), dst)
      ensures r.ops[1].HasRegClass() && r.ops[1].RC().rtype == Vgpr
      ensures borrow.IsUndefined() && Below(a, old(program.allocationId)) && Below(b, old(program.allocationId)) ==>
        Subtracts(emitted[|old(emitted)|..], dst.temp.id, a, b, env)
    {
      ghost var e0, fence := emitted, program.allocationId;
      var x, y, reverse; ghost var cp, prep;
      r, x, y, reverse, cp, prep := SubLowering(dst, a, b, carryOut, borrow);
      SubCode(emitted[|e0|..], r, dst.temp.id, a, b, env, fence, x, y, reverse, cp, prep,
              program.chipClass, ForcedCarry(program.chipClass, carryOut, !borrow.IsUndefined()), borrow, dst);
    }
    /** The plans of v_mul_imm that emit one instruction: a copy of 0 or of
      * tmp, a shift by s, or the 24-bit multiply. */
    method MulSingle(dst: Definition, tmp: Temp, imm: nat, plan: MulPlan, ghost env: Env) returns (r: Instr)
      requires Valid()
      requires || (plan == CopyZero && imm == 0) || (plan == CopyTmp && imm == 1)
               || (plan.ShiftBy? && imm == Pow2(plan.s) && plan.s < 32) || plan == Mul24
      modifies this, instructions
      ensures Valid() && Config() == old(Config()) && program == old(program)
      ensures Place() == InsertOne(old(Place()), r) && emitted == old(emitted) + [r]
      ensures |r.defs| > 0 && r.defs[0].temp.id == dst.temp.id
      ensures MulEnds(plan, r, 1)
      ensures plan == Mul24 ==> r.ops == [ConstOp(imm), TempOp(tmp)]
      ensures plan != Mul24 || (imm < Low24 && RegVal(env, tmp.id) < Low24) ==> Scales([r], dst.temp.id, tmp.id, imm, env)
    {
      if plan.ShiftBy? {
        r := MulShift(dst, tmp, plan.s, env);
      } else if plan == Mul24 {
        r := MulBy24(dst, tmp, imm, env);
      } else {
        r := MulCopy(dst, tmp, imm, plan, env);
      }
    }

    /** imm = 0 or 1: a copy of 0 or of tmp. */
    method MulCopy(dst: Definition, tmp: Temp, imm: nat, plan: MulPlan, ghost env: Env) returns (r: Instr)
      requires Valid()
      requires (plan == CopyZero && imm == 0) || (plan == CopyTmp && imm == 1)
      modifies this, instructions
      ensures Valid() && Config() == old(Config()) && program == old(program)
      ensures Place() == InsertOne(old(Place()), r) && emitted == old(emitted) + [r]
      ensures |r.defs| > 0 && r.defs[0].temp.id == dst.temp.id
      ensures MulEnds(plan, r, 1) && Scales([r], dst.temp.id, tmp.id, imm, env)
    {
      var src := if plan == CopyZero then ConstOp(0) else TempOp(tmp);
      r := Copy(dst, src);
      CopyScales(r, dst.temp.id, src, tmp.id, imm, env);
    }

    /** imm = 2^s: v_lshlrev_b32 by s. */
    method MulShift(dst: Definition, tmp: Temp, s: nat, ghost env: Env) returns (r: Instr)
      requires Valid() && s < 32
      modifies this, instructions
      ensures Valid() && Config() == old(Config()) && program == old(program)
      ensures Place() == InsertOne(old(Place()), r) && emitted == old(emitted) + [r]
      ensures |r.defs| > 0 && r.defs[0].temp.id == dst.temp.id
      ensures MulEnds(ShiftBy(s), r, 1) && Scales([r], dst.temp.id, tmp.id, Pow2(s), env)
    {
      r := Emit(FVop2, v_lshlrev_b32, [dst], [ConstOp(s), TempOp(tmp)]);
      ScalesKeep([], tmp.id + 1, tmp.id, env);
      ScalesShift([], r, tmp, s, dst.temp.id, env);
      assert [] + [r] == [r];
    }

    /** The 24-bit multiply v_mul_u32_u24 of imm and tmp. */
    method MulBy24(dst: Definition, tmp: Temp, imm: nat, ghost env: Env) returns (r: Instr)
      requires Valid()
      modifies this, instructions
      ensures Valid() && Config() == old(Config()) && program == old(program)
      ensures Place() == InsertOne(old(Place()), r) && emitted == old(emitted) + [r]
      ensures |r.defs| > 0 && r.defs[0].temp.id == dst.temp.id
      ensures MulEnds(Mul24, r, 1) && r.ops == [ConstOp(imm), TempOp(tmp)]
      ensures imm < Low24 && RegVal(env, tmp.id) < Low24 ==> Scales([r], dst.temp.id, tmp.id, imm, env)
    {
      r := Emit(FVop2, v_mul_u32_u24, [dst], [ConstOp(imm), TempOp(tmp)]);
      if imm < Low24 && RegVal(env, tmp.id) < Low24 {
        Mul24Scales(r, dst.temp.id, tmp, imm, env);
      }
    }

    /** vop2(v_lshlrev_b32, def(v1), s, tmp): tmp << s in a fresh v1. */
    method ShiftedTmp(tmp: Temp, s: nat) returns (d1: Temp, sh: Instr)
      requires Valid() && program != null && tmp.id < program.allocationId && s < 32
      modifies this, instructions, program
      ensures Valid() && Config() == old(Config()) && program == old(program)
      ensures program.allocationId == old(program.allocationId) + 1 && program.Settings() == old(program.Settings())
      ensures d1 == Temp(old(program.allocationId), v1)
      ensures ShiftedInto(old(emitted), old(Place()), sh, emitted, Place(), d1.id, d1, tmp, s)
    {
      var d := NewDef(v1);
      d1 := d.temp;
      sh := Emit(FVop2, v_lshlrev_b32, [d], [ConstOp(s), TempOp(tmp)]);
    }

    /** imm = 2^s + 1: vadd32 of (tmp << s) in a fresh v1 and tmp. */
    method MulShiftAdd(dst: Definition, tmp: Temp, s: nat, ghost imm: nat, ghost env: Env) returns (r: Instr)
      requires Valid() && program != null && tmp.id < program.allocationId && tmp.rc.rtype == Vgpr
      requires s < 32 && imm == Pow2(s) + 1
      modifies this, instructions, program
      ensures Valid() && Config() == old(Config()) && program == old(program)
      ensures program.allocationId >= old(program.allocationId) && program.Settings() == old(program.Settings())
      ensures MulLowered(old(emitted), old(Place()), old(program.allocationId), dst.temp.id, emitted, Place(),
                         r, ShiftAdd(s), true, tmp.id, imm, env)
    {
      ghost var e0, p0, fence := emitted, Place(), program.allocationId;
      var d1, sh := ShiftedTmp(tmp, s);
      ghost var e1, p1 := emitted, Place();
      r := VAdd32(dst, TempOp(d1), TempOp(tmp), false, UndefOp(s2), false, EvalSeq([sh], env));
      ShiftAddOnce(e0, p0, sh, e1, p1, emitted, Place(), fence, d1, tmp, s, imm, dst.temp.id, env);
    }

    /** imm = 2^s - 1: vsub32 of (tmp << s) in a fresh v1 and tmp. */
    method MulShiftSub(dst: Definition, tmp: Temp, s: nat, ghost imm: nat, ghost env: Env) returns (r: Instr)
      requires Valid() && program != null && tmp.id < program.allocationId && tmp.rc.rtype == Vgpr
      requires s < 32 && imm + 1 == Pow2(s)
      modifies this, instructions, program
      ensures Valid() && Config() == old(Config()) && program == old(program)
      ensures program.allocationId >= old(program.allocationId) && program.Settings() == old(program.Settings())
      ensures MulLowered(old(emitted), old(Place()), old(program.allocationId), dst.temp.id, emitted, Place(),
                         r, ShiftSub(s), true, tmp.id, imm, env)
    {
      ghost var e0, p0, fence := emitted, Place(), program.allocationId;
      var d1, sh := ShiftedTmp(tmp, s);
      ghost var e1, p1 := emitted, Place();
      r := VSub32(dst, TempOp(d1), TempOp(tmp), false, UndefOp(s2), EvalSeq([sh], env));
      ShiftSubLowered(e0, p0, sh, e1, p1, emitted, Place(), fence, d1, tmp, s, imm, dst.temp.id, env);
    }

    /** The fallback: imm copied into a fresh s1, then v_mul_lo_u32. */
    method MulByLiteral(dst: Definition, tmp: Temp, imm: nat, ghost env: Env) returns (r: Instr)
      requires Valid() && program != null && tmp.id < program.allocationId && imm < U32
      modifies this, instructions, program
      ensures Valid() && Config() == old(Config()) && program == old(program)
      ensures program.allocationId >= old(program.allocationId) && program.Settings() == old(program.Settings())
      ensures MulLowered(old(emitted), old(Place()), old(program.allocationId), dst.temp.id, emitted, Place(),
                         r, MulLo, true, tmp.id, imm, env)
    {
      ghost var e0, p0, fence := emitted, Place(), program.allocationId;
      var f, cp := LiteralTmp(imm);
      ghost var e1, p1 := emitted, Place();
      r := Emit(FVop3, v_mul_lo_u32, [dst], [TempOp(f), TempOp(tmp)]);
      LiteralLowered(e0, p0, fence, cp, e1, p1, r, f, tmp, imm, dst.temp.id, env, emitted, Place());
    }

    /** copy(def(s1), Operand(imm)): the literal in a fresh s1. */
    method LiteralTmp(imm: nat) returns (f: Temp, cp: Instr)
      requires Valid() && program != null
      modifies this, instructions, program
      ensures Valid() && Config() == old(Config()) && program == old(program)
      ensures program.allocationId == old(program.allocationId) + 1 && program.Settings() == old(program.Settings())
      ensures f == Temp(old(program.allocationId), s1)
      ensures LiteralCopied(old(emitted), old(Place()), cp, emitted, Place(), f, imm)
    {
      var d := NewDef(s1);
      f := d.temp;
      cp := Copy(d, ConstOp(imm));
    }
    // The three passes of v_mul_imm's set-bit loop that emit code. Each
    // continues code0, which left tmp unchanged and (where there is one)
    // tmp * done in the running sum cur, and leaves tmp * k in tmpDst.

    /** A set bit above bit 0 with a running sum: (tmp << shift) + cur. */
    method ShiftAddStep(tmpDst: Definition, tmp: Temp, shift: nat, cur: Temp,
                        ghost code0: seq<Instr>, ghost done: nat, ghost k: nat, ghost env: Env) returns (r: Instr)
      requires Valid() && program != null && tmp.id < program.allocationId && cur.id < program.allocationId
      requires shift < 32 && k == Pow2(shift) + done
      requires Scales(code0, tmp.id, tmp.id, 1, env) && Scales(code0, cur.id, tmp.id, done, env)
      modifies this, instructions, program
      ensures Valid() && Config() == old(Config()) && program == old(program)
      ensures program.allocationId >= old(program.allocationId) && program.Settings() == old(program.Settings())
      ensures Lowered(old(emitted), old(Place()), old(program.allocationId), tmpDst.temp.id, emitted, Place())
      ensures emitted[|emitted| - 1] == r && AddOpcode(r.opcode)
      ensures Scales(code0 + emitted[|old(emitted)|..], tmpDst.temp.id, tmp.id, k, env)
    {
      ghost var e0, p0, fence := emitted, Place(), program.allocationId;
      var u, sh := ShiftedTmp(tmp, shift);
      ghost var e1, p1 := emitted, Place();
      r := VAdd32(tmpDst, TempOp(u), TempOp(cur), false, UndefOp(s2), false, EvalSeq(code0 + [sh], env));
      ShiftAddLowered(e0, p0, sh, e1, p1, emitted, Place(), fence, u, cur, tmp, shift, code0,
                      code0 + emitted[|e0|..], done, k, tmpDst.temp.id, env);
    }

    /** The lowest set bit, above bit 0: tmp << shift. */
    method ShiftStep(tmpDst: Definition, tmp: Temp, shift: nat,
                     ghost code0: seq<Instr>, ghost k: nat, ghost env: Env) returns (r: Instr)
      requires Valid() && program != null && tmp.id < program.allocationId
      requires shift < 32 && k == Pow2(shift)
      requires Scales(code0, tmp.id, tmp.id, 1, env)
      modifies this, instructions, program
      ensures Valid() && Config() == old(Config()) && program == old(program)
      ensures program.allocationId >= old(program.allocationId) && program.Settings() == old(program.Settings())
      ensures Lowered(old(emitted), old(Place()), old(program.allocationId), tmpDst.temp.id, emitted, Place())
      ensures emitted[|emitted| - 1] == r && r.opcode == v_lshlrev_b32
      ensures Scales(code0 + emitted[|old(emitted)|..], tmpDst.temp.id, tmp.id, k, env)
    {
      ghost var e0, p0, fence := emitted, Place(), program.allocationId;
      r := Emit(FVop2, v_lshlrev_b32, [tmpDst], [ConstOp(shift), TempOp(tmp)]);
      ShiftLowered(e0, p0, fence, r, tmp, shift, tmpDst.temp.id, code0, k, env, emitted, Place());
    }

    /** Bit 0 after a running sum: tmp + cur. */
    method AddStep(tmpDst: Definition, tmp: Temp, cur: Temp,
                   ghost code0: seq<Instr>, ghost done: nat, ghost k: nat, ghost env: Env) returns (r: Instr)
      requires Valid() && program != null && tmp.id < program.allocationId && cur.id < program.allocationId
      requires k == 1 + done
      requires Scales(code0, tmp.id, tmp.id, 1, env) && Scales(code0, cur.id, tmp.id, done, env)
      modifies this, instructions, program
      ensures Valid() && Config() == old(Config()) && program == old(program)
      ensures program.allocationId >= old(program.allocationId) && program.Settings() == old(program.Settings())
      ensures Lowered(old(emitted), old(Place()), old(program.allocationId), tmpDst.temp.id, emitted, Place())
      ensures emitted[|emitted| - 1] == r && AddOpcode(r.opcode)
      ensures Scales(code0 + emitted[|old(emitted)|..], tmpDst.temp.id, tmp.id, k, env)
    {
      ghost var e0 := emitted;
      ghost var fence := program.allocationId;
      r := VAdd32(tmpDst, TempOp(tmp), TempOp(cur), false, UndefOp(s2), false, EvalSeq(code0, env));
      AddLowered(code0, emitted[|e0|..], tmp, cur, done, k, tmpDst.temp.id, fence, env);
    }

    /** The code for the set bit `shift` when there is a shift or a running
      * sum cur: leaves tmp * (2^shift + done) in tmpDst. */
    method SetBitStep(tmpDst: Definition, tmp: Temp, shift: nat, cur: Option<Temp>,
                      ghost code0: seq<Instr>, ghost fence: nat, ghost done: nat, ghost k: nat, ghost env: Env)
      returns (r: Instr)
      requires Valid() && program != null && tmp.id < fence <= program.allocationId && CodeWritesOnly(code0, fence, fence)
      requires shift < 32 && (shift > 0 || cur.Some?) && (cur.None? ==> done == 0) && k == Pow2(shift) + done
      requires cur.Some? ==> cur.value.id < program.allocationId && Scales(code0, cur.value.id, tmp.id, done, env)
      modifies this, instructions, program
      ensures Valid() && Config() == old(Config()) && program == old(program)
      ensures program.allocationId >= old(program.allocationId) && program.Settings() == old(program.Settings())
      ensures Lowered(old(emitted), old(Place()), old(program.allocationId), tmpDst.temp.id, emitted, Place())
      ensures emitted[|emitted| - 1] == r && (AddOpcode(r.opcode) || r.opcode == v_lshlrev_b32)
      ensures Scales(code0 + emitted[|old(emitted)|..], tmpDst.temp.id, tmp.id, k, env)
    {
      ScalesKeep(code0, fence, tmp.id, env);
      if shift > 0 && cur.Some? {
        r := ShiftAddStep(tmpDst, tmp, shift, cur.value, code0, done, k, env);
      } else if shift > 0 {
        r := ShiftStep(tmpDst, tmp, shift, code0, k, env);
      } else {
        r := AddStep(tmpDst, tmp, cur.value, code0, done, k, env);
      }
    }

    /** A pass for the set bit `shift` that emits code, into tmpDst: a fresh
      * temporary allocated at a0, or dst for the last bit. */
    method SetBitEmit(dst: Definition, tmpDst: Definition, tmp: Temp, rem: nat, rem': nat, shift: nat,
                      cur: Option<Temp>, res: Option<Instr>, ghost done: nat, ghost done': nat,
                      ghost e0: seq<Instr>, ghost p0: Placement, ghost fence: nat, ghost a0: nat, ghost env: Env)
      returns (r: Instr)
      requires Valid() && program != null && a0 <= program.allocationId
      requires SetBitsState(e0, p0, fence, dst, tmp, env, rem, cur, res, done, emitted, Place(), a0)
      requires 0 < rem && shift < 32 && Pow2(shift) <= rem && (shift > 0 || cur.Some?)
      requires rem' == rem - Pow2(shift) && done' == done + Pow2(shift)
      requires rem' != 0 ==> tmpDst.temp.id == a0 < program.allocationId
      requires rem' == 0 ==> tmpDst == dst
      modifies this, instructions, program
      ensures Valid() && Config() == old(Config()) && program.Settings() == old(program.Settings())
      ensures SetBitsState(e0, p0, fence, dst, tmp, env, rem', Some(tmpDst.temp), Some(r), done',
                           emitted, Place(), program.allocationId)
    {
      ghost var e1, p1, f1 := emitted, Place(), program.allocationId;
      ghost var code0 := e1[|e0|..];
      r := SetBitStep(tmpDst, tmp, shift, cur, code0, fence, done, done', env);
      PassEmits(e0, p0, fence, dst, tmp, env, rem, cur, res, done, e1, p1, a0, f1, tmpDst, shift, r, code0,
                rem', Some(tmpDst.temp), Some(r), done', emitted, Place(), program.allocationId);
    }

    /** One pass of the loop: u_bit_scan takes the lowest set bit of rem; its
      * destination is dst for the last bit, else a fresh v1 (allocated even
      * when the pass emits nothing); the pass then emits through SetBitEmit,
      * or (bit 0 with no running sum) makes tmp the running sum. */
    method SetBitPass(dst: Definition, tmp: Temp, rem: nat, cur: Option<Temp>, res: Option<Instr>,
                      ghost done: nat, ghost e0: seq<Instr>, ghost p0: Placement, ghost fence: nat, ghost env: Env)
      returns (rem': nat, cur': Option<Temp>, res': Option<Instr>, ghost done': nat)
      requires Valid() && program != null
      requires SetBitsState(e0, p0, fence, dst, tmp, env, rem, cur, res, done, emitted, Place(), program.allocationId)
      requires 0 < rem < U32 && (cur.None? ==> rem > 1)
      modifies this, instructions, program
      ensures Valid() && Config() == old(Config()) && program.Settings() == old(program.Settings())
      ensures SetBitsState(e0, p0, fence, dst, tmp, env, rem', cur', res', done', emitted, Place(), program.allocationId)
      ensures rem' == rem - Pow2(LowestSetBit(rem)) && done' == done + Pow2(LowestSetBit(rem)) && cur'.Some?
    {
      var shift := LowestSetBit(rem);
      LowestSetBitBelow32(rem);
      ClearLowest(rem);
      rem' := rem - Pow2(shift);
      done' := done + Pow2(shift);
      ghost var a0 := program.allocationId;
      var tmpDst: Definition;
      if rem' != 0 {
        tmpDst := NewDef(v1);
      } else {
        tmpDst := dst;
      }
      if shift > 0 || cur.Some? {
        var r := SetBitEmit(dst, tmpDst, tmp, rem, rem', shift, cur, res, done, done', e0, p0, fence, a0, env);
        res' := Some(r);
        cur' := Some(tmpDst.temp);
      } else {
        res' := res;
        cur' := Some(tmp);
        PassSkips(e0, p0, fence, dst, tmp, env, rem, res, emitted, Place(), a0, rem', cur', done', program.allocationId);
      }
    }

    /** The set-bit decomposition: one pass per set bit of imm, lowest first.
      * The last pass writes dst, which ends up holding tmp * imm. */
    method MulBySetBits(dst: Definition, tmp: Temp, imm: nat, ghost env: Env) returns (r: Instr)
      requires Valid() && program != null && 0 < tmp.id < program.allocationId && 1 < imm < U32
      modifies this, instructions, program
      ensures Valid() && Config() == old(Config()) && program == old(program)
      ensures program.allocationId >= old(program.allocationId) && program.Settings() == old(program.Settings())
      ensures MulLowered(old(emitted), old(Place()), old(program.allocationId), dst.temp.id, emitted, Place(),
                         r, SetBits, true, tmp.id, imm, env)
    {
      ghost var e0, p0, fence := emitted, Place(), program.allocationId;
      ExtensionRefl(e0, p0);
      var rem: nat := imm;
      var cur: Option<Temp> := None;
      var res: Option<Instr> := None;
      ghost var done: nat := 0;
      while rem != 0
        invariant Valid() && program != null && Config() == old(Config()) && program.Settings() == old(program.Settings())
        invariant SetBitsState(e0, p0, fence, dst, tmp, env, rem, cur, res, done, emitted, Place(), program.allocationId)
        invariant done + rem == imm && rem < U32 && (cur.None? ==> rem > 1)
        decreases rem
      {
        rem, cur, res, done := SetBitPass(dst, tmp, rem, cur, res, done, e0, p0, fence, env);
      }
      r := res.value;
    }

    /** v_mul_imm(dst, tmp, imm, bits24): dst := tmp * imm (mod 2^32), in the
      * shape MulImmPlan picks for this chip. The result is the last
      * instruction emitted; with bits24 the 24-bit multiply is exact only
      * when imm and tmp's value fit in 24 bits. */
    method VMulImm(dst: Definition, tmp: Temp, imm: nat, bits24: bool, immIsLiteral: bool, ghost env: Env)
      returns (r: Instr)
      requires Valid() && program != null && 0 < tmp.id < program.allocationId && tmp.rc.rtype == Vgpr
      requires imm < U32
      modifies this, instructions, program
      ensures Valid() && Config() == old(Config()) && program == old(program)
      ensures program.allocationId >= old(program.allocationId) && program.Settings() == old(program.Settings())
      ensures MulLowered(old(emitted), old(Place()), old(program.allocationId), dst.temp.id, emitted, Place(),
                         r, MulImmPlan(old(program.chipClass), imm, bits24, immIsLiteral), MulImmPlan(old(program.chipClass), imm, bits24, immIsLiteral) != Mul24
                         || (imm < Low24 && RegVal(env, tmp.id) < Low24), tmp.id, imm, env)
    {
      var plan := MulImmPlan(program.chipClass, imm, bits24, immIsLiteral);
      r := MulPlanned(dst, tmp, imm, plan, env);
    }

    /** The lowering of one v_mul_imm plan, applicable to imm. */
    method MulPlanned(dst: Definition, tmp: Temp, imm: nat, plan: MulPlan, ghost env: Env) returns (r: Instr)
      requires Valid() && program != null && 0 < tmp.id < program.allocationId && tmp.rc.rtype == Vgpr
      requires imm < U32 && PlanFits(plan, imm)
      modifies this, instructions, program
      ensures Valid() && Config() == old(Config()) && program == old(program)
      ensures program.allocationId >= old(program.allocationId) && program.Settings() == old(program.Settings())
      ensures MulLowered(old(emitted), old(Place()), old(program.allocationId), dst.temp.id, emitted, Place(),
                         r, plan, plan != Mul24 || (imm < Low24 && RegVal(env, tmp.id) < Low24), tmp.id, imm, env)
    {
      if SingleStep(plan) {
        r := MulOne(dst, tmp, imm, plan, env);
      } else {
        r := MulMulti(dst, tmp, imm, plan, env);
      }
    }

    /** The plans of v_mul_imm that emit more than one instruction. */
    method MulMulti(dst: Definition, tmp: Temp, imm: nat, plan: MulPlan, ghost env: Env) returns (r: Instr)
      requires Valid() && program != null && 0 < tmp.id < program.allocationId && tmp.rc.rtype == Vgpr
      requires imm < U32 && PlanFits(plan, imm) && !SingleStep(plan)
      modifies this, instructions, program
      ensures Valid() && Config() == old(Config()) && program == old(program)
      ensures program.allocationId >= old(program.allocationId) && program.Settings() == old(program.Settings())
      ensures MulLowered(old(emitted), old(Place()), old(program.allocationId), dst.temp.id, emitted, Place(),
                         r, plan, true, tmp.id, imm, env)
    {
      if plan.ShiftAdd? || plan.ShiftSub? {
        r := MulShifted(dst, tmp, imm, plan, env);
      } else {
        r := MulGeneral(dst, tmp, imm, plan, env);
      }
    }

    /** A shift, then an add or a subtract of tmp. */
    method MulShifted(dst: Definition, tmp: Temp, imm: nat, plan: MulPlan, ghost env: Env) returns (r: Instr)
      requires Valid() && program != null && 0 < tmp.id < program.allocationId && tmp.rc.rtype == Vgpr
      requires || (plan.ShiftAdd? && imm == Pow2(plan.s) + 1 && plan.s < 32)
               || (plan.ShiftSub? && imm + 1 == Pow2(plan.s) && plan.s < 32)
      modifies this, instructions, program
      ensures Valid() && Config() == old(Config()) && program == old(program)
      ensures program.allocationId >= old(program.allocationId) && program.Settings() == old(program.Settings())
      ensures MulLowered(old(emitted), old(Place()), old(program.allocationId), dst.temp.id, emitted, Place(),
                         r, plan, true, tmp.id, imm, env)
    {
      if plan.ShiftAdd? {
        r := MulShiftAdd(dst, tmp, plan.s, imm, env);
      } else {
        r := MulShiftSub(dst, tmp, plan.s, imm, env);
      }
    }

    /** The set-bit loop, or the literal fallback. */
    method MulGeneral(dst: Definition, tmp: Temp, imm: nat, plan: MulPlan, ghost env: Env) returns (r: Instr)
      requires Valid() && program != null && 0 < tmp.id < program.allocationId && imm < U32
      requires (plan == SetBits && imm > 1) || plan == MulLo
      modifies this, instructions, program
      ensures Valid() && Config() == old(Config()) && program == old(program)
      ensures program.allocationId >= old(program.allocationId) && program.Settings() == old(program.Settings())
      ensures MulLowered(old(emitted), old(Place()), old(program.allocationId), dst.temp.id, emitted, Place(),
                         r, plan, true, tmp.id, imm, env)
    {
      if plan == SetBits {
        r := MulBySetBits(dst, tmp, imm, env);
      } else {
        r := MulByLiteral(dst, tmp, imm, env);
      }
    }

    /** MulSingle, stated as a lowering. */
    method MulOne(dst: Definition, tmp: Temp, imm: nat, plan: MulPlan, ghost env: Env) returns (r: Instr)
      requires Valid() && program != null
      requires PlanFits(plan, imm) && SingleStep(plan)
      modifies this, instructions
      ensures Valid() && Config() == old(Config()) && unchanged(program)
      ensures program.allocationId >= old(program.allocationId) && program.Settings() == old(program.Settings())
      ensures MulLowered(old(emitted), old(Place()), old(program.allocationId), dst.temp.id, emitted, Place(),
                         r, plan, plan != Mul24 || (imm < Low24 && RegVal(env, tmp.id) < Low24), tmp.id, imm, env)
    {
      ghost var e0, p0, fence := emitted, Place(), program.allocationId;
      r := MulSingle(dst, tmp, imm, plan, env);
      SingleLowered(e0, p0, fence, r, dst.temp.id, emitted, Place(), tmp.id, imm,
                    plan != Mul24 || (imm < Low24 && RegVal(env, tmp.id) < Low24), env);
    }

    /** v_mul24_imm(dst, tmp, imm): v_mul_imm with bits24 set. */
    method VMul24Imm(dst: Definition, tmp: Temp, imm: nat, immIsLiteral: bool, ghost env: Env) returns (r: Instr)
      requires Valid() && program != null && 0 < tmp.id < program.allocationId && tmp.rc.rtype == Vgpr
      requires imm < U32
      modifies this, instructions, program
      ensures Valid() && Config() == old(Config()) && program == old(program)
      ensures program.allocationId >= old(program.allocationId) && program.Settings() == old(program.Settings())
      ensures MulLowered(old(emitted), old(Place()), old(program.allocationId), dst.temp.id, emitted, Place(),
                         r, MulImmPlan(old(program.chipClass), imm, true, immIsLiteral), imm < Low24 && RegVal(env, tmp.id) < Low24, tmp.id, imm, env)
    {
      r := VMulImm(dst, tmp, imm, true, immIsLiteral, env);
    }
  }
}
