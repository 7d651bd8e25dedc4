# Mesa driver cores in Dafny

This project models, in Dafny, self-contained pieces of the Mesa 3D graphics
library and proves properties of them. Each core file is modelled by one Dafny
module, apart from `brw_eu_compact.c`, which is split into its immediate codec,
the compaction decision and the in-place pass. Each module is written in the
form the C, C++ or Python code takes: classes with
`modifies` frames where the code updates state in place, loops with their
invariants where it loops, and functions with lemmas where it only computes.

- `AcoBuilder` (`src/amd/compiler/aco_builder_h.py`): the ACO instruction
  builder. It inserts instructions at no place, at the end, at the start or at an
  advancing cursor. It picks wave32 or wave64 opcodes and fixed or hinted
  registers. It lowers multiplication by an immediate to shifts, adds and
  subtracts, proved equal to the product modulo 2^32. It chooses the carry and
  borrow opcodes of `vadd32`/`vsub32`, and it packs the DPP, `ds_swizzle` and
  `s_sendmsg` control words.
- `AcoIr` (`src/amd/compiler/aco_ir.cpp`): the `wait_imm` counter codec and
  its meet, the reduction identities, the opsel table, the per-generation device
  parameters of `init_program` and the SDWA conversion.
- `BrwCompactImm`, `BrwCompact`, `BrwCompactPass` (`src/intel/compiler/brw_eu_compact.c`):
  Intel EU instruction compaction. This covers the immediate codec, the
  table-index searches, the decision whether a native instruction compacts, and
  the in-place pass. The pass squeezes the instruction store and then fixes
  jump targets and jump offsets.
- `BrwLowerBarriers` (`src/intel/compiler/brw_nir_lower_scoped_barriers.c`):
  the NIR pass that splits workgroup-scoped barriers into a memory barrier and a
  control barrier.
- `PanTexture` (`src/panfrost/lib/pan_texture.c`): Panfrost texture layout.
  It covers block dimensions, ASTC and compression tags, the surface iterator,
  payload and checksum sizing, and the mip-slice layout.
- `SiStateBinning` (`src/gallium/drivers/radeonsi/si_state_binning.c`):
  RadeonSI primitive-binning bin sizes and the emitted binner registers.
- `Varray` (`src/mesa/main/varray.c`): GL vertex-array state. It covers
  attribute-to-binding bookkeeping on the VAO bitmasks, enable and disable,
  format validation with its GL errors, the interleaved layouts and
  `glLockArraysEXT`.
- `VnQueue` (`src/virtio/vulkan/vn_queue.c`): Venus queue submission. It
  covers semaphore and sync counting, the storage layout, filtering of
  WSI-signaled waits, sync setup, and the fence and semaphore payload state
  machine.
- `LvpFormats` (`src/gallium/frontends/lavapipe/lvp_formats.c`): lavapipe
  format translation, format features and image format properties.
- `StAtomArray` (`src/mesa/state_tracker/st_atom_array.c`): the state
  tracker's vertex elements and vertex buffers. This covers the 64-bit
  attribute lowering, the per-binding buffers and the packing of current
  attributes into one upload.
- `Ir3Shader` (`src/gallium/drivers/freedreno/ir3/ir3_shader.c`): ir3 shader
  variants. It covers key normalisation, the variant cache, the register
  footprint, the constant-size clamps and the stream-out vertex limit.
- `VnRendererVtest` (`src/virtio/vulkan/vn_renderer_vtest.c`): the vtest
  renderer's wire formats. This covers timeouts, blob flags, the
  `VCMD_SUBMIT_CMD2` payload layout, capset reading and the protocol-version
  check.
- `VnDescriptorPool` (`src/virtio/venus-protocol/vn_protocol_driver_descriptor_pool.h`):
  the Venus serialiser for descriptor pools. Each `vn_sizeof_*` equals what the
  matching `vn_encode_*` writes, and the reply decoders invert the renderer's
  encoding. It also models the submit buffer choice and the call results.
- `Bits` and `Wrappers`: powers of two, 32-bit wrap-around and
  `Option`/`Result`, shared by the modules.

Unsigned and signed C integers are modelled as unbounded integers. The 32-bit
and 64-bit wrap-around is written out where the code relies on it.

## Model

| member | source | states |
|---|---|---|
| AcoBuilder.DppQuadPerm | src/amd/compiler/aco_builder_h.py:51-56 | needs every lane below 4; the result fits in 8 bits and each lane selector is recovered from its own 2-bit field |
| AcoBuilder.DppRowSl | src/amd/compiler/aco_builder_h.py:58-63 | needs 0 < amount < 16; the low nibble is the amount and the rest is the row-shift-left base 0x100 |
| AcoBuilder.DppRowSr | src/amd/compiler/aco_builder_h.py:65-70 | needs 0 < amount < 16; the low nibble is the amount and the rest is the row-shift-right base 0x110 |
| AcoBuilder.DppRowRr | src/amd/compiler/aco_builder_h.py:72-77 | needs 0 < amount < 16; the low nibble is the amount and the rest is the row-rotate base 0x120 |
| AcoBuilder.DppControlsDistinct | src/amd/compiler/aco_builder_h.py:29-77 | quad permutations and the three row controls never produce the same word, and a row control determines its amount |
| AcoBuilder.DsPatternBitmode | src/amd/compiler/aco_builder_h.py:79-84 | needs masks below 32; the result fits in 15 bits and the and/or/xor masks are recovered from bits 0, 5 and 10 |
| AcoBuilder.SendmsgGsMessage | src/amd/compiler/aco_builder_h.py:101-106 | needs stream < 4; the message id is GS (2), cut is bit 4, emit bit 5, and the stream is recovered from bits 8-9 |
| AcoBuilder.SendmsgGsDoneMessage | src/amd/compiler/aco_builder_h.py:108-113 | as sendmsg_gs with the GS_DONE id (3) |
| AcoBuilder.W64or32 | src/amd/compiler/aco_builder_h.py:275-319 | the result is the same wave-specific family, in its 64-bit form exactly when the wave size is 64 |
| AcoBuilder.W64or32Injective | src/amd/compiler/aco_builder_h.py:275-319 | two adapted opcodes are equal iff the families are equal and both or neither wave size is 64 |
| AcoBuilder.InsertAllEffect | src/amd/compiler/aco_builder_h.py:226-253 | a run of inserts: no change without a list; appended in call order; prepended in reverse order; or placed in call order before the original cursor, which ends up after them, with the rest of the list unchanged |
| AcoBuilder.InsertAllAppend | src/amd/compiler/aco_builder_h.py:226-253 | inserting xs and then ys is the same as inserting xs + ys, in every mode |
| AcoBuilder.Flagged | src/amd/compiler/aco_builder_h.py:565-569 | every definition keeps its position, temporary, fixed register and hint, and carries exactly the builder's precise and nuw flags |
| AcoBuilder.FlaggedOverrides | src/amd/compiler/aco_builder_h.py:565-569 | the builder's flags replace the definitions' own: flagging twice is flagging once with the later flags, and flagging with the flags already carried changes nothing |
| AcoBuilder.FixedOp | src/amd/compiler/aco_builder_h.py:321-330 | for m0/vcc/exec/scc, needs an SGPR of at most 8 bytes for vcc and exec; the temporary as an operand fixed to that register |
| AcoBuilder.FixedDef | src/amd/compiler/aco_builder_h.py:332-339 | the same size restriction; the definition is fixed to the register and otherwise unchanged |
| AcoBuilder.HintDef | src/amd/compiler/aco_builder_h.py:341-348 | the same size restriction; the definition gets the register hint and is otherwise unchanged |
| AcoBuilder.Set16bit | src/amd/compiler/aco_builder_h.py:356-359 | the operand is marked 16-bit and otherwise unchanged |
| AcoBuilder.Set24bit | src/amd/compiler/aco_builder_h.py:361-364 | the operand is marked 24-bit and otherwise unchanged |
| AcoBuilder.AddCode | src/amd/compiler/aco_builder_h.py:436-450 | the code vadd32 emits (optional copy of b into a VGPR, then the add, in either operand order) leaves a + b mod 2^32 in dst |
| AcoBuilder.SubCode | src/amd/compiler/aco_builder_h.py:452-500 | the code vsub32 emits (sub in order, or subrev with operands swapped, after an optional copy) leaves a - b mod 2^32 in dst |
| AcoBuilder.CopyScales | src/amd/compiler/aco_builder_h.py:383-386 | a copy of 0 or of tmp leaves tmp times 0 or 1 in dst |
| AcoBuilder.Mul24Scales | src/amd/compiler/aco_builder_h.py:389-390 | v_mul_u32_u24 leaves tmp times imm in dst when both are below 2^24 |
| AcoBuilder.MulLoScales | src/amd/compiler/aco_builder_h.py:423-424 | copying imm into an s1 and then v_mul_lo_u32 leaves tmp times imm mod 2^32 in dst |
| AcoBuilder.ShiftAddOnce | src/amd/compiler/aco_builder_h.py:391-392 | the shift into a fresh v1 followed by the vadd32 lowering leaves tmp (2^s + 1) mod 2^32 in dst |
| AcoBuilder.ShiftSubLowered | src/amd/compiler/aco_builder_h.py:393-394 | the shift into a fresh v1 followed by the vsub32 lowering leaves tmp (2^s - 1) mod 2^32 in dst |
| AcoBuilder.ShiftSubScales | src/amd/compiler/aco_builder_h.py:393-394 | subtracting x from x (k + 1) gives x k mod 2^32 |
| AcoBuilder.VAddOpcode | src/amd/compiler/aco_builder_h.py:442-449 | a carry-in selects the add-with-carry; v_add_u32 exactly when there is no carry-in, no carry-out and the chip is GFX9+; the e64 carry-out form exactly with carry-out on GFX10+ |
| AcoBuilder.ForcedCarry | src/amd/compiler/aco_builder_h.py:454-455 | the carry-out is used iff asked for, or there is a borrow, or the chip is older than GFX9 |
| AcoBuilder.VSubOpcode | src/amd/compiler/aco_builder_h.py:463-481 | sub iff no borrow and no swap; subrev iff no borrow and swapped; subb/subbrev iff a borrow; the carry-less forms iff no carry-out; the e64 forms iff carry-out without borrow on GFX10+ |
| AcoBuilder.MulCost | src/amd/compiler/aco_builder_h.py:380-382 | 1 exactly on GFX10+, and more than 2 exactly before GFX10 |
| AcoBuilder.InstrsRequired | src/amd/compiler/aco_builder_h.py:397-401 | the popcount on GFX9+, otherwise shifts for set bits above bit 0 plus additions for all set bits but one |
| AcoBuilder.MulImmPlan | src/amd/compiler/aco_builder_h.py:383-424 | first match wins: copy of 0 iff imm = 0, copy of tmp iff imm = 1, a shift by log2 iff a power of two, 24-bit multiply only with bits24, shift-add iff imm - 1 is a power of two, shift-sub only when imm + 1 is one and mul_cost > 2, set bits only when cheaper than mul_cost, else v_mul_lo_u32 |
| AcoBuilder.MulPlanOnGfx10 | src/amd/compiler/aco_builder_h.py:380-402 | on GFX10+ v_mul_imm never chooses the set-bit decomposition or the shift-and-subtract |
| AcoBuilder.InstrList.constructor | src/amd/compiler/aco_builder_h.py:176 | a block's instruction vector holding the given instructions |
| AcoBuilder.Builder.constructor | src/amd/compiler/aco_builder_h.py:181-183 | appends to the given list (or nowhere), lane mask from the program or s2 without one, no precise/nuw flags |
| AcoBuilder.Builder.Precise | src/amd/compiler/aco_builder_h.py:185-189 | a fresh copy of the builder with precise set and every other setting equal |
| AcoBuilder.Builder.Nuw | src/amd/compiler/aco_builder_h.py:191-195 | a fresh copy of the builder with nuw set and every other setting equal |
| AcoBuilder.Builder.MoveEnd | src/amd/compiler/aco_builder_h.py:197-199 | only the target list changes |
| AcoBuilder.Builder.Reset | src/amd/compiler/aco_builder_h.py:201-217 | the builder appends to the given list (or nowhere); nothing else changes |
| AcoBuilder.Builder.ResetAt | src/amd/compiler/aco_builder_h.py:219-224 | the builder inserts before the given position of the given list |
| AcoBuilder.Builder.Insert | src/amd/compiler/aco_builder_h.py:226-253 | the list becomes InsertOne of the old placement (append, prepend, or before the cursor, which advances; unchanged without a list); the instruction is returned either way and the settings are unchanged |
| AcoBuilder.Builder.Emit | src/amd/compiler/aco_builder_h.py:562-581 | builds the instruction from the factory's format, the operands and the flagged definitions, and inserts it; every definition keeps its temporary, fixed register and hint and takes the builder's precise and nuw flags |
| AcoBuilder.Builder.EmitWave | src/amd/compiler/aco_builder_h.py:593-596 | the wave-specific sop1/sop2/sopc overloads emit the W64or32 opcode for the program's wave size |
| AcoBuilder.Builder.Tmp | src/amd/compiler/aco_builder_h.py:255-261 | a temporary with the next id and the given class; the program's allocation counter goes up by one |
| AcoBuilder.Builder.NewDef | src/amd/compiler/aco_builder_h.py:263-269 | a definition of a fresh temporary; the counter goes up by one |
| AcoBuilder.Builder.NewFixedDef | src/amd/compiler/aco_builder_h.py:271-273 | a definition of a fresh id fixed to the physical register |
| AcoBuilder.Builder.NewHintDef | src/amd/compiler/aco_builder_h.py:350-352 | a fresh definition hinted to m0/vcc/exec/scc |
| AcoBuilder.Builder.Copy | src/amd/compiler/aco_builder_h.py:432-434 | emits one p_parallelcopy of the operand into dst |
| AcoBuilder.Builder.AsUniform | src/amd/compiler/aco_builder_h.py:367-374 | a VGPR temporary is moved by p_as_uniform into a fresh SGPR temporary at least as large; an SGPR temporary is returned as is and nothing is emitted |
| AcoBuilder.Builder.ReadLane | src/amd/compiler/aco_builder_h.py:502-508 | v_readlane_b32_e64 (VOP3) from GFX8 on, v_readlane_b32 (VOP2) before |
| AcoBuilder.Builder.WriteLane | src/amd/compiler/aco_builder_h.py:509-514 | v_writelane_b32_e64 (VOP3) from GFX8 on, v_writelane_b32 (VOP2) before |
| AcoBuilder.Builder.VgprSecond | src/amd/compiler/aco_builder_h.py:437-440 | swaps so that the second operand is a VGPR temporary when possible, and before RA copies an SGPR or class-less second operand into a fresh v1 |
| AcoBuilder.Builder.VAdd32 | src/amd/compiler/aco_builder_h.py:436-450 | the last instruction has the VAddOpcode opcode, the VOP2/VOP3 format, the carry definition hinted to vcc, and the carry-in as third operand; without a carry-in the emitted code leaves a + b mod 2^32 in dst and writes no older temporary |
| AcoBuilder.Builder.EmitSub | src/amd/compiler/aco_builder_h.py:483-499 | the subtract built directly: 2 or 3 operands (3 iff a borrow), 1 or 2 definitions (2 iff carry-out, a fresh s2 hinted to vcc) |
| AcoBuilder.Builder.VSub32 | src/amd/compiler/aco_builder_h.py:452-500 | the opcode is VSubOpcode with the forced carry and reversed iff b is not a VGPR temporary; without a borrow the emitted code leaves a - b mod 2^32 in dst |
| AcoBuilder.Builder.MulBySetBits | src/amd/compiler/aco_builder_h.py:402-421 | the loop over set bits, lowest first, builds the running sum and its last step writes dst, which then holds tmp imm mod 2^32 |
| AcoBuilder.Builder.MulByLiteral | src/amd/compiler/aco_builder_h.py:423-424 | imm copied into a fresh s1, then v_mul_lo_u32; dst holds tmp imm mod 2^32 |
| AcoBuilder.Builder.MulShiftAdd | src/amd/compiler/aco_builder_h.py:391-392 | for imm = 2^s + 1: a shift into a fresh v1 then vadd32; dst holds tmp imm mod 2^32 |
| AcoBuilder.Builder.MulShiftSub | src/amd/compiler/aco_builder_h.py:393-394 | for imm = 2^s - 1: a shift into a fresh v1 then vsub32; dst holds tmp imm mod 2^32 |
| AcoBuilder.Builder.VMulImm | src/amd/compiler/aco_builder_h.py:376-425 | emits the MulImmPlan shape for the chip; the last instruction written is the result and dst holds tmp imm mod 2^32, for the 24-bit multiply only when both fit in 24 bits |
| AcoBuilder.Builder.VMul24Imm | src/amd/compiler/aco_builder_h.py:427-430 | v_mul_imm with bits24 set |
| AcoIr.Program.constructor | src/amd/compiler/aco_ir.cpp:63-70 | a program for the chip and wave size, with the lane mask s1 iff wave32 and id 0 reserved |
| AcoIr.Program.AllocateId | src/amd/compiler/aco_builder_h.py:271-273 | hands out the next id, records its class, and increments the counter; nothing else changes |
| AcoIr.Program.AllocateTmp | src/amd/compiler/aco_builder_h.py:255-257 | a temporary with the next id and the class; the counter goes up by one |
| AcoIr.Program.InitProgram | src/amd/compiler/aco_ir.cpp:63-173 | the family defaults per chip when unknown; lane mask s1 iff wave size 32; every device limit as DeviceLimits states it |
| AcoIr.DeviceLimitsConsistent | src/amd/compiler/aco_ir.cpp:98-126 | the allocation granules divide the LDS and register files, and the addressable registers fit the physical ones |
| AcoIr.InitDeviceInfo | src/amd/compiler/aco_ir.cpp:98-160 | computes the device limits that DeviceLimits describes |
| AcoIr.InitLds | src/amd/compiler/aco_ir.cpp:98-102 | LDS limit 65536 on GFX7+ and 32768 before; granules 512/256, 1024 on GFX10_3; 16 banks only on Kabini and Stoney |
| AcoIr.InitRegisterFiles | src/amd/compiler/aco_ir.cpp:104-126 | physical VGPRs 1024 (wave32) or 512 (wave64) on GFX10+, else 256; SGPR counts, limits and granules per generation, 96 on Tonga/Iceland |
| AcoIr.InitWaves | src/amd/compiler/aco_ir.cpp:128-160 | waves per SIMD 16/20/8/10 per generation and family, SIMDs per CU, xnack on the APU families, SRAM ECC on Arcturus, fast FMA32 from GFX9 or on three families |
| AcoIr.PackFields | src/amd/compiler/aco_ir.cpp:504-520 | each counter that fits its field decodes back to itself, and the bits an older chip does not use are zero |
| AcoIr.PackWaitImm | src/amd/compiler/aco_ir.cpp:500-527 | needs exp <= 7 and vm/lgkm within the generation's bounds (or unset); every set counter decodes back to itself, and an unset vm before GFX9 / lgkm before GFX10 sets bits 0xc000 / 0x3000 |
| AcoIr.FillKeepsFields | src/amd/compiler/aco_ir.cpp:521-526 | the fill bits do not change any decoded counter on the chip that packed them |
| AcoIr.DecodeVm | src/amd/compiler/aco_ir.cpp:489-491 | the vm counter is at most the generation's maximum |
| AcoIr.DecodeLgkm | src/amd/compiler/aco_ir.cpp:495-497 | the lgkm counter is at most the generation's maximum |
| AcoIr.WaitImm.constructor | src/amd/compiler/aco_ir.cpp:482-483 | every counter is unset, so the value is empty |
| AcoIr.WaitImm.FromPacked | src/amd/compiler/aco_ir.cpp:487-498 | vm, exp and lgkm decoded from the packed word, vs unset |
| AcoIr.WaitImm.Combine | src/amd/compiler/aco_ir.cpp:529-537 | each counter becomes the minimum of both, and the result is true iff some counter of the other was strictly smaller |
| AcoIr.GetReductionIdentity | src/amd/compiler/aco_ir.cpp:368-445 | defined exactly for the operations in the enum (the source's unreachable otherwise), and always a 32-bit dword |
| AcoIr.ReductionIdentityNeutral | src/amd/compiler/aco_ir.cpp:368-445 | for every integer reduction, combining any value of the operation's width with the identity gives the value back |
| AcoIr.ArithmeticIdentity | src/amd/compiler/aco_ir.cpp:370-427 | 0 is neutral for add and umax, 1 for mul, all ones for umin |
| AcoIr.SignedIdentity | src/amd/compiler/aco_ir.cpp:402-417 | the largest signed value is neutral for imin, the smallest for imax, at 8, 16, 32 and 64 bits |
| AcoIr.BitwiseIdentity | src/amd/compiler/aco_ir.cpp:370-427 | all ones is neutral for and, zero for or and xor |
| AcoIr.BitwiseIdentityValue | src/amd/compiler/aco_ir.cpp:370-427 | the and identity is all ones of the width; or and xor give zero |
| AcoIr.CanUseOpsel | src/amd/compiler/aco_ir.cpp:322-366 | false before GFX9 for the high half or the definition; otherwise true exactly for the listed 16-bit opcodes, the pack/pknorm opcodes on sources only, and the 32-bit mads on sources 0 and 1 |
| AcoIr.SelRoundTrip | src/amd/compiler/aco_ir.cpp:286-309 | choosing an SDWA selection by operand width and reading back the width it selects are inverse: 1, 2 and 4 bytes have exactly one selection each, every other width leaves it unset |
| AcoIr.SdwaOps | src/amd/compiler/aco_ir.cpp:316-317 | the operands keep their order, values and 16/24-bit flags; a third operand (the carry-in) is fixed to vcc whatever it holds, the others keep their fixed registers |
| AcoIr.SdwaDefs | src/amd/compiler/aco_ir.cpp:312-315 | the definitions keep their temporaries, hints and flags; the first is fixed to vcc iff it is an SGPR on GFX8 (else keeps its register), the second (the carry-out) is fixed to vcc, the rest keep theirs |
| AcoIr.ConvertToSdwa | src/amd/compiler/aco_ir.cpp:259-320 | none when already SDWA; otherwise the same opcode, the format with VOP3 cleared and SDWA set, operands and definitions copied with only their fixed registers changed (operand 2, definition 1 and a GFX8 SGPR destination to vcc), each of the first two sources selected at its width (ubyte, uword, udword for 1, 2, 4 bytes, else unset), the destination likewise with dst_preserve iff it is 1 or 2 bytes, and neg/abs/omod/clamp copied from a VOP3 original, cleared otherwise |
| AcoIr.SdwaConversionKeepsData | src/amd/compiler/aco_ir.cpp:259-320 | an instruction not yet SDWA converts, the result does not convert again, and every operand reads the same value with the same width and every definition writes the same temporary |
| Bits.Shl32IsMul | src/amd/compiler/aco_builder_h.py:387-388 | a 32-bit left shift by s is multiplication by 2^s modulo 2^32 |
| Bits.MulLo32IsMul | src/amd/compiler/aco_builder_h.py:423-424 | the low 32 bits of v_mul_lo_u32 are the product modulo 2^32 |
| Bits.MulLo32Sum | src/amd/compiler/aco_builder_h.py:405-419 | x a + x b equals x (a + b) modulo 2^32, which lets the set-bit sums add up to x imm |
| Bits.ClearLowest | src/amd/compiler/aco_builder_h.py:405-406 | u_bit_scan removes exactly the lowest set bit, so the loop runs once per set bit |
| BrwCompactImm.Signed32 | src/intel/compiler/brw_eu_compact.c:1467 | the two's-complement reading of a 32-bit pattern: in range and congruent to it modulo 2^32 |
| BrwCompactImm.Signed16 | src/intel/compiler/brw_eu_compact.c:1472 | the two's-complement reading of the low 16 bits |
| BrwCompactImm.CompactImmediate | src/intel/compiler/brw_eu_compact.c:1422-1491 | the compacted value fits 12 bits on Gfx12 and 13 bits before; NF/DF/Q/UQ/B/UB never compact on Gfx12, nor do W/UW/HF with unequal halves |
| BrwCompactImm.UncompactImmediate | src/intel/compiler/brw_eu_compact.c:1493-1532 | defined for every type before Gfx12 and, on Gfx12, exactly for the types the source can reach; the W case is the corrected one (see Findings) |
| BrwCompactImm.UncompactImmediateAsWritten | src/intel/compiler/brw_eu_compact.c:1493-1532 | agrees with the corrected decoder on every type but the Gfx12 W case |
| BrwCompactImm.Sext13 | src/intel/compiler/brw_eu_compact.c:1526-1529 | the 13-bit decoder gives back every immediate whose bits 12..31 equal bit 12 |
| BrwCompactImm.RoundTripBeforeGfx12 | src/intel/compiler/brw_eu_compact.c:1483-1488 | before Gfx12 an immediate is accepted iff (int)imm >> 12 is 0 or -1, and uncompact(compact(imm)) == imm |
| BrwCompactImm.Sext13Onto | src/intel/compiler/brw_eu_compact.c:1526-1529 | every 13-bit value is the compacted form of the immediate it expands to |
| BrwCompactImm.CompactOfUncompactBeforeGfx12 | src/intel/compiler/brw_eu_compact.c:1483-1488 | before Gfx12, compact(uncompact(c)) == c for every 13-bit c, so the codec is a bijection |
| BrwCompactImm.RoundTripF | src/intel/compiler/brw_eu_compact.c:1442-1446 | an F immediate with the low 20 bits clear comes back from its high 12 bits |
| BrwCompactImm.RoundTripD | src/intel/compiler/brw_eu_compact.c:1465-1469 | a D immediate that fits 12 signed bits comes back, bit 11 replicated upwards |
| BrwCompactImm.RoundTripHF | src/intel/compiler/brw_eu_compact.c:1447-1451 | a replicated HF immediate with the low 4 bits clear comes back |
| BrwCompactImm.RoundTripUW | src/intel/compiler/brw_eu_compact.c:1460-1464 | a replicated UW immediate below 0x1000 per half comes back |
| BrwCompactImm.RoundTripW | src/intel/compiler/brw_eu_compact.c:1470-1474 | a replicated W immediate that fits 12 signed bits comes back through the corrected decoder |
| BrwCompactImm.RoundTripGfx12 | src/intel/compiler/brw_eu_compact.c:1426-1513 | on Gfx12 every accepted immediate of every type comes back unchanged through the corrected decoder |
| BrwCompactImm.AsWrittenAgreesOnNonNegativeW | src/intel/compiler/brw_eu_compact.c:1514-1517 | the W decoder as written is right whenever bit 11 of the compacted value is clear |
| BrwCompactImm.NegativeWordImmediateBreaks | src/intel/compiler/brw_eu_compact.c:1514-1517 | 0xF800F800:W compacts to 0x800, which the decoder as written expands to 0xFFFFF800 and the corrected one to 0xF800F800 |
| BrwCompact.ControlKeyWidth | src/intel/compiler/brw_eu_compact.c:968-1002 | the control key is 21 bits on Gfx12, 19 on Gfx7 to Gfx11, 17 before, and fits its uint32_t |
| BrwCompact.DatatypeKeyWidth | src/intel/compiler/brw_eu_compact.c:1013-1044 | the data-type key is 20 bits on Gfx12 (19 with an immediate), 21 on Gfx8 to Gfx11, 18 before |
| BrwCompact.SubregKeyWidth | src/intel/compiler/brw_eu_compact.c:1056-1076 | the sub-register key is 15 bits, 10 with an immediate, and fits its uint16_t |
| BrwCompact.Src0KeyWidth | src/intel/compiler/brw_eu_compact.c:1087-1106 | the src0 key is 12 bits |
| BrwCompact.Src1KeyWidth | src/intel/compiler/brw_eu_compact.c:1117-1147 | the src1 key is 12 bits |
| BrwCompact.ThreeSrcControlKeyWidth | src/intel/compiler/brw_eu_compact.c:1158-1199 | 36 bits on Gfx12, 26 on Cherryview and Gfx9+, 24 on Broadwell |
| BrwCompact.ThreeSrcSourceKeyWidth | src/intel/compiler/brw_eu_compact.c:1212-1259 | 21 bits on Gfx12, 49 on Cherryview and Gfx9+, 46 on Broadwell |
| BrwCompact.ThreeSrcSubregKeyWidth | src/intel/compiler/brw_eu_compact.c:1272-1282 | the Gfx12 three-source sub-register key is 20 bits |
| BrwCompact.CompactionStateInit | src/intel/compiler/brw_eu_compact.c:2190-2266 | defined exactly for the known generations (unreachable otherwise); the state carries the device and tables every search can index |
| BrwCompact.SharedSourceTable | src/intel/compiler/brw_eu_compact.c:2190-2266 | before Gfx12 src0 and src1 are searched in the same table |
| BrwCompact.FirstFrom | src/intel/compiler/brw_eu_compact.c:1004-1009 | the first index at or after i whose entry equals the key, or none if no entry below the length does |
| BrwCompact.FindIndex | src/intel/compiler/brw_eu_compact.c:1004-1010 | the search loop of every set_*_index: it finds the first matching index, and finds none iff no entry matches |
| BrwCompact.HasUnmappedBits | src/intel/compiler/brw_eu_compact.c:1294-1326 | an EOT send always has unmapped bits; on Gfx12 nothing else does |
| BrwCompact.Has3SrcUnmappedBits | src/intel/compiler/brw_eu_compact.c:1328-1354 | only Broadwell (Gfx8, not Cherryview) can report unmapped three-source bits |
| BrwCompact.ImmediateType | src/intel/compiler/brw_eu_compact.c:1534-1551 | a type only when a source is an immediate, and src0's when src0 is one |
| BrwCompact.SetIndices | src/intel/compiler/brw_eu_compact.c:1697-1706 | the five searches run in the source's order and stop at the first miss, as IndicesSpec states |
| BrwCompact.TryCompact3 | src/intel/compiler/brw_eu_compact.c:1356-1420 | the three-source compaction equals TryCompact3Spec: none on unmapped bits or a failed search |
| BrwCompact.TryCompact | src/intel/compiler/brw_eu_compact.c:1645-1750 | try_compact_instruction equals TryCompactSpec: none where the source returns false and leaves dst alone |
| BrwCompact.NeverCompacted | src/intel/compiler/brw_eu_compact.c:1297-1301 | never compacts three-source before Gen8, immediates before Gen6, or SEND/SENDC with EOT |
| BrwCompact.IndicesMatchKeys | src/intel/compiler/brw_eu_compact.c:968-1156 | a compacted instruction's indices name table entries equal to its keys, the control index the first one |
| BrwCompact.ImmediateRecoverable | src/intel/compiler/brw_eu_compact.c:1117-1156 | a compacted immediate sits in the src1 fields, and the decoder expands it back to the original 32 bits |
| BrwCompactPass.CompactedCounts | src/intel/compiler/brw_eu_compact.c:2277-2281 | entry k is the number of instructions compacted (less G45 alignment NENOPs) before instruction k |
| BrwCompactPass.PackedNoLonger | src/intel/compiler/brw_eu_compact.c:2293-2340 | the packed program is never longer than the original, so every instruction starts at or before its old place |
| BrwCompactPass.PackedGrows | src/intel/compiler/brw_eu_compact.c:2293-2340 | later instructions are placed strictly later |
| BrwCompactPass.PackedReplace | src/intel/compiler/brw_eu_compact.c:2293-2340 | rewriting instruction k changes its own slot in the packed store and nothing else |
| BrwCompactPass.G45Aligned | src/intel/compiler/brw_eu_compact.c:2315-2327 | on G45 every uncompacted instruction starts 16-byte aligned |
| BrwCompactPass.InstructionPlaced | src/intel/compiler/brw_eu_compact.c:2277-2340 | instruction k of the packed program sits at byte 8 (2k - compacted_counts[k]) |
| BrwCompactPass.RetargetLands | src/intel/compiler/brw_eu_compact.c:2131-2137 | a jump of t - k old instructions, less compacted_between, is the distance between the two instructions' new places |
| BrwCompactPass.UipJipLands | src/intel/compiler/brw_eu_compact.c:2139-2165 | JIP (and UIP, except for ENDIF, WHILE and Gfx7 ELSE) aimed at instruction t before compaction aim at it after, in bytes on Gfx8+ and compacted instructions on Gfx6/7; nothing else changes |
| BrwCompactPass.Gfx6JumpCountLands | src/intel/compiler/brw_eu_compact.c:2392-2401 | the Gfx6 IF/ELSE/ENDIF/WHILE jump count lands on the same target, in compacted instructions |
| BrwCompactPass.Gfx4JumpCountLands | src/intel/compiler/brw_eu_compact.c:2167-2188 | the Gfx4/5 jump count lands on the same target: in compacted instructions on Gfx5, in uncompacted ones (rounded down) on G45 |
| BrwCompactPass.IpAddLands | src/intel/compiler/brw_eu_compact.c:2408-2428 | an ADD to the IP register with immediate 16 (t - k) jumps to instruction t's new place |
| BrwCompactPass.FixJumpOnlyJumps | src/intel/compiler/brw_eu_compact.c:2355-2432 | the fix-up changes only JIP, UIP, the jump count and the IP immediate, leaves non-jump instructions and compacted or non-IP ADDs alone, and keeps UIP for the JIP-only opcodes |
| BrwCompactPass.PackRegion | src/intel/compiler/brw_eu_compact.c:2293-2340 | the first loop, each instruction compacted as given (no `precompact`): the store's prefix becomes the packed program, compacted_counts is CompactedCounts, and old_ip maps each new slot back to its old instruction with the end entry set |
| BrwCompactPass.PackDone | src/intel/compiler/brw_eu_compact.c:2342-2346 | after the first loop the packed prefix is the whole program and old_ip's end entry is free |
| BrwCompactPass.FixJumps | src/intel/compiler/brw_eu_compact.c:2348-2432 | the second loop: the packed store becomes the packed form of every instruction with its jumps fixed up |
| BrwCompactPass.Relocate | src/intel/compiler/brw_eu_compact.c:2447-2454 | the relocation loop computes Relocated |
| BrwCompactPass.Relocated | src/intel/compiler/brw_eu_compact.c:2447-2454 | one moved offset per relocation |
| BrwCompactPass.RelocationLands | src/intel/compiler/brw_eu_compact.c:2447-2454 | a relocation on the instruction at old byte offset start + 16k moves to that instruction's new place |
| BrwCompactPass.Padded | src/intel/compiler/brw_eu_compact.c:2439-2446 | an even number of slots, the body as prefix, at most one added slot and that a compacted NOP |
| BrwCompactPass.CompactRegion | src/intel/compiler/brw_eu_compact.c:2268-2454 | the whole pass on the region, without `precompact` and without recompacting compacted Gfx7+ jumps: the compacted, fixed-up and padded code and the moved relocations |
| BrwCompactPass.Codegen.constructor | src/intel/compiler/brw_eu_compact.c:2269 | a code buffer holding an uncompacted program, next_insn_offset 16 per instruction |
| BrwCompactPass.Codegen.CompactInstructions | src/intel/compiler/brw_eu_compact.c:2268-2455 | nothing changes when compaction is off or on Gen4 non-G4X; otherwise (without `precompact` or the Gfx7+ jump recompaction) the code from start_offset is replaced by the compacted program, next_insn_offset is a multiple of 16, nr_insn = next_insn_offset/16 and the relocations move back |
| BrwLowerBarriers.PrefixGrows | src/intel/compiler/brw_nir_lower_scoped_barriers.c:41-61 | lowering more instructions only extends the output |
| BrwLowerBarriers.PrefixLowered | src/intel/compiler/brw_nir_lower_scoped_barriers.c:47-59 | after the pass no scoped_barrier has an execution scope other than NONE |
| BrwLowerBarriers.PrefixUnchanged | src/intel/compiler/brw_nir_lower_scoped_barriers.c:42-49 | a block with nothing to lower is left exactly as it was |
| BrwLowerBarriers.LowerBlockIdempotent | src/intel/compiler/brw_nir_lower_scoped_barriers.c:47-60 | lowering a block twice is lowering it once |
| BrwLowerBarriers.WorkgroupBarrierFollowed | src/intel/compiler/brw_nir_lower_scoped_barriers.c:51-59 | a workgroup-scoped barrier becomes the same barrier at scope NONE immediately followed by a new control_barrier |
| BrwLowerBarriers.OtherBarrierCleared | src/intel/compiler/brw_nir_lower_scoped_barriers.c:51-59 | a barrier with any other execution scope only loses it; nothing is inserted after it |
| BrwLowerBarriers.UntouchedKept | src/intel/compiler/brw_nir_lower_scoped_barriers.c:42-49 | non-barrier instructions and barriers already at NONE are kept as they are, with nothing inserted after them |
| BrwLowerBarriers.LowerAt | src/intel/compiler/brw_nir_lower_scoped_barriers.c:45-60 | the loop body rewrites the instruction under the cursor as LowerInstr says, steps over what it produced and reports whether it lowered anything |
| BrwLowerBarriers.LoopStep | src/intel/compiler/brw_nir_lower_scoped_barriers.c:41-61 | one turn of the loop keeps the lowered prefix followed by the untouched rest |
| BrwLowerBarriers.LowerInstrs | src/intel/compiler/brw_nir_lower_scoped_barriers.c:41-61 | the safe walk over one block yields the lowered block, with progress iff some barrier needed lowering |
| BrwLowerBarriers.FunctionImpl.constructor | src/intel/compiler/brw_nir_lower_scoped_barriers.c:34 | a function implementation with its blocks, all metadata valid |
| BrwLowerBarriers.FunctionImpl.LowerBlockInPlace | src/intel/compiler/brw_nir_lower_scoped_barriers.c:40-62 | block k is replaced by its lowering and the others are unchanged |
| BrwLowerBarriers.FunctionImpl.LowerImpl | src/intel/compiler/brw_nir_lower_scoped_barriers.c:33-72 | every block lowered; progress iff some barrier was rewritten; then only block indices and dominance are preserved, otherwise all metadata |
| BrwLowerBarriers.LowerScopedBarriers | src/intel/compiler/brw_nir_lower_scoped_barriers.c:74-85 | lower_impl on every function with an implementation; progress iff one of them made progress; each function keeps only block indices and dominance when it made progress, and all metadata otherwise |
| BrwLowerBarriers.SecondRunNoProgress | src/intel/compiler/brw_nir_lower_scoped_barriers.c:60-71 | a second run over the output finds nothing to lower and changes nothing |
| PanTexture.BlockDim | src/panfrost/lib/pan_texture.c:231-251 | a block side is 4, 8, 16, 32 or 64 pixels; u-interleaved tiles are 16 wide and high |
| PanTexture.BlockArea | src/panfrost/lib/pan_texture.c:231-251 | every block holds 256 pixels and is at least as wide as high; it is wider than 16 exactly for the AFBC sizes other than 16x16 |
| PanTexture.AstcStretch | src/panfrost/lib/pan_texture.c:101-106 | the stretch code is below 8: dim - 4 up to 11, and 7 for 12 |
| PanTexture.AstcTag | src/panfrost/lib/pan_texture.c:140-145 | the tag fits in six bits and both stretch codes are read back from it (height above, width below) |
| PanTexture.CompressionTag | src/panfrost/lib/pan_texture.c:113-148 | AFBC gets YTR iff the modifier has it, prefetch iff Bifrost, wide-block iff Bifrost and not 16x16, payload-range check iff v7+ and not 3D; ASTC gets a six-bit tag; anything else no tag |
| PanTexture.SuccPos | src/panfrost/lib/pan_texture.c:322-346 | each iterator step moves exactly one place forward in the payload order (level innermost on v7+, sample innermost before) |
| PanTexture.PosInRange | src/panfrost/lib/pan_texture.c:322-346 | every surface in range has a place below the surface count |
| PanTexture.PosInjective | src/panfrost/lib/pan_texture.c:322-346 | two surfaces at the same place are the same surface |
| PanTexture.EndPos | src/panfrost/lib/pan_texture.c:316-320 | the end position, one layer past the last, comes after every surface |
| PanTexture.SurfaceIter.constructor | src/panfrost/lib/pan_texture.c:299-314 | the iterator starts at the first layer, level and face and sample 0 |
| PanTexture.SurfaceIter.End | src/panfrost/lib/pan_texture.c:316-320 | the walk ends exactly when the layer passes the last layer |
| PanTexture.SurfaceIter.Next | src/panfrost/lib/pan_texture.c:322-346 | one step of the iterator, as the successor in payload order |
| PanTexture.SuccLast | src/panfrost/lib/pan_texture.c:322-346 | the step that leaves the last layer lands on the end position |
| PanTexture.ViewRanges | src/panfrost/lib/pan_texture.c:155-166 | a cube view's layers split into cube index and face (layer mod 6); other views have one face and their own layers |
| PanTexture.NumElementsCountsSurfaces | src/panfrost/lib/pan_texture.c:170-193 | the element count is the number of surfaces of the view, doubled with a manual stride |
| PanTexture.CubeCountsEveryLayer | src/panfrost/lib/pan_texture.c:155-193 | a cube view of whole cubes has as many elements as the same layers viewed as a 2D array |
| PanTexture.EstimateCoversPayload | src/panfrost/lib/pan_texture.c:195-222 | the payload estimate is never below the bytes of descriptors actually written, when a manual stride is only used on Bifrost or linear images |
| PanTexture.ChecksumCoversTiles | src/panfrost/lib/pan_texture.c:503-518 | the checksum row stride is 8 bytes per 16-pixel tile across, and the size that times the tile rows |
| PanTexture.TilingOf | src/panfrost/lib/pan_texture.c:595-602 | tiled and AFBC images use their block dimensions (at least 4), with a shift of 2 for compressed formats; linear images 1x1 |
| PanTexture.ComputedStride | src/panfrost/lib/pan_texture.c:626-633 | the computed line stride covers the effective width at the pixel size, 64-byte aligned for linear images |
| PanTexture.Minify | src/panfrost/lib/pan_texture.c:703-705 | a mip level's size is at least 1 and never grows |
| PanTexture.SliceShape | src/panfrost/lib/pan_texture.c:644-681 | the slice holds depth times samples surfaces of one surface stride, and is non-empty when the image is |
| PanTexture.PlaceSlice | src/panfrost/lib/pan_texture.c:604-706 | one loop turn fails exactly on a rejected explicit stride; otherwise the slice starts at the 64-aligned offset, fits before the next one and gets its checksum region in band or out of band |
| PanTexture.LayoutInit | src/panfrost/lib/pan_texture.c:545-717 | succeeds iff the explicit layout is acceptable; then slices are 64-aligned, ordered and disjoint, linear strides 64-aligned, array stride and data size cover every slice, the out-of-band checksum size is the sum of the slices' |
| PanTexture.LaidOutFits | src/panfrost/lib/pan_texture.c:678-686 | a laid-out slice holds all of its depth layers and samples |
| PanTexture.TextureOffsetInSlice | src/panfrost/lib/pan_texture.c:535-543 | a surface's offset lies inside its slice, the slice inside the first array element, and other array elements are the same moved by whole array strides |
| PanTexture.WalkStep | src/panfrost/lib/pan_texture.c:385-409 | visiting the current surface and stepping extends the walk in payload order |
| PanTexture.WalkCovers | src/panfrost/lib/pan_texture.c:385-409 | a finished walk has visited every surface in range exactly once, each at its place |
| PanTexture.WalkSurfaces | src/panfrost/lib/pan_texture.c:385-409 | the iterator loop writes one descriptor per surface, each at its place in payload order |
| PanTexture.EmitTexturePayload | src/panfrost/lib/pan_texture.c:348-410 | one descriptor per surface of the view, as many as the element count, each with its surface's pointer and strides |
| SiStateBinning.StopIndex | src/gallium/drivers/radeonsi/si_state_binning.c:54-57 | the search stops at the first entry at or after i whose range holds the sum, or at the terminator, and at no entry before |
| SiStateBinning.LookupIsBucket | src/gallium/drivers/radeonsi/si_state_binning.c:43-61 | in a well-formed subtable the search finds the entry whose range holds the sum, and the zero-size terminator exactly when the sum is at or past its start |
| SiStateBinning.LookupShrinks | src/gallium/drivers/radeonsi/si_state_binning.c:43-61 | a larger sum never gives a larger bin in either direction |
| SiStateBinning.Subtable | src/gallium/drivers/radeonsi/si_state_binning.c:46-52 | the subtable chosen by log2ceil(RBs per SE) and log2ceil(SEs) ends in a terminator |
| SiStateBinning.FindBinSize | src/gallium/drivers/radeonsi/si_state_binning.c:43-61 | the loop returns the bucket lookup of the sum in the chip's subtable |
| SiStateBinning.ColorTableGood | src/gallium/drivers/radeonsi/si_state_binning.c:85-172 | the colour table has starts strictly rising from 0, shrinking power-of-two bins and a terminator in every subtable |
| SiStateBinning.DepthTableGood | src/gallium/drivers/radeonsi/si_state_binning.c:192-297 | the depth table is well formed in the same way |
| SiStateBinning.ColorBinSize | src/gallium/drivers/radeonsi/si_state_binning.c:63-175 | the bin is the colour-table lookup of the bytes of the enabled targets, times the fragment count or 2 when multisampled |
| SiStateBinning.MoreTargetsSmallerBin | src/gallium/drivers/radeonsi/si_state_binning.c:63-83 | enabling more colour targets never gives a bigger colour bin |
| SiStateBinning.DepthBinSize | src/gallium/drivers/radeonsi/si_state_binning.c:177-190 | 512x512 without a depth buffer or without depth and stencil tests; otherwise the depth-table lookup of 4*(5*depth + stencil)*max(samples, 1) |
| SiStateBinning.DepthBinShrinksWithSamples | src/gallium/drivers/radeonsi/si_state_binning.c:187-190 | more samples never give a bigger depth bin; a zero sum gets the table's first entry |
| SiStateBinning.SplitPixelsShape | src/gallium/drivers/radeonsi/si_state_binning.c:358-360 | the power-of-two split keeps the pixel count, with the width equal to the height or twice it |
| SiStateBinning.Gfx10Costs | src/gallium/drivers/radeonsi/si_state_binning.c:329-356 | cColor sums bpe times the per-target fragment factor over bound targets; FMASK is present iff multisampled with a bound target, costing the table entry per target |
| SiStateBinning.Gfx10BinSizes | src/gallium/drivers/radeonsi/si_state_binning.c:302-403 | the colour bin is the colour or smaller FMASK budget split into a power-of-two bin clamped to at least 128x64; the depth bin 512x512 without a depth buffer, else from the depth budget |
| SiStateBinning.Gfx10BinsOk | src/gallium/drivers/radeonsi/si_state_binning.c:358-402 | both GFX10 bins are encodable, at least 128x64, and never taller than wide |
| SiStateBinning.EncodeRoundTrip | src/gallium/drivers/radeonsi/si_state_binning.c:524-534 | the 16-flag and the extend field written for a side give the side back |
| SiStateBinning.BinDimEncodable | src/gallium/drivers/radeonsi/si_state_binning.c:524-527 | every table bin side is encodable |
| SiStateBinning.LookupEncodable | src/gallium/drivers/radeonsi/si_state_binning.c:43-61 | every answer of a good table is encodable or the zero-size terminator |
| SiStateBinning.ChooseBin | src/gallium/drivers/radeonsi/si_state_binning.c:492-495 | the chosen bin is the colour or the depth bin and covers no more pixels than either |
| SiStateBinning.EnabledCntl | src/gallium/drivers/radeonsi/si_state_binning.c:529-542 | the enabled register allows binning and flushes on transition only if binning was off, always so on the flushing families |
| SiStateBinning.DisabledCntl | src/gallium/drivers/radeonsi/si_state_binning.c:405-437 | the disabled register never allows binning and flushes only if binning was on, always so on GFX10 and the flushing families |
| SiStateBinning.EnabledCntlEncodesBin | src/gallium/drivers/radeonsi/si_state_binning.c:523-538 | the enabled register reads back as the chosen bin whenever its sides are encodable |
| SiStateBinning.DisabledCntlEncodesBin | src/gallium/drivers/radeonsi/si_state_binning.c:409-427 | on GFX10 the disabled register reads back as 128x128, or 128x64 for pixels wider than four bytes |
| SiStateBinning.BinSizeExtend | src/gallium/drivers/radeonsi/si_state_binning.c:523-527 | the extend fields are log2(side) - 5 for sides of at least 32, else 0 |
| SiStateBinning.EnabledRegisters | src/gallium/drivers/radeonsi/si_state_binning.c:502-542 | the enabled register value, and DFSM punchout AUTO exactly when DFSM is preferred |
| SiStateBinning.DpbbContext.constructor | src/gallium/drivers/radeonsi/si_state_binning.c:405-408 | no tracked register values, nothing emitted, binning off |
| SiStateBinning.DpbbContext.SetBinnerCntl | src/gallium/drivers/radeonsi/si_state_binning.c:421-427 | the tracked binner value becomes v; three dwords are emitted only when it changes |
| SiStateBinning.DpbbContext.SetPunchout | src/gallium/drivers/radeonsi/si_state_binning.c:439-443 | the tracked DFSM value becomes m; three dwords are emitted only when it changes |
| SiStateBinning.DpbbContext.EmitDpbbDisable | src/gallium/drivers/radeonsi/si_state_binning.c:405-448 | binning off, the disabled binner value and punchout forced off; a context roll iff some register changed |
| SiStateBinning.DpbbContext.EmitDpbbEnabled | src/gallium/drivers/radeonsi/si_state_binning.c:502-552 | binning on, the enabled binner value and the preferred punchout; a context roll iff some register changed |
| SiStateBinning.ComputeBins | src/gallium/drivers/radeonsi/si_state_binning.c:483-490 | the GFX10 budget bins from GFX10 on; before, the colour table's bin for the bytes of the targets both bound and written, and the depth table's bin, or 512x512 without a depth or stencil test |
| SiStateBinning.DpbbContext.EmitDpbbState | src/gallium/drivers/radeonsi/si_state_binning.c:450-553 | the colour and depth bins are those of gfx10_get_bin_sizes from GFX10 on and of si_get_color_bin_size and si_get_depth_bin_size before; binning ends enabled exactly when DPBB is allowed, not forced off, not believed inefficient, and the smaller bin has no zero side; the registers follow |
| Varray.BitPosition | src/mesa/main/varray.c:54-69 | every type bit lies inside ALL_TYPE_BITS, below bit 15 |
| Varray.BitPositionsDistinct | src/mesa/main/varray.c:54-68 | distinct type names are distinct bits, so the bitmask and the set of names agree |
| Varray.TypeToBitProperties | src/mesa/main/varray.c:88-127 | two types share a bit only if they are the two HALF_FLOAT enums; unknown types, and HALF_FLOAT without ARB_half_float_vertex, have none; FIXED takes the desktop bit exactly on desktop GL |
| Varray.LegalTypesRules | src/mesa/main/varray.c:553-594 | ES never takes FIXED_GL, DOUBLE or 10F_11F_11F, and before 3.0 neither the 32-bit integers nor the 2_10_10_10 types, nor HALF without OES_vertex_half_float; desktop GL never takes FIXED_ES; the mask is never empty |
| Varray.FormatAcceptedIff | src/mesa/main/varray.c:672-775 | a format is accepted exactly when its type is legal, a BGRA format is normalized with a BGRA type, an RGBA size is in [sizeMin, min(sizeMax, 4)], packed types have their fixed sizes and the relative offset is in range |
| Varray.FormatErrorOrder | src/mesa/main/varray.c:697-771 | the error is that of the first failing check: an illegal type always and only gives INVALID_ENUM; BGRA problems give INVALID_OPERATION, an RGBA size out of range INVALID_VALUE |
| Varray.ArrayAttribState.constructor | src/mesa/main/varray.c:685-690 | no cached legal-types mask and no locked range |
| Varray.ArrayAttribState.ValidateArrayFormat | src/mesa/main/varray.c:672-775 | the cached mask is recomputed when unset or computed for another API; the result is the validation of the format against the caller's types narrowed to it; the lock state is untouched |
| Varray.ArrayAttribState.LockArrays | src/mesa/main/varray.c:2709-2732 | INVALID_VALUE for a negative first or a non-positive count, INVALID_OPERATION when already locked, otherwise the range is locked; nothing changes on error |
| Varray.ArrayAttribState.UnlockArrays | src/mesa/main/varray.c:2735-2750 | INVALID_OPERATION when not locked; afterwards nothing is locked |
| Varray.BoundToMove | src/mesa/main/varray.c:182-185 | moving attribute a to binding n changes the bound sets of its old and new binding only, by exactly a |
| Varray.MasksMove | src/mesa/main/varray.c:169-185 | after the move only a's bit can change in the buffer and divisor masks, and it follows binding n |
| Varray.MasksRebind | src/mesa/main/varray.c:236-268 | a binding's buffer or divisor changing moves exactly its bound attributes in or out of the masks |
| Varray.Int32Of | src/mesa/main/varray.c:208 | the (int) cast keeps the low 32 bits as a signed value |
| Varray.InitialBindings | src/mesa/main/varray.c:161-189 | a new vertex array object has one binding per attribute |
| Varray.VertexArrayObject.constructor | src/mesa/main/varray.c:168-185 | a fresh vertex array object, each attribute on its own binding, already keeps the `_BoundArrays`, buffer-mask and divisor-mask bookkeeping these lines maintain, with nothing enabled |
| Varray.VertexArrayObject.VertexAttribBinding | src/mesa/main/varray.c:160-189 | a no-op when the attribute already uses the binding; otherwise the attribute moves, its buffer and divisor bits follow the new binding, NewArrays gains it if enabled, and the invariants hold |
| Varray.VertexArrayObject.MoveAttrib | src/mesa/main/varray.c:182-185 | the attribute's bit leaves its old binding's bound set and joins the new one |
| Varray.VertexArrayObject.BindVertexBuffer | src/mesa/main/varray.c:196-245 | a negative 32-bit offset the driver cannot take becomes 0; on a change the binding takes buffer, offset and stride, the buffer mask gains or loses exactly its attributes and NewArrays the enabled ones |
| Varray.VertexArrayObject.VertexBindingDivisor | src/mesa/main/varray.c:252-272 | on a change the divisor mask gains or loses exactly the binding's attributes and NewArrays the enabled ones |
| Varray.VertexArrayObject.UpdateAttributeMapMode | src/mesa/main/varray.c:135-153 | GENERIC0 over POS over identity in compatibility profile; identity otherwise |
| Varray.VertexArrayObject.EnableAttribs | src/mesa/main/varray.c:1867-1886 | only the disabled bits change; NewArrays gains exactly those and the map mode stays consistent |
| Varray.VertexArrayObject.DisableAttribs | src/mesa/main/varray.c:1964-1983 | only the enabled bits change; NewArrays gains exactly those and the map mode stays consistent |
| Varray.MapModeOnlyPosGeneric0 | src/mesa/main/varray.c:1882-1884 | the map mode depends only on POS and GENERIC0, which is why it is revisited only when one of them changes |
| Varray.GetInterleavedLayout | src/mesa/main/varray.c:2536-2646 | None exactly for an unknown format; otherwise a gap-free layout with the vertex last, voffset + vcomps * sizeof(GLfloat) == defstride |
| VnQueue.ReleasePayload | src/virtio/vulkan/vn_queue.c:697-705 | a released payload is INVALID and keeps its sync object |
| VnQueue.InitPayloads | src/virtio/vulkan/vn_queue.c:707-737 | a new fence or timeline semaphore has a sync payload, a binary semaphore a device-only one; the temporary payload is INVALID and the permanent one current |
| VnQueue.SignalWsi | src/virtio/vulkan/vn_queue.c:739-747 | a WSI signal makes the temporary payload current and WSI-signaled, leaving the permanent payload alone |
| VnQueue.ResetTemporary | src/virtio/vulkan/vn_queue.c:1033-1043 | after a reset the permanent payload is current and the temporary one released |
| VnQueue.ImportTemporary | src/virtio/vulkan/vn_queue.c:933-966 | an accepted temporary import makes the temporary payload, on its own sync object, a current sync payload, keeping the permanent one and the object's invariant; a refused one changes nothing |
| VnQueue.ImportThenReset | src/virtio/vulkan/vn_queue.c:1195-1231 | a reset undoes a temporary import as it undoes a WSI signal, and a WSI signal replaces an imported payload |
| VnQueue.SignalThenReset | src/virtio/vulkan/vn_queue.c:739-747 | signal then reset equals reset; resetting twice equals resetting once; resetting an object on its permanent payload changes nothing |
| VnQueue.FenceSyncs | src/virtio/vulkan/vn_queue.c:891-902 | as many syncs as listed fences with a SYNC payload |
| VnQueue.FenceSyncsAreTheSyncFences | src/virtio/vulkan/vn_queue.c:891-910 | every sync handed over belongs to a listed fence with a SYNC payload, and every such fence's sync is handed over |
| VnQueue.WaitForFences | src/virtio/vulkan/vn_queue.c:864-930 | the renderer gets the syncs of the fences with a SYNC payload, in list order, each with value 1, and is asked to wait iff there is one and either all must signal or none is already WSI-signaled |
| VnQueue.FencesSplit | src/virtio/vulkan/vn_queue.c:891-910 | every listed fence is either waited on or already signaled |
| VnQueue.TotalsBound | src/virtio/vulkan/vn_queue.c:175-176 | WSI waits are part of the waits and device-only plus timeline signals part of the signals, so the unsigned subtractions never wrap |
| VnQueue.CountBatch | src/virtio/vulkan/vn_queue.c:110-140 | one batch's WSI-signaled waits, device-only signals (a WSI-signaled one counted by its permanent payload) and timeline signals |
| VnQueue.CountSemaphores | src/virtio/vulkan/vn_queue.c:102-179 | the per-batch counts summed; sync_count is one per signal that is not device-only plus one for the fence |
| VnQueue.Align8 | src/virtio/vulkan/vn_queue.c:215 | the smallest multiple of 8 not below x |
| VnQueue.Layout | src/virtio/vulkan/vn_queue.c:181-222 | nothing is needed without WSI waits and syncs; otherwise the batch copies, kept waits, syncs, 8-aligned sync values and per-batch counts follow each other without overlap, each holding its count of elements |
| VnQueue.AllocStorage | src/virtio/vulkan/vn_queue.c:181-243 | VK_ERROR_OUT_OF_HOST_MEMORY exactly when storage is needed and the allocator fails; otherwise the layout |
| VnQueue.AsWrittenSubmitAgrees | src/virtio/vulkan/vn_queue.c:110-141 | for VkSubmitInfo batches the count as written equals the sync count the setup produces |
| VnQueue.BindSparseMiscount | src/virtio/vulkan/vn_queue.c:142-169 | a bind-sparse batch that waits on and signals a WSI-signaled binary semaphore is counted one sync while the setup produces none |
| VnQueue.MiscountInputValid | src/virtio/vulkan/vn_queue.c:142-169 | that submission satisfies every rule the submission code relies on |
| VnQueue.KeptWaits | src/virtio/vulkan/vn_queue.c:278-287 | the kept waits are the non-WSI-signaled ones of the batch, as many as the waits less the WSI-signaled ones |
| VnQueue.ReachedCompose | src/virtio/vulkan/vn_queue.c:283-284 | a reset semaphore is no longer WSI-signaled, so resetting in two rounds is resetting once |
| VnQueue.SetupBatchSyncs | src/virtio/vulkan/vn_queue.c:305-359 | one sync and value per signal semaphore that is not device-only, in order, valued by the timeline value or 1 |
| VnQueue.BatchSyncsLength | src/virtio/vulkan/vn_queue.c:341-354 | a batch yields as many syncs as signals less the device-only ones |
| VnQueue.DeviceOnlySame | src/virtio/vulkan/vn_queue.c:131-136 | when each signal's current kind is the one it was counted by, the setup skips exactly the counted device-only signals |
| VnQueue.FilteredWaitTotal | src/virtio/vulkan/vn_queue.c:405-409 | the filtered batches wait on the waits less the WSI-signaled ones |
| VnQueue.NoWsiKept | src/virtio/vulkan/vn_queue.c:385-409 | without WSI-signaled waits every wait is kept |
| VnQueue.WaitsUntouched | src/virtio/vulkan/vn_queue.c:405-409 | the waits of batch i have not been reset by the earlier batches |
| VnQueue.SignalsSettled | src/virtio/vulkan/vn_queue.c:131-133 | once batch i's waits are filtered, each of its signal semaphores has the kind it was counted by |
| VnQueue.VnDevice.CreateFence | src/virtio/vulkan/vn_queue.c:706-788 | when both renderer syncs are created, a fence on its permanent sync payload is appended under the next handle, keeping every object's invariant; otherwise nothing changes |
| VnQueue.VnDevice.CreateSemaphore | src/virtio/vulkan/vn_queue.c:993-1096 | the same for semaphores: a sync payload for a timeline semaphore, a device-only one for a binary semaphore |
| VnQueue.VnDevice.FenceSignalWsi | src/virtio/vulkan/vn_queue.c:739-747 | only that fence changes, by a WSI signal |
| VnQueue.VnDevice.SemaphoreSignalWsi | src/virtio/vulkan/vn_queue.c:1045-1053 | only that semaphore changes, by a WSI signal |
| VnQueue.VnDevice.SemaphoreResetWsi | src/virtio/vulkan/vn_queue.c:1033-1043 | only that semaphore changes, back to its permanent payload |
| VnQueue.VnDevice.ResetFences | src/virtio/vulkan/vn_queue.c:813-836 | every listed fence releases its temporary payload and is back on its permanent sync; the others are unchanged |
| VnQueue.VnDevice.FilterWsiWaits | src/virtio/vulkan/vn_queue.c:245-303 | WSI-signaled waits are reset and dropped, the others kept in order; kept plus dropped is all |
| VnQueue.VnDevice.SetupBatch | src/virtio/vulkan/vn_queue.c:405-416 | batch i's waits filtered when any wait is WSI-signaled; its syncs, one per signal not counted device-only, collected when asked |
| VnQueue.VnDevice.SetupAllBatches | src/virtio/vulkan/vn_queue.c:403-417 | all batches filtered and synced in order; the per-batch counts sum to the syncs |
| VnQueue.VnDevice.SetupBatches | src/virtio/vulkan/vn_queue.c:378-422 | the kept waits fill exactly the waits less the WSI ones, the syncs total sync_count exactly, and the fence sync comes last with value 1 |
| LvpFormats.VkFormatToPipe | src/gallium/frontends/lavapipe/lvp_formats.c:143-148 | NONE beyond the last ASTC format, the table entry otherwise |
| LvpFormats.TranslatedRange | src/gallium/frontends/lavapipe/lvp_formats.c:31-141 | only VkFormats 3 to 146 translate, R8_SRGB excepted: no ETC2, EAC or ASTC format has a gallium counterpart |
| LvpFormats.Pack32Aliases | src/gallium/frontends/lavapipe/lvp_formats.c:105-109 | the A8B8G8R8 PACK32 formats translate to the same pipe format as the R8G8B8A8 format 14 codes below |
| LvpFormats.GetFormatProperties | src/gallium/frontends/lavapipe/lvp_formats.c:150-235 | the format's linear, optimal and buffer features as the screen's answers determine them |
| LvpFormats.GatherFeatures | src/gallium/frontends/lavapipe/lvp_formats.c:164-234 | depth/stencil formats get optimal-only attachment, sampling, transfer and blit bits; compressed ones the sampling bits if they can be sampled; colour formats the buffer and tiling bits |
| LvpFormats.ColorBufferFeatureBits | src/gallium/frontends/lavapipe/lvp_formats.c:188-198 | storage texel buffer always, vertex buffer for non-sRGB vertex-buffer formats, uniform texel buffer for constant-buffer formats |
| LvpFormats.ColorFeatureBits | src/gallium/frontends/lavapipe/lvp_formats.c:201-230 | the tiling features of a colour format, ORed together from the sampler, render-target and format-specific bits |
| LvpFormats.SamplerBits | src/gallium/frontends/lavapipe/lvp_formats.c:201-206 | sampled-image when the screen can sample it, plus linear filtering unless pure integer |
| LvpFormats.RenderTargetBits | src/gallium/frontends/lavapipe/lvp_formats.c:208-215 | colour attachment and storage image when renderable, blending unless SNORM |
| LvpFormats.FormatSpecificBits | src/gallium/frontends/lavapipe/lvp_formats.c:217-230 | atomics for R32 integers, transfers always, blit bits for the formats the source singles out |
| LvpFormats.ColorFeaturesByBit | src/gallium/frontends/lavapipe/lvp_formats.c:201-230 | which tiling features a colour format has, bit by bit, in terms of the screen's answers |
| LvpFormats.UntranslatedHasNothing | src/gallium/frontends/lavapipe/lvp_formats.c:155-162 | formats without a translation have no features at all |
| LvpFormats.LinearMatchesOptimal | src/gallium/frontends/lavapipe/lvp_formats.c:164-234 | linear and optimal tiling have the same features, except depth/stencil formats, which have none for linear tiling |
| LvpFormats.BufferFeaturesOnlyForColor | src/gallium/frontends/lavapipe/lvp_formats.c:164-234 | only a colour format that is neither compressed nor depth/stencil has buffer features, and then always texel-buffer storage and both transfers; no tiling reports a buffer-only bit |
| LvpFormats.AtomicsOnlyForR32 | src/gallium/frontends/lavapipe/lvp_formats.c:217-220 | the atomic features belong to R32_UINT and R32_SINT alone |
| LvpFormats.MaxMipLevelsIsChain | src/gallium/frontends/lavapipe/lvp_formats.c:296-311 | the corrected maxMipLevels is the length of the complete mip chain of the largest 2D size, one more than `util_logbase2` of it as written |
| LvpFormats.MaxMipLevelsOneShort | src/gallium/frontends/lavapipe/lvp_formats.c:303 | for a 16384-texel 2D image the value as written is 14, one short of the 15-level chain |
| LvpFormats.TypeLimits | src/gallium/frontends/lavapipe/lvp_formats.c:284-313 | the largest extent, array size and sample counts of each image type (4 samples only for 2D, one layer for 3D); the mip count is the corrected `util_logbase2(max_2d_ext) + 1`, not the source's `util_logbase2(max_2d_ext)` |
| LvpFormats.GetImageFormatProperties | src/gallium/frontends/lavapipe/lvp_formats.c:260-381 | supported iff the tiling's features are non-empty, a 1D image is not compressed and every usage bit has its feature; then the type's limits (with the corrected mip count), otherwise all zero and FORMAT_NOT_SUPPORTED |
| LvpFormats.ImagePropertiesFor | src/gallium/frontends/lavapipe/lvp_formats.c:281-381 | the same, once the tiling's features are known (with the corrected mip count) |
| LvpFormats.CheckUsage | src/gallium/frontends/lavapipe/lvp_formats.c:316-357 | the usage tests in the source's order accept exactly the usages the features allow |
| LvpFormats.FewerUsagesStaySupported | src/gallium/frontends/lavapipe/lvp_formats.c:316-357 | dropping usage bits never turns a supported image unsupported |
| LvpFormats.DepthStencilNotLinear | src/gallium/frontends/lavapipe/lvp_formats.c:164-173 | a depth/stencil format has no linear-tiling images |
| LvpFormats.ColorTransferSupported | src/gallium/frontends/lavapipe/lvp_formats.c:225 | an uncompressed colour format is always supported as a 2D optimal-tiling transfer source and target |
| LvpFormats.SparseImageFormatPropertyCount | src/gallium/frontends/lavapipe/lvp_formats.c:423-445 | sparse images are not supported, so no property is ever reported |
| StAtomArray.InitWrites | src/mesa/state_tracker/st_atom_array.c:105-123 | the element writes of one attribute touch only slots of the element array |
| StAtomArray.DoubleLoweringCoversAttribute | src/mesa/state_tracker/st_atom_array.c:64-100 | a 64-bit attribute is fetched whole and once: one element of 8 bytes per component for up to two components; for three or four, a second element in the placeholder slot that starts where the first ends, the two together 8 bytes per component; both from the same buffer with the same divisor |
| StAtomArray.GroupsCover | src/mesa/state_tracker/st_atom_array.c:184-223 | every attribute of the mask is processed exactly once, in one of the per-binding groups |
| StAtomArray.GroupsShareBinding | src/mesa/state_tracker/st_atom_array.c:186-215 | each group is led by its lowest attribute and all its attributes are bound to that attribute's binding |
| StAtomArray.GroupsOrdered | src/mesa/state_tracker/st_atom_array.c:207-222 | each group keeps the mask's ascending order |
| StAtomArray.GroupsWithin | src/mesa/state_tracker/st_atom_array.c:184-223 | the groups hold attributes of the mask only |
| StAtomArray.BindingBuffersCountGroups | src/mesa/state_tracker/st_atom_array.c:184-205 | the non-dynamic path adds one vertex buffer per group |
| StAtomArray.BindingBuffersFollowGroups | src/mesa/state_tracker/st_atom_array.c:186-205 | the buffer of each group is the buffer of the binding of the group's lowest attribute |
| StAtomArray.NextPow2 | src/mesa/state_tracker/st_atom_array.c:257 | the alignment of an attribute is a power of two at least its size and, for a non-zero size, below twice it |
| StAtomArray.NextPow2Least | src/mesa/state_tracker/st_atom_array.c:257 | no power of two at least the size is smaller than the chosen alignment |
| StAtomArray.Chunk | src/mesa/state_tracker/st_atom_array.c:256-261 | an attribute's share of the upload is its bytes followed by zeros up to its alignment |
| StAtomArray.MaxAlignment | src/mesa/state_tracker/st_atom_array.c:250-258 | the upload alignment is at least 1 |
| StAtomArray.MaxAlignmentIsMax | src/mesa/state_tracker/st_atom_array.c:250-258 | the upload alignment is one of the attributes' alignments, or 1, and none of them is larger |
| StAtomArray.PackedRoundTrip | src/mesa/state_tracker/st_atom_array.c:252-267 | reading the upload at the offset an attribute's element records gives back the attribute's value, followed by zeros up to the next attribute's offset |
| StAtomArray.PackedChunkAt | src/mesa/state_tracker/st_atom_array.c:252-267 | each attribute's chunk sits right after the chunks of the attributes before it |
| StAtomArray.PackedBound | src/mesa/state_tracker/st_atom_array.c:247 | the upload never exceeds the data array of one dvec4 per attribute |
| StAtomArray.CopyChunk | src/mesa/state_tracker/st_atom_array.c:259-261 | the value is copied at the cursor and zero-padded to its alignment; the rest of the data array is unchanged |
| StAtomArray.ArrayState.InitVelement | src/mesa/state_tracker/st_atom_array.c:53-123 | the element array after the call is the old one with the attribute's element writes applied, the 64-bit placeholder included |
| StAtomArray.ArrayState.SetupArrays | src/mesa/state_tracker/st_atom_array.c:132-224 | the user-buffer and min/max-index flags follow the user arrays and their divisors; the vertex buffers and elements are those of the dynamic or binding path, appended after the buffers already set |
| StAtomArray.ArrayState.SetupDynamicArrays | src/mesa/state_tracker/st_atom_array.c:152-182 | one vertex buffer per attribute, each element at offset 0 of its buffer |
| StAtomArray.ArrayState.SetupBindings | src/mesa/state_tracker/st_atom_array.c:184-223 | one vertex buffer per binding, each attribute's element at its relative offset in its binding's buffer |
| StAtomArray.ArrayState.SetupCurrent | src/mesa/state_tracker/st_atom_array.c:233-292 | with no current attributes, -1 and nothing changed; otherwise the next buffer index, which now holds the packed upload with the maximal alignment, and the attributes' elements point into it |
| StAtomArray.ArrayState.PackCurrent | src/mesa/state_tracker/st_atom_array.c:252-267 | the loop produces exactly the packed bytes and their maximal alignment, writing each attribute's element at its chunk's offset |
| StAtomArray.ArrayState.SetupCurrentUser | src/mesa/state_tracker/st_atom_array.c:295-322 | one user-pointer buffer of stride 0 per current attribute, each element at offset 0 of it |
| StAtomArray.ArrayState.UpdateArray | src/mesa/state_tracker/st_atom_array.c:325-363 | the buffers are the arrays' followed by the current attributes' one if any; the element count is the program's inputs plus the edge-flag passthrough; trailing buffers of the previous draw are unbound and the count is kept for the next draw |
| Ir3Shader.LastBit | src/gallium/drivers/freedreno/ir3/ir3_shader.c:89-90 | the highest set bit of a non-zero mask is bit LastBit - 1; 0 for an empty mask |
| Ir3Shader.InputFootprint | src/gallium/drivers/freedreno/ir3/ir3_shader.c:75-93 | an input counts exactly when it is not a bary.f input, not a warp-global register and has a component; its footprint is the vec4 register holding its last enabled component |
| Ir3Shader.OutputFootprint | src/gallium/drivers/freedreno/ir3/ir3_shader.c:96-99 | an output's footprint is its register number rounded up to whole vec4 registers |
| Ir3Shader.RaiseInputs | src/gallium/drivers/freedreno/ir3/ir3_shader.c:75-93 | after the input loop max_reg is no lower than before and covers every counted input |
| Ir3Shader.RaiseOutputs | src/gallium/drivers/freedreno/ir3/ir3_shader.c:96-99 | after the output loop max_reg is no lower than before and covers every output |
| Ir3Shader.RaiseInputsAttained | src/gallium/drivers/freedreno/ir3/ir3_shader.c:75-93 | the input loop leaves max_reg as it was or at one input's footprint |
| Ir3Shader.RaiseOutputsAttained | src/gallium/drivers/freedreno/ir3/ir3_shader.c:96-99 | the output loop leaves max_reg as it was or at one output's footprint |
| Ir3Shader.RegFootprintIsMax | src/gallium/drivers/freedreno/ir3/ir3_shader.c:71-100 | the fixup never lowers max_reg, covers every counted input and every output, and is the old value or one of the footprints, hence the least such value |
| Ir3Shader.InstrLen | src/gallium/drivers/freedreno/ir3/ir3_shader.c:113-117 | instrlen counts whole groups of 16 (a4xx and later) or 4 instructions of two dwords |
| Ir3Shader.ClampConstlen | src/gallium/drivers/freedreno/ir3/ir3_shader.c:119-123 | constlen is raised to cover the highest constant read and never exceeds 255: the result is 255 exactly when the raised value reaches 255, and the raised value otherwise |
| Ir3Shader.NormalizeKey | src/gallium/drivers/freedreno/ir3/ir3_shader.c:237-266 | fragment keys with per-sampler state lose the vertex sampler fields; vertex keys lose two-sided colour, half precision and flat rasterisation, and with per-sampler state the fragment sampler fields; other stages keep the key |
| Ir3Shader.NormalizeKeyShares | src/gallium/drivers/freedreno/ir3/ir3_shader.c:237-266 | two keys share a variant exactly when they agree on every field the stage depends on |
| Ir3Shader.NormalizeKeyIdempotent | src/gallium/drivers/freedreno/ir3/ir3_shader.c:237-266 | normalising a normalised key changes nothing |
| Ir3Shader.Variant.FixupRegfootprint | src/gallium/drivers/freedreno/ir3/ir3_shader.c:71-100 | max_reg after the two loops is the register footprint of the old max_reg, the inputs and the outputs |
| Ir3Shader.Variant.Assemble | src/gallium/drivers/freedreno/ir3/ir3_shader.c:105-128 | after assembly instrlen, constlen and max_reg are the fixed-up values |
| Ir3Shader.FirstWithKey | src/gallium/drivers/freedreno/ir3/ir3_shader.c:268-270 | the position found holds the key and none before it does; no position means no variant has the key |
| Ir3Shader.CacheCountUp | src/gallium/drivers/freedreno/ir3/ir3_shader.c:206 | a number used up by a failed or binning build keeps the variant list valid |
| Ir3Shader.CachePrepend | src/gallium/drivers/freedreno/ir3/ir3_shader.c:272-278 | a new variant, numbered after every cached one and with a normalised key not yet cached, can go at the head of the list |
| Ir3Shader.Shader.FindVariant | src/gallium/drivers/freedreno/ir3/ir3_shader.c:268-270 | the walk returns the first variant with an equal key, or none |
| Ir3Shader.Shader.CreateVariant | src/gallium/drivers/freedreno/ir3/ir3_shader.c:197-229 | the count is taken before compiling, so a failed build still uses a number; a built variant carries that number, its key and pass and the assembled fixups |
| Ir3Shader.Shader.ShaderVariant | src/gallium/drivers/freedreno/ir3/ir3_shader.c:232-281 | for the normalised key, the cached variant with nothing changed, or a new variant at the head of the list, or nothing when the build fails |
| Ir3Shader.Shader.BinningVariant | src/gallium/drivers/freedreno/ir3/ir3_shader.c:291-295 | the binning variant is built from the key as given the first time it is asked for and reused afterwards |
| Ir3Shader.Shader.VariantFor | src/gallium/drivers/freedreno/ir3/ir3_shader.c:285-298 | the variant for the normalised key or, for the binning pass, its binning variant; a newly built base variant heads the list, and in the binning pass the result is that base variant's binning variant; a failed build leaves the list alone; no other variant's binning variant changes |
| Ir3Shader.UserConstsEmit | src/gallium/drivers/freedreno/ir3/ir3_shader.c:592-624 | the dwords written never exceed the buffer, the variant's uniforms or constlen, and are the buffer or the limit; nothing is written when there is nothing to write |
| Ir3Shader.Int32Of | src/gallium/drivers/freedreno/ir3/ir3_shader.c:731-743 | the C int equal to the value modulo 2^32 |
| Ir3Shader.ImmediatesEmit | src/gallium/drivers/freedreno/ir3/ir3_shader.c:729-749 | a write starts at the base in dwords and has a positive multiple of 4 dwords |
| Ir3Shader.ImmediatesWithinConstlen | src/gallium/drivers/freedreno/ir3/ir3_shader.c:729-749 | without wrap-around, immediates are written exactly when there are some and the base is below constlen, and then they are the vec4s from the base up to the smaller of the immediates' end and constlen |
| Ir3Shader.TfLimit | src/gallium/drivers/freedreno/ir3/ir3_shader.c:818-825 | the limit is no larger than any bound target's capacity |
| Ir3Shader.TfLimitAttained | src/gallium/drivers/freedreno/ir3/ir3_shader.c:818-825 | the limit is one bound target's capacity, or the start value when none is bound |
| Ir3Shader.MaxTfVtx | src/gallium/drivers/freedreno/ir3/ir3_shader.c:784-828 | no limit (0) on a5xx and later, for a binning variant, without stream-out outputs or without targets; otherwise the fewest vertices a bound target holds |
| VnRendererVtest.PollTimeout | src/virtio/vulkan/vn_renderer_vtest.c:846-853 | the timeout rounded up to whole milliseconds, or -1 (wait forever) exactly when that count exceeds INT_MAX; the 64-bit wrap-around of the rounding lands in the -1 case |
| VnRendererVtest.WireTimeout | src/virtio/vulkan/vn_renderer_vtest.c:448-450 | the timeout sent to the server fits 32 bits |
| VnRendererVtest.SyncWaitTimeout | src/virtio/vulkan/vn_renderer_vtest.c:846-853 | the timeout sent for a wait is no limit exactly when the rounded-up milliseconds exceed INT_MAX, and otherwise the least number of milliseconds covering the timeout |
| VnRendererVtest.BlobFlags | src/virtio/vulkan/vn_renderer_vtest.c:728-740 | mappable iff the memory is host-visible, shareable iff any external handle type is asked for, cross-device iff dma-buf is among them, and no other flag |
| VnRendererVtest.SyncListWords | src/virtio/vulkan/vn_renderer_vtest.c:459-467 | three dwords per sync |
| VnRendererVtest.AppendSyncs | src/virtio/vulkan/vn_renderer_vtest.c:459-467 | the stream grows by the dwords of the syncs, in order |
| VnRendererVtest.SubmitSizes | src/virtio/vulkan/vn_renderer_vtest.c:477-504 | the header is empty for no batches and otherwise one dword plus one record per batch; the command-stream size sums the batches' streams and the sync size is 12 bytes per sync |
| VnRendererVtest.RecordWords | src/virtio/vulkan/vn_renderer_vtest.c:525-535 | a batch record is eight dwords |
| VnRendererVtest.Records | src/virtio/vulkan/vn_renderer_vtest.c:521-540 | the records of k batches are 8k dwords |
| VnRendererVtest.CsWords | src/virtio/vulkan/vn_renderer_vtest.c:543-550 | the command streams of k batches are as many dwords as their streams hold together |
| VnRendererVtest.SyncsOf | src/virtio/vulkan/vn_renderer_vtest.c:553-570 | the syncs of k batches are three dwords per sync |
| VnRendererVtest.PayloadHead | src/virtio/vulkan/vn_renderer_vtest.c:518-540 | the header of the payload has the header size in dwords |
| VnRendererVtest.SubmitPayload | src/virtio/vulkan/vn_renderer_vtest.c:506-570 | the payload has the total size the header announces |
| VnRendererVtest.AppendRecords | src/virtio/vulkan/vn_renderer_vtest.c:521-540 | the first loop sends exactly the records, offsets advanced batch by batch |
| VnRendererVtest.AppendCommandStreams | src/virtio/vulkan/vn_renderer_vtest.c:542-550 | the second loop sends exactly the command streams of all batches |
| VnRendererVtest.AppendBatchSyncs | src/virtio/vulkan/vn_renderer_vtest.c:552-570 | the third loop sends exactly the syncs of all batches |
| VnRendererVtest.CountsGrow | src/virtio/vulkan/vn_renderer_vtest.c:489-495 | the dword counts only grow with the number of batches |
| VnRendererVtest.CsWordsAt | src/virtio/vulkan/vn_renderer_vtest.c:536-550 | each batch's command stream sits at the dwords of the streams before it |
| VnRendererVtest.SyncsAt | src/virtio/vulkan/vn_renderer_vtest.c:537-570 | each batch's syncs sit after the syncs of the batches before it |
| VnRendererVtest.RecordAt | src/virtio/vulkan/vn_renderer_vtest.c:521-540 | record i occupies dwords 8i to 8i + 8 of the records |
| VnRendererVtest.HeadRecordAt | src/virtio/vulkan/vn_renderer_vtest.c:518-540 | record i occupies dwords 1 + 8i to 9 + 8i of the header, after the batch count |
| VnRendererVtest.SubmitLayout | src/virtio/vulkan/vn_renderer_vtest.c:506-570 | the payload is the header, the command streams and the syncs; record i holds the offsets from the payload start at which batch i's stream and syncs are actually found |
| VnRendererVtest.ReadSize | src/virtio/vulkan/vn_renderer_vtest.c:273 | the bytes a reply announces are 4 per dword after the valid flag, in 32-bit arithmetic, so a zero length wraps to 2^32 - 4 |
| VnRendererVtest.CapsetContents | src/virtio/vulkan/vn_renderer_vtest.c:274-277 | the capset holds the announced bytes that fit, then zeros |
| VnRendererVtest.Vtest.Read | src/virtio/vulkan/vn_renderer_vtest.c:92-106 | reading takes the next n bytes of the socket |
| VnRendererVtest.Vtest.Drain | src/virtio/vulkan/vn_renderer_vtest.c:279-286 | the bytes that do not fit are read and dropped |
| VnRendererVtest.Vtest.GetCapset | src/virtio/vulkan/vn_renderer_vtest.c:250-291 | the request is sent; an invalid reply fails and leaves the capset alone; a valid one fills the capset with the announced bytes that fit and zeros, and consumes the rest |
| VnRendererVtest.Vtest.InitCapset | src/virtio/vulkan/vn_renderer_vtest.c:942-955 | the Venus capset, version 0, is requested; success iff the server has it |
| VnRendererVtest.Vtest.InitProtocolVersion | src/virtio/vulkan/vn_renderer_vtest.c:972-987 | the version is the server's when it answers the ping and 0 otherwise; below 3 fails and keeps the recorded version, else records it |
| VnRendererVtest.Vtest.SyncWait | src/virtio/vulkan/vn_renderer_vtest.c:441-474 | one command of flags, the clamped timeout and three dwords per sync, whose length counts exactly those dwords |
| VnRendererVtest.Vtest.SubmitCmd2 | src/virtio/vulkan/vn_renderer_vtest.c:506-571 | nothing for no batches; otherwise one command whose length is the total in dwords and whose payload is the laid-out header, streams and syncs |
| VnDescriptorPool.PoolSizeListPrims | src/virtio/venus-protocol/vn_protocol_driver_descriptor_pool.h:85-89 | the encoded pool sizes are two tokens each |
| VnDescriptorPool.PoolSizeListBytes | src/virtio/venus-protocol/vn_protocol_driver_descriptor_pool.h:48-54 | the encoded pool sizes take 8 bytes each |
| VnDescriptorPool.CreateInfoSelfBytes | src/virtio/venus-protocol/vn_protocol_driver_descriptor_pool.h:42-57 | the self part of the create info is three 32-bit fields, the 64-bit array size and 8 bytes per encoded pool size |
| VnDescriptorPool.CreateInfoBytes | src/virtio/venus-protocol/vn_protocol_driver_descriptor_pool.h:60-69 | the create info is 32 bytes plus 8 per encoded pool size |
| VnDescriptorPool.SizeofPoolSize | src/virtio/venus-protocol/vn_protocol_driver_descriptor_pool.h:17-23 | the size of a pool size is the bytes its encoder writes |
| VnDescriptorPool.SizeofCreateInfoSelf | src/virtio/venus-protocol/vn_protocol_driver_descriptor_pool.h:42-57 | the summing loop gives exactly the bytes the self encoder writes |
| VnDescriptorPool.SizeofCreateInfo | src/virtio/venus-protocol/vn_protocol_driver_descriptor_pool.h:60-69 | the create info's size is the bytes its encoder writes, 32 plus 8 per pool size |
| VnDescriptorPool.CreateBytes | src/virtio/venus-protocol/vn_protocol_driver_descriptor_pool.h:103-137 | an encoded vkCreateDescriptorPool is 40 bytes, plus the create info when given, plus the pool handle when pDescriptorPool is set, whatever the command flags |
| VnDescriptorPool.DestroyBytes | src/virtio/venus-protocol/vn_protocol_driver_descriptor_pool.h:176-202 | an encoded vkDestroyDescriptorPool is 32 bytes |
| VnDescriptorPool.ResetBytes | src/virtio/venus-protocol/vn_protocol_driver_descriptor_pool.h:227-250 | an encoded vkResetDescriptorPool is 28 bytes |
| VnDescriptorPool.CommandBytesPositive | src/virtio/venus-protocol/vn_protocol_driver_descriptor_pool.h:103-250 | every command is at least 28 bytes |
| VnDescriptorPool.SizeofCreate | src/virtio/venus-protocol/vn_protocol_driver_descriptor_pool.h:103-121 | the size computed for vkCreateDescriptorPool equals what its encoder writes, for any command flags |
| VnDescriptorPool.SizeofDestroy | src/virtio/venus-protocol/vn_protocol_driver_descriptor_pool.h:176-189 | the size computed for vkDestroyDescriptorPool equals what its encoder writes, for any command flags |
| VnDescriptorPool.SizeofReset | src/virtio/venus-protocol/vn_protocol_driver_descriptor_pool.h:227-238 | the size computed for vkResetDescriptorPool equals what its encoder writes, for any command flags |
| VnDescriptorPool.SizeofCommand | src/virtio/venus-protocol/vn_protocol_driver_descriptor_pool.h:103-238 | the size computed for any command equals what its encoder writes |
| VnDescriptorPool.Encoder.Write | src/virtio/venus-protocol/vn_protocol_driver_descriptor_pool.h:26-30 | a write appends one token and uses its fixed size |
| VnDescriptorPool.Encoder.EncodePoolSize | src/virtio/venus-protocol/vn_protocol_driver_descriptor_pool.h:26-30 | the pool size is written as its two tokens, 8 bytes |
| VnDescriptorPool.Encoder.EncodeCreateInfoSelf | src/virtio/venus-protocol/vn_protocol_driver_descriptor_pool.h:79-92 | the self part is written as its tokens, 20 bytes plus 8 per pool size |
| VnDescriptorPool.Encoder.EncodePoolSizes | src/virtio/venus-protocol/vn_protocol_driver_descriptor_pool.h:85-89 | the loop writes the first n pool sizes in order, 8 bytes each |
| VnDescriptorPool.Encoder.EncodeCreateInfo | src/virtio/venus-protocol/vn_protocol_driver_descriptor_pool.h:95-101 | the create info is written as its tokens, 32 bytes plus 8 per pool size |
| VnDescriptorPool.Encoder.EncodeCreate | src/virtio/venus-protocol/vn_protocol_driver_descriptor_pool.h:123-137 | vkCreateDescriptorPool is written as its tokens |
| VnDescriptorPool.Encoder.EncodeCreateHead | src/virtio/venus-protocol/vn_protocol_driver_descriptor_pool.h:125-133 | the header, the device and pCreateInfo are written, leaving room for the rest |
| VnDescriptorPool.Encoder.EncodeCreateTail | src/virtio/venus-protocol/vn_protocol_driver_descriptor_pool.h:134-136 | pAllocator and pDescriptorPool are written |
| VnDescriptorPool.Encoder.EncodeDestroy | src/virtio/venus-protocol/vn_protocol_driver_descriptor_pool.h:191-202 | vkDestroyDescriptorPool is written as its tokens |
| VnDescriptorPool.Encoder.EncodeReset | src/virtio/venus-protocol/vn_protocol_driver_descriptor_pool.h:240-250 | vkResetDescriptorPool is written as its tokens |
| VnDescriptorPool.Encoder.EncodeCommand | src/virtio/venus-protocol/vn_protocol_driver_descriptor_pool.h:123-250 | any command is written as its tokens |
| VnDescriptorPool.SizeofReply | src/virtio/venus-protocol/vn_protocol_driver_descriptor_pool.h:139-264 | the reply size is the size of every reply of the command's shape |
| VnDescriptorPool.ReplyBytes | src/virtio/venus-protocol/vn_protocol_driver_descriptor_pool.h:139-264 | a reply of the command's shape takes exactly the command's reply size |
| VnDescriptorPool.DecodeReply | src/virtio/venus-protocol/vn_protocol_driver_descriptor_pool.h:156-279 | create and reset replies yield the encoded VkResult; a create reply yields a pool handle exactly when its marker is non-zero |
| VnDescriptorPool.ReplyRoundTrip | src/virtio/venus-protocol/vn_protocol_driver_descriptor_pool.h:156-279 | decoding a reply the renderer encoded for the same command gives back the result and the pool handle |
| VnDescriptorPool.Submit | src/virtio/venus-protocol/vn_protocol_driver_descriptor_pool.h:281-342 | the command goes into the local buffer when it fits, else into a heap buffer if malloc succeeds, else nothing is encoded and the size is 0; a reply is sized exactly when the flags ask for one |
| VnDescriptorPool.Call | src/virtio/venus-protocol/vn_protocol_driver_descriptor_pool.h:344-390 | a submission that asks for a reply; without a reply buffer, create and reset fail with out-of-host-memory; otherwise the decoded result |

## Left out

- The Mako template machinery of `aco_builder_h.py` and its per-format factory functions: one generic `Emit` stands for every generated `Builder` factory. It takes the operand and definition sequences and checks their counts.
- `Operand::isLiteral`, `aco_opcodes`, `create_instruction` and the IR data model of `aco_ir.h` are not part of this model. Whether an immediate is a literal is a parameter, and `Program::allocateId` is a counter field.
- The compaction tables of `brw_eu_compact.c` are parameters, not transcribed. The properties are about their lookup, and the well-formedness the tables satisfy is a stated precondition. The bin-size tables of `si_state_binning.c` are transcribed, and `ColorTableGood` and `DepthTableGood` prove them well formed.
- BrwCompactPass.PackRegion, BrwCompactPass.CompactRegion, BrwCompactPass.Codegen.CompactInstructions: `precompact` (`brw_eu_compact.c:1553-1637`) is not applied. Each instruction is compacted as it stands. So a pre-Gfx12 `0.0:F` immediate is not retyped to VF, an immediate D-typed move is not retyped to UD, and src1's hardware type is not cleared. Such instructions stay uncompacted in the model where the source compacts them. Precompact rewrites hardware type encodings in the raw bits, and those per-generation encodings are not part of this model.
- BrwCompactPass.CompactRegion, BrwCompactPass.Codegen.CompactInstructions, BrwCompactPass.FixJumps: a compacted IF, IFF, ELSE, ENDIF or WHILE on Gfx7 and later has its JIP and UIP fixed in the decoded instruction only. The source uncompacts it, fixes it and compacts it again (`brw_eu_compact.c:2376-2386`), asserting that this succeeds. The model keeps the compact encoding chosen by the first loop beside the fixed instruction, so that encoding is stale.
- `brw_debug_compact_uncompact` and all disassembly output: debugging I/O.
- `pscreen->is_format_supported` and `get_param`, the `util_format_*` queries and `ir3_shader_key_equal` are opaque: they are parameters (predicates or values) of the functions that call them.
- `panfrost_needs_explicit_stride` (`pan_texture.c:65-90`), the descriptor packing of `panfrost_new_texture` (`pan_texture.c:413-493`) and `pan_iview_get_surface` (`pan_texture.c:720-759`) are not modelled. The descriptor bit layouts come from generated pack headers that are not part of this model.
- PanTexture.EmitTexturePayload: the base pointer is taken as already carrying its compression tag, and `panfrost_afbc_header_size` is a parameter.
- VnQueue.SetupBatches, VnQueue.CountSemaphores: they require the application's valid usage (`ValidUsage`). A WSI-signaled semaphore a batch signals is also one of its waits. A WSI-signaled semaphore is waited on once in the whole submission. A timeline signal has a value. The code relies on this and does not check it.
- The `vk_alloc` failure paths of `vn_queue.c`, including the one in `vn_WaitForFences`, are not modelled. Neither are `vn_GetFenceStatus` and the other entry points that only forward to the renderer.
- LvpFormats: the round trip from pipe formats back to the Vulkan format table is not stated. The translation is covered by `TranslatedRange` and `Pack32Aliases`.
- LvpFormats.TypeLimits, LvpFormats.GetImageFormatProperties, LvpFormats.ImagePropertiesFor: `maxMipLevels` is the corrected `util_logbase2(max_2d_ext) + 1` of every image type, one more than the source's `util_logbase2(max_2d_ext)` (see Findings); like the source, it ignores the 3D depth.
- LvpFormats.TypeLimits: the 3D depth limit `1 << MAX_TEXTURE_3D_LEVELS` is modelled as written, a C `int` shift, for level counts below 31.
- Floating point: the `fui(ucp)` clip-plane packing of `ir3_shader.c`.
- Ir3Shader.Shader.VariantFor: when the base variant fails to build in the binning pass, the source dereferences the NULL variant (`ir3_shader.c:291-293`); the model returns no variant instead.
- Ir3Shader.MaxTfVtx: its `stride > 0` precondition stands for the source's unchecked division by the stream-output stride (`ir3_shader.c:820-822`), which a zero stride would make undefined.
- AcoIr.ConvertToSdwa: the neg and abs arrays are copied whole from a VOP3 original. Their widths, and the `sizeof(sdwa.neg)` of the copy, come from `aco_ir.h`, which is not part of this model.
- VnQueue.ImportTemporary: only the temporary import is modelled. A permanent import (`vn_queue.c:946-957`, `1208-1226`) makes the permanent payload current without releasing a current temporary one, which leaves the object outside `ObjectOk`. The renderer sync calls and the fd are not part of this model.
- I/O and GPU side effects, which are parameters or are left out:
  - the vtest socket, `recvmsg`, `mmap` and `poll`;
  - renderer submit, wait and round trip;
  - `radeon_opt_set_context_reg` register emission, modelled as the register values and a context-roll flag;
  - the upload manager and CSO binding of `st_atom_array.c`;
  - compilation, assembly, buffer objects and disassembly in `ir3_shader.c`.
- Concurrency: `call_once` in `aco_ir.cpp`, the vtest socket mutex and `_mesa_HashLockMutex` in `varray.c`.
- GL dispatch boilerplate in `varray.c`: `GET_CURRENT_CONTEXT`, the `_no_error` and direct-state-access wrappers, and getters that only read fields.
- VnDescriptorPool: command type values are kept abstract, while `sType` (33) and `VK_ERROR_OUT_OF_HOST_MEMORY` (-1) are the Vulkan values. The reply decoders' command-type assertions are preconditions on the reply's shape. `vn_async_*` is `Submit` with command flags 0. `VN_SUBMIT_LOCAL_CMD_SIZE` and the outcome of `malloc` are parameters. A set `pAllocator` is sized and encoded as a set pointer marker with nothing after it, which is what the code does when its `assert(false)` is compiled out; the failing assertion of a debug build is not modelled.
- Varray.VertexArrayObject.constructor: the initial state of a vertex array object is set by `_mesa_initialize_vao` in `arrayobj.c`, which is not part of this model. The constructor starts from the state the operations here assume of a new object: each attribute on the binding of the same index, no buffers, zero divisors and nothing enabled.

## Findings

| source | as written | input that shows it | evidently intended | confidence | as-written member | corrected member |
|---|---|---|---|---|---|---|
| src/intel/compiler/brw_eu_compact.c:1514-1517 | on Gfx12, a compacted W immediate expands to the sign-extended 12 bits shifted into the high half ORed with the sign-extended low half, so the high half becomes all ones for a negative value | `0xF800F800` of type W compacts to `0x800` and expands back to `0xFFFFF800` | both 16-bit halves are the sign-extended 12-bit value, so the immediate round-trips | not executed | BrwCompactImm.NegativeWordImmediateBreaks | BrwCompactImm.RoundTripW |
| src/virtio/vulkan/vn_queue.c:158-167 | for bind-sparse batches a WSI-signaled signal semaphore is counted by its current payload; unlike the submit path at lines 131-133 it is not redirected to the permanent payload it will be reset to | a binary semaphore whose permanent payload is device-only and whose current payload is WSI-signaled, waited on and signalled by one bind-sparse batch: `sync_count` is 1, the setup produces no sync, and the assertion at line 421 fails | the signal is counted by the permanent payload, as for queue submissions | not executed | VnQueue.BindSparseMiscount | VnQueue.SetupBatches |
| src/gallium/frontends/lavapipe/lvp_formats.c:296,303,311 | `maxMipLevels` is `util_logbase2` of the largest 2D size | a largest 2D extent of 16384 gives 14 levels | a full mip chain, `util_logbase2 + 1` levels: 15 for 16384 | not executed | LvpFormats.MaxMipLevelsOneShort | LvpFormats.MaxMipLevelsIsChain |
