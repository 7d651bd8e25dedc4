// brw_nir_lower_scoped_barriers: a scoped barrier that also synchronises
// execution (execution scope other than NONE) loses its execution scope;
// a workgroup-scoped one is followed by a new control_barrier.
module BrwLowerBarriers {

  /** nir_scope, NONE first. */
  datatype Scope = ScopeNone | ScopeInvocation | ScopeSubgroup | ScopeShaderCall | ScopeWorkgroup
                 | ScopeQueueFamily | ScopeDevice

  datatype IntrinsicOp = ScopedBarrier | ControlBarrier | OtherIntrinsic(id: nat)

  /** A NIR instruction: an intrinsic with its execution and memory scopes,
    * or any other kind of instruction. */
  datatype NirInstr =
    | Intrinsic(op: IntrinsicOp, execScope: Scope, memScope: Scope)
    | NonIntrinsic(kind: nat)

  /** The metadata nir_metadata_preserve is told stays valid. */
  datatype Metadata = BlockIndex | Dominance | LiveSsaDefs | LoopAnalysis | InstrIndex

  const AllMetadata: set<Metadata> := {BlockIndex, Dominance, LiveSsaDefs, LoopAnalysis, InstrIndex}

  /** The barriers the pass rewrites. */
  predicate NeedsLowering(i: NirInstr)
  {
    i.Intrinsic? && i.op == ScopedBarrier && i.execScope != ScopeNone
  }

  /** nir_intrinsic_instr_create(shader, control_barrier): indices zeroed. */
  const NewControlBarrier: NirInstr := Intrinsic(ControlBarrier, ScopeNone, ScopeNone)

  /** What one instruction becomes. */
  function LowerInstr(i: NirInstr): seq<NirInstr>
  {
    if !NeedsLowering(i) then [i]
    else if i.execScope == ScopeWorkgroup then [i.(execScope := ScopeNone), NewControlBarrier]
    else [i.(execScope := ScopeNone)]
  }

  /** What the first n instructions of a block become. */
  function LowerPrefix(b: seq<NirInstr>, n: nat): seq<NirInstr>
    requires n <= |b|
  {
    if n == 0 then [] else LowerPrefix(b, n - 1) + LowerInstr(b[n - 1])
  }

  /** What a block becomes, instruction by instruction. */
  function LowerBlock(b: seq<NirInstr>): seq<NirInstr>
  {
    LowerPrefix(b, |b|)
  }

  function LowerBlocks(bs: seq<seq<NirInstr>>): (r: seq<seq<NirInstr>>)
    ensures |r| == |bs| && forall k :: 0 <= k < |bs| ==> r[k] == LowerBlock(bs[k])
  {
    seq(|bs|, k requires 0 <= k < |bs| => LowerBlock(bs[k]))
  }

  predicate AnyNeedsLowering(b: seq<NirInstr>)
  {
    exists i :: 0 <= i < |b| && NeedsLowering(b[i])
  }

  predicate AnyBlockNeedsLowering(bs: seq<seq<NirInstr>>)
  {
    exists k :: 0 <= k < |bs| && AnyNeedsLowering(bs[k])
  }

  /** Every scoped barrier is left with execution scope NONE. */
  predicate Lowered(b: seq<NirInstr>)
  {
    forall i :: 0 <= i < |b| ==> !NeedsLowering(b[i])
  }

  // ---------------------------------------------------------------------
  // Properties of the rewrite
  // ---------------------------------------------------------------------

  /** Lowering more instructions only extends the output. */
  lemma {:induction false} PrefixGrows(b: seq<NirInstr>, m: nat, n: nat)
    requires m <= n <= |b|
    ensures LowerPrefix(b, m) <= LowerPrefix(b, n)
    decreases n
  {
    if m < n {
      PrefixGrows(b, m, n - 1);
    }
  }

  /** After the pass no scoped barrier keeps an execution scope. */
  lemma {:induction false} PrefixLowered(b: seq<NirInstr>, n: nat)
    requires n <= |b|
    ensures Lowered(LowerPrefix(b, n))
    decreases n
  {
    if n > 0 {
      PrefixLowered(b, n - 1);
    }
  }

  /** A block with nothing to lower is left exactly as it was. */
  lemma {:induction false} PrefixUnchanged(b: seq<NirInstr>, n: nat)
    requires n <= |b| && Lowered(b)
    ensures LowerPrefix(b, n) == b[..n]
    decreases n
  {
    if n > 0 {
      PrefixUnchanged(b, n - 1);
      assert b[..n] == b[..n - 1] + [b[n - 1]];
    }
  }

  /** Running the pass twice is running it once. */
  lemma LowerBlockIdempotent(b: seq<NirInstr>)
    ensures LowerBlock(LowerBlock(b)) == LowerBlock(b)
    ensures !AnyNeedsLowering(LowerBlock(b))
  {
    PrefixLowered(b, |b|);
    var l := LowerBlock(b);
    PrefixUnchanged(l, |l|);
    assert l[..|l|] == l;
  }

  /** Instruction i's image sits at position |LowerPrefix(b, i)| of the output. */
  lemma ImageAt(b: seq<NirInstr>, i: nat)
    requires i < |b|
    ensures LowerPrefix(b, i) + LowerInstr(b[i]) <= LowerBlock(b)
  {
    PrefixGrows(b, i + 1, |b|);
  }

  /** A workgroup-scoped barrier at i is, in the output, the same barrier
    * with scope NONE immediately followed by a new control_barrier. */
  lemma WorkgroupBarrierFollowed(b: seq<NirInstr>, i: nat)
    requires i < |b| && NeedsLowering(b[i]) && b[i].execScope == ScopeWorkgroup
    ensures var p := |LowerPrefix(b, i)|;
      && p + 1 < |LowerBlock(b)|
      && LowerBlock(b)[p] == b[i].(execScope := ScopeNone)
      && LowerBlock(b)[p + 1] == NewControlBarrier
  {
    ImageAt(b, i);
  }

  /** Any other barrier with an execution scope only loses it, and nothing
    * is inserted after it: the next output instruction is the image of the
    * next input one. */
  lemma OtherBarrierCleared(b: seq<NirInstr>, i: nat)
    requires i < |b| && NeedsLowering(b[i]) && b[i].execScope != ScopeWorkgroup
    ensures var p := |LowerPrefix(b, i)|;
      && p < |LowerBlock(b)|
      && LowerBlock(b)[p] == b[i].(execScope := ScopeNone)
      && |LowerPrefix(b, i + 1)| == p + 1
      && (i + 1 < |b| ==> p + 1 < |LowerBlock(b)| && LowerBlock(b)[p + 1] == LowerInstr(b[i + 1])[0])
  {
    ImageAt(b, i);
    if i + 1 < |b| {
      ImageAt(b, i + 1);
    }
  }

  /** Every other instruction, and a barrier already at NONE, is kept as is,
    * with nothing inserted after it. */
  lemma UntouchedKept(b: seq<NirInstr>, i: nat)
    requires i < |b| && !NeedsLowering(b[i])
    ensures var p := |LowerPrefix(b, i)|;
      && p < |LowerBlock(b)|
      && LowerBlock(b)[p] == b[i]
      && |LowerPrefix(b, i + 1)| == p + 1
      && (i + 1 < |b| ==> p + 1 < |LowerBlock(b)| && LowerBlock(b)[p + 1] == LowerInstr(b[i + 1])[0])
  {
    ImageAt(b, i);
    if i + 1 < |b| {
      ImageAt(b, i + 1);
    }
  }

  /** The output grows by one control_barrier per workgroup barrier. */
  function WorkgroupBarriers(b: seq<NirInstr>, n: nat): nat
    requires n <= |b|
  {
    if n == 0 then 0
    else WorkgroupBarriers(b, n - 1) + if NeedsLowering(b[n - 1]) && b[n - 1].execScope == ScopeWorkgroup then 1 else 0
  }

  lemma {:induction false} PrefixLength(b: seq<NirInstr>, n: nat)
    requires n <= |b|
    ensures |LowerPrefix(b, n)| == n + WorkgroupBarriers(b, n)
    decreases n
  {
    if n > 0 {
      PrefixLength(b, n - 1);
    }
  }

  /** The loop body for the instruction under the cursor j of a block:
    * a barrier with an execution scope has it set to NONE and, at
    * workgroup scope, gets a new control_barrier inserted after it; the
    * cursor then steps over whatever was emitted. */
  method LowerAt(cur: seq<NirInstr>, j: nat) returns (next: seq<NirInstr>, step: nat, lowered: bool)
    requires j < |cur|
    ensures next == cur[..j] + LowerInstr(cur[j]) + cur[j + 1..]
    ensures step == |LowerInstr(cur[j])| && step > 0
    ensures lowered == NeedsLowering(cur[j])
  {
    var instr := cur[j];
    lowered := NeedsLowering(instr);
    if lowered {
      var cleared := instr.(execScope := ScopeNone);
      if instr.execScope == ScopeWorkgroup {
        var grown := cur[..j + 1] + [NewControlBarrier] + cur[j + 1..];
        next := grown[j := cleared];
        InsertAfter(cur, j, cleared);
        step := 2;
      } else {
        next := cur[j := cleared];
        Rewrite(cur, j, cleared);
        step := 1;
      }
    } else {
      next := cur;
      Rewrite(cur, j, instr);
      step := 1;
    }
  }

  /** Rewriting the instruction under the cursor. */
  lemma Rewrite(cur: seq<NirInstr>, j: nat, x: NirInstr)
    requires j < |cur|
    ensures cur[j := x] == cur[..j] + [x] + cur[j + 1..]
  {
  }

  /** Inserting a control_barrier after the cursor, then rewriting the
    * instruction under it. */
  lemma InsertAfter(cur: seq<NirInstr>, j: nat, x: NirInstr)
    requires j < |cur|
    ensures (cur[..j + 1] + [NewControlBarrier] + cur[j + 1..])[j := x] == cur[..j] + [x, NewControlBarrier] + cur[j + 1..]
  {
  }

  /** One turn of the loop keeps "lowered prefix, then untouched rest". */
  lemma LoopStep(b: seq<NirInstr>, i: nat, cur: seq<NirInstr>, j: nat, next: seq<NirInstr>)
    requires i < |b| && cur == LowerPrefix(b, i) + b[i..] && j == |LowerPrefix(b, i)|
    requires j < |cur| && next == cur[..j] + LowerInstr(cur[j]) + cur[j + 1..]
    ensures cur[j] == b[i]
    ensures next == LowerPrefix(b, i + 1) + b[i + 1..]
    ensures |LowerPrefix(b, i + 1)| == j + |LowerInstr(b[i])|
    ensures AnyNeedsLowering(b[..i + 1]) <==> AnyNeedsLowering(b[..i]) || NeedsLowering(b[i])
  {
    var pre := LowerPrefix(b, i);
    assert cur[..j] == pre;
    assert cur[j + 1..] == b[i + 1..];
    assert b[..i + 1] == b[..i] + [b[i]];
  }

  /** The nir_foreach_instr_safe walk over one block's instruction list:
    * the cursor j walks the live list and steps over a control_barrier
    * just inserted. */
  method LowerInstrs(b0: seq<NirInstr>) returns (instrs: seq<NirInstr>, progress: bool)
    ensures instrs == LowerBlock(b0)
    ensures progress <==> AnyNeedsLowering(b0)
  {
    ghost var i := 0;
    instrs := b0;
    var j := 0;
    progress := false;
    assert LowerPrefix(b0, 0) + b0[0..] == b0;
    while j < |instrs|
      invariant 0 <= i <= |b0|
      invariant instrs == LowerPrefix(b0, i) + b0[i..]
      invariant j == |LowerPrefix(b0, i)|
      invariant progress <==> AnyNeedsLowering(b0[..i])
      decreases |b0| - i
    {
      var next, step, lowered := LowerAt(instrs, j);
      LoopStep(b0, i, instrs, j, next);
      instrs := next;
      j := j + step;
      progress := progress || lowered;
      i := i + 1;
    }
    assert b0[..i] == b0 && b0[i..] == [];
  }

  // ---------------------------------------------------------------------
  // The pass over a function implementation and over a shader
  // ---------------------------------------------------------------------

  /** A nir_function_impl: its blocks' instruction lists, and the metadata
    * the last pass declared preserved. */
  class FunctionImpl {
    var blocks: seq<seq<NirInstr>>
    var preserved: set<Metadata>

    constructor (bs: seq<seq<NirInstr>>)
      ensures blocks == bs && preserved == AllMetadata
    {
      blocks := bs;
      preserved := AllMetadata;
    }

    /** Rewrite block k in place. */
    method LowerBlockInPlace(k: nat) returns (progress: bool)
      requires k < |blocks|
      modifies this
      ensures blocks == old(blocks)[k := LowerBlock(old(blocks)[k])]
      ensures progress <==> AnyNeedsLowering(old(blocks)[k])
      ensures preserved == old(preserved)
    {
      var instrs;
      instrs, progress := LowerInstrs(blocks[k]);
      blocks := blocks[k := instrs];
    }

    /** lower_impl: every block rewritten; progress iff some barrier was, and
      * then only block indices and dominance are declared preserved. */
    method LowerImpl() returns (progress: bool)
      modifies this
      ensures blocks == LowerBlocks(old(blocks))
      ensures progress <==> AnyBlockNeedsLowering(old(blocks))
      ensures preserved == if progress then {BlockIndex, Dominance} else AllMetadata
    {
      ghost var bs0 := blocks;
      var k := 0;
      progress := false;
      while k < |blocks|
        invariant 0 <= k <= |blocks| == |bs0|
        invariant forall m :: 0 <= m < k ==> blocks[m] == LowerBlock(bs0[m])
        invariant forall m :: k <= m < |bs0| ==> blocks[m] == bs0[m]
        invariant progress <==> exists m :: 0 <= m < k && AnyNeedsLowering(bs0[m])
      {
        var p := LowerBlockInPlace(k);
        progress := progress || p;
        k := k + 1;
      }
      if progress {
        preserved := {BlockIndex, Dominance};
      } else {
        preserved := AllMetadata;
      }
    }
  }

  /** A shader's functions; null where a function has no implementation. */
  predicate DistinctImpls(fs: seq<FunctionImpl?>)
  {
    forall a, b :: 0 <= a < b < |fs| && fs[a] != null ==> fs[a] != fs[b]
  }

  /** brw_nir_lower_scoped_barriers: lower_impl on every function with an
    * implementation; the shader made progress iff one of them did. */
  method LowerScopedBarriers(fs: seq<FunctionImpl?>) returns (progress: bool)
    requires DistinctImpls(fs)
    modifies set i | 0 <= i < |fs| && fs[i] != null :: fs[i]
    ensures forall i :: 0 <= i < |fs| && fs[i] != null ==> fs[i].blocks == LowerBlocks(old(fs[i].blocks))
    ensures progress <==> exists i :: 0 <= i < |fs| && fs[i] != null && AnyBlockNeedsLowering(old(fs[i].blocks))
    ensures forall i :: 0 <= i < |fs| && fs[i] != null ==>
      fs[i].preserved == if AnyBlockNeedsLowering(old(fs[i].blocks)) then {BlockIndex, Dominance} else AllMetadata
  {
    var n := 0;
    progress := false;
    while n < |fs|
      invariant 0 <= n <= |fs|
      invariant forall i :: 0 <= i < n && fs[i] != null ==> fs[i].blocks == LowerBlocks(old(fs[i].blocks))
      invariant forall i :: 0 <= i < n && fs[i] != null ==>
        fs[i].preserved == if AnyBlockNeedsLowering(old(fs[i].blocks)) then {BlockIndex, Dominance} else AllMetadata
      invariant forall i :: n <= i < |fs| && fs[i] != null ==> fs[i].blocks == old(fs[i].blocks)
      invariant progress <==> exists i :: 0 <= i < n && fs[i] != null && AnyBlockNeedsLowering(old(fs[i].blocks))
    {
      if fs[n] != null {
        var p := fs[n].LowerImpl();
        progress := progress || p;
      }
      n := n + 1;
    }
  }

  /** A second run over the output finds nothing to do. */
  lemma SecondRunNoProgress(bs: seq<seq<NirInstr>>)
    ensures !AnyBlockNeedsLowering(LowerBlocks(bs))
    ensures LowerBlocks(LowerBlocks(bs)) == LowerBlocks(bs)
  {
    forall k | 0 <= k < |bs|
      ensures !AnyNeedsLowering(LowerBlocks(bs)[k]) && LowerBlock(LowerBlocks(bs)[k]) == LowerBlocks(bs)[k]
    {
      LowerBlockIdempotent(bs[k]);
    }
  }
}
