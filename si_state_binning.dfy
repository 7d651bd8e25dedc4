// RadeonSI primitive binning (DPBB, si_state_binning.c): the bin-size
// tables and their search, the colour and depth bin sizes of GFX9 and
// GFX10, the choice between them, and the PA_SC_BINNER_CNTL_0 and
// DB_DFSM_CONTROL values the context emits.
module SiStateBinning {
  import opened Wrappers
  import opened Bits

  // ---------------------------------------------------------------------
  // Bin-size tables
  // ---------------------------------------------------------------------

  /** struct uvec2: a bin's width and height in pixels. */
  datatype BinSize = BinSize(x: nat, y: nat)

  /** struct si_bin_size_map: the bin size used from `start` bytes per pixel on. */
  datatype BinSizeMap = Bin(start: nat, x: nat, y: nat)

  function Size(m: BinSizeMap): BinSize { BinSize(m.x, m.y) }

  /** A subtable ends with a zero-width terminator. */
  predicate Terminated(sub: seq<BinSizeMap>)
  {
    |sub| > 0 && sub[|sub| - 1].x == 0
  }

  /** Where the search of si_find_bin_size stops: the terminator, or an
    * entry whose range [start, next start) holds the sum. */
  predicate Stop(sub: seq<BinSizeMap>, sum: nat, i: nat)
    requires i < |sub|
  {
    sub[i].x == 0 || (i + 1 < |sub| && sub[i].start <= sum < sub[i + 1].start)
  }

  /** The first stop at or after entry i. */
  function StopIndex(sub: seq<BinSizeMap>, sum: nat, i: nat): (r: nat)
    requires Terminated(sub) && i < |sub|
    ensures i <= r < |sub| && Stop(sub, sum, r)
    ensures forall j :: i <= j < r ==> !Stop(sub, sum, j)
    decreases |sub| - i
  {
    if Stop(sub, sum, i) then i else StopIndex(sub, sum, i + 1)
  }

  /** The bin size si_find_bin_size answers for a sum. */
  function Lookup(sub: seq<BinSizeMap>, sum: nat): BinSize
    requires Terminated(sub)
  {
    Size(sub[StopIndex(sub, sum, 0)])
  }

  /** The tables of the source: the first entry starts at 0, starts rise,
    * only the last entry has zero width, and bins never grow from one
    * entry to the next. */
  predicate WellFormed(sub: seq<BinSizeMap>)
  {
    && Terminated(sub) && sub[0].start == 0 && sub[|sub| - 1].y == 0
    && (forall i :: 0 <= i < |sub| - 1 ==> sub[i].x != 0)
    && (forall i :: 0 <= i < |sub| - 1 ==> sub[i].start < sub[i + 1].start)
    && (forall i :: 0 <= i < |sub| - 1 ==> sub[i + 1].x <= sub[i].x && sub[i + 1].y <= sub[i].y)
  }

  lemma {:induction false} StartsRise(sub: seq<BinSizeMap>, i: nat, j: nat)
    requires WellFormed(sub) && i <= j < |sub|
    ensures sub[i].start <= sub[j].start
    ensures sub[j].x <= sub[i].x && sub[j].y <= sub[i].y
    decreases j - i
  {
    if i < j {
      StartsRise(sub, i + 1, j);
    }
  }

  lemma {:induction false} StartsBelowSum(sub: seq<BinSizeMap>, sum: nat, j: nat)
    requires WellFormed(sub) && j <= StopIndex(sub, sum, 0)
    ensures sub[j].start <= sum
    decreases j
  {
    if j > 0 {
      StartsBelowSum(sub, sum, j - 1);
      assert !Stop(sub, sum, j - 1) && sub[j - 1].x != 0;
    }
  }

  /** In a well-formed subtable the search finds the entry whose range
    * holds the sum, and the terminator exactly when the sum is at or past
    * the terminator's start. */
  lemma LookupIsBucket(sub: seq<BinSizeMap>, sum: nat)
    requires WellFormed(sub)
    ensures var i := StopIndex(sub, sum, 0);
      && (sum < sub[|sub| - 1].start ==> i < |sub| - 1 && sub[i].start <= sum < sub[i + 1].start)
      && (sum >= sub[|sub| - 1].start ==> i == |sub| - 1)
  {
    var i := StopIndex(sub, sum, 0);
    StartsBelowSum(sub, sum, i);
    if i < |sub| - 1 {
      StartsRise(sub, i + 1, |sub| - 1);
    }
  }

  /** More bytes per pixel never give a bigger bin. */
  lemma LookupShrinks(sub: seq<BinSizeMap>, s1: nat, s2: nat)
    requires WellFormed(sub) && s1 <= s2
    ensures Lookup(sub, s2).x <= Lookup(sub, s1).x && Lookup(sub, s2).y <= Lookup(sub, s1).y
  {
    var i1, i2 := StopIndex(sub, s1, 0), StopIndex(sub, s2, 0);
    if i2 < i1 {
      StartsBelowSum(sub, s1, i1);
      StartsRise(sub, i2 + 1, i1);
      assert false;
    }
    StartsRise(sub, i1, i2);
  }

  /** si_bin_size_subtable table[]: indexed by log2 of render backends per
    * shader engine, then by log2 of shader engines. */
  type BinTable = seq<seq<seq<BinSizeMap>>>

  /** What the search needs of the GPU (struct radeon_info). */
  datatype ChipInfo = ChipInfo(numRenderBackends: nat, maxSe: nat)

  /** The chips the tables cover: at most four shader engines and at most
    * four render backends per engine. */
  predicate ChipOk(info: ChipInfo)
  {
    info.maxSe > 0 && Log2Ceil(info.numRenderBackends / info.maxSe) < 3 && Log2Ceil(info.maxSe) < 3
  }

  predicate TableShape(table: BinTable)
  {
    |table| == 3 && forall a :: 0 <= a < 3 ==> |table[a]| == 3 && forall b :: 0 <= b < 3 ==> Terminated(table[a][b])
  }

  function Subtable(table: BinTable, info: ChipInfo): (sub: seq<BinSizeMap>)
    requires TableShape(table) && ChipOk(info)
    ensures Terminated(sub)
  {
    table[Log2Ceil(info.numRenderBackends / info.maxSe)][Log2Ceil(info.maxSe)]
  }

  /** si_find_bin_size. */
  method FindBinSize(table: BinTable, info: ChipInfo, sum: nat) returns (size: BinSize)
    requires TableShape(table) && ChipOk(info)
    ensures size == Lookup(Subtable(table, info), sum)
  {
    var sub := table[Log2Ceil(info.numRenderBackends / info.maxSe)][Log2Ceil(info.maxSe)];
    var i := 0;
    while sub[i].x != 0
      invariant 0 <= i < |sub|
      invariant StopIndex(sub, sum, i) == StopIndex(sub, sum, 0)
      decreases |sub| - i
    {
      if sum >= sub[i].start && sum < sub[i + 1].start {
        break;
      }
      i := i + 1;
    }
    size := Size(sub[i]);
  }

  /** Colour table, one render backend per shader engine, one shader engine. */
  const Color00: seq<BinSizeMap> :=
    [Bin(0, 128, 128), Bin(1, 64, 128), Bin(2, 32, 128), Bin(3, 16, 128), Bin(17, 0, 0)]
  /** Colour table, one render backend per shader engine, two shader engines. */
  const Color01: seq<BinSizeMap> :=
    [Bin(0, 128, 128), Bin(2, 64, 128), Bin(3, 32, 128), Bin(5, 16, 128), Bin(17, 0, 0)]
  /** Colour table, one render backend per shader engine, four shader engines. */
  const Color02: seq<BinSizeMap> :=
    [Bin(0, 128, 128), Bin(3, 64, 128), Bin(5, 16, 128), Bin(17, 0, 0)]
  /** Colour table, two render backends per shader engine, one shader engine. */
  const Color10: seq<BinSizeMap> :=
    [Bin(0, 128, 128), Bin(2, 64, 128), Bin(3, 32, 128), Bin(9, 16, 128), Bin(33, 0, 0)]
  /** Colour table, two render backends per shader engine, two shader engines. */
  const Color11: seq<BinSizeMap> :=
    [Bin(0, 128, 128), Bin(3, 64, 128), Bin(5, 32, 128), Bin(9, 16, 128), Bin(33, 0, 0)]
  /** Colour table, two render backends per shader engine, four shader engines. */
  const Color12: seq<BinSizeMap> :=
    [Bin(0, 256, 256), Bin(2, 128, 256), Bin(3, 128, 128), Bin(5, 64, 128), Bin(9, 16, 128), Bin(33, 0, 0)]
  /** Colour table, four render backends per shader engine, one shader engine. */
  const Color20: seq<BinSizeMap> :=
    [Bin(0, 128, 256), Bin(2, 128, 128), Bin(3, 64, 128), Bin(5, 32, 128), Bin(9, 16, 128), Bin(17, 0, 0)]
  /** Colour table, four render backends per shader engine, two shader engines. */
  const Color21: seq<BinSizeMap> :=
    [Bin(0, 256, 256), Bin(2, 128, 256), Bin(3, 128, 128), Bin(5, 64, 128),
     Bin(9, 32, 128), Bin(17, 16, 128), Bin(33, 0, 0)]
  /** Colour table, four render backends per shader engine, four shader engines. */
  const Color22: seq<BinSizeMap> :=
    [Bin(0, 256, 512), Bin(2, 128, 512), Bin(3, 64, 512), Bin(5, 32, 512),
     Bin(9, 32, 256), Bin(17, 32, 128), Bin(33, 0, 0)]

  /** The colour table of si_get_color_bin_size. */
  const ColorTable: BinTable := [
    [Color00, Color01, Color02],
    [Color10, Color11, Color12],
    [Color20, Color21, Color22]
  ]

  /** Depth table, one render backend per shader engine, one shader engine. */
  const Depth00: seq<BinSizeMap> :=
    [Bin(0, 64, 512), Bin(2, 64, 256), Bin(4, 64, 128), Bin(7, 32, 128), Bin(13, 16, 128), Bin(49, 0, 0)]
  /** Depth table, one render backend per shader engine, two shader engines. */
  const Depth01: seq<BinSizeMap> :=
    [Bin(0, 128, 512), Bin(2, 64, 512), Bin(4, 64, 256), Bin(7, 64, 128),
     Bin(13, 32, 128), Bin(25, 16, 128), Bin(49, 0, 0)]
  /** Depth table, one render backend per shader engine, four shader engines. */
  const Depth02: seq<BinSizeMap> :=
    [Bin(0, 256, 512), Bin(2, 128, 512), Bin(4, 64, 512), Bin(7, 64, 256),
     Bin(13, 64, 128), Bin(25, 16, 128), Bin(49, 0, 0)]
  /** Depth table, two render backends per shader engine, one shader engine. */
  const Depth10: seq<BinSizeMap> :=
    [Bin(0, 128, 512), Bin(2, 64, 512), Bin(4, 64, 256), Bin(7, 64, 128),
     Bin(13, 32, 128), Bin(25, 16, 128), Bin(97, 0, 0)]
  /** Depth table, two render backends per shader engine, two shader engines. */
  const Depth11: seq<BinSizeMap> :=
    [Bin(0, 256, 512), Bin(2, 128, 512), Bin(4, 64, 512), Bin(7, 64, 256),
     Bin(13, 64, 128), Bin(25, 32, 128), Bin(49, 16, 128), Bin(97, 0, 0)]
  /** Depth table, two render backends per shader engine, four shader engines. */
  const Depth12: seq<BinSizeMap> :=
    [Bin(0, 512, 512), Bin(2, 256, 512), Bin(4, 128, 512), Bin(7, 64, 512),
     Bin(13, 64, 256), Bin(25, 64, 128), Bin(49, 16, 128), Bin(97, 0, 0)]
  /** Depth table, four render backends per shader engine, one shader engine. */
  const Depth20: seq<BinSizeMap> :=
    [Bin(0, 256, 512), Bin(2, 128, 512), Bin(4, 64, 512), Bin(7, 64, 256),
     Bin(13, 64, 128), Bin(25, 32, 128), Bin(49, 16, 128), Bin(193, 0, 0)]
  /** Depth table, four render backends per shader engine, two shader engines. */
  const Depth21: seq<BinSizeMap> :=
    [Bin(0, 512, 512), Bin(2, 256, 512), Bin(4, 128, 512), Bin(7, 64, 512), Bin(13, 64, 256),
     Bin(25, 64, 128), Bin(49, 32, 128), Bin(97, 16, 128), Bin(193, 0, 0)]
  /** Depth table, four render backends per shader engine, four shader engines. */
  const Depth22: seq<BinSizeMap> :=
    [Bin(0, 512, 512), Bin(4, 256, 512), Bin(7, 128, 512), Bin(13, 64, 512),
     Bin(25, 32, 512), Bin(49, 32, 256), Bin(97, 16, 128), Bin(193, 0, 0)]

  /** The depth table of si_get_depth_bin_size. */
  const DepthTable: BinTable := [
    [Depth00, Depth01, Depth02],
    [Depth10, Depth11, Depth12],
    [Depth20, Depth21, Depth22]
  ]

  /** A bin dimension the hardware can encode: a power of two from 16 to 512. */
  predicate BinDim(v: nat)
  {
    v == 16 || v == 32 || v == 64 || v == 128 || v == 256 || v == 512
  }

  /** Every entry of a table other than a terminator has encodable sizes. */
  predicate EncodableEntries(sub: seq<BinSizeMap>)
  {
    forall i :: 0 <= i < |sub| - 1 ==> BinDim(sub[i].x) && BinDim(sub[i].y)
  }

  predicate GoodSubtable(sub: seq<BinSizeMap>)
  {
    WellFormed(sub) && EncodableEntries(sub)
  }

  predicate GoodTable(table: BinTable)
  {
    && |table| == 3
    && (forall a :: 0 <= a < 3 ==> |table[a]| == 3)
    && (forall a, b :: 0 <= a < 3 && 0 <= b < 3 ==> GoodSubtable(table[a][b]))
  }

  /** Consecutive entries i and i + 1 keep the table's order. */
  predicate PairOk(sub: seq<BinSizeMap>, i: nat)
    requires i + 1 < |sub|
  {
    && sub[i].x != 0 && BinDim(sub[i].x) && BinDim(sub[i].y)
    && sub[i].start < sub[i + 1].start && sub[i + 1].x <= sub[i].x && sub[i + 1].y <= sub[i].y
  }

  lemma GoodByPairs(sub: seq<BinSizeMap>)
    requires Terminated(sub) && sub[0].start == 0 && sub[|sub| - 1].y == 0
    requires forall i :: 0 <= i < |sub| - 1 ==> PairOk(sub, i)
    ensures GoodSubtable(sub)
  {
    forall i | 0 <= i < |sub| - 1
      ensures sub[i].x != 0 && BinDim(sub[i].x) && BinDim(sub[i].y) && sub[i].start < sub[i + 1].start
      ensures sub[i + 1].x <= sub[i].x && sub[i + 1].y <= sub[i].y
    {
      assert PairOk(sub, i);
    }
  }

  /** A table of at most nine entries, checked pair by pair. */
  lemma GoodByCases(sub: seq<BinSizeMap>)
    requires 2 <= |sub| <= 9 && Terminated(sub) && sub[0].start == 0 && sub[|sub| - 1].y == 0
    requires PairOk(sub, 0) && (|sub| > 2 ==> PairOk(sub, 1)) && (|sub| > 3 ==> PairOk(sub, 2))
    requires (|sub| > 4 ==> PairOk(sub, 3)) && (|sub| > 5 ==> PairOk(sub, 4)) && (|sub| > 6 ==> PairOk(sub, 5))
    requires (|sub| > 7 ==> PairOk(sub, 6)) && (|sub| > 8 ==> PairOk(sub, 7))
    ensures GoodSubtable(sub)
  {
    assert forall i :: 0 <= i < |sub| - 1 ==> PairOk(sub, i) by {
      forall i | 0 <= i < |sub| - 1
        ensures PairOk(sub, i)
      {
        assert i <= 7;
      }
    }
    GoodByPairs(sub);
  }

  lemma ColorRowGood0()
    ensures GoodSubtable(Color00) && GoodSubtable(Color01) && GoodSubtable(Color02)
  {
    GoodByCases(Color00);
    GoodByCases(Color01);
    GoodByCases(Color02);
  }

  lemma ColorRowGood1()
    ensures GoodSubtable(Color10) && GoodSubtable(Color11) && GoodSubtable(Color12)
  {
    GoodByCases(Color10);
    GoodByCases(Color11);
    GoodByCases(Color12);
  }

  lemma ColorRowGood2()
    ensures GoodSubtable(Color20) && GoodSubtable(Color21) && GoodSubtable(Color22)
  {
    GoodByCases(Color20);
    GoodByCases(Color21);
    GoodByCases(Color22);
  }

  lemma DepthRowGood0()
    ensures GoodSubtable(Depth00) && GoodSubtable(Depth01) && GoodSubtable(Depth02)
  {
    GoodByCases(Depth00);
    GoodByCases(Depth01);
    GoodByCases(Depth02);
  }

  lemma DepthRowGood1()
    ensures GoodSubtable(Depth10) && GoodSubtable(Depth11) && GoodSubtable(Depth12)
  {
    GoodByCases(Depth10);
    GoodByCases(Depth11);
    GoodByCases(Depth12);
  }

  lemma DepthRowGood2()
    ensures GoodSubtable(Depth20) && GoodSubtable(Depth21) && GoodSubtable(Depth22)
  {
    GoodByCases(Depth20);
    GoodByCases(Depth21);
    GoodByCases(Depth22);
  }

  lemma ColorTableShape()
    ensures TableShape(ColorTable)
  {
    ColorTableGood();
  }

  lemma DepthTableShape()
    ensures TableShape(DepthTable)
  {
    DepthTableGood();
  }

  /** The colour table of the source is well formed and holds only
    * encodable bin sizes. */
  lemma ColorTableGood()
    ensures GoodTable(ColorTable) && TableShape(ColorTable)
  {
    ColorRowGood0(); ColorRowGood1(); ColorRowGood2();
  }

  /** So is the depth table. */
  lemma DepthTableGood()
    ensures GoodTable(DepthTable) && TableShape(DepthTable)
  {
    DepthRowGood0(); DepthRowGood1(); DepthRowGood2();
  }

  // ---------------------------------------------------------------------
  // GFX9: colour and depth bin sizes from the tables
  // ---------------------------------------------------------------------

  /** PIPE_MAX_COLOR_BUFS: eight colour targets with four enable bits each. */
  const MaxColorBufs: nat := 8

  /** `0xf << (i * 4)`: the four enable bits of colour target i. */
  const TargetBits: seq<bv32> :=
    [0xF, 0xF0, 0xF00, 0xF000, 0xF_0000, 0xF0_0000, 0xF00_0000, 0xF000_0000]

  /** Some channel of target i is enabled in a 4-bit-per-target mask. */
  predicate TargetEnabled(mask: bv32, i: nat)
    requires i < MaxColorBufs
  {
    mask & TargetBits[i] != 0
  }

  /** The bytes per pixel of the enabled targets among the first n. */
  function EnabledBytes(bpe: seq<nat>, mask: bv32, n: nat): nat
    requires n <= |bpe| <= MaxColorBufs
  {
    if n == 0 then 0 else EnabledBytes(bpe, mask, n - 1) + (if TargetEnabled(mask, n - 1) then bpe[n - 1] else 0)
  }

  /** Multisampled colour costs the fragment count with per-sample
    * shading, twice the bytes without. */
  function SampleFactor(numFragments: nat, psIterSamples: nat): nat
  {
    if numFragments < 2 then 1 else if psIterSamples >= 2 then numFragments else 2
  }

  function ColorBytes(bpe: seq<nat>, mask: bv32, numFragments: nat, psIterSamples: nat): nat
    requires |bpe| <= MaxColorBufs
  {
    EnabledBytes(bpe, mask, |bpe|) * SampleFactor(numFragments, psIterSamples)
  }

  /** si_get_color_bin_size: sums the bytes per pixel of the enabled
    * targets, scales the sum for multisampling and looks it up in the
    * colour table. */
  method ColorBinSize(info: ChipInfo, bpe: seq<nat>, mask: bv32, numFragments: nat, psIterSamples: nat)
    returns (size: BinSize)
    requires ChipOk(info) && |bpe| <= MaxColorBufs
    ensures size == Lookup(Subtable(ColorTable, info), ColorBytes(bpe, mask, numFragments, psIterSamples))
  {
    var sum := 0;
    for i := 0 to |bpe|
      invariant sum == EnabledBytes(bpe, mask, i)
    {
      if mask & TargetBits[i] == 0 {
        continue;
      }
      sum := sum + bpe[i];
    }
    if numFragments >= 2 {
      if psIterSamples >= 2 {
        sum := sum * numFragments;
      } else {
        sum := sum * 2;
      }
    }
    assert sum == ColorBytes(bpe, mask, numFragments, psIterSamples);
    ColorTableShape();
    size := FindBinSize(ColorTable, info, sum);
  }

  lemma {:induction false} EnabledBytesGrow(bpe: seq<nat>, m1: bv32, m2: bv32, n: nat)
    requires n <= |bpe| <= MaxColorBufs && m1 & m2 == m1
    ensures EnabledBytes(bpe, m1, n) <= EnabledBytes(bpe, m2, n)
  {
    if n > 0 {
      EnabledBytesGrow(bpe, m1, m2, n - 1);
      SubmaskBit(m1, m2, TargetBits[n - 1]);
    }
  }

  /** A bit set in a submask is set in the mask. */
  lemma SubmaskBit(m1: bv32, m2: bv32, c: bv32)
    requires m1 & m2 == m1
    ensures m1 & c != 0 ==> m2 & c != 0
  {
    assert m1 & c == m1 & (m2 & c);
  }

  lemma GoodSubtableOf(table: BinTable, info: ChipInfo)
    requires GoodTable(table) && TableShape(table) && ChipOk(info)
    ensures WellFormed(Subtable(table, info))
  {
    assert GoodSubtable(table[Log2Ceil(info.numRenderBackends / info.maxSe)][Log2Ceil(info.maxSe)]);
  }

  /** Enabling more colour targets never gives a bigger colour bin. */
  lemma MoreTargetsSmallerBin(info: ChipInfo, bpe: seq<nat>, m1: bv32, m2: bv32, numFragments: nat, psIterSamples: nat)
    requires ChipOk(info) && |bpe| <= MaxColorBufs && m1 & m2 == m1
    ensures var sub := (ColorTableGood(); Subtable(ColorTable, info));
      && Lookup(sub, ColorBytes(bpe, m2, numFragments, psIterSamples)).x <= Lookup(sub, ColorBytes(bpe, m1, numFragments, psIterSamples)).x
      && Lookup(sub, ColorBytes(bpe, m2, numFragments, psIterSamples)).y <= Lookup(sub, ColorBytes(bpe, m1, numFragments, psIterSamples)).y
  {
    ColorTableGood();
    GoodSubtableOf(ColorTable, info);
    EnabledBytesGrow(bpe, m1, m2, |bpe|);
    var f := SampleFactor(numFragments, psIterSamples);
    MulMonotone(EnabledBytes(bpe, m1, |bpe|), EnabledBytes(bpe, m2, |bpe|), f);
    LookupShrinks(Subtable(ColorTable, info), ColorBytes(bpe, m1, numFragments, psIterSamples),
                  ColorBytes(bpe, m2, numFragments, psIterSamples));
  }

  lemma MulMonotone(a: nat, b: nat, k: nat)
    requires a <= b
    ensures a * k <= b * k
  {
  }

  /** The depth-stencil state the depth bin reads: a bound depth buffer,
    * depth and stencil tests, the stencil aspect and the sample count. */
  datatype DepthState = DepthState(hasZsbuf: bool, depthEnabled: bool, stencilEnabled: bool,
                                   hasStencil: bool, nrSamples: nat)

  /** MAX2(n, 1). */
  function AtLeastOne(n: nat): nat { if n > 1 then n else 1 }

  /** Five bytes a sample for depth, one for stencil, four times over. */
  function DepthBytes(d: DepthState): nat
  {
    4 * ((if d.depthEnabled then 5 else 0) + (if d.hasStencil && d.stencilEnabled then 1 else 0)) * AtLeastOne(d.nrSamples)
  }

  /** Whether depth binning looks at the table at all. */
  predicate DepthTested(d: DepthState)
  {
    d.hasZsbuf && (d.depthEnabled || d.stencilEnabled)
  }

  /** si_get_depth_bin_size: the largest bin, 512x512, without a depth
    * buffer or without depth and stencil tests; otherwise the depth table's
    * answer for the depth and stencil bytes. */
  method DepthBinSize(info: ChipInfo, d: DepthState) returns (size: BinSize)
    requires ChipOk(info)
    ensures !DepthTested(d) ==> size == BinSize(512, 512)
    ensures DepthTested(d) ==> size == Lookup(Subtable(DepthTable, info), DepthBytes(d))
  {
    if !d.hasZsbuf || (!d.depthEnabled && !d.stencilEnabled) {
      return BinSize(512, 512);
    }
    var depthCoeff := if d.depthEnabled then 5 else 0;
    var stencilCoeff := if d.hasStencil && d.stencilEnabled then 1 else 0;
    var sum := 4 * (depthCoeff + stencilCoeff) * (if d.nrSamples > 1 then d.nrSamples else 1);
    DepthTableShape();
    size := FindBinSize(DepthTable, info, sum);
  }

  /** More samples never give a bigger depth bin, and a sum of zero (a
    * stencil test on a format without stencil) gets the table's first,
    * largest, entry. */
  lemma DepthBinShrinksWithSamples(info: ChipInfo, d: DepthState, samples: nat)
    requires ChipOk(info) && d.nrSamples <= samples
    ensures var sub := (DepthTableGood(); Subtable(DepthTable, info));
      && Lookup(sub, DepthBytes(d.(nrSamples := samples))).x <= Lookup(sub, DepthBytes(d)).x
      && Lookup(sub, DepthBytes(d.(nrSamples := samples))).y <= Lookup(sub, DepthBytes(d)).y
      && (DepthBytes(d) == 0 ==> Lookup(sub, DepthBytes(d)) == Size(sub[0]))
  {
    DepthTableGood();
    var sub := Subtable(DepthTable, info);
    GoodSubtableOf(DepthTable, info);
    var k := 4 * ((if d.depthEnabled then 5 else 0) + (if d.hasStencil && d.stencilEnabled then 1 else 0));
    MulMonotone(AtLeastOne(d.nrSamples), AtLeastOne(samples), k);
    assert k * AtLeastOne(d.nrSamples) <= k * AtLeastOne(samples);
    LookupShrinks(sub, DepthBytes(d), DepthBytes(d.(nrSamples := samples)));
    if DepthBytes(d) == 0 {
      LookupIsBucket(sub, 0);
    }
  }

  // ---------------------------------------------------------------------
  // GFX10: bin sizes from tag budgets
  // ---------------------------------------------------------------------

  const ZsTagSize: nat := 64
  const ZsNumTags: nat := 312
  const CcTagSize: nat := 1024
  const CcReadTags: nat := 31
  const FcTagSize: nat := 256
  const FcReadTags: nat := 44
  const MinBinSizeX: nat := 128
  const MinBinSizeY: nat := 64

  /** What gfx10_get_bin_sizes needs of the GPU. */
  datatype Gfx10Info = Gfx10Info(numRbs: nat, numSdpInterfaces: nat)

  function Pipes(g: Gfx10Info): nat
  {
    if g.numRbs > g.numSdpInterfaces then g.numRbs else g.numSdpInterfaces
  }

  /** The pixels' worth of tags a bin may use. */
  function TagPart(numTags: nat, tagSize: nat, g: Gfx10Info): nat
    requires Pipes(g) > 0
  {
    Mul(Mul(numTags, g.numRbs) / Pipes(g), Mul(tagSize, Pipes(g)))
  }

  /** 2^log2Pixels pixels as a bin: the width rounds the half exponent up,
    * the height rounds it down. */
  function SplitPixels(log2Pixels: nat): BinSize
  {
    BinSize(Pow2((log2Pixels + 1) / 2), Pow2(log2Pixels / 2))
  }

  /** The split keeps the pixel count, and the width is the height or twice it. */
  lemma SplitPixelsShape(log2Pixels: nat)
    ensures SplitPixels(log2Pixels).x * SplitPixels(log2Pixels).y == Pow2(log2Pixels)
    ensures SplitPixels(log2Pixels).x == SplitPixels(log2Pixels).y || SplitPixels(log2Pixels).x == 2 * SplitPixels(log2Pixels).y
  {
    var hi, lo := (log2Pixels + 1) / 2, log2Pixels / 2;
    assert hi + lo == log2Pixels;
    Pow2Add(hi, lo);
    HalvesDiffer(log2Pixels);
  }

  lemma HalvesDiffer(n: nat)
    ensures Pow2((n + 1) / 2) == Pow2(n / 2) || Pow2((n + 1) / 2) == 2 * Pow2(n / 2)
  {
    var hi, lo := (n + 1) / 2, n / 2;
    if hi != lo {
      assert hi == lo + 1;
      Pow2Double(lo);
    }
  }



  lemma Pow2Double(n: nat)
    ensures Pow2(n + 1) == 2 * Pow2(n)
  {
  }


  /** The minimum bin size of 128x64. */
  function ClampBin(b: BinSize): BinSize
  {
    BinSize(if b.x > MinBinSizeX then b.x else MinBinSizeX, if b.y > MinBinSizeY then b.y else MinBinSizeY)
  }

  /** cFmaskMrt: FMASK cost per target by log2 fragments and log2 samples. */
  const FmaskMrt: seq<seq<nat>> := [[0, 1, 1, 1, 2], [0, 1, 1, 2, 4], [0, 1, 1, 4, 8], [0, 1, 2, 4, 8]]

  /** The framebuffer state gfx10_get_bin_sizes reads: each colour target's
    * bytes per element (None for an unbound one), the fragment and sample
    * counts and whether the shader runs per sample. */
  datatype Gfx10Fb = Gfx10Fb(cbufs: seq<Option<nat>>, numFragments: nat, numSamples: nat, psIterSample: bool)

  /** The FMASK table covers the sample and fragment counts in use. */
  predicate FmaskIndexOk(fb: Gfx10Fb)
  {
    fb.numSamples >= 2 ==> Log2(fb.numFragments) < 4 && Log2(fb.numSamples) < 5
  }

  /** Bytes a colour sample costs for each byte per element. */
  function Mmrt(fb: Gfx10Fb): nat
  {
    if fb.numFragments == 1 then 1 else if fb.psIterSample then fb.numFragments else 2
  }

  /** cColor over the first n targets. */
  function ColorCost(fb: Gfx10Fb, n: nat): nat
    requires n <= |fb.cbufs|
  {
    if n == 0 then 0
    else ColorCost(fb, n - 1) + (match fb.cbufs[n - 1] case Some(bpe) => Mul(bpe, Mmrt(fb)) case None => 0)
  }

  /** The number of bound targets among the first n. */
  function BoundTargets(fb: Gfx10Fb, n: nat): nat
    requires n <= |fb.cbufs|
  {
    if n == 0 then 0 else BoundTargets(fb, n - 1) + (if fb.cbufs[n - 1].Some? then 1 else 0)
  }

  /** The cFmaskMrt entry for the framebuffer's fragment and sample counts. */
  function FmaskPerTarget(fb: Gfx10Fb): nat
    requires FmaskIndexOk(fb) && fb.numSamples >= 2
  {
    FmaskMrt[Log2(fb.numFragments)][Log2(fb.numSamples)]
  }

  /** log2 of the pixels a tag budget covers at a cost per pixel (at least 1). */
  function BudgetLog2(tagPart: nat, cost: nat): nat
  {
    Log2(tagPart / (if cost > 1 then cost else 1))
  }

  /** The colour bin: from the colour budget, or from the FMASK budget when
    * that one allows fewer pixels; then clamped to the minimum. */
  function Gfx10ColorBin(g: Gfx10Info, cColor: nat, cFmask: nat, hasFmask: bool): BinSize
    requires Pipes(g) > 0
  {
    var colorLog2 := BudgetLog2(TagPart(CcReadTags, CcTagSize, g), cColor);
    var fmaskLog2 := BudgetLog2(TagPart(FcReadTags, FcTagSize, g), cFmask);
    ClampBin(SplitPixels(if hasFmask && fmaskLog2 < colorLog2 then fmaskLog2 else colorLog2))
  }

  /** The depth bin: 512x512 without a depth buffer, else from the
    * depth budget at five bytes a depth sample and one a stencil sample. */
  function Gfx10DepthBin(g: Gfx10Info, d: DepthState): BinSize
    requires Pipes(g) > 0
  {
    if !d.hasZsbuf then BinSize(512, 512)
    else
      var cDepth := Mul((if d.depthEnabled then 5 else 0) + (if d.stencilEnabled then 1 else 0), AtLeastOne(d.nrSamples));
      ClampBin(SplitPixels(BudgetLog2(TagPart(ZsNumTags, ZsTagSize, g), cDepth)))
  }

  lemma MulSucc(a: nat, b: nat)
    ensures Mul(a + 1, b) == Mul(a, b) + b
  {
  }

  /** The colour and FMASK costs gfx10_get_bin_sizes sums over the bound
    * colour targets. */
  method Gfx10Costs(fb: Gfx10Fb) returns (cColor: nat, cFmask: nat, hasFmask: bool)
    requires FmaskIndexOk(fb)
    ensures cColor == ColorCost(fb, |fb.cbufs|)
    ensures hasFmask <==> fb.numSamples >= 2 && BoundTargets(fb, |fb.cbufs|) > 0
    ensures cFmask == if hasFmask then Mul(BoundTargets(fb, |fb.cbufs|), FmaskPerTarget(fb)) else 0
  {
    var mmrt := Mmrt(fb);
    cColor, cFmask, hasFmask := 0, 0, false;
    ghost var bound := 0;
    for i := 0 to |fb.cbufs|
      invariant cColor == ColorCost(fb, i) && bound == BoundTargets(fb, i)
      invariant hasFmask <==> fb.numSamples >= 2 && bound > 0
      invariant cFmask == if hasFmask then Mul(bound, FmaskPerTarget(fb)) else 0
    {
      if fb.cbufs[i].None? {
        continue;
      }
      cColor := cColor + Mul(fb.cbufs[i].value, mmrt);
      bound := bound + 1;
      if fb.numSamples >= 2 {
        MulSucc(bound - 1, FmaskPerTarget(fb));
        cFmask := cFmask + FmaskPerTarget(fb);
        hasFmask := true;
      }
    }
  }

  /** gfx10_get_bin_sizes. */
  method Gfx10BinSizes(g: Gfx10Info, fb: Gfx10Fb, d: DepthState) returns (color: BinSize, depth: BinSize)
    requires Pipes(g) > 0 && FmaskIndexOk(fb)
    ensures var hasFmask := fb.numSamples >= 2 && BoundTargets(fb, |fb.cbufs|) > 0;
      color == Gfx10ColorBin(g, ColorCost(fb, |fb.cbufs|),
                             if hasFmask then Mul(BoundTargets(fb, |fb.cbufs|), FmaskPerTarget(fb)) else 0, hasFmask)
    ensures depth == Gfx10DepthBin(g, d)
  {
    var cColor, cFmask, hasFmask := Gfx10Costs(fb);
    var colorLog2 := BudgetLog2(TagPart(CcReadTags, CcTagSize, g), cColor);
    var bin := SplitPixels(colorLog2);
    if hasFmask {
      var fmaskLog2 := BudgetLog2(TagPart(FcReadTags, FcTagSize, g), cFmask);
      if fmaskLog2 < colorLog2 {
        bin := SplitPixels(fmaskLog2);
      }
    }
    color := ClampBin(bin);

    if !d.hasZsbuf {
      depth := BinSize(512, 512);
    } else {
      var cDepth := Mul((if d.depthEnabled then 5 else 0) + (if d.stencilEnabled then 1 else 0), AtLeastOne(d.nrSamples));
      depth := ClampBin(SplitPixels(BudgetLog2(TagPart(ZsNumTags, ZsTagSize, g), cDepth)));
    }
  }

  // ---------------------------------------------------------------------
  // Encoding bin sizes into PA_SC_BINNER_CNTL_0
  // ---------------------------------------------------------------------

  lemma Pow2Small()
    ensures Pow2(4) == 16 && Pow2(5) == 32 && Pow2(6) == 64 && Pow2(7) == 128 && Pow2(8) == 256 && Pow2(9) == 512
  {
    assert Pow2(1) == 2 && Pow2(2) == 4 && Pow2(3) == 8;
  }

  /** A bin dimension the register fields can express: a power of two of
    * at least 16. */
  predicate Encodable(v: nat)
  {
    v >= 16 && v == Pow2(Log2(v))
  }

  lemma Log2AtLeastFive(size: nat)
    requires size >= 32
    ensures Log2(size) >= 5
  {
    var r := Log2(size);
    if r < 5 {
      Pow2Monotone(r + 1, 5);
      Pow2Small();
    }
  }

  /** bin_size_extend: log2(size) - 5 from 32 on, 0 below. */
  function Extend(size: nat): nat
  {
    if size >= 32 then Log2AtLeastFive(size); Log2(size) - 5 else 0
  }

  /** How the hardware reads BIN_SIZE_X/Y and BIN_SIZE_X/Y_EXTEND: 16 when
    * the first is set, 32 << extend otherwise. */
  function DecodeBinDim(is16: bool, extend: nat): nat
  {
    if is16 then 16 else Pow2(extend + 5)
  }

  /** The flag and the extend field the driver writes give back the size. */
  lemma EncodeRoundTrip(v: nat)
    requires Encodable(v)
    ensures DecodeBinDim(v == 16, Extend(v)) == v
  {
    var k := Log2(v);
    Pow2Small();
    if v != 16 {
      if k <= 4 {
        Pow2Monotone(k, 4);
      }
      Pow2Monotone(5, k);
    }
  }

  /** Every size in the tables is encodable. */
  lemma BinDimEncodable(v: nat)
    requires BinDim(v)
    ensures Encodable(v)
  {
    Pow2Small();
    if v == 16 { Log2OfPow2(4); }
    else if v == 32 { Log2OfPow2(5); }
    else if v == 64 { Log2OfPow2(6); }
    else if v == 128 { Log2OfPow2(7); }
    else if v == 256 { Log2OfPow2(8); }
    else { Log2OfPow2(9); }
  }

  lemma MaxPow2Encodable(k: nat, floor: nat)
    requires 4 <= floor
    ensures var v := if Pow2(k) > Pow2(floor) then Pow2(k) else Pow2(floor); Encodable(v)
  {
    Pow2Small();
    Pow2Monotone(4, floor);
    Log2OfPow2(floor);
    Log2OfPow2(k);
  }

  /** What every GFX10 bin satisfies: both sides encodable, at least the
    * 128x64 minimum, and never taller than wide. */
  predicate Gfx10BinOk(b: BinSize)
  {
    Encodable(b.x) && Encodable(b.y) && MinBinSizeY <= b.y <= b.x && MinBinSizeX <= b.x
  }

  lemma ClampedSplitOk(log2Pixels: nat)
    ensures Gfx10BinOk(ClampBin(SplitPixels(log2Pixels)))
  {
    Pow2Small();
    MaxPow2Encodable((log2Pixels + 1) / 2, 7);
    MaxPow2Encodable(log2Pixels / 2, 6);
    HalvesDiffer(log2Pixels);
  }

  /** Both GFX10 bins are encodable, never below 128x64, and never taller
    * than wide. */
  lemma Gfx10BinsOk(g: Gfx10Info, cColor: nat, cFmask: nat, hasFmask: bool, d: DepthState)
    requires Pipes(g) > 0
    ensures Gfx10BinOk(Gfx10ColorBin(g, cColor, cFmask, hasFmask))
    ensures Gfx10BinOk(Gfx10DepthBin(g, d))
  {
    ColorBinOk(g, cColor, cFmask, hasFmask);
    DepthBinOk(g, d);
  }

  lemma ColorBinOk(g: Gfx10Info, cColor: nat, cFmask: nat, hasFmask: bool)
    requires Pipes(g) > 0
    ensures Gfx10BinOk(Gfx10ColorBin(g, cColor, cFmask, hasFmask))
  {
    var colorLog2 := BudgetLog2(TagPart(CcReadTags, CcTagSize, g), cColor);
    var fmaskLog2 := BudgetLog2(TagPart(FcReadTags, FcTagSize, g), cFmask);
    ClampedSplitOk(if hasFmask && fmaskLog2 < colorLog2 then fmaskLog2 else colorLog2);
  }

  lemma DepthBinOk(g: Gfx10Info, d: DepthState)
    requires Pipes(g) > 0
    ensures Gfx10BinOk(Gfx10DepthBin(g, d))
  {
    if d.hasZsbuf {
      var cDepth := Mul((if d.depthEnabled then 5 else 0) + (if d.stencilEnabled then 1 else 0), AtLeastOne(d.nrSamples));
      ClampedSplitOk(BudgetLog2(TagPart(ZsNumTags, ZsTagSize, g), cDepth));
    } else {
      BinDimEncodable(512);
    }
  }


  /** Every answer of a good table is encodable, or the zero-size
    * terminator. */
  lemma LookupEncodable(sub: seq<BinSizeMap>, sum: nat)
    requires GoodSubtable(sub)
    ensures Lookup(sub, sum) == BinSize(0, 0) || (Encodable(Lookup(sub, sum).x) && Encodable(Lookup(sub, sum).y))
  {
    var i := StopIndex(sub, sum, 0);
    if i < |sub| - 1 {
      BinDimEncodable(sub[i].x);
      BinDimEncodable(sub[i].y);
    }
  }

  // ---------------------------------------------------------------------
  // Choosing the bin and emitting the binner state
  // ---------------------------------------------------------------------

  function Area(b: BinSize): nat { Mul(b.x, b.y) }

  /** The colour bin or the depth bin, whichever covers fewer pixels; the
    * depth bin on a tie. */
  function ChooseBin(color: BinSize, depth: BinSize): (b: BinSize)
    ensures b == color || b == depth
    ensures Area(b) <= Area(color) && Area(b) <= Area(depth)
  {
    if Area(color) < Area(depth) then color else depth
  }

  datatype BinningMode = BinningAllowed | DisableBinningUseNewSc | DisableBinningUseLegacySc

  datatype PunchoutMode = PunchoutForceOff | PunchoutAuto

  /** The fields of PA_SC_BINNER_CNTL_0 the driver sets; fields it leaves
    * out are zero. */
  datatype BinnerCntl = BinnerCntl(mode: BinningMode, binSizeX16: bool, binSizeY16: bool,
                                   binSizeXExtend: nat, binSizeYExtend: nat,
                                   contextStatesPerBin: nat, persistentStatesPerBin: nat,
                                   disableStartOfPrim: bool, fpovsPerBatch: nat,
                                   optimalBinSelection: bool, flushOnBinningTransition: bool)

  /** The bits of DB_SHADER_CONTROL the decision reads. */
  datatype DbShaderControl = DbShaderControl(killEnable: bool, maskExportEnable: bool, coverageToMaskEnable: bool,
                                             zExportEnable: bool, conservativeZExport: bool,
                                             depthBeforeShader: bool, execOnHierFail: bool, execOnNoop: bool,
                                             earlyZThenLateZ: bool)

  /** What si_emit_dpbb_state reads from the screen and the context. The
    * colour and depth bins are the ones it computes, which BinsFrom ties
    * to the framebuffer they are computed from. */
  datatype DpbbInputs = DpbbInputs(
    gfx10: bool, gfx9: bool, flushFamily: bool,
    dpbbAllowed: bool, dpbbForceOff: bool, dfsmAllowed: bool, numRenderBackends: nat,
    db: DbShaderControl, alphaToCoverage: bool, hasZsbuf: bool, dbCanWrite: bool,
    colorbufEnabled4bit: bv32, cbTargetEnabled4bit: bv32, blendEnable4bit: bv32,
    fbSamples: nat, zsSamples: nat, minBytesPerPixel: nat,
    contextStatesPerBin: nat, persistentStatesPerBin: nat,
    colorBin: BinSize, depthBin: BinSize)

  /** The state the bin sizes are computed from: the chip the tables are
    * picked by, the bytes per element of each colour target, the colour
    * fragment count and the shader's iteration samples before GFX10; the
    * pipe counts and the framebuffer from GFX10 on; and the depth-stencil
    * state. */
  datatype BinSource = BinSource(info: ChipInfo, bpe: seq<nat>, numFragments: nat, psIterSamples: nat,
                                 g: Gfx10Info, fb: Gfx10Fb, depth: DepthState)

  /** What the bin-size computation of the inputs' generation needs. */
  predicate BinSourceOk(s: DpbbInputs, src: BinSource)
  {
    if s.gfx10 then Pipes(src.g) > 0 && FmaskIndexOk(src.fb)
    else ChipOk(src.info) && |src.bpe| <= MaxColorBufs
  }

  /** The colour bin si_emit_dpbb_state computes: gfx10_get_bin_sizes'
    * from GFX10 on, otherwise si_get_color_bin_size's for the targets both
    * bound and written. */
  function ComputedColorBin(s: DpbbInputs, src: BinSource): BinSize
    requires BinSourceOk(s, src)
  {
    if s.gfx10 then
      var hasFmask := src.fb.numSamples >= 2 && BoundTargets(src.fb, |src.fb.cbufs|) > 0;
      Gfx10ColorBin(src.g, ColorCost(src.fb, |src.fb.cbufs|),
                    if hasFmask then Mul(BoundTargets(src.fb, |src.fb.cbufs|), FmaskPerTarget(src.fb)) else 0, hasFmask)
    else Lookup(Subtable(ColorTable, src.info), ColorBytes(src.bpe, CbTargets(s), src.numFragments, src.psIterSamples))
  }

  /** The depth bin: gfx10_get_bin_sizes' from GFX10 on, otherwise
    * si_get_depth_bin_size's. */
  function ComputedDepthBin(s: DpbbInputs, src: BinSource): BinSize
    requires BinSourceOk(s, src)
  {
    if s.gfx10 then Gfx10DepthBin(src.g, src.depth)
    else if DepthTested(src.depth) then Lookup(Subtable(DepthTable, src.info), DepthBytes(src.depth))
    else BinSize(512, 512)
  }

  /** The inputs' bins are the ones computed from the source, which shares
    * their depth buffer and sample counts. */
  predicate BinsFrom(s: DpbbInputs, src: BinSource)
  {
    && BinSourceOk(s, src)
    && src.depth.hasZsbuf == s.hasZsbuf && src.depth.nrSamples == s.zsSamples && src.fb.numSamples == s.fbSamples
    && s.colorBin == ComputedColorBin(s, src) && s.depthBin == ComputedDepthBin(s, src)
  }

  /** The bin sizes si_emit_dpbb_state computes for the targets both bound
    * and written. */
  method ComputeBins(s: DpbbInputs, src: BinSource) returns (colorBin: BinSize, depthBin: BinSize)
    requires BinSourceOk(s, src)
    ensures colorBin == ComputedColorBin(s, src) && depthBin == ComputedDepthBin(s, src)
  {
    if s.gfx10 {
      colorBin, depthBin := Gfx10BinSizes(src.g, src.fb, src.depth);
    } else {
      colorBin := ColorBinSize(src.info, src.bpe, CbTargets(s), src.numFragments, src.psIterSamples);
      depthBin := DepthBinSize(src.info, src.depth);
    }
  }

  predicate PsCanKill(s: DpbbInputs)
  {
    s.db.killEnable || s.db.maskExportEnable || s.db.coverageToMaskEnable || s.alphaToCoverage
  }

  predicate DbCanRejectZTrivially(s: DpbbInputs)
  {
    !s.db.zExportEnable || s.db.conservativeZExport || s.db.depthBeforeShader
  }

  /** Binning is believed inefficient with many render backends, a shader
    * that can kill, trivial Z rejection and a depth buffer that is written. */
  predicate Inefficient(s: DpbbInputs)
  {
    s.numRenderBackends > 4 && PsCanKill(s) && DbCanRejectZTrivially(s) && s.hasZsbuf && s.dbCanWrite
  }

  function ChosenBin(s: DpbbInputs): BinSize { ChooseBin(s.colorBin, s.depthBin) }

  /** Whether si_emit_dpbb_state ends with binning enabled. */
  predicate BinningEnabled(s: DpbbInputs)
  {
    && s.dpbbAllowed && !s.dpbbForceOff && !Inefficient(s)
    && ChosenBin(s).x != 0 && ChosenBin(s).y != 0
  }

  /** The colour targets both bound and written by the blend state. */
  function CbTargets(s: DpbbInputs): bv32 { s.colorbufEnabled4bit & s.cbTargetEnabled4bit }

  /** Those of them with blending enabled. */
  function BlendedTargets(s: DpbbInputs): bv32 { CbTargets(s) & s.blendEnable4bit }

  /** DFSM is preferred unless the GFX9 EQAA depth bug applies or the shader
    * kills or may write memory or does not run early then late Z. */
  predicate DfsmPreferred(s: DpbbInputs)
  {
    && s.dfsmAllowed && !ZsEqaaDfsmBug(s) && CbTargets(s) != 0 && !s.db.killEnable
    && !s.db.execOnHierFail && !s.db.execOnNoop && s.db.earlyZThenLateZ
  }

  /** GFX9 cannot use DFSM when the depth buffer's sample count differs
    * from the framebuffer's. */
  predicate ZsEqaaDfsmBug(s: DpbbInputs)
  {
    s.gfx9 && s.hasZsbuf && s.fbSamples != AtLeastOne(s.zsSamples)
  }

  /** The register value of the enabled path. */
  function EnabledCntl(s: DpbbInputs, wasEnabled: bool): (c: BinnerCntl)
    requires s.contextStatesPerBin >= 1 && s.persistentStatesPerBin >= 1
    ensures c.mode == BinningAllowed
    // a flush only when binning was off, and always then on the families that flush
    ensures c.flushOnBinningTransition ==> !wasEnabled
    ensures s.flushFamily ==> c.flushOnBinningTransition == !wasEnabled
  {
    var b := ChosenBin(s);
    BinnerCntl(BinningAllowed, b.x == 16, b.y == 16, Extend(b.x), Extend(b.y),
               s.contextStatesPerBin - 1, s.persistentStatesPerBin - 1,
               if DfsmPreferred(s) then BlendedTargets(s) != 0 else true,
               63, true, s.flushFamily && !wasEnabled)
  }

  /** The register value of si_emit_dpbb_disable. GFX10 programs a 128x128
    * bin, or 128x64 for pixels wider than four bytes. */
  function DisabledCntl(gfx10: bool, flushFamily: bool, minBytesPerPixel: nat, wasEnabled: bool): (c: BinnerCntl)
    ensures c.mode != BinningAllowed
    // a flush only when binning was on; GFX10 flushes on every such transition
    ensures c.flushOnBinningTransition ==> wasEnabled
    ensures (gfx10 || flushFamily) ==> c.flushOnBinningTransition == wasEnabled
  {
    if gfx10 then
      var y := if minBytesPerPixel <= 4 then 128 else 64;
      BinnerCntl(DisableBinningUseNewSc, false, y == 16, Extend(128), Extend(y), 0, 0, true, 0, false, wasEnabled)
    else BinnerCntl(DisableBinningUseLegacySc, false, false, 0, 0, 0, 0, true, 0, false, flushFamily && wasEnabled)
  }

  /** The enabled register reads back as the chosen bin whenever its sides
    * are encodable. */
  lemma EnabledCntlEncodesBin(s: DpbbInputs, wasEnabled: bool)
    requires s.contextStatesPerBin >= 1 && s.persistentStatesPerBin >= 1
    requires Encodable(ChosenBin(s).x) && Encodable(ChosenBin(s).y)
    ensures var c := EnabledCntl(s, wasEnabled);
      DecodeBinDim(c.binSizeX16, c.binSizeXExtend) == ChosenBin(s).x
      && DecodeBinDim(c.binSizeY16, c.binSizeYExtend) == ChosenBin(s).y
  {
    EncodeRoundTrip(ChosenBin(s).x);
    EncodeRoundTrip(ChosenBin(s).y);
  }

  /** The GFX10 disabled register reads back as 128x128, or 128x64 for
    * pixels wider than four bytes. */
  lemma DisabledCntlEncodesBin(flushFamily: bool, minBytesPerPixel: nat, wasEnabled: bool)
    ensures var c := DisabledCntl(true, flushFamily, minBytesPerPixel, wasEnabled);
      DecodeBinDim(c.binSizeX16, c.binSizeXExtend) == 128
      && DecodeBinDim(c.binSizeY16, c.binSizeYExtend) == (if minBytesPerPixel <= 4 then 128 else 64)
  {
    BinDimEncodable(128);
    BinDimEncodable(64);
    EncodeRoundTrip(128);
    EncodeRoundTrip(64);
  }

  /** The two extend fields of a bin, as both emit paths compute them. */
  method BinSizeExtend(b: BinSize) returns (extend: BinSize)
    ensures extend == BinSize(Extend(b.x), Extend(b.y))
  {
    extend := BinSize(0, 0);
    if b.x >= 32 {
      Log2AtLeastFive(b.x);
      extend := extend.(x := Log2(b.x) - 5);
    }
    if b.y >= 32 {
      Log2AtLeastFive(b.y);
      extend := extend.(y := Log2(b.y) - 5);
    }
  }

  /** The register values of the enabled path of si_emit_dpbb_state, from
    * the DFSM decision to the extend fields of the chosen bin. */
  method EnabledRegisters(s: DpbbInputs, binSize: BinSize, wasEnabled: bool) returns (cntl: BinnerCntl, punchoutMode: PunchoutMode)
    requires s.contextStatesPerBin >= 1 && s.persistentStatesPerBin >= 1
    requires binSize == ChosenBin(s)
    ensures cntl == EnabledCntl(s, wasEnabled)
    ensures punchoutMode == (if DfsmPreferred(s) then PunchoutAuto else PunchoutForceOff)
  {
    punchoutMode := PunchoutForceOff;
    var disableStartOfPrim := true;
    var zsEqaaDfsmBug := ZsEqaaDfsmBug(s);
    if && s.dfsmAllowed && !zsEqaaDfsmBug && CbTargets(s) != 0 && !s.db.killEnable
       && !s.db.execOnHierFail && !s.db.execOnNoop && s.db.earlyZThenLateZ {
      punchoutMode := PunchoutAuto;
      disableStartOfPrim := BlendedTargets(s) != 0;
    }
    assert (punchoutMode == PunchoutAuto) == DfsmPreferred(s);
    assert disableStartOfPrim == (if DfsmPreferred(s) then BlendedTargets(s) != 0 else true);
    var fpovsPerBatch := 63;

    var extend := BinSizeExtend(binSize);
    assert extend.x == Extend(ChosenBin(s).x) && extend.y == Extend(ChosenBin(s).y);
    cntl := BinnerCntl(BinningAllowed, binSize.x == 16, binSize.y == 16, extend.x, extend.y,
                       s.contextStatesPerBin - 1, s.persistentStatesPerBin - 1, disableStartOfPrim,
                       fpovsPerBatch, true, s.flushFamily && !wasEnabled);
  }

  /** The context state si_emit_dpbb_state and si_emit_dpbb_disable update:
    * the tracked values of the two registers (None until first written),
    * the words written to the command stream, the context-roll flag and
    * last_binning_enabled. */
  class DpbbContext {
    var binnerCntl: Option<BinnerCntl>
    var punchout: Option<PunchoutMode>
    var cdw: nat
    var contextRoll: bool
    var lastBinningEnabled: bool

    constructor ()
      ensures binnerCntl.None? && punchout.None? && cdw == 0 && !contextRoll && !lastBinningEnabled
    {
      binnerCntl, punchout, cdw, contextRoll, lastBinningEnabled := None, None, 0, false, false;
    }

    /** radeon_opt_set_context_reg on PA_SC_BINNER_CNTL_0: three words are
      * written only when the value differs from the tracked one. */
    method SetBinnerCntl(v: BinnerCntl)
      modifies this
      ensures binnerCntl == Some(v)
      ensures cdw == old(cdw) + (if old(binnerCntl) == Some(v) then 0 else 3)
      ensures punchout == old(punchout) && contextRoll == old(contextRoll) && lastBinningEnabled == old(lastBinningEnabled)
    {
      if binnerCntl != Some(v) {
        binnerCntl := Some(v);
        cdw := cdw + 3;
      }
    }

    /** radeon_opt_set_context_reg on DB_DFSM_CONTROL. */
    method SetPunchout(m: PunchoutMode)
      modifies this
      ensures punchout == Some(m)
      ensures cdw == old(cdw) + (if old(punchout) == Some(m) then 0 else 3)
      ensures binnerCntl == old(binnerCntl) && contextRoll == old(contextRoll) && lastBinningEnabled == old(lastBinningEnabled)
    {
      if punchout != Some(m) {
        punchout := Some(m);
        cdw := cdw + 3;
      }
    }

    /** si_emit_dpbb_disable. */
    method EmitDpbbDisable(gfx10: bool, flushFamily: bool, minBytesPerPixel: nat)
      modifies this
      ensures !lastBinningEnabled
      ensures binnerCntl == Some(DisabledCntl(gfx10, flushFamily, minBytesPerPixel, old(lastBinningEnabled)))
      ensures punchout == Some(PunchoutForceOff)
      ensures contextRoll == (old(contextRoll) || old(binnerCntl) != binnerCntl || old(punchout) != punchout)
    {
      var initialCdw := cdw;
      if gfx10 {
        var binSize := BinSize(128, if minBytesPerPixel <= 4 then 128 else 64);
        var extend := BinSizeExtend(binSize);
        SetBinnerCntl(BinnerCntl(DisableBinningUseNewSc, binSize.x == 16, binSize.y == 16, extend.x, extend.y,
                                 0, 0, true, 0, false, lastBinningEnabled));
      } else {
        SetBinnerCntl(BinnerCntl(DisableBinningUseLegacySc, false, false, 0, 0, 0, 0, true, 0, false,
                                 flushFamily && lastBinningEnabled));
      }
      SetPunchout(PunchoutForceOff);
      if initialCdw != cdw {
        contextRoll := true;
      }
      lastBinningEnabled := false;
    }

    /** The enabled tail of si_emit_dpbb_state, once the bin is known. */
    method EmitDpbbEnabled(s: DpbbInputs, binSize: BinSize)
      requires s.contextStatesPerBin >= 1 && s.persistentStatesPerBin >= 1
      requires binSize == ChosenBin(s)
      modifies this
      ensures lastBinningEnabled
      ensures binnerCntl == Some(EnabledCntl(s, old(lastBinningEnabled)))
      ensures punchout == Some(if DfsmPreferred(s) then PunchoutAuto else PunchoutForceOff)
      ensures contextRoll == (old(contextRoll) || old(binnerCntl) != binnerCntl || old(punchout) != punchout)
    {
      var cntl, punchoutMode := EnabledRegisters(s, binSize, lastBinningEnabled);
      var initialCdw := cdw;
      SetBinnerCntl(cntl);
      SetPunchout(punchoutMode);
      if initialCdw != cdw {
        contextRoll := true;
      }
      lastBinningEnabled := true;
    }

    /** si_emit_dpbb_state: binning ends enabled exactly when DPBB is
      * allowed, not forced off, not believed inefficient, and the smaller
      * of the colour and depth bins has no zero side. */
    method EmitDpbbState(s: DpbbInputs, src: BinSource)
      requires s.contextStatesPerBin >= 1 && s.persistentStatesPerBin >= 1
      requires BinsFrom(s, src)
      modifies this
      ensures lastBinningEnabled == BinningEnabled(s)
      ensures binnerCntl == Some(if BinningEnabled(s) then EnabledCntl(s, old(lastBinningEnabled))
                                 else DisabledCntl(s.gfx10, s.flushFamily, s.minBytesPerPixel, old(lastBinningEnabled)))
      ensures punchout == Some(if BinningEnabled(s) && DfsmPreferred(s) then PunchoutAuto else PunchoutForceOff)
      ensures contextRoll == (old(contextRoll) || old(binnerCntl) != binnerCntl || old(punchout) != punchout)
    {
      if !s.dpbbAllowed || s.dpbbForceOff {
        EmitDpbbDisable(s.gfx10, s.flushFamily, s.minBytesPerPixel);
        return;
      }
      var psCanKill := s.db.killEnable || s.db.maskExportEnable || s.db.coverageToMaskEnable || s.alphaToCoverage;
      var dbCanRejectZTrivially := !s.db.zExportEnable || s.db.conservativeZExport || s.db.depthBeforeShader;
      if s.numRenderBackends > 4 && psCanKill && dbCanRejectZTrivially && s.hasZsbuf && s.dbCanWrite {
        assert Inefficient(s);
        EmitDpbbDisable(s.gfx10, s.flushFamily, s.minBytesPerPixel);
        return;
      }
      assert !Inefficient(s);
      var colorBin, depthBin := ComputeBins(s, src);
      var colorArea := Mul(colorBin.x, colorBin.y);
      var depthArea := Mul(depthBin.x, depthBin.y);
      var binSize := if colorArea < depthArea then colorBin else depthBin;
      assert binSize == ChosenBin(s);
      if binSize.x == 0 || binSize.y == 0 {
        EmitDpbbDisable(s.gfx10, s.flushFamily, s.minBytesPerPixel);
        return;
      }

      assert BinningEnabled(s);
      EmitDpbbEnabled(s, binSize);
    }
  }
}
