// The vtest transport of the Venus Vulkan driver (virtio/vulkan/vn_renderer_vtest.c):
// the conversion of a wait timeout into a poll timeout and into the value
// sent with VCMD_SYNC_WAIT, the sizes and the layout of a VCMD_SUBMIT_CMD2
// command, the blob flags of a memory allocation, the reading of the
// capset reply and the protocol-version check of initialisation.
//
// The socket is modelled by two fields of the connection: the commands
// written so far, each a vtest header (command and length in dwords) and
// its payload as a sequence of dwords, and the bytes the server has sent
// and that are not read yet. Reads are little-endian, as on the hosts the
// driver runs on. The command codes, the blob flags and the layout of a
// batch record come from vtest_protocol.h and the capset identifier from
// virglrenderer_hw.h; those headers are not part of this model.
module VnRendererVtest {
  import opened Wrappers
  import opened Bits

  const U64: nat := 0x1_0000_0000_0000_0000
  const IntMax: nat := 0x7fff_ffff
  const U32Max: nat := 0xffff_ffff

  // ---------------------------------------------------------------------
  // Timeouts
  // ---------------------------------------------------------------------

  const NsPerMs: nat := 1_000_000

  /** timeout_to_poll_timeout: the timeout in nanoseconds, rounded up to
    * milliseconds in 64-bit arithmetic, or -1 (wait forever) when that is
    * beyond INT_MAX or the rounding wrapped around. The wrap-around check
    * makes it agree with the unbounded rounded-up quotient. */
  function PollTimeout(timeout: nat): (r: int)
    requires timeout < U64
    ensures var ms := DivCeil(timeout, NsPerMs);
            r == (if ms <= IntMax then ms else -1)
  {
    var sum := timeout + NsPerMs - 1;
    var ms := (sum % U64) / NsPerMs;
    assert sum < U64 ==> ms == DivCeil(timeout, NsPerMs);
    assert sum >= U64 ==> ms == 0 && DivCeil(timeout, NsPerMs) > IntMax by {
      if sum >= U64 {
        assert sum % U64 == sum - U64;
        assert sum / NsPerMs >= U64 / NsPerMs;
      }
    }
    if ms == 0 && timeout != 0 then -1
    else if ms <= IntMax then ms else -1
  }

  /** The timeout field of VCMD_SYNC_WAIT: the poll timeout when it is in
    * range, UINT32_MAX (no limit) otherwise. */
  function WireTimeout(pollTimeout: int): (r: nat)
    ensures r < U32
  {
    if 0 <= pollTimeout <= IntMax then pollTimeout else U32Max
  }

  /** What vtest_wait sends for a timeout in nanoseconds: the least number
    * of milliseconds that covers it, or no limit exactly when that number
    * does not fit an int. */
  function SyncWaitTimeout(timeout: nat): (r: nat)
    requires timeout < U64
    ensures r == U32Max <==> DivCeil(timeout, NsPerMs) > IntMax
    ensures r != U32Max ==> r * NsPerMs >= timeout && (r == 0 || (r - 1) * NsPerMs < timeout)
  {
    WireTimeout(PollTimeout(timeout))
  }

  // ---------------------------------------------------------------------
  // Blob flags
  // ---------------------------------------------------------------------

  /** VK_MEMORY_PROPERTY_HOST_VISIBLE_BIT. */
  const HostVisibleBit: bv32 := 0x2
  /** VK_EXTERNAL_MEMORY_HANDLE_TYPE_DMA_BUF_BIT_EXT. */
  const DmaBufBit: bv32 := 0x200

  /** VCMD_BLOB_FLAG_MAPPABLE, _SHAREABLE and _CROSS_DEVICE. */
  const BlobMappable: bv32 := 0x1
  const BlobShareable: bv32 := 0x2
  const BlobCrossDevice: bv32 := 0x4

  /** vtest_bo_blob_flags: mappable for host-visible memory, shareable when
    * any external handle type is asked for, cross-device for dma-bufs. */
  function BlobFlags(flags: bv32, externalHandles: bv32): (r: bv32)
    ensures (r & BlobMappable != 0) <==> (flags & HostVisibleBit != 0)
    ensures (r & BlobShareable != 0) <==> (externalHandles != 0)
    ensures (r & BlobCrossDevice != 0) <==> (externalHandles & DmaBufBit != 0)
    ensures r & !(BlobMappable | BlobShareable | BlobCrossDevice) == 0
  {
    var mappable: bv32 := if flags & HostVisibleBit != 0 then BlobMappable else 0;
    var shareable: bv32 := if externalHandles != 0 then mappable | BlobShareable else mappable;
    if externalHandles & DmaBufBit != 0 then shareable | BlobCrossDevice else shareable
  }

  // ---------------------------------------------------------------------
  // The commands on the socket
  // ---------------------------------------------------------------------

  datatype VCmd = CmdGetCapset | CmdSyncWait | CmdSubmitCmd2

  /** A command as written: the two header dwords (length in dwords and
    * command) and the payload. */
  datatype Command = Command(cmd: VCmd, len: nat, payload: seq<nat>)

  /** A sync object and a value, sent as its id and the low and high halves
    * of the 64-bit value. */
  datatype SyncValue = SyncValue(syncId: nat, value: nat)

  function SyncWords(s: SyncValue): seq<nat>
  {
    [s.syncId, s.value % U32, (s.value / U32) % U32]
  }

  /** The dwords of a list of syncs, in order. */
  function SyncListWords(syncs: seq<SyncValue>): (r: seq<nat>)
    ensures |r| == 3 * |syncs|
  {
    if syncs == [] then []
    else
      var n := |syncs| - 1;
      SyncListWords(syncs[..n]) + SyncWords(syncs[n])
  }

  /** Appends the dwords of the syncs, one write each, as vtest_vcmd_sync_wait
    * and vtest_vcmd_submit_cmd2 do. */
  method AppendSyncs(out: seq<nat>, syncs: seq<SyncValue>) returns (r: seq<nat>)
    ensures r == out + SyncListWords(syncs)
  {
    r := out;
    var j := 0;
    while j < |syncs|
      invariant 0 <= j <= |syncs|
      invariant r == out + SyncListWords(syncs[..j])
    {
      assert syncs[..j + 1][..j] == syncs[..j];
      r := r + SyncWords(syncs[j]);
      j := j + 1;
    }
    assert syncs[..j] == syncs;
  }

  // ---------------------------------------------------------------------
  // VCMD_SUBMIT_CMD2
  // ---------------------------------------------------------------------

  /** A batch of a submission: its command stream (cs_size is a multiple of
    * 4, so it is given in dwords), its syncs, and the sync queue it runs
    * on unless it runs on the CPU queue. */
  datatype Batch = Batch(cs: seq<nat>, syncs: seq<SyncValue>, syncQueueCpu: bool, syncQueueIndex: nat, vkQueueId: nat)

  /** sizeof(struct vcmd_submit_cmd2_batch), in bytes. */
  const RecordSize: nat := 32
  /** sizeof(uint32_t) + sizeof(uint64_t): one sync on the wire, in bytes. */
  const SyncSize: nat := 12
  /** VCMD_SUBMIT_CMD2_FLAG_SYNC_QUEUE. */
  const SyncQueueFlag: nat := 1

  /** The dwords of the command streams of the first k batches. */
  function CsDwords(bs: seq<Batch>, k: nat): nat
    requires k <= |bs|
  {
    if k == 0 then 0 else CsDwords(bs, k - 1) + |bs[k - 1].cs|
  }

  /** The number of syncs of the first k batches. */
  function SyncCount(bs: seq<Batch>, k: nat): nat
    requires k <= |bs|
  {
    if k == 0 then 0 else SyncCount(bs, k - 1) + |bs[k - 1].syncs|
  }

  /** The header of the payload: the batch count and one record per batch;
    * nothing at all for no batches. */
  function HeaderDwords(bs: seq<Batch>): nat
  {
    if bs == [] then 0 else 1 + 8 * |bs|
  }

  function SubmitDwords(bs: seq<Batch>): nat
  {
    HeaderDwords(bs) + CsDwords(bs, |bs|) + 3 * SyncCount(bs, |bs|)
  }

  /** submit_cmd2_sizes: the header, command-stream and sync sizes in bytes
    * of a submission, each a multiple of 4. */
  method SubmitSizes(bs: seq<Batch>) returns (headerSize: nat, csSize: nat, syncSize: nat)
    ensures headerSize == 4 * HeaderDwords(bs) && csSize == 4 * CsDwords(bs, |bs|)
    ensures syncSize == 4 * (3 * SyncCount(bs, |bs|))
    ensures bs == [] ==> headerSize == 0 && csSize == 0 && syncSize == 0
    ensures bs != [] ==> headerSize == 4 + RecordSize * |bs|
  {
    if |bs| == 0 {
      return 0, 0, 0;
    }
    headerSize := 4 + RecordSize * |bs|;
    csSize, syncSize := 0, 0;
    var i := 0;
    while i < |bs|
      invariant 0 <= i <= |bs|
      invariant csSize == 4 * CsDwords(bs, i) && syncSize == 4 * (3 * SyncCount(bs, i))
    {
      csSize := csSize + 4 * |bs[i].cs|;
      syncSize := syncSize + SyncSize * |bs[i].syncs|;
      i := i + 1;
    }
  }

  /** The record of a batch, struct vcmd_submit_cmd2_batch in dwords: flags,
    * cmd_offset, cmd_size, sync_offset, sync_count, sync_queue_index and
    * the two halves of sync_queue_id. A batch on the CPU queue leaves the
    * sync-queue fields zero. */
  function RecordWords(b: Batch, cmdOffset: nat, syncOffset: nat): (r: seq<nat>)
    ensures |r| == 8
  {
    var q := QueueFields(b);
    [q.0, cmdOffset, |b.cs|, syncOffset, |b.syncs|, q.1, q.2, q.3]
  }

  /** The flags, sync_queue_index and the halves of sync_queue_id of a
    * batch's record. */
  function QueueFields(b: Batch): (nat, nat, nat, nat)
  {
    if b.syncQueueCpu then (0, 0, 0, 0)
    else (SyncQueueFlag, b.syncQueueIndex, b.vkQueueId % U32, (b.vkQueueId / U32) % U32)
  }

  /** The records of the first k batches when the first command stream
    * starts at dword cs0 and the first sync at dword sync0. */
  function Records(bs: seq<Batch>, k: nat, cs0: nat, sync0: nat): (r: seq<nat>)
    requires k <= |bs|
    ensures |r| == 8 * k
  {
    if k == 0 then []
    else Records(bs, k - 1, cs0, sync0) + RecordWords(bs[k - 1], cs0 + CsDwords(bs, k - 1), sync0 + 3 * SyncCount(bs, k - 1))
  }

  /** The command streams of the first k batches, one after the other. */
  function CsWords(bs: seq<Batch>, k: nat): (r: seq<nat>)
    requires k <= |bs|
    ensures |r| == CsDwords(bs, k)
  {
    if k == 0 then [] else CsWords(bs, k - 1) + bs[k - 1].cs
  }

  /** The syncs of the first k batches, one batch after the other. */
  function SyncsOf(bs: seq<Batch>, k: nat): (r: seq<nat>)
    requires k <= |bs|
    ensures |r| == 3 * SyncCount(bs, k)
  {
    if k == 0 then [] else SyncsOf(bs, k - 1) + SyncListWords(bs[k - 1].syncs)
  }

  /** The header of the payload: the batch count and the records. */
  function PayloadHead(bs: seq<Batch>): (r: seq<nat>)
    requires bs != []
    ensures |r| == HeaderDwords(bs)
  {
    [|bs|] + Records(bs, |bs|, HeaderDwords(bs), HeaderDwords(bs) + CsDwords(bs, |bs|))
  }

  /** The payload of VCMD_SUBMIT_CMD2: the batch count, the records, the
    * command streams and the syncs. */
  function SubmitPayload(bs: seq<Batch>): (r: seq<nat>)
    ensures |r| == SubmitDwords(bs)
  {
    if bs == [] then []
    else PayloadHead(bs) + CsWords(bs, |bs|) + SyncsOf(bs, |bs|)
  }

  /** The first loop of vtest_vcmd_submit_cmd2: one record per batch, with
    * the byte offsets advanced by the batch's command stream and syncs. */
  method AppendRecords(out: seq<nat>, bs: seq<Batch>, headerSize: nat, csSize: nat) returns (r: seq<nat>)
    requires headerSize == 4 * HeaderDwords(bs) && csSize == 4 * CsDwords(bs, |bs|)
    ensures r == out + Records(bs, |bs|, HeaderDwords(bs), HeaderDwords(bs) + CsDwords(bs, |bs|))
  {
    ghost var cs0, sync0 := HeaderDwords(bs), HeaderDwords(bs) + CsDwords(bs, |bs|);
    var csOffset := headerSize;
    var syncOffset := csOffset + csSize;
    r := out;
    var i := 0;
    while i < |bs|
      invariant 0 <= i <= |bs|
      invariant csOffset == 4 * (cs0 + CsDwords(bs, i))
      invariant syncOffset == 4 * (sync0 + 3 * SyncCount(bs, i))
      invariant r == out + Records(bs, i, cs0, sync0)
    {
      r := r + RecordWords(bs[i], csOffset / 4, syncOffset / 4);
      csOffset := csOffset + 4 * |bs[i].cs|;
      syncOffset := syncOffset + SyncSize * |bs[i].syncs|;
      i := i + 1;
    }
  }

  /** The second loop: the command stream of every batch that has one. */
  method AppendCommandStreams(out: seq<nat>, bs: seq<Batch>) returns (r: seq<nat>)
    ensures r == out + CsWords(bs, |bs|)
  {
    r := out;
    var i := 0;
    while i < |bs|
      invariant 0 <= i <= |bs|
      invariant r == out + CsWords(bs, i)
    {
      if |bs[i].cs| != 0 {
        r := r + bs[i].cs;
      }
      i := i + 1;
    }
  }

  /** The third loop: the syncs of every batch. */
  method AppendBatchSyncs(out: seq<nat>, bs: seq<Batch>) returns (r: seq<nat>)
    ensures r == out + SyncsOf(bs, |bs|)
  {
    r := out;
    var i := 0;
    while i < |bs|
      invariant 0 <= i <= |bs|
      invariant r == out + SyncsOf(bs, i)
    {
      r := AppendSyncs(r, bs[i].syncs);
      i := i + 1;
    }
  }

  // ---------------------------------------------------------------------
  // What the server finds in a VCMD_SUBMIT_CMD2 payload
  // ---------------------------------------------------------------------

  lemma SliceOfLeft<T>(a: seq<T>, b: seq<T>, x: nat, y: nat)
    requires x <= y <= |a|
    ensures (a + b)[x..y] == a[x..y]
  {
  }

  lemma WholeSlice<T>(s: seq<T>)
    ensures s[0..|s|] == s
  {
  }

  /** The slice from x to y of a + b lies in b, from u to v. */
  lemma SliceOfRight<T>(a: seq<T>, b: seq<T>, x: nat, y: nat, u: nat, v: nat)
    requires |a| <= x <= y <= |a| + |b| && u == x - |a| && v == y - |a|
    ensures (a + b)[x..y] == b[u..v]
  {
  }

  /** The dword counts only grow with the number of batches. */
  lemma {:induction false} CountsGrow(bs: seq<Batch>, i: nat, k: nat)
    requires i <= k <= |bs|
    ensures CsDwords(bs, i) <= CsDwords(bs, k) && SyncCount(bs, i) <= SyncCount(bs, k)
    decreases k
  {
    if i < k {
      CountsGrow(bs, i, k - 1);
    }
  }

  /** Batch i's command stream sits in the command streams of the first k
    * batches at the dwords of the streams before it. */
  lemma {:induction false} CsWordsAt(bs: seq<Batch>, k: nat, i: nat)
    requires i < k <= |bs|
    ensures CsDwords(bs, i) + |bs[i].cs| <= CsDwords(bs, k)
    ensures CsWords(bs, k)[CsDwords(bs, i)..CsDwords(bs, i) + |bs[i].cs|] == bs[i].cs
    decreases k
  {
    var x, y := CsDwords(bs, i), CsDwords(bs, i) + |bs[i].cs|;
    if i == k - 1 {
      SliceOfRight(CsWords(bs, k - 1), bs[k - 1].cs, x, y, 0, |bs[k - 1].cs|);
      WholeSlice(bs[k - 1].cs);
    } else {
      CsWordsAt(bs, k - 1, i);
      SliceOfLeft(CsWords(bs, k - 1), bs[k - 1].cs, x, y);
    }
  }

  /** Batch i's syncs sit in the syncs of the first k batches after the
    * syncs of the batches before it. */
  lemma {:induction false} SyncsAt(bs: seq<Batch>, k: nat, i: nat)
    requires i < k <= |bs|
    ensures SyncCount(bs, i) + |bs[i].syncs| <= SyncCount(bs, k)
    ensures SyncsOf(bs, k)[3 * SyncCount(bs, i)..3 * SyncCount(bs, i) + 3 * |bs[i].syncs|]
            == SyncListWords(bs[i].syncs)
    decreases k
  {
    var x, y := 3 * SyncCount(bs, i), 3 * SyncCount(bs, i) + 3 * |bs[i].syncs|;
    if i == k - 1 {
      var words := SyncListWords(bs[k - 1].syncs);
      SliceOfRight(SyncsOf(bs, k - 1), words, x, y, 0, |words|);
      WholeSlice(words);
    } else {
      SyncsAt(bs, k - 1, i);
      SliceOfLeft(SyncsOf(bs, k - 1), SyncListWords(bs[k - 1].syncs), x, y);
    }
  }

  /** Record i sits at dwords 8i to 8i + 8 of the records of the first k
    * batches. */
  lemma {:induction false} RecordAt(bs: seq<Batch>, k: nat, cs0: nat, sync0: nat, i: nat)
    requires i < k <= |bs|
    ensures Records(bs, k, cs0, sync0)[8 * i..8 * i + 8]
            == RecordWords(bs[i], cs0 + CsDwords(bs, i), sync0 + 3 * SyncCount(bs, i))
    decreases k
  {
    var last := RecordWords(bs[k - 1], cs0 + CsDwords(bs, k - 1), sync0 + 3 * SyncCount(bs, k - 1));
    var prev := Records(bs, k - 1, cs0, sync0);
    assert Records(bs, k, cs0, sync0) == prev + last;
    if i == k - 1 {
      SliceOfRight(prev, last, 8 * i, 8 * i + 8, 0, |last|);
      WholeSlice(last);
    } else {
      RecordAt(bs, k - 1, cs0, sync0, i);
      SliceOfLeft(prev, last, 8 * i, 8 * i + 8);
    }
  }

  /** Record i sits at dwords 1 + 8i to 9 + 8i of the header. */
  lemma {:induction false} HeadRecordAt(bs: seq<Batch>, i: nat)
    requires i < |bs|
    ensures var h, n := HeaderDwords(bs), |bs|;
            PayloadHead(bs)[1 + 8 * i..9 + 8 * i]
            == RecordWords(bs[i], h + CsDwords(bs, i), h + CsDwords(bs, n) + 3 * SyncCount(bs, i))
  {
    var h, n := HeaderDwords(bs), |bs|;
    SliceOfRight([n], Records(bs, n, h, h + CsDwords(bs, n)), 1 + 8 * i, 9 + 8 * i, 8 * i, 8 * i + 8);
    RecordAt(bs, n, h, h + CsDwords(bs, n), i);
  }

  /** The layout of VCMD_SUBMIT_CMD2. The payload is the header (the
    * batch count and one record per batch), then the command streams,
    * then the syncs. Record i holds the dword offsets, from the start of
    * the payload, of batch i's command stream and syncs: h + csAt and
    * h + |cs| + syncsAt. At those offsets the server finds exactly that
    * batch's command stream and syncs, each batch's right after the
    * previous batch's. */
  lemma SubmitLayout(bs: seq<Batch>, i: nat)
    requires i < |bs|
    ensures var h, n := HeaderDwords(bs), |bs|;
            var head, cs, syncs := PayloadHead(bs), CsWords(bs, n), SyncsOf(bs, n);
            var csAt, syncsAt := CsDwords(bs, i), 3 * SyncCount(bs, i);
            && SubmitPayload(bs) == head + cs + syncs
            && |head| == h && |cs| == CsDwords(bs, n) && head[0] == n
            && head[1 + 8 * i..9 + 8 * i] == RecordWords(bs[i], h + csAt, h + CsDwords(bs, n) + syncsAt)
            && csAt + |bs[i].cs| <= |cs| && cs[csAt..csAt + |bs[i].cs|] == bs[i].cs
            && syncsAt + 3 * |bs[i].syncs| <= |syncs| && syncs[syncsAt..syncsAt + 3 * |bs[i].syncs|] == SyncListWords(bs[i].syncs)
  {
    HeadRecordAt(bs, i);
    CsWordsAt(bs, |bs|, i);
    SyncsAt(bs, |bs|, i);
  }

  // ---------------------------------------------------------------------
  // Reading replies
  // ---------------------------------------------------------------------

  newtype Byte = x: int | 0 <= x < 0x100

  /** A little-endian 32-bit value at the start of the bytes. */
  function U32Le(bytes: seq<Byte>): (r: nat)
    requires |bytes| >= 4
    ensures r < U32
  {
    bytes[0] as nat + 0x100 * bytes[1] as nat + 0x1_0000 * bytes[2] as nat + 0x100_0000 * bytes[3] as nat
  }

  /** The capset bytes announced by a reply header of `len` dwords: the
    * dwords after the valid flag, in 32-bit arithmetic, so a length of 0
    * announces 2^32 - 4 bytes. */
  function ReadSize(len: nat): (r: nat)
    requires len < U32
    ensures 1 <= len <= 0x4000_0000 ==> r == 4 * (len - 1)
    ensures len == 0 ==> r == U32 - 4
  {
    ((len + U32 - 1) % U32 * 4) % U32
  }

  /** The server's reply to VCMD_GET_CAPSET is all there: the header and
    * the valid flag, and when valid, every announced capset byte. */
  predicate CapsetReplyReady(inbox: seq<Byte>)
  {
    && |inbox| >= 12
    && (U32Le(inbox[8..]) != 0 ==> |inbox| >= 12 + ReadSize(U32Le(inbox)))
  }

  function Zeros(n: nat): (r: seq<Byte>)
    ensures |r| == n && forall k :: 0 <= k < n ==> r[k] == 0
  {
    if n == 0 then [] else Zeros(n - 1) + [0]
  }

  /** What vtest_vcmd_get_capset leaves in a capset buffer of `size`
    * bytes: the announced bytes that fit, then zeros. */
  function CapsetContents(bytes: seq<Byte>, readSize: nat, size: nat): (r: seq<Byte>)
    requires readSize <= |bytes|
    ensures |r| == size
    ensures forall k :: 0 <= k < size ==> r[k] == (if k < readSize then bytes[k] else 0)
  {
    if size >= readSize then bytes[..readSize] + Zeros(size - readSize) else bytes[..size]
  }

  // ---------------------------------------------------------------------
  // The connection
  // ---------------------------------------------------------------------

  datatype InitResult = Success | ErrorInitializationFailed

  /** VIRGL_RENDERER_CAPSET_VENUS. */
  const CapsetVenus: nat := 4
  /** The least vtest protocol version the driver works with. */
  const MinProtocolVersion: nat := 3
  /** ARRAY_SIZE of the buffer excess capset bytes are drained through. */
  const DrainChunk: nat := 256

  class Vtest {
    /** The commands written to the socket. */
    var sent: seq<Command>
    /** The bytes received from the socket and not read yet. */
    var inbox: seq<Byte>
    var protocolVersion: nat
    /** sizeof(struct virgl_renderer_capset_venus). */
    const capsetSize: nat
    var capsetData: seq<Byte>

    constructor (capsetSize: nat, inbox: seq<Byte>)
      ensures this.capsetSize == capsetSize && this.inbox == inbox
      ensures sent == [] && protocolVersion == 0 && |capsetData| == capsetSize
    {
      this.capsetSize := capsetSize;
      this.inbox := inbox;
      sent := [];
      protocolVersion := 0;
      capsetData := Zeros(capsetSize);
    }

    /** vtest_read of n bytes. */
    method Read(n: nat) returns (bytes: seq<Byte>)
      requires n <= |inbox|
      modifies this`inbox
      ensures bytes == old(inbox)[..n] && inbox == old(inbox)[n..]
    {
      bytes := inbox[..n];
      inbox := inbox[n..];
    }

    /** Reads and drops n bytes, DrainChunk at a time. */
    method Drain(n: nat)
      requires n <= |inbox|
      modifies this`inbox
      ensures inbox == old(inbox)[n..]
    {
      ghost var start := inbox;
      var rest: nat := n;
      while rest != 0
        invariant rest <= n
        invariant inbox == start[n - rest..]
      {
        var chunk: nat := if rest < DrainChunk then rest else DrainChunk;
        var dropped := Read(chunk);
        rest := rest - chunk;
      }
    }

    /** vtest_vcmd_get_capset: sends the request, then reads the header and
      * the valid flag. An invalid reply fails and leaves the capset alone;
      * otherwise the capset gets the announced bytes that fit, zeros after
      * them, and the bytes that do not fit are read and dropped. */
    method GetCapset(id: nat, version: nat) returns (valid: bool)
      requires CapsetReplyReady(inbox)
      modifies this`sent, this`inbox, this`capsetData
      ensures sent == old(sent) + [Command(CmdGetCapset, 2, [id, version])]
      ensures valid <==> U32Le(old(inbox)[8..]) != 0
      ensures !valid ==> inbox == old(inbox)[12..] && capsetData == old(capsetData)
      ensures valid ==>
                var readSize := ReadSize(U32Le(old(inbox)));
                && inbox == old(inbox)[12 + readSize..]
                && capsetData == CapsetContents(old(inbox)[12..12 + readSize], readSize, capsetSize)
    {
      sent := sent + [Command(CmdGetCapset, 2, [id, version])];
      var header := Read(8);
      var flag := Read(4);
      if U32Le(flag) == 0 {
        return false;
      }
      valid := true;
      var readSize := ReadSize(U32Le(header));
      ghost var payload := inbox[..readSize];
      if capsetSize >= readSize {
        var bytes := Read(readSize);
        capsetData := bytes + Zeros(capsetSize - readSize);
      } else {
        var bytes := Read(capsetSize);
        assert bytes == payload[..capsetSize];
        capsetData := bytes;
        Drain(readSize - capsetSize);
      }
    }

    /** vtest_init_capset: the Venus capset, version 0, or an
      * initialisation failure when the server has none. */
    method InitCapset() returns (res: InitResult)
      requires CapsetReplyReady(inbox)
      modifies this`sent, this`inbox, this`capsetData
      ensures sent == old(sent) + [Command(CmdGetCapset, 2, [CapsetVenus, 0])]
      ensures res == Success <==> U32Le(old(inbox)[8..]) != 0
      ensures res == ErrorInitializationFailed ==> capsetData == old(capsetData)
      ensures res == Success ==>
                var readSize := ReadSize(U32Le(old(inbox)));
                capsetData == CapsetContents(old(inbox)[12..12 + readSize], readSize, capsetSize)
    {
      var valid := GetCapset(CapsetVenus, 0);
      res := if valid then Success else ErrorInitializationFailed;
    }

    /** vtest_init_protocol_version: the server's version when it answers
      * the ping, 0 otherwise; anything below 3 fails initialisation and
      * leaves the recorded version alone. */
    method InitProtocolVersion(pingSupported: bool, serverVersion: nat) returns (res: InitResult)
      modifies this`protocolVersion
      ensures var ver := if pingSupported then serverVersion else 0;
              && (res == Success <==> ver >= MinProtocolVersion)
              && protocolVersion == (if res == Success then ver else old(protocolVersion))
    {
      var ver := if pingSupported then serverVersion else 0;
      if ver < MinProtocolVersion {
        return ErrorInitializationFailed;
      }
      protocolVersion := ver;
      res := Success;
    }

    /** The command vtest_vcmd_sync_wait writes: flags, the clamped timeout
      * and the syncs; its length counts exactly those dwords. */
    method SyncWait(flags: nat, pollTimeout: int, syncs: seq<SyncValue>)
      modifies this`sent
      ensures sent == old(sent) + [Command(CmdSyncWait, 2 + 3 * |syncs|,
                                           [flags, WireTimeout(pollTimeout)] + SyncListWords(syncs))]
    {
      var timeout := if 0 <= pollTimeout <= IntMax then pollTimeout else U32Max;
      var payload := AppendSyncs([flags, timeout], syncs);
      sent := sent + [Command(CmdSyncWait, 2 + 3 * |syncs|, payload)];
    }

    /** vtest_vcmd_submit_cmd2: nothing for no batches; otherwise one
      * command whose length is the total size in dwords and whose payload
      * is laid out as SubmitLayout describes. */
    method SubmitCmd2(bs: seq<Batch>)
      modifies this`sent
      ensures sent == old(sent) + (if bs == [] then [] else [Command(CmdSubmitCmd2, SubmitDwords(bs), SubmitPayload(bs))])
    {
      var headerSize, csSize, syncSize := SubmitSizes(bs);
      var totalSize := headerSize + csSize + syncSize;
      if totalSize == 0 {
        return;
      }
      assert totalSize == 4 * SubmitDwords(bs);
      ghost var head := PayloadHead(bs);
      var payload := [|bs|];
      payload := AppendRecords(payload, bs, headerSize, csSize);
      assert payload == head;
      if csSize != 0 {
        payload := AppendCommandStreams(payload, bs);
      } else {
        assert CsWords(bs, |bs|) == [];
      }
      assert payload == head + CsWords(bs, |bs|);
      payload := AppendBatchSyncs(payload, bs);
      assert payload == SubmitPayload(bs);
      sent := sent + [Command(CmdSubmitCmd2, totalSize / 4, payload)];
    }
  }
}
