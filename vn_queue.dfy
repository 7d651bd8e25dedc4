// Venus queue submission (virtio/vulkan/vn_queue.c): counting the
// semaphores and syncs of a submission, laying out its temporary storage,
// filtering out WSI-signaled wait semaphores in place, collecting the
// renderer syncs each batch signals, and the payload state machine of
// fences and semaphores.
//
// Semaphores and fences are entries of the device's tables, addressed by
// their handle; the renderer calls (submit, wait, sync release/reset) are
// not part of this model.
module VnQueue {
  import opened Wrappers

  // ---------------------------------------------------------------------
  // Payloads
  // ---------------------------------------------------------------------

  datatype SyncType = SyncInvalid | SyncDeviceOnly | SyncSync | SyncWsiSignaled

  /** vn_sync_payload: a type and the renderer sync it owns. */
  datatype Payload = Payload(kind: SyncType, sync: nat)

  /** Which payload the `payload` pointer designates. */
  datatype Slot = Permanent | Temporary

  /** The payload part of vn_fence and vn_semaphore. */
  datatype SyncObject = SyncObject(timeline: bool, permanent: Payload, temporary: Payload, current: Slot)

  function CurrentPayload(o: SyncObject): Payload
  {
    if o.current == Permanent then o.permanent else o.temporary
  }

  function Kind(o: SyncObject): SyncType { CurrentPayload(o).kind }

  /** The states the functions below keep an object in: the permanent
    * payload is a sync or device-only, the temporary one is unused exactly
    * when the permanent one is current, and a current temporary payload is
    * a WSI signal or a sync (as a temporary import leaves it). */
  predicate ObjectOk(o: SyncObject)
  {
    && (o.permanent.kind == SyncSync || o.permanent.kind == SyncDeviceOnly)
    && (o.current == Permanent <==> o.temporary.kind == SyncInvalid)
    && (o.current == Temporary ==> o.temporary.kind == SyncWsiSignaled || o.temporary.kind == SyncSync)
  }

  /** vn_sync_payload_release: the sync goes back to the renderer and the
    * type becomes INVALID. */
  function ReleasePayload(p: Payload): (r: Payload)
    ensures r.kind == SyncInvalid && r.sync == p.sync
  {
    Payload(SyncInvalid, p.sync)
  }

  /** vn_fence_init_payloads / vn_semaphore_init_payloads: fences and
    * timeline semaphores get a sync, binary semaphores are device-only;
    * the temporary payload starts INVALID and the permanent one is current. */
  function InitPayloads(isFence: bool, timeline: bool, permSync: nat, tempSync: nat): (r: SyncObject)
    ensures ObjectOk(r) && r.current == Permanent
    ensures Kind(r) == (if isFence || timeline then SyncSync else SyncDeviceOnly)
  {
    SyncObject(timeline, Payload(if isFence || timeline then SyncSync else SyncDeviceOnly, permSync),
               Payload(SyncInvalid, tempSync), Permanent)
  }

  /** vn_fence_signal_wsi and vn_semaphore_signal_wsi. */
  function SignalWsi(o: SyncObject): (r: SyncObject)
    ensures ObjectOk(o) ==> ObjectOk(r)
    ensures Kind(r) == SyncWsiSignaled && r.current == Temporary
    ensures r.permanent == o.permanent && r.temporary.sync == o.temporary.sync
  {
    var temp := ReleasePayload(o.temporary).(kind := SyncWsiSignaled);
    o.(temporary := temp, current := Temporary)
  }

  /** vn_semaphore_reset_wsi and the per-fence step of vn_ResetFences: the
    * temporary payload is released and the permanent one is current again. */
  function ResetTemporary(o: SyncObject): (r: SyncObject)
    ensures ObjectOk(o) ==> ObjectOk(r)
    ensures CurrentPayload(r) == o.permanent && r.temporary.kind == SyncInvalid
    ensures r.temporary.sync == o.temporary.sync
  {
    o.(temporary := ReleasePayload(o.temporary), current := Permanent)
  }

  /** The payload step of vn_ImportFenceFdKHR and vn_ImportSemaphoreFdKHR
    * with the TEMPORARY flag: when the renderer accepts the import, the
    * temporary payload (its sync object reused) becomes a current sync
    * payload; when it refuses, the payload state is left as it was. */
  function ImportTemporary(o: SyncObject, accepted: bool): (r: SyncObject)
    ensures ObjectOk(o) ==> ObjectOk(r)
    ensures accepted ==> Kind(r) == SyncSync && r.current == Temporary
    ensures !accepted ==> r == o
    ensures r.permanent == o.permanent && r.temporary.sync == o.temporary.sync
  {
    if accepted then o.(temporary := Payload(SyncSync, o.temporary.sync), current := Temporary) else o
  }

  /** A temporary import, like a WSI signal, is undone by a reset; and a
    * WSI signal replaces an imported payload. */
  lemma ImportThenReset(o: SyncObject, accepted: bool)
    ensures ResetTemporary(ImportTemporary(o, accepted)) == ResetTemporary(o)
    ensures SignalWsi(ImportTemporary(o, accepted)) == SignalWsi(o)
  {
  }

  /** A WSI signal followed by a reset leaves the object as a reset alone
    * does, and resetting twice is resetting once. */
  lemma SignalThenReset(o: SyncObject)
    ensures ResetTemporary(SignalWsi(o)) == ResetTemporary(o)
    ensures ResetTemporary(ResetTemporary(o)) == ResetTemporary(o)
    ensures ObjectOk(o) && o.current == Permanent ==> ResetTemporary(o) == o
  {
  }


  // ---------------------------------------------------------------------
  // vn_WaitForFences
  // ---------------------------------------------------------------------

  /** The fences that still need the renderer: those with a SYNC payload. */
  function SyncFences(fences: seq<SyncObject>, hs: seq<nat>, n: nat): nat
    requires n <= |hs| && forall i :: 0 <= i < |hs| ==> hs[i] < |fences|
  {
    if n == 0 then 0 else SyncFences(fences, hs, n - 1) + (if Kind(fences[hs[n - 1]]) == SyncSync then 1 else 0)
  }

  function WsiFences(fences: seq<SyncObject>, hs: seq<nat>, n: nat): nat
    requires n <= |hs| && forall i :: 0 <= i < |hs| ==> hs[i] < |fences|
  {
    if n == 0 then 0 else WsiFences(fences, hs, n - 1) + (if Kind(fences[hs[n - 1]]) == SyncWsiSignaled then 1 else 0)
  }

  /** The syncs of the first n listed fences that have a SYNC payload, in
    * the order the fences are listed. */
  function FenceSyncs(fences: seq<SyncObject>, hs: seq<nat>, n: nat): (r: seq<nat>)
    requires n <= |hs| && forall i :: 0 <= i < |hs| ==> hs[i] < |fences|
    ensures |r| == SyncFences(fences, hs, n)
  {
    if n == 0 then []
    else
      var p := CurrentPayload(fences[hs[n - 1]]);
      FenceSyncs(fences, hs, n - 1) + (if p.kind == SyncSync then [p.sync] else [])
  }

  /** Each sync handed to the renderer belongs to a listed fence with a
    * SYNC payload, and every such fence's sync is handed over. */
  lemma {:induction false} FenceSyncsAreTheSyncFences(fences: seq<SyncObject>, hs: seq<nat>, n: nat)
    requires n <= |hs| && forall i :: 0 <= i < |hs| ==> hs[i] < |fences|
    ensures forall k :: 0 <= k < |FenceSyncs(fences, hs, n)| ==>
              exists i :: 0 <= i < n && Kind(fences[hs[i]]) == SyncSync
                          && FenceSyncs(fences, hs, n)[k] == CurrentPayload(fences[hs[i]]).sync
    ensures forall i :: 0 <= i < n && Kind(fences[hs[i]]) == SyncSync ==>
              CurrentPayload(fences[hs[i]]).sync in FenceSyncs(fences, hs, n)
  {
    if n > 0 {
      FenceSyncsAreTheSyncFences(fences, hs, n - 1);
      var prev := FenceSyncs(fences, hs, n - 1);
      var r := FenceSyncs(fences, hs, n);
      assert r[..|prev|] == prev;
      forall k | 0 <= k < |FenceSyncs(fences, hs, n)|
        ensures exists i :: 0 <= i < n && Kind(fences[hs[i]]) == SyncSync
                            && FenceSyncs(fences, hs, n)[k] == CurrentPayload(fences[hs[i]]).sync
      {
        if k < |prev| {
          var i :| 0 <= i < n - 1 && Kind(fences[hs[i]]) == SyncSync && prev[k] == CurrentPayload(fences[hs[i]]).sync;
          assert r[k] == prev[k];
        } else {
          assert Kind(fences[hs[n - 1]]) == SyncSync && r[k] == CurrentPayload(fences[hs[n - 1]]).sync;
        }
      }
      forall i | 0 <= i < n && Kind(fences[hs[i]]) == SyncSync
        ensures CurrentPayload(fences[hs[i]]).sync in r
      {
        if i < n - 1 {
          assert CurrentPayload(fences[hs[i]]).sync in prev;
        } else {
          assert r[|prev|] == CurrentPayload(fences[hs[i]]).sync;
        }
      }
    } else {
      assert FenceSyncs(fences, hs, n) == [];
    }
  }

  /** vn_WaitForFences: the syncs handed to the renderer, each to reach
    * value 1, and whether the renderer is asked to wait at all — only when
    * some fence has a sync and either all must signal or none is already
    * WSI-signaled. */
  method WaitForFences(fences: seq<SyncObject>, hs: seq<nat>, waitAll: bool)
    returns (syncs: seq<nat>, values: seq<nat>, waits: bool)
    requires forall i :: 0 <= i < |hs| ==> hs[i] < |fences|
    requires forall i :: 0 <= i < |hs| ==> Kind(fences[hs[i]]) == SyncSync || Kind(fences[hs[i]]) == SyncWsiSignaled
    ensures syncs == FenceSyncs(fences, hs, |hs|)
    ensures |values| == |syncs| && forall k :: 0 <= k < |values| ==> values[k] == 1
    ensures waits <==> |syncs| > 0 && (waitAll || WsiFences(fences, hs, |hs|) == 0)
  {
    syncs := [];
    values := [];
    var signaledCount := 0;
    for i := 0 to |hs|
      invariant syncs == FenceSyncs(fences, hs, i) && signaledCount == WsiFences(fences, hs, i)
      invariant |values| == |syncs| && forall k :: 0 <= k < |values| ==> values[k] == 1
    {
      var p := CurrentPayload(fences[hs[i]]);
      if p.kind == SyncSync {
        syncs := syncs + [p.sync];
        values := values + [1];
      } else {
        signaledCount := signaledCount + 1;
      }
    }
    waits := |syncs| > 0 && (waitAll || signaledCount == 0);
  }

  /** Every listed fence is either waited on or already signaled, so the
    * renderer wait is skipped only when nothing needs it or, for a
    * wait-any, one fence is already done. */
  lemma {:induction false} FencesSplit(fences: seq<SyncObject>, hs: seq<nat>, n: nat)
    requires n <= |hs| && forall i :: 0 <= i < |hs| ==> hs[i] < |fences|
    requires forall i :: 0 <= i < |hs| ==> Kind(fences[hs[i]]) == SyncSync || Kind(fences[hs[i]]) == SyncWsiSignaled
    ensures SyncFences(fences, hs, n) + WsiFences(fences, hs, n) == n
  {
    if n > 0 {
      FencesSplit(fences, hs, n - 1);
    }
  }

  // ---------------------------------------------------------------------
  // Counting the semaphores of a submission
  // ---------------------------------------------------------------------

  datatype BatchType = SubmitInfo | BindSparseInfo

  /** The parts of a VkSubmitInfo or VkBindSparseInfo the submission code
    * reads: the wait and signal semaphore handles and the timeline signal
    * values of its VkTimelineSemaphoreSubmitInfo. */
  datatype Batch = Batch(waits: seq<nat>, signals: seq<nat>, signalValues: seq<nat>)

  predicate HandlesOk(sems: seq<SyncObject>, hs: seq<nat>)
  {
    forall i :: 0 <= i < |hs| ==> hs[i] < |sems|
  }

  predicate BatchesOk(sems: seq<SyncObject>, batches: seq<Batch>)
  {
    forall i :: 0 <= i < |batches| ==> HandlesOk(sems, batches[i].waits) && HandlesOk(sems, batches[i].signals)
  }

  /** WSI-signaled semaphores among the first n handles. */
  function WsiCount(sems: seq<SyncObject>, hs: seq<nat>, n: nat): nat
    requires n <= |hs| && HandlesOk(sems, hs)
  {
    if n == 0 then 0 else WsiCount(sems, hs, n - 1) + (if Kind(sems[hs[n - 1]]) == SyncWsiSignaled then 1 else 0)
  }

  /** The payload a signal semaphore is counted by. For a VkSubmitInfo a
    * WSI-signaled one must be among the waits and is reset before its syncs
    * are collected, so its permanent payload counts. */
  function CountedPayload(sems: seq<SyncObject>, h: nat): Payload
    requires h < |sems|
  {
    var p := CurrentPayload(sems[h]);
    if p.kind == SyncWsiSignaled then sems[h].permanent else p
  }

  /** Device-only signal semaphores among the first n. */
  function DeviceOnlyCount(sems: seq<SyncObject>, hs: seq<nat>, n: nat): nat
    requires n <= |hs| && HandlesOk(sems, hs)
  {
    if n == 0 then 0
    else DeviceOnlyCount(sems, hs, n - 1) + (if CountedPayload(sems, hs[n - 1]).kind == SyncDeviceOnly then 1 else 0)
  }

  /** Timeline signal semaphores among the first n that are not device-only. */
  function TimelineCount(sems: seq<SyncObject>, hs: seq<nat>, n: nat): nat
    requires n <= |hs| && HandlesOk(sems, hs)
  {
    if n == 0 then 0
    else TimelineCount(sems, hs, n - 1)
         + (if CountedPayload(sems, hs[n - 1]).kind != SyncDeviceOnly && sems[hs[n - 1]].timeline then 1 else 0)
  }

  function WaitTotal(batches: seq<Batch>, n: nat): nat
    requires n <= |batches|
  {
    if n == 0 then 0 else WaitTotal(batches, n - 1) + |batches[n - 1].waits|
  }

  function SignalTotal(batches: seq<Batch>, n: nat): nat
    requires n <= |batches|
  {
    if n == 0 then 0 else SignalTotal(batches, n - 1) + |batches[n - 1].signals|
  }

  function WsiTotal(sems: seq<SyncObject>, batches: seq<Batch>, n: nat): nat
    requires n <= |batches| && BatchesOk(sems, batches)
  {
    if n == 0 then 0 else WsiTotal(sems, batches, n - 1) + WsiCount(sems, batches[n - 1].waits, |batches[n - 1].waits|)
  }

  function DeviceOnlyTotal(sems: seq<SyncObject>, batches: seq<Batch>, n: nat): nat
    requires n <= |batches| && BatchesOk(sems, batches)
  {
    if n == 0 then 0
    else DeviceOnlyTotal(sems, batches, n - 1) + DeviceOnlyCount(sems, batches[n - 1].signals, |batches[n - 1].signals|)
  }

  function TimelineTotal(sems: seq<SyncObject>, batches: seq<Batch>, n: nat): nat
    requires n <= |batches| && BatchesOk(sems, batches)
  {
    if n == 0 then 0
    else TimelineTotal(sems, batches, n - 1) + TimelineCount(sems, batches[n - 1].signals, |batches[n - 1].signals|)
  }

  lemma {:induction false} WsiCountBound(sems: seq<SyncObject>, hs: seq<nat>, n: nat)
    requires n <= |hs| && HandlesOk(sems, hs)
    ensures WsiCount(sems, hs, n) <= n
  {
    if n > 0 {
      WsiCountBound(sems, hs, n - 1);
    }
  }

  lemma {:induction false} DeviceOnlyBound(sems: seq<SyncObject>, hs: seq<nat>, n: nat)
    requires n <= |hs| && HandlesOk(sems, hs)
    ensures DeviceOnlyCount(sems, hs, n) + TimelineCount(sems, hs, n) <= n
  {
    if n > 0 {
      DeviceOnlyBound(sems, hs, n - 1);
    }
  }

  /** Device-only and timeline signals are disjoint parts of the signals,
    * and the WSI waits a part of the waits, so the subtractions the source
    * makes never wrap. */
  lemma {:induction false} TotalsBound(sems: seq<SyncObject>, batches: seq<Batch>, n: nat)
    requires n <= |batches| && BatchesOk(sems, batches)
    ensures WsiTotal(sems, batches, n) <= WaitTotal(batches, n)
    ensures DeviceOnlyTotal(sems, batches, n) + TimelineTotal(sems, batches, n) <= SignalTotal(batches, n)
  {
    if n > 0 {
      TotalsBound(sems, batches, n - 1);
      var b := batches[n - 1];
      WsiCountBound(sems, b.waits, |b.waits|);
      DeviceOnlyBound(sems, b.signals, |b.signals|);
    }
  }

  /** The renderer syncs a submission signals: one per signal semaphore
    * that is not device-only, plus one for the fence. */
  function SyncCount(sems: seq<SyncObject>, batches: seq<Batch>, hasFence: bool): nat
    requires BatchesOk(sems, batches)
  {
    TotalsBound(sems, batches, |batches|);
    SignalTotal(batches, |batches|) - DeviceOnlyTotal(sems, batches, |batches|) + (if hasFence then 1 else 0)
  }

  /** The semaphore counts of one batch. */
  method CountBatch(sems: seq<SyncObject>, b: Batch) returns (wsi: nat, deviceOnly: nat, timeline: nat)
    requires HandlesOk(sems, b.waits) && HandlesOk(sems, b.signals)
    ensures wsi == WsiCount(sems, b.waits, |b.waits|)
    ensures deviceOnly == DeviceOnlyCount(sems, b.signals, |b.signals|)
    ensures timeline == TimelineCount(sems, b.signals, |b.signals|)
  {
    wsi := 0;
    for j := 0 to |b.waits|
      invariant wsi == WsiCount(sems, b.waits, j)
    {
      if Kind(sems[b.waits[j]]) == SyncWsiSignaled {
        wsi := wsi + 1;
      }
    }
    deviceOnly, timeline := 0, 0;
    for j := 0 to |b.signals|
      invariant deviceOnly == DeviceOnlyCount(sems, b.signals, j)
      invariant timeline == TimelineCount(sems, b.signals, j)
    {
      var sem := sems[b.signals[j]];
      var payload := CurrentPayload(sem);
      if payload.kind == SyncWsiSignaled {
        payload := sem.permanent;
      }
      if payload.kind == SyncDeviceOnly {
        deviceOnly := deviceOnly + 1;
      } else if sem.timeline {
        timeline := timeline + 1;
      }
    }
  }

  // ---------------------------------------------------------------------
  // vn_queue_submission_alloc_storage
  // ---------------------------------------------------------------------

  /** Sizes on an LP64 target: VkSubmitInfo, VkBindSparseInfo, a handle or
    * pointer, a uint64_t and a uint32_t. */
  const SubmitInfoSize: nat := 72
  const BindSparseInfoSize: nat := 96
  const PointerSize: nat := 8
  const U64Size: nat := 8
  const U32Size: nat := 4

  /** The temporary storage: total size and the offsets of the copied
    * batches (always 0), the filtered wait semaphores, the syncs, their
    * values and the per-batch sync counts. */
  datatype StorageLayout = StorageLayout(allocSize: nat, semaphoresOffset: nat, syncsOffset: nat,
                                         syncValuesOffset: nat, batchSyncCountsOffset: nat)

  /** `(x + 7) & ~7`. */
  function Align8(x: nat): (r: nat)
    ensures r % 8 == 0 && x <= r < x + 8
  {
    ((x + 7) / 8) * 8
  }

  /** The layout vn_queue_submission_alloc_storage computes: nothing is
    * needed without WSI waits and syncs; otherwise the regions follow each
    * other in order without overlap, the sync values start 8-aligned, and
    * each region holds its count of elements. */
  function Layout(bt: BatchType, batchCount: nat, waitCount: nat, wsiCount: nat, syncCount: nat): (r: StorageLayout)
    requires wsiCount <= waitCount && (wsiCount > 0 ==> batchCount > 0)
    ensures wsiCount == 0 && syncCount == 0 <==> r.allocSize == 0
    ensures wsiCount > 0 ==>
      r.semaphoresOffset == (if bt == SubmitInfo then SubmitInfoSize else BindSparseInfoSize) * batchCount
    ensures r.semaphoresOffset + PointerSize * (if wsiCount > 0 then waitCount - wsiCount else 0) <= r.allocSize
    ensures syncCount > 0 ==>
      && (wsiCount > 0 ==> r.semaphoresOffset + PointerSize * (waitCount - wsiCount) == r.syncsOffset)
      && r.syncsOffset + PointerSize * syncCount <= r.syncValuesOffset
      && r.syncValuesOffset % 8 == 0
      && r.syncValuesOffset + U64Size * syncCount == r.batchSyncCountsOffset
      && r.batchSyncCountsOffset + U32Size * batchCount == r.allocSize
  {
    var size0 := if wsiCount > 0 then (if bt == SubmitInfo then SubmitInfoSize else BindSparseInfoSize) * batchCount else 0;
    var semOff := if wsiCount > 0 then size0 else 0;
    var size1 := if wsiCount > 0 then size0 + PointerSize * (waitCount - wsiCount) else 0;
    if syncCount > 0 then
      var syncsOff := size1;
      var valuesOff := Align8(size1 + PointerSize * syncCount);
      var countsOff := valuesOff + U64Size * syncCount;
      StorageLayout(countsOff + U32Size * batchCount, semOff, syncsOff, valuesOff, countsOff)
    else
      StorageLayout(size1, semOff, 0, 0, 0)
  }

  /** The storage a submission needs, or VK_ERROR_OUT_OF_HOST_MEMORY when
    * the allocator (a parameter here) fails; nothing is allocated when
    * nothing is needed. */
  function AllocStorage(bt: BatchType, batchCount: nat, c: Counts, allocOk: bool): (r: Result<StorageLayout, VkError>)
    requires c.wsiCount <= c.waitCount && (c.wsiCount > 0 ==> batchCount > 0)
    ensures r.Err? <==> !allocOk && (c.wsiCount > 0 || c.syncCount > 0)
    ensures r.Ok? ==> r.value == Layout(bt, batchCount, c.waitCount, c.wsiCount, c.syncCount)
  {
    var layout := Layout(bt, batchCount, c.waitCount, c.wsiCount, c.syncCount);
    if layout.allocSize > 0 && !allocOk then Err(ErrorOutOfHostMemory) else Ok(layout)
  }

  datatype VkError = ErrorOutOfHostMemory

  // ---------------------------------------------------------------------
  // The counts of a submission
  // ---------------------------------------------------------------------

  /** The counters of vn_queue_submission. */
  datatype Counts = Counts(waitCount: nat, wsiCount: nat, signalCount: nat,
                           deviceOnlyCount: nat, timelineCount: nat, syncCount: nat)

  /** The counters as the totals over the batches define them. */
  predicate CountsOf(sems: seq<SyncObject>, batches: seq<Batch>, hasFence: bool, c: Counts)
    requires BatchesOk(sems, batches)
  {
    && c.waitCount == WaitTotal(batches, |batches|)
    && c.wsiCount == WsiTotal(sems, batches, |batches|)
    && c.signalCount == SignalTotal(batches, |batches|)
    && c.deviceOnlyCount == DeviceOnlyTotal(sems, batches, |batches|)
    && c.timelineCount == TimelineTotal(sems, batches, |batches|)
    && c.syncCount == SyncCount(sems, batches, hasFence)
  }

  /** vn_queue_submission_count_semaphores: the per-batch counts summed,
    * and one renderer sync per signal that is not device-only plus one for
    * the fence. */
  method CountSemaphores(sems: seq<SyncObject>, batches: seq<Batch>, hasFence: bool) returns (c: Counts)
    requires BatchesOk(sems, batches)
    ensures CountsOf(sems, batches, hasFence, c)
    ensures c.wsiCount <= c.waitCount && c.deviceOnlyCount + c.timelineCount <= c.signalCount
    ensures c.syncCount + c.deviceOnlyCount == c.signalCount + (if hasFence then 1 else 0)
  {
    var waitCount, wsiCount, signalCount, deviceOnlyCount, timelineCount := 0, 0, 0, 0, 0;
    for i := 0 to |batches|
      invariant waitCount == WaitTotal(batches, i) && wsiCount == WsiTotal(sems, batches, i)
      invariant signalCount == SignalTotal(batches, i) && deviceOnlyCount == DeviceOnlyTotal(sems, batches, i)
      invariant timelineCount == TimelineTotal(sems, batches, i)
    {
      var wsi, deviceOnly, timeline := CountBatch(sems, batches[i]);
      waitCount := waitCount + |batches[i].waits|;
      signalCount := signalCount + |batches[i].signals|;
      wsiCount, deviceOnlyCount, timelineCount := wsiCount + wsi, deviceOnlyCount + deviceOnly, timelineCount + timeline;
    }
    TotalsBound(sems, batches, |batches|);
    var syncCount := signalCount - deviceOnlyCount + (if hasFence then 1 else 0);
    c := Counts(waitCount, wsiCount, signalCount, deviceOnlyCount, timelineCount, syncCount);
  }

  // ---------------------------------------------------------------------
  // The bind-sparse count as written
  // ---------------------------------------------------------------------

  /** The payload vn_queue_submission_count_semaphores classifies a signal
    * semaphore by, as written: the redirect of a WSI-signaled semaphore to
    * its permanent payload is made for VkSubmitInfo batches only. */
  function CountedPayloadAsWritten(bt: BatchType, sems: seq<SyncObject>, h: nat): Payload
    requires h < |sems|
  {
    var p := CurrentPayload(sems[h]);
    if bt == SubmitInfo && p.kind == SyncWsiSignaled then sems[h].permanent else p
  }

  function DeviceOnlyCountAsWritten(bt: BatchType, sems: seq<SyncObject>, hs: seq<nat>, n: nat): nat
    requires n <= |hs| && HandlesOk(sems, hs)
  {
    if n == 0 then 0
    else DeviceOnlyCountAsWritten(bt, sems, hs, n - 1)
         + (if CountedPayloadAsWritten(bt, sems, hs[n - 1]).kind == SyncDeviceOnly then 1 else 0)
  }

  function DeviceOnlyTotalAsWritten(bt: BatchType, sems: seq<SyncObject>, batches: seq<Batch>, n: nat): nat
    requires n <= |batches| && BatchesOk(sems, batches)
  {
    if n == 0 then 0
    else DeviceOnlyTotalAsWritten(bt, sems, batches, n - 1)
         + DeviceOnlyCountAsWritten(bt, sems, batches[n - 1].signals, |batches[n - 1].signals|)
  }

  /** sync_count as written, for either batch type. */
  function SyncCountAsWritten(bt: BatchType, sems: seq<SyncObject>, batches: seq<Batch>, hasFence: bool): int
    requires BatchesOk(sems, batches)
  {
    SignalTotal(batches, |batches|) - DeviceOnlyTotalAsWritten(bt, sems, batches, |batches|) + (if hasFence then 1 else 0)
  }

  lemma {:induction false} DeviceOnlyAsWrittenSubmit(sems: seq<SyncObject>, hs: seq<nat>, n: nat)
    requires n <= |hs| && HandlesOk(sems, hs)
    ensures DeviceOnlyCountAsWritten(SubmitInfo, sems, hs, n) == DeviceOnlyCount(sems, hs, n)
  {
    if n > 0 {
      DeviceOnlyAsWrittenSubmit(sems, hs, n - 1);
    }
  }

  lemma {:induction false} DeviceOnlyTotalAsWrittenSubmit(sems: seq<SyncObject>, batches: seq<Batch>, n: nat)
    requires n <= |batches| && BatchesOk(sems, batches)
    ensures DeviceOnlyTotalAsWritten(SubmitInfo, sems, batches, n) == DeviceOnlyTotal(sems, batches, n)
  {
    if n > 0 {
      DeviceOnlyTotalAsWrittenSubmit(sems, batches, n - 1);
      var b := batches[n - 1];
      DeviceOnlyAsWrittenSubmit(sems, b.signals, |b.signals|);
    }
  }

  /** For VkSubmitInfo batches the count as written is the sync count the
    * setup produces. */
  lemma AsWrittenSubmitAgrees(sems: seq<SyncObject>, batches: seq<Batch>, hasFence: bool)
    requires BatchesOk(sems, batches)
    ensures SyncCountAsWritten(SubmitInfo, sems, batches, hasFence) == SyncCount(sems, batches, hasFence)
  {
    DeviceOnlyTotalAsWrittenSubmit(sems, batches, |batches|);
  }

  /** A binary semaphore whose permanent payload is device-only and which
    * is currently WSI-signaled, ... */
  function MiscountSemaphores(): seq<SyncObject>
  {
    [SyncObject(false, Payload(SyncDeviceOnly, 0), Payload(SyncWsiSignaled, 1), Temporary)]
  }

  /** ... that one vkQueueBindSparse batch both waits on and signals. */
  function MiscountBatches(): seq<Batch>
  {
    [Batch([0], [0], [])]
  }

  /** The submission above is one the submission code accepts. */
  lemma MiscountInputValid()
    ensures AllOk(MiscountSemaphores()) && BatchesOk(MiscountSemaphores(), MiscountBatches())
    ensures ValidUsage(MiscountSemaphores(), MiscountBatches())
  {
  }

  /** The count as written gives one sync for it; the setup, which resets
    * the semaphore while filtering the waits and then finds it
    * device-only, produces none. */
  lemma BindSparseMiscount()
    ensures BatchesOk(MiscountSemaphores(), MiscountBatches())
    ensures SyncCountAsWritten(BindSparseInfo, MiscountSemaphores(), MiscountBatches(), false) == 1
    ensures SyncCount(MiscountSemaphores(), MiscountBatches(), false) == 0
  {
    var sems, batches := MiscountSemaphores(), MiscountBatches();
    assert DeviceOnlyCountAsWritten(BindSparseInfo, sems, batches[0].signals, 1) == 0;
    assert DeviceOnlyCount(sems, batches[0].signals, 1) == 1;
  }

  // ---------------------------------------------------------------------
  // Filtering WSI waits and collecting syncs
  // ---------------------------------------------------------------------

  predicate AllOk(sems: seq<SyncObject>)
  {
    forall h :: 0 <= h < |sems| ==> ObjectOk(sems[h])
  }

  /** The wait semaphores that stay: those not WSI-signaled, in order. */
  function KeptWaits(sems: seq<SyncObject>, hs: seq<nat>, n: nat): (r: seq<nat>)
    requires n <= |hs| && HandlesOk(sems, hs)
    ensures |r| == n - WsiCount(sems, hs, n)
    ensures forall k :: 0 <= k < |r| ==> r[k] in hs && Kind(sems[r[k]]) != SyncWsiSignaled
  {
    WsiCountBound(sems, hs, n);
    if n == 0 then []
    else KeptWaits(sems, hs, n - 1) + (if Kind(sems[hs[n - 1]]) == SyncWsiSignaled then [] else [hs[n - 1]])
  }

  /** Two tables that agree on the handles give the same kept waits. */
  lemma {:induction false} KeptWaitsSame(s: seq<SyncObject>, t: seq<SyncObject>, hs: seq<nat>, n: nat)
    requires n <= |hs| && HandlesOk(s, hs) && HandlesOk(t, hs)
    requires forall j :: 0 <= j < |hs| ==> s[hs[j]] == t[hs[j]]
    ensures KeptWaits(s, hs, n) == KeptWaits(t, hs, n)
  {
    if n > 0 {
      KeptWaitsSame(s, t, hs, n - 1);
    }
  }

  /** The waits a batch is submitted with: the kept ones when filtering. */
  function FilteredWaits(s0: seq<SyncObject>, b: Batch, filter: bool): seq<nat>
    requires HandlesOk(s0, b.waits)
  {
    if filter then KeptWaits(s0, b.waits, |b.waits|) else b.waits
  }

  function Elems(hs: seq<nat>): set<nat>
  {
    set h | h in hs
  }

  /** The semaphores the first n batches wait on. */
  function WaitSet(batches: seq<Batch>, n: nat): set<nat>
    requires n <= |batches|
  {
    set k, l | 0 <= k < n && 0 <= l < |batches[k].waits| :: batches[k].waits[l]
  }

  lemma WaitSetStep(batches: seq<Batch>, n: nat)
    requires n < |batches|
    ensures WaitSet(batches, n + 1) == WaitSet(batches, n) + Elems(batches[n].waits)
  {
    forall h | h in Elems(batches[n].waits)
      ensures h in WaitSet(batches, n + 1)
    {
      var l :| 0 <= l < |batches[n].waits| && batches[n].waits[l] == h;
    }
  }

  /** The semaphore table after the waits of the first i batches were
    * filtered: unchanged without WSI-signaled waits, and otherwise with the
    * waited WSI-signaled semaphores reset. */
  predicate Progress(s0: seq<SyncObject>, s: seq<SyncObject>, batches: seq<Batch>, i: nat, wsi: nat)
    requires i <= |batches|
  {
    && |s| == |s0|
    && (wsi == 0 ==> s == s0)
    && (wsi > 0 ==> Reached(s0, s, WaitSet(batches, i)))
  }

  /** A table s0 after the WSI-signaled semaphores among ws were reset. */
  predicate Reached(s0: seq<SyncObject>, s: seq<SyncObject>, ws: set<nat>)
  {
    |s| == |s0| &&
    forall h :: 0 <= h < |s0| ==>
      s[h] == if h in ws && Kind(s0[h]) == SyncWsiSignaled then ResetTemporary(s0[h]) else s0[h]
  }

  /** Resetting one more untouched handle if it is WSI-signaled. */
  lemma ReachedAdd(s0: seq<SyncObject>, s: seq<SyncObject>, s': seq<SyncObject>, ws: set<nat>, h: nat)
    requires Reached(s0, s, ws) && h < |s0| && s[h] == s0[h]
    requires s' == if Kind(s0[h]) == SyncWsiSignaled then s[h := ResetTemporary(s0[h])] else s
    ensures Reached(s0, s', ws + {h})
  {
  }

  /** A reset semaphore is no longer WSI-signaled, so resetting in two
    * rounds is resetting once. */
  lemma ReachedCompose(s0: seq<SyncObject>, s1: seq<SyncObject>, s2: seq<SyncObject>, ws1: set<nat>, ws2: set<nat>)
    requires AllOk(s0) && Reached(s0, s1, ws1) && Reached(s1, s2, ws2)
    ensures Reached(s0, s2, ws1 + ws2)
  {
    forall h | 0 <= h < |s0|
      ensures s2[h] == if h in ws1 + ws2 && Kind(s0[h]) == SyncWsiSignaled then ResetTemporary(s0[h]) else s0[h]
    {
      assert ObjectOk(s0[h]);
    }
  }

  /** A handle appears at most once among the waits if it is WSI-signaled. */
  predicate WsiOnce(sems: seq<SyncObject>, hs: seq<nat>)
    requires HandlesOk(sems, hs)
  {
    forall i, j :: 0 <= i < j < |hs| && hs[i] == hs[j] ==> Kind(sems[hs[i]]) != SyncWsiSignaled
  }

  /** What the submission code relies on from the application: a
    * WSI-signaled semaphore a batch signals is one it also waits on, a
    * WSI-signaled semaphore is waited on once in the whole submission, and
    * a timeline semaphore has a signal value. */
  predicate ValidUsage(sems: seq<SyncObject>, batches: seq<Batch>)
    requires BatchesOk(sems, batches)
  {
    && (forall i, j ::
          0 <= i < |batches| && 0 <= j < |batches[i].signals| && Kind(sems[batches[i].signals[j]]) == SyncWsiSignaled
          ==> batches[i].signals[j] in batches[i].waits)
    && (forall i, j, k, l :: 0 <= i < |batches| && 0 <= k < |batches| && 0 <= j < |batches[i].waits| &&
          0 <= l < |batches[k].waits| && (i != k || j != l) && batches[i].waits[j] == batches[k].waits[l]
          ==> Kind(sems[batches[i].waits[j]]) != SyncWsiSignaled)
    && (forall i, j ::
          0 <= i < |batches| && 0 <= j < |batches[i].signals| && sems[batches[i].signals[j]].timeline
          ==> j < |batches[i].signalValues|)
  }

  /** The syncs and values one batch signals: each signal semaphore that is
    * not device-only contributes its current sync, valued by the timeline
    * value for a timeline semaphore and 1 otherwise. */
  function BatchSyncs(sems: seq<SyncObject>, b: Batch, n: nat): (r: seq<(nat, nat)>)
    requires n <= |b.signals| && HandlesOk(sems, b.signals)
    requires forall j :: 0 <= j < |b.signals| && sems[b.signals[j]].timeline ==> j < |b.signalValues|
  {
    if n == 0 then []
    else
      var sem := sems[b.signals[n - 1]];
      var p := CurrentPayload(sem);
      BatchSyncs(sems, b, n - 1)
      + (if p.kind == SyncDeviceOnly then []
         else [(p.sync, if sem.timeline then b.signalValues[n - 1] else 1)])
  }

  /** Signals whose current payload is device-only, among the first n. */
  function CurrentDeviceOnly(sems: seq<SyncObject>, hs: seq<nat>, n: nat): nat
    requires n <= |hs| && HandlesOk(sems, hs)
  {
    if n == 0 then 0
    else CurrentDeviceOnly(sems, hs, n - 1) + (if Kind(sems[hs[n - 1]]) == SyncDeviceOnly then 1 else 0)
  }

  lemma {:induction false} BatchSyncsLength(sems: seq<SyncObject>, b: Batch, n: nat)
    requires n <= |b.signals| && HandlesOk(sems, b.signals)
    requires forall j :: 0 <= j < |b.signals| && sems[b.signals[j]].timeline ==> j < |b.signalValues|
    ensures CurrentDeviceOnly(sems, b.signals, n) <= n
    ensures |BatchSyncs(sems, b, n)| == n - CurrentDeviceOnly(sems, b.signals, n)
  {
    if n > 0 {
      BatchSyncsLength(sems, b, n - 1);
    }
  }

  /** When every signal's current kind is the one it was counted by, the
    * device-only signals are the counted ones. */
  lemma {:induction false} DeviceOnlySame(s0: seq<SyncObject>, s: seq<SyncObject>, hs: seq<nat>, n: nat)
    requires n <= |hs| && HandlesOk(s0, hs) && HandlesOk(s, hs)
    requires forall j :: 0 <= j < |hs| ==> Kind(s[hs[j]]) == CountedPayload(s0, hs[j]).kind
    ensures CurrentDeviceOnly(s, hs, n) == DeviceOnlyCount(s0, hs, n)
  {
    if n > 0 {
      DeviceOnlySame(s0, s, hs, n - 1);
    }
  }

  /** A signal semaphore the batch hands to the renderer must have a sync. */
  predicate SignalsReady(sems: seq<SyncObject>, b: Batch)
    requires HandlesOk(sems, b.signals)
  {
    forall j :: 0 <= j < |b.signals| ==>
      Kind(sems[b.signals[j]]) == SyncDeviceOnly || Kind(sems[b.signals[j]]) == SyncSync
  }

  /** vn_queue_submission_setup_batch_syncs over one batch. */
  method SetupBatchSyncs(sems: seq<SyncObject>, b: Batch) returns (syncs: seq<nat>, values: seq<nat>)
    requires HandlesOk(sems, b.signals) && SignalsReady(sems, b)
    requires forall j :: 0 <= j < |b.signals| && sems[b.signals[j]].timeline ==> j < |b.signalValues|
    ensures |syncs| == |values| == |BatchSyncs(sems, b, |b.signals|)|
    ensures forall k :: 0 <= k < |syncs| ==> (syncs[k], values[k]) == BatchSyncs(sems, b, |b.signals|)[k]
  {
    syncs, values := [], [];
    for i := 0 to |b.signals|
      invariant |syncs| == |values| == |BatchSyncs(sems, b, i)|
      invariant forall k :: 0 <= k < |syncs| ==> (syncs[k], values[k]) == BatchSyncs(sems, b, i)[k]
    {
      var sem := sems[b.signals[i]];
      var payload := CurrentPayload(sem);
      if payload.kind == SyncDeviceOnly {
        continue;
      }
      syncs := syncs + [payload.sync];
      values := values + [if sem.timeline then b.signalValues[i] else 1];
    }
  }

  lemma {:induction false} WsiCountPositive(sems: seq<SyncObject>, hs: seq<nat>, n: nat, l: nat)
    requires l < n <= |hs| && HandlesOk(sems, hs) && Kind(sems[hs[l]]) == SyncWsiSignaled
    ensures WsiCount(sems, hs, n) > 0
  {
    if n - 1 != l {
      WsiCountPositive(sems, hs, n - 1, l);
    }
  }

  lemma {:induction false} WsiTotalPositive(sems: seq<SyncObject>, batches: seq<Batch>, n: nat, i: nat, l: nat)
    requires i < n <= |batches| && BatchesOk(sems, batches)
    requires l < |batches[i].waits| && Kind(sems[batches[i].waits[l]]) == SyncWsiSignaled
    ensures WsiTotal(sems, batches, n) > 0
  {
    if n - 1 != i {
      WsiTotalPositive(sems, batches, n - 1, i, l);
    } else {
      WsiCountPositive(sems, batches[i].waits, |batches[i].waits|, l);
    }
  }

  lemma {:induction false} WaitTotalAppend(bs: seq<Batch>, b: Batch, n: nat)
    requires n <= |bs|
    ensures WaitTotal(bs + [b], n) == WaitTotal(bs, n)
  {
    if n > 0 {
      WaitTotalAppend(bs, b, n - 1);
    }
  }

  /** The batches as submitted after the first n were filtered. */
  function FilteredBatches(s0: seq<SyncObject>, batches: seq<Batch>, n: nat, filter: bool): (r: seq<Batch>)
    requires n <= |batches| && BatchesOk(s0, batches)
    ensures |r| == n
  {
    if n == 0 then []
    else FilteredBatches(s0, batches, n - 1, filter) + [batches[n - 1].(waits := FilteredWaits(s0, batches[n - 1], filter))]
  }

  lemma {:induction false} FilteredBatchesAt(s0: seq<SyncObject>, batches: seq<Batch>, n: nat, filter: bool)
    requires n <= |batches| && BatchesOk(s0, batches)
    ensures forall k :: 0 <= k < n ==>
      FilteredBatches(s0, batches, n, filter)[k] == batches[k].(waits := FilteredWaits(s0, batches[k], filter))
  {
    if n > 0 {
      FilteredBatchesAt(s0, batches, n - 1, filter);
    }
  }

  lemma {:induction false} FilteredBatchesUnfiltered(s0: seq<SyncObject>, batches: seq<Batch>, n: nat)
    requires n <= |batches| && BatchesOk(s0, batches)
    ensures FilteredBatches(s0, batches, n, false) == batches[..n]
  {
    if n > 0 {
      FilteredBatchesUnfiltered(s0, batches, n - 1);
      assert batches[..n] == batches[..n - 1] + [batches[n - 1]];
    }
  }

  /** The kept waits are the waits less the WSI-signaled ones. */
  lemma {:induction false} FilteredWaitTotal(s0: seq<SyncObject>, batches: seq<Batch>, n: nat)
    requires n <= |batches| && BatchesOk(s0, batches)
    ensures WaitTotal(FilteredBatches(s0, batches, n, true), n) + WsiTotal(s0, batches, n) == WaitTotal(batches, n)
  {
    if n > 0 {
      FilteredWaitTotal(s0, batches, n - 1);
      var prev := FilteredBatches(s0, batches, n - 1, true);
      WaitTotalAppend(prev, batches[n - 1].(waits := FilteredWaits(s0, batches[n - 1], true)), n - 1);
    }
  }

  function Sum(s: seq<nat>): nat
  {
    if |s| == 0 then 0 else Sum(s[..|s| - 1]) + s[|s| - 1]
  }

  lemma {:induction false} KeptAll(sems: seq<SyncObject>, hs: seq<nat>, n: nat)
    requires n <= |hs| && HandlesOk(sems, hs)
    requires forall j :: 0 <= j < n ==> Kind(sems[hs[j]]) != SyncWsiSignaled
    ensures KeptWaits(sems, hs, n) == hs[..n]
  {
    if n > 0 {
      KeptAll(sems, hs, n - 1);
      assert hs[..n] == hs[..n - 1] + [hs[n - 1]];
    }
  }

  /** Without WSI-signaled waits every wait is kept. */
  lemma NoWsiKept(s0: seq<SyncObject>, batches: seq<Batch>)
    requires BatchesOk(s0, batches) && WsiTotal(s0, batches, |batches|) == 0
    ensures forall i :: 0 <= i < |batches| ==> KeptWaits(s0, batches[i].waits, |batches[i].waits|) == batches[i].waits
  {
    forall i | 0 <= i < |batches|
      ensures KeptWaits(s0, batches[i].waits, |batches[i].waits|) == batches[i].waits
    {
      var w := batches[i].waits;
      forall l | 0 <= l < |w| ensures Kind(s0[w[l]]) != SyncWsiSignaled {
        if Kind(s0[w[l]]) == SyncWsiSignaled {
          WsiTotalPositive(s0, batches, |batches|, i, l);
        }
      }
      KeptAll(s0, w, |w|);
      assert w[..|w|] == w;
    }
  }

  /** The waits of batch i have not been reset by the earlier batches. */
  lemma WaitsUntouched(s0: seq<SyncObject>, si: seq<SyncObject>, batches: seq<Batch>, i: nat)
    requires i < |batches| && BatchesOk(s0, batches) && ValidUsage(s0, batches)
    requires Reached(s0, si, WaitSet(batches, i))
    ensures HandlesOk(si, batches[i].waits)
    ensures forall j :: 0 <= j < |batches[i].waits| ==> si[batches[i].waits[j]] == s0[batches[i].waits[j]]
    ensures WsiOnce(si, batches[i].waits)
  {
    var w := batches[i].waits;
    forall j | 0 <= j < |w| ensures si[w[j]] == s0[w[j]] {
    }
  }

  /** After batch i's waits are filtered, each of its signal semaphores has
    * the kind it was counted by. */
  lemma SignalsSettled(s0: seq<SyncObject>, s: seq<SyncObject>, batches: seq<Batch>, i: nat, wsi: nat)
    requires i < |batches| && AllOk(s0) && BatchesOk(s0, batches) && ValidUsage(s0, batches)
    requires wsi == WsiTotal(s0, batches, |batches|)
    requires wsi == 0 ==> s == s0
    requires wsi > 0 ==> Reached(s0, s, WaitSet(batches, i + 1))
    ensures HandlesOk(s, batches[i].signals) && SignalsReady(s, batches[i])
    ensures forall j :: 0 <= j < |batches[i].signals| ==>
      Kind(s[batches[i].signals[j]]) == CountedPayload(s0, batches[i].signals[j]).kind
    ensures forall j :: 0 <= j < |batches[i].signals| && s[batches[i].signals[j]].timeline ==>
      j < |batches[i].signalValues|
  {
    var b := batches[i];
    forall j | 0 <= j < |b.signals|
      ensures s[b.signals[j]].timeline == s0[b.signals[j]].timeline
      ensures Kind(s[b.signals[j]]) == CountedPayload(s0, b.signals[j]).kind
    {
      var h := b.signals[j];
      assert ObjectOk(s0[h]);
      if Kind(s0[h]) == SyncWsiSignaled {
        assert h in b.waits;
        var l :| 0 <= l < |b.waits| && b.waits[l] == h;
        WsiTotalPositive(s0, batches, |batches|, i, l);
        assert h in WaitSet(batches, i + 1);
      }
    }
  }

  /** The device's semaphore and fence tables. */
  class VnDevice {
    var semaphores: seq<SyncObject>
    var fences: seq<SyncObject>

    ghost predicate Valid()
      reads this
    {
      AllOk(semaphores) && AllOk(fences)
    }

    constructor (sems: seq<SyncObject>, fs: seq<SyncObject>)
      ensures semaphores == sems && fences == fs
    {
      semaphores, fences := sems, fs;
    }

    /** vn_CreateFence: when the renderer creates both syncs, a new fence
      * on its permanent sync payload gets the next handle; otherwise
      * nothing is created. */
    method CreateFence(syncsCreated: bool, permSync: nat, tempSync: nat) returns (h: Option<nat>)
      modifies this
      ensures semaphores == old(semaphores)
      ensures syncsCreated ==> h == Some(|old(fences)|)
                               && fences == old(fences) + [InitPayloads(true, false, permSync, tempSync)]
      ensures !syncsCreated ==> h.None? && fences == old(fences)
      ensures h.Some? ==> Kind(fences[h.value]) == SyncSync && fences[h.value].current == Permanent
      ensures old(Valid()) ==> Valid()
    {
      if !syncsCreated {
        return None;
      }
      h := Some(|fences|);
      fences := fences + [InitPayloads(true, false, permSync, tempSync)];
    }

    /** vn_CreateSemaphore: as for fences, with a sync payload for a
      * timeline semaphore and a device-only one for a binary semaphore. */
    method CreateSemaphore(timeline: bool, syncsCreated: bool, permSync: nat, tempSync: nat) returns (h: Option<nat>)
      modifies this
      ensures fences == old(fences)
      ensures syncsCreated ==> h == Some(|old(semaphores)|)
                               && semaphores == old(semaphores) + [InitPayloads(false, timeline, permSync, tempSync)]
      ensures !syncsCreated ==> h.None? && semaphores == old(semaphores)
      ensures h.Some? ==> Kind(semaphores[h.value]) == (if timeline then SyncSync else SyncDeviceOnly)
      ensures old(Valid()) ==> Valid()
    {
      if !syncsCreated {
        return None;
      }
      h := Some(|semaphores|);
      semaphores := semaphores + [InitPayloads(false, timeline, permSync, tempSync)];
    }

    /** vn_fence_signal_wsi. */
    method FenceSignalWsi(f: nat)
      requires f < |fences|
      modifies this
      ensures fences == old(fences)[f := SignalWsi(old(fences)[f])] && semaphores == old(semaphores)
      ensures old(Valid()) ==> Valid()
    {
      fences := fences[f := SignalWsi(fences[f])];
    }

    /** vn_semaphore_signal_wsi. */
    method SemaphoreSignalWsi(s: nat)
      requires s < |semaphores|
      modifies this
      ensures semaphores == old(semaphores)[s := SignalWsi(old(semaphores)[s])] && fences == old(fences)
      ensures old(Valid()) ==> Valid()
    {
      semaphores := semaphores[s := SignalWsi(semaphores[s])];
    }

    /** vn_semaphore_reset_wsi. */
    method SemaphoreResetWsi(s: nat)
      requires s < |semaphores|
      modifies this
      ensures semaphores == old(semaphores)[s := ResetTemporary(old(semaphores)[s])] && fences == old(fences)
      ensures old(Valid()) ==> Valid()
    {
      semaphores := semaphores[s := ResetTemporary(semaphores[s])];
    }

    /** vn_ResetFences: every listed fence releases its temporary payload
      * and points back at its permanent sync. */
    method ResetFences(handles: seq<nat>)
      requires forall i :: 0 <= i < |handles| ==> handles[i] < |fences| && fences[handles[i]].permanent.kind == SyncSync
      modifies this
      ensures |fences| == |old(fences)| && semaphores == old(semaphores)
      ensures forall f :: 0 <= f < |fences| ==>
        fences[f] == if f in handles then ResetTemporary(old(fences)[f]) else old(fences)[f]
      ensures old(Valid()) ==> Valid()
    {
      for i := 0 to |handles|
        invariant |fences| == |old(fences)| && semaphores == old(semaphores)
        invariant forall f :: 0 <= f < |fences| ==>
          fences[f] == if f in handles[..i] then ResetTemporary(old(fences)[f]) else old(fences)[f]
        invariant old(Valid()) ==> Valid()
      {
        var f := handles[i];
        fences := fences[f := ResetTemporary(fences[f])];
        assert handles[..i + 1] == handles[..i] + [f];
      }
      assert handles[..|handles|] == handles;
    }

    /** vn_queue_submission_filter_batch_wsi_semaphores over one batch's
      * waits: WSI-signaled semaphores are reset to their permanent payload
      * and dropped, the others are kept in order. */
    method FilterWsiWaits(waits: seq<nat>) returns (kept: seq<nat>)
      requires HandlesOk(semaphores, waits) && WsiOnce(semaphores, waits)
      modifies this
      ensures kept == KeptWaits(old(semaphores), waits, |waits|)
      ensures |kept| + WsiCount(old(semaphores), waits, |waits|) == |waits|
      ensures Reached(old(semaphores), semaphores, Elems(waits)) && fences == old(fences)
      ensures old(Valid()) ==> Valid()
    {
      kept := [];
      for i := 0 to |waits|
        invariant kept == KeptWaits(old(semaphores), waits, i)
        invariant Reached(old(semaphores), semaphores, Elems(waits[..i])) && fences == old(fences)
        invariant old(Valid()) ==> Valid()
      {
        var h := waits[i];
        assert waits[..i + 1] == waits[..i] + [h];
        assert semaphores[h] == old(semaphores)[h] by {
          if h in waits[..i] {
            var k :| 0 <= k < i && waits[k] == h;
            assert Kind(old(semaphores)[waits[k]]) != SyncWsiSignaled;
          }
        }
        ghost var before := semaphores;
        if Kind(semaphores[h]) == SyncWsiSignaled {
          SemaphoreResetWsi(h);
        } else {
          kept := kept + [h];
        }
        ReachedAdd(old(semaphores), before, semaphores, Elems(waits[..i]), h);
        assert Elems(waits[..i + 1]) == Elems(waits[..i]) + {h};
      }
      assert waits[..|waits|] == waits;
    }

    /** One round of the loop of vn_queue_submission_setup_batches: batch
      * i's waits are filtered when the submission has WSI-signaled waits,
      * and its signalled syncs are collected when doSyncs. */
    method SetupBatch(batches: seq<Batch>, i: nat, wsi: nat, doSyncs: bool, ghost s0: seq<SyncObject>)
      returns (kept: seq<nat>, syncs: seq<nat>, values: seq<nat>)
      requires i < |batches| && AllOk(s0) && BatchesOk(s0, batches) && ValidUsage(s0, batches)
      requires Valid() && wsi == WsiTotal(s0, batches, |batches|) && Progress(s0, semaphores, batches, i, wsi)
      modifies this
      ensures Valid() && fences == old(fences) && Progress(s0, semaphores, batches, i + 1, wsi)
      ensures kept == FilteredWaits(s0, batches[i], wsi > 0)
      ensures |syncs| == |values|
      ensures doSyncs ==> |syncs| + DeviceOnlyCount(s0, batches[i].signals, |batches[i].signals|) == |batches[i].signals|
      ensures !doSyncs ==> syncs == []
    {
      var b := batches[i];
      kept := b.waits;
      if wsi > 0 {
        ghost var si := semaphores;
        WaitsUntouched(s0, si, batches, i);
        kept := FilterWsiWaits(b.waits);
        KeptWaitsSame(si, s0, b.waits, |b.waits|);
        WaitSetStep(batches, i);
        ReachedCompose(s0, si, semaphores, WaitSet(batches, i), Elems(b.waits));
      }
      syncs, values := [], [];
      if doSyncs {
        SignalsSettled(s0, semaphores, batches, i, wsi);
        syncs, values := SetupBatchSyncs(semaphores, b);
        BatchSyncsLength(semaphores, b, |b.signals|);
        DeviceOnlySame(s0, semaphores, b.signals, |b.signals|);
      }
    }

    /** The loop of vn_queue_submission_setup_batches over all batches. */
    method SetupAllBatches(batches: seq<Batch>, wsi: nat, doSyncs: bool, ghost s0: seq<SyncObject>)
      returns (submitted: seq<Batch>, syncs: seq<nat>, values: seq<nat>, batchSyncCounts: seq<nat>)
      requires AllOk(s0) && BatchesOk(s0, batches) && ValidUsage(s0, batches)
      requires Valid() && wsi == WsiTotal(s0, batches, |batches|) && Progress(s0, semaphores, batches, 0, wsi)
      modifies this
      ensures Valid() && fences == old(fences) && Progress(s0, semaphores, batches, |batches|, wsi)
      ensures submitted == FilteredBatches(s0, batches, |batches|, wsi > 0)
      ensures |syncs| == |values| && |batchSyncCounts| == |batches| && Sum(batchSyncCounts) == |syncs|
      ensures doSyncs ==> |syncs| + DeviceOnlyTotal(s0, batches, |batches|) == SignalTotal(batches, |batches|)
      ensures !doSyncs ==> syncs == []
    {
      submitted, syncs, values, batchSyncCounts := [], [], [], [];
      for i := 0 to |batches|
        invariant Valid() && fences == old(fences) && Progress(s0, semaphores, batches, i, wsi)
        invariant submitted == FilteredBatches(s0, batches, i, wsi > 0)
        invariant |syncs| == |values| && |batchSyncCounts| == i && Sum(batchSyncCounts) == |syncs|
        invariant doSyncs ==> |syncs| + DeviceOnlyTotal(s0, batches, i) == SignalTotal(batches, i)
        invariant !doSyncs ==> syncs == []
      {
        var kept, bs, bv := SetupBatch(batches, i, wsi, doSyncs, s0);
        submitted := submitted + [batches[i].(waits := kept)];
        syncs, values := syncs + bs, values + bv;
        ghost var prev := batchSyncCounts;
        batchSyncCounts := batchSyncCounts + [|bs|];
        assert batchSyncCounts[..|prev|] == prev;
      }
    }

    /** vn_queue_submission_setup_batches: with storage allocated, each
      * batch's waits are filtered when any wait is WSI-signaled, its
      * signalled syncs are collected when some signal is not device-only,
      * and the fence sync comes last. The syncs total sync_count exactly,
      * and the kept waits fill the region the layout reserves for them;
      * the per-batch counts are written only when there are syncs. */
    method SetupBatches(batches: seq<Batch>, fence: Option<nat>, c: Counts)
      returns (submitted: seq<Batch>, syncs: seq<nat>, values: seq<nat>, batchSyncCounts: seq<nat>)
      requires Valid() && BatchesOk(semaphores, batches) && ValidUsage(semaphores, batches)
      requires fence.Some? ==> fence.value < |fences| && Kind(fences[fence.value]) == SyncSync
      requires CountsOf(semaphores, batches, fence.Some?, c)
      modifies this
      ensures Valid() && fences == old(fences)
      ensures c.wsiCount == 0 ==> semaphores == old(semaphores) && submitted == batches
      ensures c.wsiCount > 0 ==> Reached(old(semaphores), semaphores, WaitSet(batches, |batches|))
      ensures c.wsiCount > 0 ==> submitted == FilteredBatches(old(semaphores), batches, |batches|, true)
      ensures WaitTotal(submitted, |submitted|) + c.wsiCount == c.waitCount
      ensures |syncs| == |values| == c.syncCount
      ensures c.syncCount > 0 ==> |batchSyncCounts| == |batches| && Sum(batchSyncCounts) + (if fence.Some? then 1 else 0) == c.syncCount
      ensures fence.Some? ==> |syncs| > 0 && syncs[|syncs| - 1] == CurrentPayload(fences[fence.value]).sync && values[|values| - 1] == 1
    {
      ghost var s0 := semaphores;
      TotalsBound(s0, batches, |batches|);
      if c.wsiCount == 0 && c.syncCount == 0 {
        return batches, [], [], [];
      }
      submitted, syncs, values, batchSyncCounts := SetupAllBatches(batches, c.wsiCount, c.signalCount > c.deviceOnlyCount, s0);
      if c.wsiCount > 0 {
        FilteredWaitTotal(s0, batches, |batches|);
      } else {
        FilteredBatchesUnfiltered(s0, batches, |batches|);
        assert batches[..|batches|] == batches;
      }
      if fence.Some? {
        syncs, values := syncs + [CurrentPayload(fences[fence.value]).sync], values + [1];
      }
    }
  }
}
