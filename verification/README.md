# Protocols of the NVIDIA Linux kernel modules, in Dafny

The project models eight concurrent or stateful protocols of the open NVIDIA
kernel modules and proves what each of them keeps over every run. Each module
has a deterministic step function over an explicit state, an invariant proved
step by step, and theorems about every state of every run. Where the driver
changes things in place, a class with the driver's fields has methods, with the
driver's loops, whose postconditions equate the new state with the same step
functions.

- `KthreadQ`: nv_kthread_q, a one-worker queue made of a list, a counting
  semaphore and an exit flag. Appending and `up` are separate steps, as are the
  worker's `down`, exit check and removal, and both flushes of
  `nv_kthread_q_flush`.
- `Timers`: NVKMS timers and reference-counted pointers. A timer is reached from
  the global list, a kernel timer, a work item and a handle, and is freed by its
  callback, by the holder of the handle or by module unload.
- `PerOpen`: entries into core NVKMS under `nvkms_pm_lock` and `nvkms_lock`, the
  deferred close, and the flush before a kernel client's per-open is freed.
- `FlipEvents`: flip completion on one CRTC. Commits queue, defer or complete
  flips while hardware events count them down.
- `DeltaConfig`: atomic check as a delta encoding. Each commit marks what changed
  since the last request; the reference is the whole configuration, computed from
  the DRM state alone.
- `VaRanges`: managed vmas and the VA ranges that tile them, under mmap, fork,
  move, split (which may fail), policy split and close.
- `AddressMap`: what those operations do, address by address.
- `CpuFault`: `uvm_vm_fault`, its retry loop and the pool of service contexts, for
  any number of faulting threads.
- `FenceTimeline`: the pending list of a PRIME fence context.
- `Fifo`: the atomic queue that `KthreadQ` refines and `Timers` uses.
- `Common`: options, lists without repetition and paths of steps.

What is not the driver's is a parameter of a step or a guard: which allocations
succeed, when a kernel timer fires, what a semaphore holds, when a wait times
out, what DRM puts into a commit, what the kernel passes to a vma callback.
Integers are unbounded except where width matters: fence sequence numbers are
32-bit, `pending_events` wraps when counted down from zero, and plane geometry is
cut to 16 bits as the request structures store it.

## What the proofs found

- One flush does not drain an item that reschedules itself; two do
  (`OneFlushIsNotEnough`, `SelfReschedulingItemDrained`).
- Vblank events are not always sent in commit order. The comment at
  kernel-open/nvidia-drm/nvidia-drm-modeset.c:387-392 asks a blocking commit to
  wait for earlier updates; the code refuses a non-blocking commit while flips are
  queued, but a blocking one queues its own flip first and waits afterwards, and
  the flip list is filled and served at its head. `LaterCommitAnnouncedFirst` is a
  run in which a blocking commit after a non-blocking one is announced first, with
  no timeout.
  `CommitOrderIff` says exactly when the order is kept, by a test made when a
  commit queues or defers its flip.
- A plane that enters a layer's slot in the commit in which another plane leaves
  it is lost when it is checked first (`EnteringPlaneLost`). Planes of this driver
  stay on their own head, where it cannot happen (`OwnHeadsNeverCross`).
- The cursor's request is not carried over by the state duplication. A flip
  applies only marked fields, where that is harmless; SET_MODE applies every
  field, and one head that needs it puts the whole commit on that path. So a
  commit that takes it without the cursor plane, for example one that resizes the
  primary plane, turns the cursor off (`CursorLostOnResize`).
  `AlwaysInSyncIff` gives the exact condition for a run to stay in step, and
  `OwnHeadsInSyncIff` shows that for this driver the cursor is all there is to it.
- A semaphore value from before a wrap, read after a fence of the next turn was
  created, signals that fence early (`SignalledEarly`); `EarlyOrMissedIff` shows
  that nothing else does.

## Model

| member | source | states |
|---|---|---|
| `KthreadQ.KthreadQueue.RawSchedule` | kernel-open/nvidia-modeset/nv-kthread-q.c:258-276 | with no interference, an accepted schedule adds one entry and one token, a refused one changes nothing |
| `KthreadQ.KthreadQueue.UnlinkFirst` | kernel-open/nvidia-modeset/nv-kthread-q.c:92-109 | the head leaves the list; on an empty list nothing changes and the caller learns it |
| `KthreadQ.BalanceKept` | kernel-open/nvidia-modeset/nv-kthread-q.c:75-122 | every step keeps list length plus stop's extra tokens equal to semaphore count, schedulers between append and `up`, and the worker's token |
| `KthreadQ.EmptyQueueNeverSeen` | kernel-open/nvidia-modeset/nv-kthread-q.c:81-109 | in every interleaving the worker never finds the list empty past the exit check, and while the exit flag is clear tokens and entries match exactly |
| `KthreadQ.FirstInFirstOut` | kernel-open/nvidia-modeset/nv-kthread-q.c:258-276 | accepted schedules are the dequeued items followed by the list; an item's dequeues plus its pending entry are its accepted schedules |
| `KthreadQ.RefinesFifo` | kernel-open/nvidia-modeset/nv-kthread-q.c:75-122 | every step of every run is, to a user, one atomic step of a first-in first-out queue with one worker, or nothing |
| `KthreadQ.FlushDrains` | kernel-open/nvidia-modeset/nv-kthread-q.c:307-335 | when `nv_kthread_q_flush` returns, all that was accepted before it, and all that those items scheduled, has finished |
| `KthreadQ.SelfReschedulingItemDrained` | kernel-open/nvidia-modeset/nv-kthread-q.c:322-335 | an item told to stop rescheduling itself before the flush is neither queued nor running when it returns |
| `KthreadQ.OneFlushIsNotEnough` | kernel-open/nvidia-modeset/nv-kthread-q.c:307-335 | a run in which such an item is queued again after the first of the two flushes |
| `KthreadQ.StopDrains` | kernel-open/nvidia-modeset/nv-kthread-q.c:124-148 | from the end of stop's flush the list is empty and everything accepted has been taken, nothing starts after the exit flag is set, and after the join the worker has exited |
| `KthreadQ.StopGoesOn` | kernel-open/nvidia-modeset/nv-kthread-q.c:138-147 | past its flush a stop returns early only if it finds the exit flag set by another; otherwise each step of its own sets the flag, raises the semaphore or joins the exited worker |
| `KthreadQ.StopEnds` | kernel-open/nvidia-modeset/nv-kthread-q.c:124-148 | however a stop ends the exit flag is set, and a stop that set it itself ends only with the worker exited, joined and gone |
| `KthreadQ.NothingAfterExit` | kernel-open/nvidia-modeset/nv-kthread-q.c:286-335 | once the flag is set and no call past its check is left, no schedule or flush adds to the queue any more |
| `KthreadQ.StopWorks` | kernel-open/nvidia-modeset/nv-kthread-q.c:124-148 | a run of one stop on an idle queue, through both flushes, that ends with the flag set and the worker joined |
| `Timers.LifeKept` | kernel-open/nvidia-modeset/nvidia-modeset-linux.c:682-870 | every move of a timer keeps it in at most one of kernel timer, queue, callback and unload, on the list exactly until its callback starts, with its flags and counts right |
| `Timers.OthersUntouched` | kernel-open/nvidia-modeset/nvidia-modeset-linux.c:682-870 | a step for one timer leaves all that is known of every other timer as it was |
| `Timers.NeverMisused` | kernel-open/nvidia-modeset/nvidia-modeset-linux.c:682-870 | in every run no freed timer or ref_ptr is touched, no timer is freed while listed, queued, armed or firing, and the WARN of `nvkms_queue_work` never fires |
| `Timers.FreedOnce` | kernel-open/nvidia-modeset/nvidia-modeset-linux.c:728-735 | a timer is freed at most once and called at most once, and while in memory it is in some stage or its handle is still held |
| `Timers.AllocGives` | kernel-open/nvidia-modeset/nvidia-modeset-linux.c:779-854 | a new timer is on the list and wanted; with a delay its kernel timer is armed, without one its item is queued at once |
| `Timers.RunsExactly` | kernel-open/nvidia-modeset/nvidia-modeset-linux.c:712-729 | in any run only the callback of a timer calls its procedure, and does so exactly when the handle is still held or the ref_ptr still has its owner |
| `Timers.FreedExactly` | kernel-open/nvidia-modeset/nvidia-modeset-linux.c:728-870 | in any run a timer is freed by exactly these: `nvkms_free_timer` after the procedure has returned, the end of its callback once the handle is gone, and `nvkms_exit` |
| `Timers.TouchesOnlyLive` | kernel-open/nvidia-modeset/nvidia-modeset-linux.c:682-870 | every timer that a step is about is in memory; none is queued twice, or freed while listed, queued, armed or firing |
| `Timers.FreedInsideWorks` | kernel-open/nvidia-modeset/nvidia-modeset-linux.c:682-740 | a run in which a timer fires, runs and is freed inside its own procedure, and is gone when its callback ends |
| `Timers.RefCountExact` | kernel-open/nvidia-modeset/nvidia-modeset-linux.c:604-647 | a ref_ptr's count is its owner plus the timers holding it; it is in memory exactly while that is positive and freed exactly once |
| `Timers.CanceledNeverRuns` | kernel-open/nvidia-modeset/nvidia-modeset-linux.c:856-870 | a timer freed before its procedure was called never runs, at any later point of the run |
| `Timers.ReleasedNeverRuns` | kernel-open/nvidia-modeset/nvidia-modeset-linux.c:712-726 | after `nvkms_free_ref_ptr` no timer on that ref_ptr that was not yet called is ever called |
| `Timers.InvAlways` | kernel-open/nvidia-modeset/nvidia-modeset-linux.c:604-870 | every state of every run satisfies the timer and reference-count invariant |
| `Timers.UsesFifo` | kernel-open/nvidia-modeset/nvidia-modeset-linux.c:742-777 | every step uses the work queue as the atomic queue that `KthreadQ.RefinesFifo` provides |
| `Timers.NothingScheduled` | kernel-open/nvidia-modeset/nvidia-modeset-linux.c:1667-1708 | after unload, with nothing pending, no step schedules anything, which is what `nv_kthread_q_stop` asks of its caller |
| `Timers.StoppedMeansFreed` | kernel-open/nvidia-modeset/nvidia-modeset-linux.c:1707-1708 | when `KthreadQ`'s stop has joined the worker of the queue holding these timers, every timer was freed exactly once and no ref_ptr is left |
| `Timers.NvkmsTimers.FreeTimer` | kernel-open/nvidia-modeset/nvidia-modeset-linux.c:856-870 | NULL is ignored, a complete timer is freed, any other is marked canceled |
| `Timers.NvkmsTimers.BeginProc` | kernel-open/nvidia-modeset/nvidia-modeset-linux.c:714-729 | the reference is dropped first; the procedure is called exactly when the timer is not canceled and its pointer is not NULL |
| `Timers.NvkmsTimers.DelTimerSync` | kernel-open/nvidia-modeset/nvidia-modeset-linux.c:1677-1690 | a pending timer is deactivated and taken off the list; a running one has finished on return, with softirqs and the worker going on meanwhile |
| `Timers.NvkmsTimers.ScanList` | kernel-open/nvidia-modeset/nvidia-modeset-linux.c:1676-1705 | one pass, with softirqs and the worker running beside it, either deactivates a timer or shows that none is pending |
| `Timers.NvkmsTimers.DrainTimers` | kernel-open/nvidia-modeset/nvidia-modeset-linux.c:1672-1705 | the restart loop ends, since armed timers decrease, and leaves no kernel timer pending |
| `Timers.NvkmsTimers.StopQueue` | kernel-open/nvidia-modeset/nvidia-modeset-linux.c:1707-1708 | the worker then empties the queue |
| `Timers.NvkmsTimers.Exit` | kernel-open/nvidia-modeset/nvidia-modeset-linux.c:1656-1708 | after unload every timer has been freed exactly once and no ref_ptr is left |
| `Timers.AllFreed` | kernel-open/nvidia-modeset/nvidia-modeset-linux.c:1667-1708 | with nothing pending, queued or running, all timers and ref_ptrs are gone |
| `PerOpen.SuspendedKeepsOut` | kernel-open/nvidia-modeset/nvidia-modeset-linux.c:524-544 | while the PM lock is held for suspend no ioctl, open, close, event callback or timer procedure is in core NVKMS; at any time at most one party is |
| `PerOpen.SuspendedEntersNothing` | kernel-open/nvidia-modeset/nvidia-modeset-linux.c:1219-1231 | in that time no step enters core NVKMS and a close is put on the deferred queue |
| `PerOpen.ClosedAndFreedOnce` | kernel-open/nvidia-modeset/nvidia-modeset-linux.c:1170-1231 | a per-open is closed before it is freed, each at most once, and a called close is with exactly one thread or once on the deferred queue |
| `PerOpen.CloseCompletes` | kernel-open/nvidia-modeset/nvidia-modeset-linux.c:1208-1231 | when nothing is busy or deferred, every per-open whose close was called was closed and freed exactly once |
| `PerOpen.NeverMisused` | kernel-open/nvidia-modeset/nvidia-modeset-linux.c:1170-1256 | no step reads a freed per-open or calls core NVKMS with a closed one, whatever event callbacks are left |
| `PerOpen.FreedIsQuiet` | kernel-open/nvidia-modeset/nvidia-modeset-linux.c:1186-1206 | once a per-open is freed its event callback is neither queued nor running and no thread uses it |
| `PerOpen.OpenGives` | kernel-open/nvidia-modeset/nvidia-modeset-linux.c:1118-1167 | a per-open comes into being exactly when `nvKmsOpen` grants an open, with data and of the kind of client that opened it |
| `PerOpen.KindStays` | kernel-open/nvidia-modeset/nvidia-modeset-linux.c:1129-1150 | the kind of a per-open never changes |
| `PerOpen.DefersIff` | kernel-open/nvidia-modeset/nvidia-modeset-linux.c:1219-1231 | in any run a close is deferred exactly when called while suspended or when its trylock fails before that; otherwise the caller holds the PM lock and closes the per-open itself |
| `PerOpen.ReadsOnlyLive` | kernel-open/nvidia-modeset/nvidia-modeset-linux.c:1170-1256 | every per-open that a step reads is in memory, and core NVKMS is called only with one that is not closed |
| `PerOpen.MisuseIff` | kernel-open/nvidia-modeset/nvidia-modeset-linux.c:1170-1256 | what `NeverMisused` excludes: reading a freed per-open, closing one twice, an ioctl on a closed one |
| `PerOpen.StagesInOrder` | kernel-open/nvidia-modeset/nvidia-modeset-linux.c:1170-1256 | every call takes the PM lock, enters and leaves core NVKMS, and returns, or frees its per-open first, in that order; a taken work item starts its timer or event callback |
| `PerOpen.EventQueuedOnce` | kernel-open/nvidia-modeset/nvidia-modeset-linux.c:496-522 | telling a kernel client of events queues its callback, once however often it is told before the callback starts |
| `PerOpen.DeferredCloseWorks` | kernel-open/nvidia-modeset/nvidia-modeset-linux.c:1208-1231 | a run in which a kernel client is closed while suspended, and closed, flushed and freed by the deferred worker after resume |
| `PerOpen.NvkmsEntries.ClosePOpen` | kernel-open/nvidia-modeset/nvidia-modeset-linux.c:1219-1231 | the close goes ahead when the trylock succeeds, which it never does under a writer and need not while one waits, and is deferred otherwise |
| `FlipEvents.WillGenerateFlipEvent` | kernel-open/nvidia-drm/nvidia-drm-modeset.c:88-130 | the events counted are the planes, cursors apart, with a framebuffer on a CRTC active before, and there is a flip event exactly if there is such a plane |
| `FlipEvents.OnePlaneMore` | kernel-open/nvidia-drm/nvidia-drm-modeset.c:110-127 | a plane adds one event to the count exactly if it is no cursor and had a framebuffer on this CRTC while it was active |
| `FlipEvents.CursorsDoNotCount` | kernel-open/nvidia-drm/nvidia-drm-modeset.c:116-118 | a cursor plane never changes the count, wherever it is among the planes |
| `FlipEvents.Crtc.HandleFlipEvent` | kernel-open/nvidia-drm/nvidia-drm-modeset.c:332-374 | a completed flip announces itself and then everything deferred on it |
| `FlipEvents.EveryEventFindsItsFlip` | kernel-open/nvidia-drm/nvidia-drm-modeset.c:243-293 | queued flips each wait for an event, in sum exactly the events promised and not handled, so dequeue never finds an empty list |
| `FlipEvents.OneOwner` | kernel-open/nvidia-drm/nvidia-drm-crtc.c:640-688 | every flip object, of refused and discarded commits too, has exactly one owner: proposed state, CRTC state, list, one deferred list, handler, or freed |
| `FlipEvents.SentExactlyOnce` | kernel-open/nvidia-drm/nvidia-drm-modeset.c:344-373 | no event is sent twice; once none is outstanding every one asked for was sent exactly once and every flip is freed |
| `FlipEvents.BusyIff` | kernel-open/nvidia-drm/nvidia-drm-modeset.c:393-425 | a commit is refused exactly when it must not block and flips are queued, and a refused one changes nothing |
| `FlipEvents.BlockingCommitDone` | kernel-open/nvidia-drm/nvidia-drm-modeset.c:515-548 | when a blocking commit ends without a timeout, every event asked for so far has been sent or is with the handler |
| `FlipEvents.CommitOrderIff` | kernel-open/nvidia-drm/nvidia-drm-modeset.c:479-513 | events came in commit order if and only if no enqueue or defer step of the run put a flip that wants an event ahead of an earlier one that still does |
| `FlipEvents.CommitOrder` | kernel-open/nvidia-drm/nvidia-drm-modeset.c:338-369 | with no timeout, and event-generating commits starting on an empty list, events are sent in commit order even when a delivery races the handler |
| `FlipEvents.LaterCommitAnnouncedFirst` | kernel-open/nvidia-drm/nvidia-drm-modeset.c:393-425 | a run of a non-blocking and then a blocking commit whose events are sent in reverse, with no timeout |
| `DeltaConfig.DeltaIsFull` | kernel-open/nvidia-drm/nvidia-drm-crtc.c:179-375 | applying the marked fields of an updated layer to the last configuration gives the whole configuration asked for |
| `DeltaConfig.LayerAsAsked` | kernel-open/nvidia-drm/nvidia-drm-crtc.c:179-375 | the request of an updated layer has the framebuffer, the whole parts of the source rectangle and, within 16 bits, the rectangle on the CRTC; a plane without a framebuffer empties it |
| `DeltaConfig.CursorAsAsked` | kernel-open/nvidia-drm/nvidia-drm-crtc.c:80-177 | the request of an updated cursor has its framebuffer and, within 16 bits, its position |
| `DeltaConfig.LayerExact` | kernel-open/nvidia-drm/nvidia-drm-crtc.c:450-481 | over one commit a layer's request ends as asked for, and applying its marked fields gives it, if and only if no plane entered its slot before the plane leaving it was checked |
| `DeltaConfig.CursorExact` | kernel-open/nvidia-drm/nvidia-drm-crtc.c:391-421 | applying the marked fields keeps the cursor's surface and position as asked for under the same condition, though its request starts from nothing |
| `DeltaConfig.SetModeCursor` | src/nvidia-modeset/kapi/src/nvkms-kapi.c:2266-2293 | programming the cursor's request as it stands gives the cursor asked for if and only if none with a surface is asked for or its plane is in the commit, uncrossed |
| `DeltaConfig.ModeSetExact` | kernel-open/nvidia-drm/nvidia-drm-crtc.c:752-787 | the requested mode, displays and active bit are those of the proposed state, and what is not marked has not changed |
| `DeltaConfig.ReqExact` | kernel-open/nvidia-drm/nvidia-drm-crtc.c:424-484 | the request of a CRTC is in step with the proposed state if and only if no layer was crossed |
| `DeltaConfig.FlipExact` | src/nvidia-modeset/kapi/src/nvkms-kapi.c:2692-2769 | a head to which only marked fields are applied is in step if and only if no slot was crossed |
| `DeltaConfig.SetModeExact` | src/nvidia-modeset/kapi/src/nvkms-kapi.c:2545-2600 | a head programmed by SET_MODE is in step if and only if no slot was crossed and the plane of a wanted cursor is in the commit |
| `DeltaConfig.HeadExact` | src/nvidia-modeset/kapi/src/nvkms-kapi.c:2845-2909 | for either path, a head is in step after a commit (shown with all that is asked for, or off) if and only if the commit is sound for it |
| `DeltaConfig.CommitExact` | src/nvidia-modeset/kapi/src/nvkms-kapi.c:2845-2909 | a device in step stays so over a commit, with the path that ApplyModeSetConfig chooses for all its heads, if and only if the commit is refused or sound for every head in it |
| `DeltaConfig.AlwaysInSyncIff` | kernel-open/nvidia-drm/nvidia-drm-modeset.c:220-309 | a run of commits, accepted or refused, by flip or by SET_MODE, with heads going on and off, is in step after every commit if and only if every accepted commit is sound |
| `DeltaConfig.ShownAsAsked` | kernel-open/nvidia-drm/nvidia-drm-crtc.c:179-375 | on a device in step every lit head holds each plane on it: framebuffer, source and place, in the plane's own values |
| `DeltaConfig.ShownCursorAsAsked` | kernel-open/nvidia-drm/nvidia-drm-crtc.c:80-177 | the same for the cursor and its position |
| `DeltaConfig.LitIff` | src/nvidia-modeset/kapi/src/nvkms-kapi.c:2545-2600 | on a device in step a head is lit exactly when its CRTC is active and a connector with a display is routed to it, and it has the CRTC's mode and displays |
| `DeltaConfig.RoutedPlace` | kernel-open/nvidia-drm/nvidia-drm-crtc.c:752-780 | the display of a routed connector comes right after those of the connectors before it |
| `DeltaConfig.RoutedFrom` | kernel-open/nvidia-drm/nvidia-drm-crtc.c:752-780 | a CRTC has no other displays |
| `DeltaConfig.SetModeIff` | src/nvidia-modeset/kapi/src/nvkms-kapi.c:2845-2909 | a head needs SET_MODE exactly when its mode, connectors or active bit are marked changed, or its primary plane is in the commit and appears, goes, or changes its size or place |
| `DeltaConfig.AcceptedIff` | kernel-open/nvidia-drm/nvidia-drm-crtc.c:310-782 | a commit is accepted exactly when no layer in it needs an unsupported fence and every changed set of connectors has displays, at most 16 |
| `DeltaConfig.StartInSync` | kernel-open/nvidia-drm/nvidia-drm-crtc.c:609-630 | with every plane off and everything zero the device is in step |
| `DeltaConfig.OwnHeadsNeverCross` | kernel-open/nvidia-drm/nvidia-drm-crtc.c:966-973 | planes that stay on their own head never cross, in any order of checks |
| `DeltaConfig.OwnHeadsInSyncIff` | kernel-open/nvidia-drm/nvidia-drm-crtc.c:966-973 | with such planes a run is in step throughout if and only if every SET_MODE commit holds the cursor planes of the heads it shows |
| `DeltaConfig.ModesetHoldsCursor` | kernel-open/nvidia-drm/nvidia-drm-crtc.c:752-787 | a CRTC with a modeset of its own has its cursor plane in the commit, given that the DRM core adds the planes that were on it |
| `DeltaConfig.EnteringPlaneLost` | kernel-open/nvidia-drm/nvidia-drm-crtc.c:450-467 | for planes that share a slot, which this driver does not create: a commit in which the entering plane is checked first and the slot ends disabled |
| `DeltaConfig.CursorLostOnResize` | src/nvidia-modeset/kapi/src/nvkms-kapi.c:2876-2909 | a lit head with a display and a cursor; a commit that only resizes its primary plane is accepted, takes the SET_MODE path and leaves the head shown with no cursor |
| `DeltaConfig.ApplyModeSetConfig` | src/nvidia-modeset/kapi/src/nvkms-kapi.c:2845-2909 | the scan picks SET_MODE if some head of the request needs it, and the loops program the shown heads of the request and no others |
| `DeltaConfig.DuplicateHead` | kernel-open/nvidia-drm/nvidia-drm-crtc.c:609-630 | configurations are copied, flags cleared, the cursor dropped |
| `DeltaConfig.Requests.UpdateLayer` | kernel-open/nvidia-drm/nvidia-drm-crtc.c:179-375 | the layer gets the whole configuration, marked against the last one; a fence without syncpoint support is refused |
| `DeltaConfig.Requests.UpdateCursor` | kernel-open/nvidia-drm/nvidia-drm-crtc.c:80-177 | the cursor's surface is always marked, its position when it moved or had no surface |
| `DeltaConfig.Requests.CheckPlane` | kernel-open/nvidia-drm/nvidia-drm-crtc.c:424-484 | the loop over CRTCs disables the slot left and updates the slot held, and fails exactly on a refused plane |
| `DeltaConfig.Requests.CheckCrtc` | kernel-open/nvidia-drm/nvidia-drm-crtc.c:736-790 | displays are rebuilt from the commit's connectors in order; it fails exactly when an encoder is missing or there are more than 16 |
| `DeltaConfig.Requests.AtomicCheck` | kernel-open/nvidia-drm/nvidia-drm-modeset.c:309-323 | the whole check accepts exactly the acceptable commits and leaves each CRTC's request as the run theorems use it |
| `VaRanges.VmasCoverTheirRanges` | kernel-open/nvidia-uvm/uvm.c:185-209 | after any calls and failures ranges are disjoint, every enabled vma is exactly tiled by its own ranges, and every wrapper is live or was destroyed once |
| `VaRanges.TiledExactly` | kernel-open/nvidia-uvm/uvm.c:185-209 | what `uvm_destroy_vma_managed` asserts of a vma's ranges and their total size holds |
| `VaRanges.InvKept` | kernel-open/nvidia-uvm/uvm.c:337-423 | every mmap, fork, move, split, policy split and close keeps the tiling invariant |
| `AddressMap.CloseAt` | kernel-open/nvidia-uvm/uvm.c:430-472 | a close frees exactly the addresses of its vma, or on teardown in multi-process mode leaves exactly those to zombies; all other addresses keep their owner |
| `AddressMap.MmapVmas` | kernel-open/nvidia-uvm/uvm.c:753-875 | an mmap with memory and nobody at its addresses makes an enabled vma with one range of its own; one during a suspend makes a disabled vma; any other changes no vma |
| `AddressMap.MmapAt` | kernel-open/nvidia-uvm/uvm.c:753-875 | it gives the new vma exactly the addresses asked for |
| `AddressMap.SplitAtAddress` | kernel-open/nvidia-uvm/uvm.c:337-423 | a split that works gives exactly the addresses of the new vma to it and both stay enabled; one that fails frees exactly the addresses of both and disables both |
| `AddressMap.OthersAt` | kernel-open/nvidia-uvm/uvm.c:362-369 | fork, move and policy split change no address, an external range takes only free ones, cleaning up frees exactly the zombies |
| `AddressMap.PolicyAt` | kernel-open/nvidia-uvm/uvm_policy.c:95-121 | after a policy split no managed range reaches across the address, and no owner changes |
| `AddressMap.MappedAgain` | kernel-open/nvidia-uvm/uvm.c:430-472 | in any run the addresses of an enabled vma can be mapped again, and are tiled again, once it is closed |
| `VaRanges.SplitIsEither` | kernel-open/nvidia-uvm/uvm.c:337-423 | a split fails cleanly exactly when the wrapper or a needed cut cannot be allocated, and otherwise cuts at the boundary and shares out the ranges |
| `VaRanges.BoundaryRange` | kernel-open/nvidia-uvm/uvm.c:396-412 | the range found at the boundary exists, belongs to the original and can be cut there |
| `VaRanges.FailedSplitGivesUpBoth` | kernel-open/nvidia-uvm/uvm.c:302-314 | a failed split leaves both vmas disabled, none of the original's ranges, and each wrapper destroyed once |
| `VaRanges.CopyKeeps` | kernel-open/nvidia-uvm/uvm.c:362-369 | a fork or a move is told from a split: the new vma is disabled and nothing else changes |
| `VaRanges.CutKeeps` | kernel-open/nvidia-uvm/uvm_va_range.c:1144-1200 | cutting a range in two keeps every vma tiled |
| `VaRanges.OnlyOwnRanges` | kernel-open/nvidia-uvm/uvm.c:414-418 | inside an enabled vma there are only its own ranges |
| `VaRanges.TilesAddUp` | kernel-open/nvidia-uvm/uvm.c:185-209 | ranges that tile an interval add up to its size |
| `VaRanges.VaSpace.DestroyVmaManaged` | kernel-open/nvidia-uvm/uvm.c:185-209 | the loop removes, or turns into zombies, exactly the vma's ranges, and its size assertion holds |
| `VaRanges.VaSpace.OpenFailed` | kernel-open/nvidia-uvm/uvm.c:302-314 | both vmas are given up |
| `VaRanges.VaSpace.OpenManaged` | kernel-open/nvidia-uvm/uvm.c:337-423 | the whole open callback does what the run theorems use, with its assertions met |
| `VaRanges.VaSpace.Repoint` | kernel-open/nvidia-uvm/uvm.c:414-418 | exactly the ranges in the new vma point to its wrapper afterwards |
| `CpuFault.LocksBalanced` | kernel-open/nvidia-uvm/uvm.c:513-610 | for any retries and any way out a thread holds the VA space lock exactly once on leaving the loop, and no lock outside |
| `CpuFault.ContextsExclusive` | kernel-open/nvidia-uvm/uvm.c:81-109 | no service context is used by two faults at once, or while in the pool |
| `CpuFault.ContextsConserved` | kernel-open/nvidia-uvm/uvm.c:81-109 | every context ever allocated is in the pool once or with one thread, and all are in the pool when no fault is in progress |
| `CpuFault.UvmFaults.constructor` | kernel-open/nvidia-uvm/uvm.c:49-67 | the pool holds distinct contexts, all that were asked for exactly when every allocation succeeded |
| `CpuFault.UvmFaults.ExitPool` | kernel-open/nvidia-uvm/uvm.c:69-79 | every context in the pool is freed once, in order |
| `CpuFault.UvmFaults.ServiceLoop` | kernel-open/nvidia-uvm/uvm.c:531-571 | with other faults interleaving, the loop is left exactly when some attempt meets no thrashing, with that attempt's status; the lock is held once then, and also before each retry |
| `CpuFault.UvmFaults.VmFault` | kernel-open/nvidia-uvm/uvm.c:489-622 | the result is no-page exactly if the first attempt without thrashing found its block and served the fault with no ECC error or was told to retry, out-of-memory and bus error from the same statuses as in the switch, and likewise for a global error and a missed PM lock; every lock is released and the context given back; no result while every attempt meets thrashing |
| `CpuFault.LastBackFirstUsed` | kernel-open/nvidia-uvm/uvm.c:81-109 | a fault takes the context given back last, and allocates none while there is one |
| `FenceTimeline.TimelineOfAnyRun` | kernel-open/nvidia-drm/nvidia-drm-prime-fence.c:290-358 | created fences are those signalled, in order and once each, followed by those pending, which are sorted and within `last_seqno`; unforced signals had been reached; a destroyed context has none pending |
| `FenceTimeline.ForcedIff` | kernel-open/nvidia-drm/nvidia-drm-prime-fence.c:290-358 | a step forces signals exactly when something is pending and it destroys the context or creates a fence below the last number, and then forces all, in order |
| `FenceTimeline.CreateIs` | kernel-open/nvidia-drm/nvidia-drm-prime-fence.c:320-358 | a fence at or above the last number joins the end of the list and signals nothing |
| `FenceTimeline.ForcedAtWrap` | kernel-open/nvidia-drm/nvidia-drm-prime-fence.c:332-341 | with counters that do not wrap, creating a fence forces those pending exactly if it is of a later turn than they are |
| `FenceTimeline.EventInAnyRun` | kernel-open/nvidia-drm/nvidia-drm-prime-fence.c:155-188 | an event leaves only fences beyond the last value read, and under a constant value exactly the plain filter |
| `FenceTimeline.EarlyOrMissedIff` | kernel-open/nvidia-drm/nvidia-drm-prime-fence.c:155-188 | with counters that do not wrap behind the 32-bit ones: an event signals a fence before it is reached if and only if the value read is from before the wrap last seen, and leaves a reached one pending if and only if it is from beyond it |
| `FenceTimeline.SignalledEarly` | kernel-open/nvidia-drm/nvidia-drm-prime-fence.c:332-354 | a run in which a stale value from before a wrap signals the first fence created after it |
| `FenceTimeline.WrapSeen` | kernel-open/nvidia-drm/nvidia-drm-prime-fence.c:332-341 | for fences less than a turn of the counter apart, the test of `last_seqno` fires exactly at a wrap |
| `FenceTimeline.EarlyBreakLosesNothing` | kernel-open/nvidia-drm/nvidia-drm-prime-fence.c:164-185 | on a sorted list, stopping at the first fence not ready leaves none that was |
| `FenceTimeline.ConstantValueFilters` | kernel-open/nvidia-drm/nvidia-drm-prime-fence.c:164-185 | for a constant value the loop equals a filter |
| `FenceTimeline.ReadyWereReached` | kernel-open/nvidia-drm/nvidia-drm-prime-fence.c:164-185 | every fence it signals had been reached by the value read for it |
| `FenceTimeline.InvAlways` | kernel-open/nvidia-drm/nvidia-drm-prime-fence.c:320-358 | sortedness and the split into signalled and pending survive creation, wrap-around, events and destruction |
| `FenceTimeline.FenceContext.ForceSignal` | kernel-open/nvidia-drm/nvidia-drm-prime-fence.c:140-153 | every pending fence is signalled in order and none is left |
| `FenceTimeline.FenceContext.FenceEvent` | kernel-open/nvidia-drm/nvidia-drm-prime-fence.c:155-188 | the handler's loop signals the ready prefix |
| `FenceTimeline.FenceContext.CreateFence` | kernel-open/nvidia-drm/nvidia-drm-prime-fence.c:320-358 | a sequence number running backwards forces all signals before the fence is appended; without memory nothing changes |
| `FenceTimeline.FenceContext.DestroyContext` | kernel-open/nvidia-drm/nvidia-drm-prime-fence.c:290-306 | all pending fences are forced |

## Left out

- Liveness and scheduler fairness, beyond the termination of the unload loop, of the queue stop after it and of the fault retry loop once an attempt is not put off.
- KthreadQ: worker creation on a NUMA node and `nv_kthread_q_init`; the identical copy used by the UVM module.
- Timers: the callback's read lock on `nvkms_pm_lock` is modelled in `PerOpen`.
- Timers.NvkmsTimers.Exit: takes as given that `nvKmsModuleUnload` has freed every handle and every ref_ptr, as the comment in `nvkms_exit` expects of it.
- Timers.NvkmsTimers.StopQueue: runs the worker of the atomic queue to the end; the flush, exit flag and join of the stop are in `KthreadQ.StopDrains`, which `Timers.StoppedMeansFreed` joins to the timers.
- PerOpen.FreedIsQuiet: the flush is one marker item on an atomic queue; that `nv_kthread_q_flush` sends two only adds waiting.
- PerOpen.SuspendedKeepsOut: backlight and procfs entries are not modelled; the backlight ones take `nvkms_lock` without the PM lock.
- PerOpen: a client does not use a per-open it has closed and has no ioctl running on it when it closes it; the file layer guarantees this for files.
- FlipEvents: one CRTC at a time; the loop of a commit over several CRTCs, and the time limit of a wait, which is a free choice.
- DeltaConfig: composition modes, rotation, tearing and present interval are one value applied with the surface; syncpoint file descriptors and fence unpacking are a flag that refuses the commit.
- DeltaConfig.AlwaysInSyncIff: core NVKMS is taken to do what it is asked, field by field, and to turn a requested head without displays off; it may refuse a commit, which is not modelled, and the KAPI layer passes on no source position of an overlay and no destination position of the primary layer.
- VaRanges: page tables, physical memory, policies other than their cut of a range, the semaphore-pool branch of mmap, and the locks around each call.
- CpuFault: servicing a fault, ECC counters, tools events and sleeping time; the outcomes of each attempt are parameters.
- CpuFault.UvmFaults.VmFault: follows the fault for a given number of attempts; the driver's loop has no bound of its own.
- FenceTimeline: dma-fence reference counts, callbacks and the semaphore surface.
- GEM objects, dma-buf, nvidia-peermem, display-mode conversion, class headers and format tables: reference counting that is not part of this code, or easy table facts.
