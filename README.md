# Sequential cores of an srsRAN fork, modelled in Dafny

This project models the sequential logic in a fork of the srsRAN 5G RAN
stack and proves properties of it. There is one Dafny module per source
file:

- `TaskWorkerPool` (`task_worker_pool.dfy`) covers the task worker pools'
  configuration. It checks the CPU-mask array and picks each worker's mask.
  It builds the per-worker "active" flags (`is_yield`): in pools whose name
  mentions `up_phy_dl` or `pusch`, only the first max(n/2, 1) workers start
  active. It also covers the force-sleep and force-wake controls, the
  worker-index counter that pop loops claim, and the prioritized pool's
  configuration checks.
- `ThreadControl` (`thread_controller.dfy`) covers the DL and PUSCH thread
  controllers' telemetry rings. These are fixed-size circular buffers with
  wrap-around indices and running sums. The execution-time and wait-time
  sums are an invariant of the class. The pop-interval sum is not, and the
  model keeps the source's behaviour there.
- `UplaneUplinkSymbolManager` (`uplane_symbol_manager.dfy`) covers the O-RAN
  fronthaul uplink U-plane symbol manager. It dispatches on the filter
  index. On the PRACH path it takes L_RA = 839 samples at offset k-bar
  (section 6.3.3.1 and Table 6.3.3.2-1 of 3GPP TS 38.211). On the grid path
  it clips each section to the DU's PRBs, at 12 subcarriers per resource
  block (section 4.4.4.1 of 3GPP TS 38.211). Within one context copy it
  announces each symbol at most once. The repository hands out copies
  that are never written back, so two frames for the same slot can both
  announce the same symbol.
- `E2smKpm` (`e2sm_kpm.dfy`) covers the E2SM-KPM action admission
  validator. It handles RIC styles 1 to 5 with their action definition
  formats, the RIC Action Definition IE of O-RAN E2SM-KPM (section 8.2.1.2
  of version 3). It also includes the fixed test-condition predicate and
  the report-service choice.
- `MacUeReconfiguration` (`mac_ue_reconfiguration.dfy`) covers the MAC UE
  reconfiguration procedure. It has five steps in a fixed order, skips the
  bearer steps when their list is empty, and stops at the first failure.
- `F1uCuUpBearer` (`f1u_bearer.dfy`) covers the CU-UP F1-U bearer's stop
  logic: the tunnel is disconnected on the first stop only.
- `Wrappers` (`wrappers.dfy`) holds `Option` and `Outcome`.

Where the source updates objects in place, the model uses classes with
`modifies` frames: the worker pool, the thread controllers, the symbol
manager's buffers and grid, and the F1-U bearer. The validators and the
response builders are functions.

Effects on collaborators are recorded in fields:

- the F1-U disconnector and DL notification timer;
- the OFH notifier and error log.

The following are inputs rather than code that is modelled:

- the OFH packet decoder and the two context repositories;
- the MAC step outcomes.

## Model

| member | source | states |
|---|---|---|
| TaskWorkerPool.CpuMasksAccepted | lib/support/executors/task_worker_pool.cpp:40-43 | A mask array is accepted exactly when it has at most one mask or one mask per worker. |
| TaskWorkerPool.MaskFor | lib/support/executors/task_worker_pool.cpp:53-63 | Worker i gets no mask for an empty array, the single mask when there is one, and mask i otherwise. |
| TaskWorkerPool.ActiveWorkers | lib/support/executors/task_worker_pool.cpp:45 | The active-worker count is at least 1 and at most n (for n > 0). It is 1 for n < 2 and floor(n/2) otherwise. |
| TaskWorkerPool.InitialYieldAt | lib/support/executors/task_worker_pool.cpp:46-47 | Worker i starts inactive exactly when i is past the active-worker count and the pool is throttled. |
| TaskWorkerPool.WorkerZeroStartsActive | lib/support/executors/task_worker_pool.cpp:45-47 | In every non-empty pool, worker 0 starts active. |
| TaskWorkerPool.UnthrottledPoolFullyActive | lib/support/executors/task_worker_pool.cpp:45-47 | A pool whose name mentions neither "up_phy_dl" nor "pusch" starts with all n workers active. |
| TaskWorkerPool.ThrottledPoolActiveCount | lib/support/executors/task_worker_pool.cpp:45-47 | A throttled pool starts with exactly max(n/2, 1) workers active. |
| TaskWorkerPool.PriorityPoolCheck | lib/support/executors/task_worker_pool.cpp:97-108 | Checks run in source order: mask array, then workers > 0, then at least 2 queues. Each error is reported exactly when the earlier checks pass and its own fails. |
| TaskWorkerPool.WorkerPool.constructor | lib/support/executors/task_worker_pool.cpp:31-64 | The flags, condition variables, mutexes and threads each have nof_workers entries. `is_yield` is the throttling pattern. Each condition variable and mutex is fresh and distinct. Thread i carries the pool name, index i, the priority and MaskFor's mask. |
| TaskWorkerPool.WorkerPool.UpdateId | lib/support/executors/task_worker_pool.cpp:88-93 | `id` grows by exactly one and the new value is returned. |
| TaskWorkerPool.WorkerPool.ClaimWorkerIndex | lib/support/executors/task_worker_pool.cpp:216-226 | The claimed 1-based index lies in 1..nof_workers when fewer than nof_workers indices were claimed before. The flag read is `is_yield[index - 1]`. |
| TaskWorkerPool.WorkerPool.ThreadForceSleep | lib/support/executors/task_worker_pool.cpp:295-300 | An in-range index clears exactly that flag, whatever its prior value. An out-of-range index is a fatal error and changes nothing. |
| TaskWorkerPool.WorkerPool.ThreadForceWake | lib/support/executors/task_worker_pool.cpp:302-307 | An in-range index sets exactly that flag, whatever its prior value. An out-of-range index is a fatal error and changes nothing. |
| ThreadControl.SumUpdate | lib/support/thread_controller.cpp:10-15 | Overwriting one slot changes a ring's sum by the new value minus the old one. This is why the running sums stay exact. |
| ThreadControl.SumZeros | lib/support/thread_controller.cpp:51-57 | Zero-filled rings sum to zero, matching the initial running sums. |
| ThreadControl.Advance | lib/support/thread_controller.cpp:13 | A ring index advances by one and wraps to 0 after the last slot, so it stays in range. |
| ThreadControl.ThreadController.Dl | lib/support/thread_controller.cpp:51-72 | The DL controller starts with zero-filled 100-slot rings and a 200-slot timestamp ring. Indices, sums and counters start at zero, and the class invariant holds. |
| ThreadControl.ThreadController.Pusch | lib/support/thread_controller.cpp:123-144 | The PUSCH controller has the same initial state with a 100-slot timestamp ring. It shares every update operation with the DL controller. |
| ThreadControl.ThreadController.UpdateExecTime | lib/support/thread_controller.cpp:10-15 | Only slot exec_len is overwritten. The index advances modulo 100. `exec_sum` stays equal to the ring's sum. |
| ThreadControl.ThreadController.UpdateWaitTime | lib/support/thread_controller.cpp:17-22 | UpdateExecTime's guarantees, on the wait ring. |
| ThreadControl.ThreadController.UpdatePopTime | lib/support/thread_controller.cpp:24-32 | When `prev` is 0, only `prev` changes. Otherwise t - prev is stored at interval_len and the index wraps. `interval_sum` loses the slot at exec_len and gains t. |
| ThreadControl.PopIntervalSumDrift | lib/support/thread_controller.cpp:24-32 | On a fresh DL controller, a first pop at any non-zero time t1 and a second at t2 leave `interval_sum` at t2 while the interval ring sums to t2 - t1. A first pop at time 0 counts as "no previous pop", so both stay 0. |
| ThreadControl.ThreadController.UpdateLength | lib/support/thread_controller.cpp:34-43 | The trend counter goes up when the new length exceeds the overwritten one. Otherwise it goes down if positive. It never goes negative. The length is stored and the index wraps. |
| ThreadControl.ThreadController.UpdateTaskTime | lib/support/thread_controller.cpp:45-49 | The pair (t1, t2) is written at create_len. The index wraps at the ring's own size (200 for DL, 100 for PUSCH at lines 117-121), so every write is in bounds. |
| UplaneUplinkSymbolManager.PrachLookupSlot | lib/ofh/receiver/ofh_uplane_uplink_symbol_manager.cpp:72 | The PRACH context is looked up at the same numerology, SFN and subframe, at slot index 0. |
| UplaneUplinkSymbolManager.PrachLength | lib/ofh/receiver/ofh_uplane_uplink_symbol_manager.cpp:89-91 | L_RA is 839 exactly for long preambles and 139 otherwise. |
| UplaneUplinkSymbolManager.NofPrbsToWrite | lib/ofh/receiver/ofh_uplane_uplink_symbol_manager.cpp:130-136 | The PRB count written is the section's own count or the rest of the grid, whichever is smaller. It never reaches past the grid. |
| UplaneUplinkSymbolManager.SectionData | lib/ofh/receiver/ofh_uplane_uplink_symbol_manager.cpp:138-143 | The samples put into the grid never exceed the grid width in subcarriers. |
| UplaneUplinkSymbolManager.GridWritesStayInGrid | lib/ofh/receiver/ofh_uplane_uplink_symbol_manager.cpp:124-143 | For every section that starts inside the grid, the clipped PRBs end inside the grid. The data copied is 12 samples per clipped PRB. |
| UplaneUplinkSymbolManager.ContextAfterGrid | lib/ofh/receiver/ofh_uplane_uplink_symbol_manager.cpp:145-156 | The context copy keeps its slot and grid. Its announced-symbol set only grows. |
| UplaneUplinkSymbolManager.PrbsAddedCountsSections | lib/ofh/receiver/ofh_uplane_uplink_symbol_manager.cpp:145 | The symbol counter grows by the grid width times the number of sections that start inside the grid. |
| UplaneUplinkSymbolManager.PutGrid | lib/ofh/receiver/ofh_uplane_uplink_symbol_manager.cpp:138-143 | The symbol's row begins with the data and is otherwise unchanged. Every other row is unchanged. |
| UplaneUplinkSymbolManager.PutSection | lib/ofh/receiver/ofh_uplane_uplink_symbol_manager.cpp:124-143 | A section starting past the grid is skipped. Any other is copied, clipped, into the symbol's row. Other rows are untouched. |
| UplaneUplinkSymbolManager.PutNextSection | lib/ofh/receiver/ofh_uplane_uplink_symbol_manager.cpp:124-146 | One pass of the section loop: the row and the counter each move one section further along GridRowAfter and PrbsAdded. Other rows are untouched. |
| UplaneUplinkSymbolManager.PutSections | lib/ofh/receiver/ofh_uplane_uplink_symbol_manager.cpp:123-146 | The row ends as the sections put in order. The counter grows by the grid width per copied section. Other rows are untouched. |
| UplaneUplinkSymbolManager.SymbolManager.constructor | lib/ofh/receiver/ofh_uplane_uplink_symbol_manager.cpp:33-41 | The manager keeps the DU's PRB count. It starts with no notifications and no logged errors. |
| UplaneUplinkSymbolManager.SymbolManager.OnNewFrame | lib/ofh/receiver/ofh_uplane_uplink_symbol_manager.cpp:43-67 | A decoding error or another filter index changes nothing. The PRACH filter takes only the PRACH path: the outcome carries the updated PRACH context copy, and the state is exactly what HandlePrachPrbs promises (the two-state predicate PrachPathDone). The standard filter takes only the grid path: the outcome carries the updated slot context copy, and the state is exactly what HandleGridPrbs promises (GridPathDone). Only the looked-up buffer or grid can be written. |
| UplaneUplinkSymbolManager.SymbolManager.HandlePrachPrbs | lib/ofh/receiver/ofh_uplane_uplink_symbol_manager.cpp:69-113 | Without a context, nothing changes. When k-bar + L_RA does not fit, one error is logged and nothing is copied or announced. Otherwise the L_RA samples from offset k-bar become the start of the symbol's buffer row and the rest is unchanged. The copy records L_RA written and is marked notified. The notifier is called once with the context's slot. |
| UplaneUplinkSymbolManager.SymbolManager.HandleGridPrbs | lib/ofh/receiver/ofh_uplane_uplink_symbol_manager.cpp:115-157 | Without a context, nothing changes. Otherwise the symbol's row is the sections put in order, and other rows are unchanged. The counter gains the grid width per section inside the grid. The symbol is announced, and its bit set, exactly when the counter equals the grid width and the bit was clear. |
| UplaneUplinkSymbolManager.AnnouncedAtMostOnce | lib/ofh/receiver/ofh_uplane_uplink_symbol_manager.cpp:149-156 | After a symbol is announced, its bit is set in the returned context copy. No later grid path on that copy announces it again. |
| UplaneUplinkSymbolManager.TwoFramesAnnounceTwice | lib/ofh/receiver/ofh_uplane_uplink_symbol_manager.cpp:115-157 | The at-most-once guarantee does not hold across frames. Two frames for symbol 0 of the same slot on a one-PRB grid each carry one section inside the grid, and both announce the symbol. The context copy taken at line 118 is never stored back. |
| UplaneUplinkSymbolManager.AnnouncedOnlyForOneSection | lib/ofh/receiver/ofh_uplane_uplink_symbol_manager.cpp:145-156 | Take a symbol with a zero counter on a non-empty grid. It is announced exactly when one section starts inside the grid. Two such sections overshoot the width. |
| E2smKpm.SupportedTestCondType | lib/e2/e2sm/e2sm_kpm_impl.h:36-47 | True for CQI, RSRP and RSRQ, and false for every other test-condition type. |
| E2smKpm.KpmServiceModel.constructor | lib/e2/e2sm/e2sm_kpm_impl.cpp:19-26 | The metric list is exactly ["CQI", "RSRP", "RSRQ"]. It is constant afterwards. |
| E2smKpm.KpmServiceModel.CellSupported | lib/e2/e2sm/e2sm_kpm_impl.cpp:52-56 | Every cell is admitted. |
| E2smKpm.KpmServiceModel.UeSupported | lib/e2/e2sm/e2sm_kpm_impl.cpp:58-62 | Every UE is admitted. |
| E2smKpm.KpmServiceModel.TestCondSupported | lib/e2/e2sm/e2sm_kpm_impl.cpp:64-68 | Every test condition is admitted. |
| E2smKpm.KpmServiceModel.FindMetric | lib/e2/e2sm/e2sm_kpm_impl.cpp:75-79 | The search from a position succeeds exactly when the name occurs in the list at or after it. |
| E2smKpm.KpmServiceModel.MetricSupported | lib/e2/e2sm/e2sm_kpm_impl.cpp:70-82 | True exactly when the name is in the metric list. It does not depend on label, level or cell scope. |
| E2smKpm.KpmServiceModel.LabelsAdmitted | lib/e2/e2sm/e2sm_kpm_impl.cpp:95-109 | One item's labels are admitted exactly when every label is NO_LABEL on a supported metric. |
| E2smKpm.KpmServiceModel.MeasInfoListAdmitted | lib/e2/e2sm/e2sm_kpm_impl.cpp:84-119 | A list is admitted exactly when every item's labels are all NO_LABEL on a supported metric. Empty lists and label-less items pass. |
| E2smKpm.ConstructedModelAdmitsOnlyKnownMetrics | lib/e2/e2sm/e2sm_kpm_impl.cpp:84-119 | With the constructor's metrics (line 25), a list is admitted exactly when all labels are NO_LABEL and every labelled item names CQI, RSRP or RSRQ. |
| E2smKpm.KpmServiceModel.Format1Admitted | lib/e2/e2sm/e2sm_kpm_impl.cpp:121-142 | Admitted exactly when the granularity period is non-zero and the measurement info list is acceptable. |
| E2smKpm.KpmServiceModel.MatchingCondsAdmitted | lib/e2/e2sm/e2sm_kpm_impl.cpp:190-209 | An item's conditions are admitted exactly when its name is supported or it has no measurement-label condition. |
| E2smKpm.KpmServiceModel.MeasCondListAdmitted | lib/e2/e2sm/e2sm_kpm_impl.cpp:189-211 | Every measurement-label condition names a supported metric. Test conditions never reject. |
| E2smKpm.KpmServiceModel.Format3Admitted | lib/e2/e2sm/e2sm_kpm_impl.cpp:169-212 | Rejected exactly for a zero period or a measurement-label condition on an unsupported metric. |
| E2smKpm.KpmServiceModel.UeCondsAdmitted | lib/e2/e2sm/e2sm_kpm_impl.cpp:219-226 | Format 4's UE-condition list never rejects. |
| E2smKpm.KpmServiceModel.UeIdsAdmitted | lib/e2/e2sm/e2sm_kpm_impl.cpp:239-245 | Format 5's UE list never rejects. |
| E2smKpm.UnsupportedTestCondsAdmitted | lib/e2/e2sm/e2sm_kpm_impl.cpp:64-68 | The test-condition check never consults the supported test-condition types. GBR is not among them, yet the check admits it. A style-4 action is admitted exactly when its subscription info is, whatever its UE conditions. |
| E2smKpm.KpmServiceModel.ActionSupported | lib/e2/e2sm/e2sm_kpm_impl.cpp:28-50 | A style outside 1..5 is not admitted. Styles 1, 2, 4 and 5 decide exactly as format 1 on their (embedded) format-1 definition. Style 3 decides as format 3. |
| E2smKpm.ToUint32 | lib/e2/e2sm/e2sm_kpm_impl.cpp:255 | The narrowed style lies in 0 .. 2^32 - 1, differs from the style by a multiple of 2^32, and equals it when the style already fits. |
| E2smKpm.KpmServiceModel.GetReportService | lib/e2/e2sm/e2sm_kpm_impl.cpp:251-276 | The style is narrowed to `uint32_t` first (line 255). A service exists exactly when the narrowed style is 1 or 3, of the matching kind; for styles in 0 .. 2^32 - 1 that is exactly styles 1 and 3. Every other style yields none. |
| E2smKpm.WrappedStyleGetsService | lib/e2/e2sm/e2sm_kpm_impl.cpp:28-50 | Style 2^32 + 1 is not admitted by the action check (which switches on the unnarrowed style), yet the report-service choice at lines 251-276 builds a style-1 service for it. |
| MacUeReconfiguration.PlannedSteps | lib/mac/mac_ctrl/ue_reconfiguration_procedure.cpp:32-68 | The scheduler step is always planned. Add/mod steps are planned exactly when there are bearers to add or modify, and remove steps exactly when there are bearers to remove. The plan's length follows. |
| MacUeReconfiguration.HandleResult | lib/mac/mac_ctrl/ue_reconfiguration_procedure.cpp:74-87 | The response carries the request's UE index and the given result. |
| MacUeReconfiguration.Run | lib/mac/mac_ctrl/ue_reconfiguration_procedure.cpp:27-72 | The invoked steps are a non-empty prefix of the plan, in plan order. All but the last succeeded, and a shorter prefix ends in a failure. The result is true exactly when every invoked step succeeded, and also exactly when the whole plan ran and succeeded. The scheduler step runs exactly when the add steps succeeded or were skipped. |
| MacUeReconfiguration.InvokedPrefixFollowsPlan | lib/mac/mac_ctrl/ue_reconfiguration_procedure.cpp:47-68 | Every invoked prefix has the scheduler step at most once. It has a remove step only when there are bearers to remove. |
| F1uCuUpBearer.F1uBearer.constructor | lib/f1u/cu_up/f1u_bearer_impl.h:89-94 | The bearer starts unstopped with the given tunnel. Nothing has been disconnected and no timer stops have happened. |
| F1uCuUpBearer.F1uBearer.Stop | lib/f1u/cu_up/f1u_bearer_impl.h:59-66 | Every call stops the timer once. Only the first call disconnects the bearer's own tunnel. Afterwards the bearer is stopped and has been disconnected at most once. |
| F1uCuUpBearer.F1uBearer.Destroy | lib/f1u/cu_up/f1u_bearer_impl.h:54 | The destructor stops the bearer. Afterwards it has been disconnected exactly once. |
| F1uCuUpBearer.F1uBearer.GetUlTnlInfo | lib/f1u/cu_up/f1u_bearer_impl.h:73 | Returns the tunnel assigned at construction. |
| F1uCuUpBearer.F1uBearer.GetUlTeid | lib/f1u/cu_up/f1u_bearer_impl.h:77 | Returns that tunnel's GTP-U TEID. |

## Left out

- Worker pool concurrency is not modelled because it is threading rather than sequential logic. This covers:
  - worker threads and their queues (push/pop blocking);
  - stop and join;
  - the wait-for-pending-tasks barrier;
  - condition-variable waits in the pop loops;
  - `is_in_thread_pool`.

  Condition variables and mutexes are plain objects.
- Pop-loop instrumentation is not modelled, because it is wall-clock time and console output. This covers the system-clock timestamps and the prints.
- Worker threads are recorded as values: pool name, index, priority and mask. The `"<name>#<index>"` thread name formatting and the OS thread creation are not modelled.
- TaskWorkerPool.WorkerPool.ClaimWorkerIndex: the `id` counter is declared in a header that is not part of this model; it is taken to belong to its pool and to start at 0. The member requires that fewer than nof_workers indices were claimed before; the source has no such guard, and a later claim would read past the vectors. The only lock guarding the counter is the file-scope `incre_mutex` (line 27), so the counter may be shared by all pools. If it is, every pool after the first claims indices past its own vectors (lines 217-218), and this member's precondition never holds for it.
- TaskWorkerPool.WorkerPool.constructor: a mask array that fails the check is excluded by its precondition, because the source aborts there. The failure is modelled as a value by PriorityPoolCheck.
- The thread controllers' `getInstance` singletons are left out; each controller is an ordinary object.
- The source's `long` and `int` fields can overflow, but the model's integers are unbounded.
- `finish_time`, `finish_len` and `len_sum` are never written by any operation, so they are left out.
- In the OFH symbol manager, IQ samples have an opaque element type T. The model does not cover:
  - the packet decoder, which is an input;
  - the PRACH and uplink-slot repositories, which are maps from slot to context;
  - the preamble-information and frequency-mapping tables, which give k-bar as a field of the PRACH context.
- UplaneUplinkSymbolManager.SymbolManager.HandlePrachPrbs: preconditions replace the source's assertions. The preamble format must be long, and the context has one port and one frequency- and time-domain occasion. The PRACH buffer is the two-dimensional symbol-by-sample array of that port and occasion.
- UplaneUplinkSymbolManager.SymbolManager.HandlePrachPrbs: the source reads the first section of a non-empty section list, which is a precondition here. A section that passes the segmentation check must hold k-bar + L_RA samples, counted from its first sample whatever its start PRB (the span bound at lines 105-106). A section that fails the check is not read and needs no samples.
- UplaneUplinkSymbolManager.SymbolManager.HandleGridPrbs: a section starting inside the grid must hold samples up to (start_prb + the clipped PRB count) * 12, because the source slices from start_prb * 12 (the span bound at lines 142-143). A section starting past the grid is skipped unread and needs no samples, and a frame for a slot without a context is not read at all and needs none. So the two paths index a section's samples differently: the grid path offsets by start_prb and the PRACH path does not.
- The repositories return contexts by value, so counter and flag updates are made on a copy. Each handler returns its copy instead of writing it back, and the repositories themselves are not updated.
- UplaneUplinkSymbolManager.AnnouncedAtMostOnce: holds only within one context copy. The repository's own storage is declared in a header that is not part of this model. As written, the handler never writes its copy back, so a later frame starts again from the stored counters and bits, and the symbol can be announced again (TwoFramesAnnounceTwice).
- E2SM-KPM ASN.1 decoding and packing are left out; action definitions are datatypes that keep only the fields the validators read.
- E2smKpm.KpmServiceModel.MeasInfoListAdmitted: a measurement type is either a name or an ID, and the model keeps only the name. Metrics identified by ID are not modelled. The source calls `meas_name()` on every item (lines 76 and 93), and on the ID choice that is an invalid choice access.
- E2smKpm.KpmServiceModel.MeasCondListAdmitted: as for MeasInfoListAdmitted, only named measurement types are modelled. The source passes every format-3 measurement type to `metric_supported` (lines 190 and 204), which reads the name.
- In E2SM-KPM, the label contents beyond NO_LABEL, the printed summary of admitted metrics, debug logging, and the report-service classes are left out. The report service is modelled by its kind and definition.
- E2smKpm.KpmServiceModel.ActionSupported: requires that the format choice matches the style, as the decoder's choice accessors demand.
- The MAC procedure's coroutine machinery and its UL, DL and scheduler collaborators are reduced to a success or failure per step. Logging is left out.
- The F1-U bearer's PDU and SDU handling and its notifiers are left out. The disconnector and timer are recorded as a call log and a stop count.
