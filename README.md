# EtherCAT master: domains and the slave request state machine

This project is a Dafny model of two parts of the IgH EtherCAT master kernel
module, with proofs about that model.

- **Domains (master/domain.c).** A domain is the process-data image that an
  application exchanges with the bus every cycle. It is built from the FMMU
  configurations of its slave configurations. `ec_domain_finish` moves every
  FMMU to the domain's logical base address. It then cuts the FMMU list
  greedily into datagrams of at most `EC_MAX_DATA_SIZE` (1486) bytes, and sets
  up one datagram pair (main and backup link) per datagram. For each datagram,
  `shall_count` decides how many slave-configuration slots of each direction
  it carries. The expected working counters of the pairs add up to the
  domain's. Each cycle, `ecrt_domain_process` does three things:
  - it walks the input FMMUs over the pairs and decides, for each FMMU, whether
    to copy its data from the backup datagram into the main one;
  - it sums the pairs' working counters;
  - it counts changes of that sum and rate-limits their notification.

  `ecrt_domain_state` classifies the working counter as ZERO, INCOMPLETE or
  COMPLETE.
- **Slave request state machine (master/fsm_slave.c).** Each slave has a
  small state machine that serves requests from the application: SDO (CoE),
  register, FoE and SoE requests. In READY it tries the four queues in this
  fixed order. Each action dequeues one request. It either aborts the request
  (FAILURE) or starts it (BUSY), depending on the slave's application-layer
  state. A started transfer is driven by its protocol's sub-machine until it is
  done, and then the machine is READY again.

Module `Globals` (globals.dfy) holds the fixed-width integers and the
constants. Module `Domain` (domain.dfy) has three parts:
- pure functions for the layout (`Layout`) and the process walk (`WalkTo`);
- lemmas about those functions;
- `class Domain`, whose methods update the domain's fields in place and are
  proved against the functions.

Module `SlaveFsm` (fsm_slave.dfy) models the requests, the datagram, the
slave and the machine as classes. This is because the C code changes request
states through shared pointers.

Foreign calls are parameters of the model:
- `env` is what `ec_datagram_pair_init` answers for each request;
- `wcs` is what `ec_datagram_pair_process` answers for each pair;
- `changed` is the set of questions that `ec_datagram_pair_data_changed`
  answers yes;
- `step` is the step of a CoE/FoE/SoE sub-machine: `Running` or
  `Done(success)`;
- `allocation` is the allocator's answer;
- `now` and `hz` stand for `jiffies` and `HZ`.

## Model

| member | source | states |
|---|---|---|
| Domain.Domain.constructor | master/domain.c:56-74 | A new domain has no FMMUs and no pairs, no memory of its own (internal origin), data size 0 and all counters 0. The invariant holds: the data size is the FMMUs' total and the expected working counter is the 16-bit sum of the pairs' ones. |
| Domain.Domain.ClearData | master/domain.c:98-108 | Afterwards the domain has no memory and the origin is internal. |
| Domain.Domain.AddFmmuConfig | master/domain.c:114-127 | `data_size` grows by exactly the FMMU's size. The FMMU is appended at the tail and earlier entries are unchanged. `data_size` stays the total of the FMMU sizes. |
| Domain.TotalAppend | master/domain.c:119-122 | Appending an FMMU adds exactly its size to the total process-data size. |
| Domain.ReturnCode | master/domain.c:150-172 | The return value is never positive, and it is 0 exactly when the pair was set up. |
| Domain.Domain.AddDatagramPair | master/domain.c:139-173 | On success the pair is appended at the tail and its expected working counter is added (16-bit wrap). On allocation or init failure the negative code is returned and the pair list and expected working counter are unchanged. Either way the expected working counter stays the 16-bit sum of the pairs' ones. |
| Domain.ShallCount | master/domain.c:185-202 | Returns 0 iff some FMMU from `first` up to, but excluding, `cur` has the same slave configuration and direction as `cur`; otherwise it returns 1. |
| Domain.Domain.Finish | master/domain.c:216-316 | Sets the logical base address. An internal allocation failure returns `-ENOMEM` with FMMUs, pairs and expected WC unchanged. Otherwise the return code, FMMU list, pair list and expected WC are exactly `FinishSpec`. The invariant is kept: `data_size` stays the total and the expected WC stays the 16-bit sum of the pairs' ones. |
| Domain.Domain.LayOut | master/domain.c:242-299 | The partition loop with the last datagram yields exactly `FinishSpec` and keeps the total FMMU size. |
| Domain.Domain.LayOutStep | master/domain.c:257-287 | One turn moves one FMMU's address, counts its slot before the fit check, and cuts and adds a pair when it does not fit. A failure ends with `FinishSpec`'s result. |
| Domain.Domain.AddChunkPair | master/domain.c:270-276 | Adding the pair for a cut datagram either extends the pairs for all earlier datagrams by its pair, or returns the error with nothing changed. |
| Domain.FinishSpecAllSetUp | master/domain.c:246-299 | When every pair can be set up, finish returns 0 and moves every FMMU by the base address exactly once. It appends one pair per datagram; pair k starts at base plus the bytes of the earlier datagrams and has datagram k's size. The datagrams carry the whole process data. |
| Domain.FinishSucceeded | master/domain.c:289-315 | When pairs for the whole layout were added, `FinishSpec` is return code 0 with every FMMU moved and the total unchanged. |
| Domain.FinishFailed | master/domain.c:270-297 | When the pair of a datagram fails, finish stops with that error. Only the FMMUs up to the one that caused the cut are moved, and only the earlier pairs are kept. |
| Domain.CutFailed | master/domain.c:270-276 | A failed pair inside the loop gives `FinishSpec`'s result with the FMMUs up to the current one moved. |
| Domain.LastFailed | master/domain.c:291-297 | A failed last pair gives `FinishSpec`'s result with all FMMUs moved. |
| Domain.LayoutCovers | master/domain.c:246-299 | Each datagram starts where the earlier ones end, the first at offset 0, and the datagram sizes sum to the total FMMU size. |
| Domain.LayoutWithinLimit | master/domain.c:268-287 | If every FMMU fits into one datagram (the assumption the `\todo` at line 211 leaves unchecked), every datagram is non-empty and at most `EC_MAX_DATA_SIZE` bytes. |
| Domain.LayoutOfEmpty | master/domain.c:252-299 | An empty FMMU list yields no datagrams. |
| Domain.OversizedHeadGivesEmptyDatagram | master/domain.c:211 | An FMMU larger than the limit at the head of the list makes finish request an empty datagram first. |
| Domain.ScanPrefix | master/domain.c:257-287 | Datagrams cut early in the loop are never changed later. |
| Domain.LayoutUsed | master/domain.c:262-283 | Datagram k is opened where datagram k-1 was cut. Its counters count each fresh slot once, from the FMMU after its opening one up to and including the FMMU looked at when it was cut. So the opening FMMU is counted in the previous datagram. |
| Domain.SingleDatagram | master/domain.c:285-299 | If the whole process data fit into one datagram, there is exactly one datagram (none if there is no data). Its counters are the number of distinct slave configurations with output FMMUs and with input FMMUs. |
| Domain.OpeningFmmuCountedInPreviousDatagram | master/domain.c:264-283 | For two 1000-byte output FMMUs of different slave configurations, the first datagram counts two output slots and the second counts none. |
| Domain.ShiftedAt | master/domain.c:257-260 | After the loop has passed n FMMUs, each of them has moved by the base address once and the others are untouched. |
| Domain.ShiftedLayout | master/domain.c:257-270 | Moving addresses changes neither the total size nor the layout. |
| Domain.PairsOfDescribe | master/domain.c:271-274 | Pair k's logical address is base plus the bytes of the earlier datagrams (32-bit wrap). Its data offset is those bytes, and its size and counters are datagram k's. |
| Domain.PairsAppended | master/domain.c:271-298 | The pairs of all datagrams follow the existing pairs, one per datagram, each placed at its datagram's offset. |
| Domain.AcceptedIs | master/domain.c:271-276 | The number of pairs set up before finish stops is the position of the first datagram whose pair fails. |
| Domain.WrapU16Add | master/domain.c:163-164 | Adding to a 16-bit counter step by step equals wrapping the total once. |
| Domain.WrapU16Step | master/domain.c:163-164 | A running 16-bit sum with one more term added and wrapped equals the whole sum wrapped once. |
| Domain.EwcSumSnoc | master/domain.c:159-164 | Appending a pair adds its expected working counter (16-bit) to the pairs' sum. |
| Domain.EwcSumPairsOf | master/domain.c:163-164 | Appending the pairs for the first n datagrams adds exactly their expected working counters to the sum. |
| Domain.FinishKeepsSum | master/domain.c:216-316 | If the expected working counter is the sum of the pairs' ones before finish, it still is afterwards, whether finish succeeds or stops at a failed pair. |
| Domain.AllAnsweredSum | master/domain.c:418-530 | When every pair answers its own expected working counter, the 16-bit sum of the answers equals the sum of the expected working counters. |
| Domain.Domain.FmmuCount | master/domain.c:322-332 | The count equals the length of the FMMU list. |
| Domain.Domain.FindFmmu | master/domain.c:338-352 | Returns the FMMU at position `pos` when `pos` is less than the count, and none (NULL) otherwise. |
| Domain.Domain.ExternalMemory | master/domain.c:394-407 | The application's memory becomes the domain's, with external origin. |
| Domain.Domain.State | master/domain.c:560-573 | Reports the domain's working counter. ZERO iff it is 0; COMPLETE iff it is non-zero and equals the expected one; INCOMPLETE otherwise. |
| Domain.NextHolder | master/domain.c:461-482 | The inner loop stops at the first pair from the current one whose main datagram holds the FMMU's address. No earlier pair holds it. |
| Domain.NextHolderNone | master/domain.c:466-482 | The inner loop finds no pair exactly when no pair from the current one holds the address. |
| Domain.WalkCopies | master/domain.c:452-506 | Every copy the walk makes has three properties. It lies inside the main datagram of an existing pair no further than the walk has reached. It starts where an input FMMU starts and has that FMMU's size. The copy decision allows it: no change on the main link, and either a change on the backup link or a complete pair working counter. |
| Domain.WalkStepDecides | master/domain.c:456-506 | One turn on an input FMMU stops at the first pair, from the current one, whose main datagram holds the FMMU's address. If the copy decision allows it there, exactly that FMMU's copy is appended; otherwise the copies are unchanged. |
| Domain.WalkCopiesPrefix | master/domain.c:451-507 | Copies once made stay: the copies after the first m FMMUs begin the copies after the first n, for m <= n. |
| Domain.WalkCopiesComplete | master/domain.c:451-507 | The converse of `WalkCopies`. Input FMMU j's turn stops at the first pair, from where the walk stood, that holds its address. If the copy decision allows a copy there, that copy (this pair, the FMMU's offset in it, its size) is among the walk's copies. |
| Domain.WalkCopiesOrdered | master/domain.c:452-507 | The walk only moves forward: copies are made in the order of the pairs, and none is made beyond the current pair. |
| Domain.WcSumIsWrappedSum | master/domain.c:420-477 | The running 16-bit `working_counter_sum` equals the true sum of the working counters truncated to 16 bits. |
| Domain.Seek | master/domain.c:461-482 | The inner loop stops at `NextHolder`, with the FMMU's offset inside that main datagram. The running sum covers every pair up to it. |
| Domain.FirstSum | master/domain.c:432-449 | The first pair, if there is one, is processed before the FMMU loop. |
| Domain.WalkInputs | master/domain.c:451-507 | The FMMU loop ends where `WalkTo` says, with its copies, and the sum covers the pairs processed. |
| Domain.ProcessRemaining | master/domain.c:432-512 | Processing the pairs after the last one reached makes the sum cover every pair (corrected behaviour, see Findings). |
| Domain.AsWrittenWorkingCounter | master/domain.c:432-482 | As written, the sum covers only the pairs up to the last one the walk reaches. It is 0 with no pairs, and it is the full sum when the walk reaches the last pair. |
| Domain.TwoOutputsLayout | master/domain.c:246-299 | Two 1000-byte output FMMUs of different slave configurations are finished into two pairs. The first counts both slots and expects 2; the second counts none and expects 0. The expected working counter is 2. |
| Domain.TrailingPairIgnored | master/domain.c:432-512 | For the pairs of `TwoOutputsLayout`, each answering 1, the as-written sum is 1. The sum over all pairs and the expected working counter are both 2. |
| Domain.Domain.Process | master/domain.c:418-530 | The copies are exactly those of the walk. The working counter becomes the 16-bit sum over all pairs, and a change increments the 32-bit change count. When changes are pending and more than `HZ` ticks have passed (unsigned difference), the notification time is taken and the count is cleared. When the invariant holds and every pair answers its expected working counter, the working counter equals the expected one, so a non-zero counter is COMPLETE. |
| SlaveFsm.Dequeued | master/fsm_slave.c:186-188 | `list_del_init` of the head: the first element followed by the result is the old queue, and an empty queue stays empty. |
| SlaveFsm.FirstQueued | master/fsm_slave.c:272-281 | The first internal register request in state QUEUED, with none before it; none if no request is QUEUED. |
| SlaveFsm.FindQueued | master/fsm_slave.c:272-281 | The search loop finds exactly `FirstQueued`. |
| SlaveFsm.Fsm.PendingReg | master/fsm_slave.c:272-289 | The register request taken is none iff no internal request is QUEUED and the external queue is empty. |
| SlaveFsm.Claim | master/fsm_slave.c:147-170 | Which action answers non-zero. SDO iff queued and not aborted. Register iff SDO did not claim and a register request exists, even one that is aborted. FoE iff neither did and an FoE request exists without the error flag. None iff no register request is taken, and every SDO, FoE and SoE queue is empty or its request aborted. |
| SlaveFsm.ReadyStateClaim | master/fsm_slave.c:147-170 | The state after READY is the state of the action that claimed the turn (IDLE for an aborted register request). When no action claimed it, the state is IDLE after an aborted SDO or SoE request and READY otherwise. |
| SlaveFsm.ReadyStartsOnlyAllowed | master/fsm_slave.c:147-170 | READY ends in a transfer state only for a queue that held a request the slave's state allows, with every earlier queue empty or aborted. It stays READY only if nothing but an FoE request of a slave in error was queued. |
| SlaveFsm.Fsm.constructor | master/fsm_slave.c:60-78 | The machine starts IDLE without requests, and the datagram's data size is 0. |
| SlaveFsm.Fsm.SetReady | master/fsm_slave.c:120-128 | IDLE becomes READY; any other state is kept. |
| SlaveFsm.Fsm.Exec | master/fsm_slave.c:101-114 | While the datagram is SENT or QUEUED, nothing the machine may write changes. Otherwise the current state function runs once (`StepSpec`: IDLE changes nothing, READY leaves `ReadySpec`, a request state leaves `RequestSpec`), and the state moves only along the machine's transitions. Its frame depends on the state: READY may write only the states of the queue heads and of the pending register request, and a request state only the state of its own current request (and, in the register state, its data). So every other request keeps its state and data. |
| SlaveFsm.Fsm.Step | master/fsm_slave.c:110-113 | One run of the state function (`StepSpec`). IDLE changes nothing (lines 136-141), READY leaves `ReadySpec` and a request state leaves `RequestSpec`. A request state also leaves `StatesKept`: every queue head, pending register request and old current request other than the one it works on keeps its state, and only the register state rewrites data. The state-dependent frame is the one of `Exec`. |
| SlaveFsm.Fsm.RequestStep | master/fsm_slave.c:110-113 | `RequestSpec`. An SDO, FoE or SoE state changes nothing while its sub-machine runs. Once it is done, the request becomes SUCCESS or FAILURE as the transfer did, it is no longer current, and the machine is READY. The register state ends READY: its request succeeds only when the datagram came back with working counter 1, and then a read copies the data back. Slave, datagram and the current pointers it does not clear are unchanged. `StatesKept`: every queue head, the pending register request and every old current request other than the one the state works on keep their state; register data change only in the register state, and only for its request. Its frame is only that request's state (and data in the register state). |
| SlaveFsm.Fsm.StateReady | master/fsm_slave.c:147-170 | `ReadySpec`. The SDO, register, FoE and SoE actions are tried in order until one answers non-zero. The final state is `ReadyState` of the queues. Each tried queue loses its head, which becomes FAILURE or BUSY, and a started request becomes the current one. A started SDO request leaves everything the later actions may write untouched (queues, head states, current requests, datagram). |
| SlaveFsm.Fsm.RegTail | master/fsm_slave.c:156-169 | `TailSpec`. The pending register request, if any, becomes current and ends the turn. A started one has the datagram set up for its access (FPRD with zeros or FPWR with its data, at the slave's station address, on its device); an aborted one leaves the datagram alone. In both cases the FoE and SoE queues, head states and current requests are unchanged. Without a register request, no register request is current and the FoE and SoE actions follow (`FoeSoeSpec`). |
| SlaveFsm.Fsm.FoeSoeTail | master/fsm_slave.c:161-169 | `FoeSoeSpec`. The FoE head, if any, is dequeued and fails or starts; a started FoE request ends the turn, leaving the SoE queue, its head state and the current SoE request unchanged. Otherwise the SoE head, if any, is dequeued and fails or starts. A current request that is not replaced stays. |
| SlaveFsm.Fsm.ActionProcessSdo | master/fsm_slave.c:178-222 | Nothing the register, FoE and SoE actions look at or write changes (`Tail`). An empty queue answers 0 and changes nothing; otherwise exactly the head is removed. With the error flag set or the slave in INIT, the request becomes FAILURE, the current SDO request is cleared, the machine goes IDLE and 0 is answered. Otherwise the request becomes BUSY and current, the machine goes to the SDO state and 1 is answered. |
| SlaveFsm.Fsm.StateSdoRequest | master/fsm_slave.c:228-257 | While CoE runs, the state and the request are unchanged. Once done, the request becomes SUCCESS or FAILURE as the transfer did, it is no longer current, and the machine is READY. |
| SlaveFsm.Fsm.ActionProcessReg | master/fsm_slave.c:265-324 | The first QUEUED internal request takes precedence; the external queue is dequeued only when there is none. With no request, 0 is answered. With the error flag, the request becomes FAILURE, the machine goes IDLE and 1 is answered. Otherwise the request becomes BUSY and the datagram is set up: FPRD with zeroed data for reads, FPWR with the request's bytes for writes, on the slave's device. The machine goes to the register state and 1 is answered. |
| SlaveFsm.Fsm.StateRegRequest | master/fsm_slave.c:330-370 | Without a request the machine just goes READY. A datagram that was not received makes the request FAILURE. Working counter 1 makes it SUCCESS and copies the data back for reads; any other working counter makes it FAILURE. The state always ends READY. |
| SlaveFsm.Fsm.ActionProcessFoe | master/fsm_slave.c:378-411 | The head is removed. With the error flag, the request becomes FAILURE, 0 is answered and the machine's state and current request are left unchanged (there is no INIT check). Otherwise the request becomes BUSY and current, the machine goes to the FoE state and 1 is answered. |
| SlaveFsm.Fsm.StateFoeRequest | master/fsm_slave.c:417-447 | While FoE runs, nothing changes. Once done, the request becomes SUCCESS or FAILURE as the transfer did, it is no longer current, and the machine is READY. |
| SlaveFsm.Fsm.ActionProcessSoe | master/fsm_slave.c:455-497 | As for SDO, except that an aborted request does not clear the current SoE request. |
| SlaveFsm.Fsm.StateSoeRequest | master/fsm_slave.c:503-532 | While SoE runs, nothing changes. Once done, the request becomes SUCCESS or FAILURE as the transfer did, it is no longer current, and the machine is READY. |

## Left out

- Logging (`EC_MASTER_*`, `EC_SLAVE_*`) and the `DEBUG_REDUNDANCY` blocks are not modelled.
- The `master_sem` lock in `ecrt_domain_external_memory` and every `wake_up` in fsm_slave.c are concurrency primitives and are left out.
- `kmalloc` and `kfree` are not modelled. `Finish` takes the allocator's answer as a parameter, and releasing internal memory in `ClearData` is not modelled.
- `jiffies` and `HZ` are the parameters `now` and `hz` of `Process`.
- `Domain.Domain.Process` wraps the tick difference at 64 bits (`unsigned long` on 64-bit kernels). On a 32-bit kernel it wraps at 32 bits, which the model does not capture.
- `ec_datagram_pair_init`, `ec_datagram_pair_process` and `ec_datagram_pair_data_changed` are not part of this model. Their answers are the parameters `env`, `wcs` and `changed`. A positive return from `ec_datagram_pair_init` is not modelled, since only negative codes are errors.
- Buffer contents in `ecrt_domain_process` are not modelled. The model returns the list of backup-to-main copies instead of moving bytes.
- The CoE, FoE and SoE sub-machines are not part of this model. A transfer step is given as `Running` or `Done(success)`. The sub-machine run that starts immediately when a transfer is started is not modelled, nor are its effects on the datagram.
- `ec_master_queue_external_datagram` and `ec_datagram_output_stats` are left out. The model does not capture that a datagram is queued.
- `ec_datagram_fprd`, `ec_datagram_fpwr` and `ec_datagram_zero` are modelled by their evident effect on the datagram's command, size and data. The return value of `ec_datagram_fprd`/`ec_datagram_fpwr` (an allocation check) is ignored, as the source ignores it.
- The byte order of `EC_READ_U32` is left out: a datagram pair's logical address is kept as a number.
- `ecrt_domain_reg_pdo_entry_list`, `ecrt_domain_queue`, `ecrt_domain_size`, `ecrt_domain_data`, `ec_domain_clear` and `ec_fsm_slave_clear` are not modelled. They are thin wrappers over code not part of this model, or release memory.
- FMMU configurations are values in the domain's list. The model does not capture that they are shared with the slave configurations.
- `Domain.Domain.Process` does not model the read of the uninitialised `fmmu` at master/domain.c:441-442, which is undefined behaviour. Its result is never used before being overwritten.
- `Domain.Domain.Process` requires that every input FMMU lies in some pair reachable by the walk. As written, the C inner loop otherwise runs past the last pair into the list head.
- `Domain.Domain.Process` uses the corrected working-counter sum over all pairs, not the as-written sum (see Findings).
- `Domain.Domain.Finish` requires the allocated buffer to have `data_size` bytes.
- The datagram offset of `ec_domain_finish` is unbounded in the model, not a 32-bit value. The logical address it adds to the base does wrap at 32 bits.
- `SlaveFsm.Fsm.StateRegRequest` requires the request memory and, for reads, the datagram data to hold `transfer_size` bytes. These are the `memcpy` bounds that the C code takes for granted.
- `SlaveFsm.Fsm.ActionProcessReg` requires the pending request's memory to hold `transfer_size` bytes (the `memcpy` source of a write).
- `SlaveFsm.Fsm.Exec` requires `Runnable` (the two `memcpy` bounds above) and that a transfer state has its request.
- Request pointers that `ec_fsm_slave_init` leaves unset are null in the model.
- `SlaveFsm.Fsm.StateSdoRequest`, `SlaveFsm.Fsm.StateFoeRequest` and `SlaveFsm.Fsm.StateSoeRequest` keep the datagram unchanged during a `Running` step. In the C code the sub-machine rewrites the shared datagram and the state function queues it (master/fsm_slave.c:235-238, 424-427, 510-513).

## Findings

| source | as written | input that shows it | evidently intended | confidence | as-written member | corrected member |
|---|---|---|---|---|---|---|
| master/domain.c:432-512 | `working_counter_sum` adds only the pairs up to the last pair an input FMMU reaches. Pairs after it (for example, output-only datagrams) are never processed, and their working counters are missing. | Two 1000-byte output FMMUs of different slave configurations, finished with base address 0 and a pair set-up that expects one increment per used slot, give two pairs. The second FMMU is counted in the first pair, so it expects 2 and the second pair expects 0; the expected working counter is 2. Each slave answers on the pair carrying its data, so both answer 1. As written the sum is 1, while all pairs sum to 2, so the domain never reports COMPLETE. | Every datagram pair is processed and its working counter added, so that a full answer yields the expected working counter. | not executed; high | Domain.AsWrittenWorkingCounter, Domain.TrailingPairIgnored, Domain.TwoOutputsLayout | Domain.ProcessRemaining, Domain.Domain.Process |
