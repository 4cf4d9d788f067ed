# Agora: coordinator, worker scheduler, UE radio loop and data generator

Agora is a software base station for massive-MIMO 5G NR. This project
models five parts of it in Dafny and proves properties about them.

- **The coordinator** (`Agora`, in `agora.dfy`). It runs the main event
  loop. The loop fetches batches of events from the radio threads, the MAC
  thread and the workers. For each completed task it updates per-frame
  counters, one slot per frame modulo the frame window. It schedules the
  next stage's tasks in blocks, onto the queue with the frame's parity. It
  closes a frame once every stage that the frame has is done. It advances
  the scheduling frontier after the frame's uplink and downlink are both
  complete. It defers downlink frames that are too far ahead and starts
  them later in order. It releases downlink symbols for transmission only
  in order.
  - Stage counters are values (`FrameCounters.Counters`).
  - Task queues and the TX/MAC queues are append-only logs.
  - Ghost sets record which (frame, symbol) pairs have finished beamforming,
    FFT and IFFT. The class invariant uses them to state that a task is only
    queued once its inputs are done.
  - The pure scheduling arithmetic is in `AgoraPlan` (`agora_plan.dfy`).
- **The worker** (`AgoraWorker`, in `agora_worker.dfy`). It builds the
  ordered stage list from the frame layout. Each scan launches the first
  stage that has work on the current queue parity. It decides the parity
  again after five empty scans.
- **The communications library helpers** (`CommsLib`). These are the MCS
  table, the modulation-order and beamforming-algorithm enumerations with
  their names, and the Hadamard sign function. `HadamardRowsOrthogonal`
  proves that the function's rows are orthogonal.
- **The UE radio worker for UHD** (`TxRxWorkerClientUhd`). It computes the
  burst flags and transmit times of uplink and pilot symbols. It also models
  the receive loop's step function: symbol/frame rollover, the first time
  synchronisation, periodic re-synchronisation on the beacon, and the retry
  limit.
- **The data generator** (`DataGenerator`). It splits each UE's MAC bytes
  into codeblocks, generates MAC payloads by profile, maps a modulated
  codeword onto an OFDM symbol, bins it for the IFFT, and assembles the
  uplink symbols of a frame.

Support modules:
- `Configuration`: the frame layout, and symbol-index lookups derived from
  it.
- `FrameCounters`: per-frame, per-symbol task and symbol counters.
- `Message`: events, tags and tasks.
- `Wrappers`: `Option`.

I/O, threads, radios, clocks and randomness are parameters of the model:
- the event batches the loop fetches;
- the `ready` predicate a worker scan reads;
- the receive results and timestamps of the UE loop;
- the random words of the random MAC profile.

## Model

| member | source | states |
|---|---|---|
| Message.QueueId | src/agora/agora.cc:170 | A frame's queue parity is 0 or 1, and it is 0 exactly for even frames. |
| Configuration.PositionsSpec | src/data_generator/data_generator.cc:619-620 | The i-th symbol of a type lists exactly the frame positions of that type, each once, in ascending order. |
| Configuration.IndexOf | src/agora/agora.cc:940 | A symbol's index within its type's list is where the symbol occurs. There is no index exactly when the symbol is not of that type. |
| Configuration.ULSymbolIdx | src/agora/agora.cc:939-940 | Looking up the i-th uplink symbol gives back index i. |
| Configuration.DLSymbolIdx | src/agora/agora.cc:782 | Looking up the i-th downlink symbol gives back index i. |
| FrameCounters.Counters.CompleteTask | src/agora/agora.cc:533-536 | Completing a task adds one to the (frame, symbol) task count. It reports the last task exactly when the count reaches the per-symbol task total. |
| FrameCounters.Counters.CompleteFrameTask | src/agora/agora.cc:495-496 | For per-frame counters (beam, calibration), completing a task adds one. It reports the last task exactly when the count reaches the frame's total. |
| FrameCounters.Counters.CompleteSymbol | src/agora/agora.cc:545-547 | Completing a symbol adds one to the frame's symbol count. It reports the last symbol exactly when the count reaches the symbol total. |
| FrameCounters.Counters.Reset | src/agora/agora.cc:581 | Resetting a frame clears its slot's symbol count. |
| FrameCounters.CompleteTaskFrame | src/agora/agora.cc:536 | Completing a task changes only its own (slot, symbol) task count. Every symbol count is unchanged. |
| FrameCounters.CompleteSymbolFrame | src/agora/agora.cc:547 | Completing a symbol changes only its own slot's symbol count. Every task count is unchanged. |
| FrameCounters.ResetFrame | src/agora/agora.cc:581 | A reset clears every task count of its slot and leaves the other slots unchanged. |
| FrameCounters.Init | src/agora/agora.cc:1079-1112 | Fresh counters have zero counts for every frame and symbol, with the given totals. |
| FrameCounters.CompleteSymbolsFromReset | src/agora/agora.cc:545-547 | From a reset slot, k symbol completions give count k. The last-symbol report comes exactly at the symbol total. |
| FrameCounters.CompleteSymbolsOtherSlot | src/agora/agora.cc:545-547 | Symbol completions on one frame never change another slot's count. |
| CommsLib.ModulationOfBits | src/common/comms-lib.h:68-74 | A bit count names a modulation order exactly when it is 1, 2, 4, 6 or 8. That order has that many bits per symbol. |
| CommsLib.GetCodeRate | src/common/comms-lib.h:40-50 | Every MCS index's code rate is between 120 and 948 (out of 1024). |
| CommsLib.GetModOrderBits | src/common/comms-lib.h:52-55 | Every MCS index's modulation order is a known, non-BPSK order: 2, 4, 6 or 8 bits. |
| CommsLib.ModOrderNonDecreasing | src/common/comms-lib.h:40-45 | The modulation order never decreases along the MCS table. |
| CommsLib.CodeRateIncreasesWithinOrder | src/common/comms-lib.h:40-45 | Within one modulation order, the code rate strictly increases with the index. |
| CommsLib.McsEntriesDistinct | src/common/comms-lib.h:40-45 | No two MCS indices share both order and rate. |
| CommsLib.AlgorithmValue | src/common/comms-lib.h:76 | The ZF, MMSE and MRC algorithms have the values 0, 1 and 2. |
| CommsLib.ParseBeamforming | src/common/comms-lib.h:26-27 | A name parses exactly when it is in the name table. The parsed algorithm's value is the table's value. |
| CommsLib.BeamformingNamesRoundTrip | src/common/comms-lib.h:26-27 | Printing an algorithm's name and parsing it back gives the same algorithm. |
| CommsLib.Hadamard2 | src/common/comms-lib.h:127-129 | The Hadamard sign is always +1 or -1. |
| CommsLib.HadamardSymmetric | src/common/comms-lib.h:127-129 | The Hadamard sign is symmetric in its two arguments. |
| CommsLib.HadamardZeroRow | src/common/comms-lib.h:127-129 | Row 0 is all +1. |
| CommsLib.HadamardSylvester | src/common/comms-lib.h:127-129 | The sign satisfies the Sylvester doubling recurrence H(2i+c, 2j+d) = (-1)^(cd) H(i, j). |
| CommsLib.HadamardRowsOrthogonal | src/common/comms-lib.h:127-129 | Over the first 2^k columns, two rows have dot product 2^k if they are equal and 0 otherwise. |
| AgoraPlan.NumBlocksCeil | src/agora/agora.cc:157-182 | The number of blocks is the ceiling of units over block size. |
| AgoraPlan.BlockEventsShape | src/agora/agora.cc:157-182 | Every block but the last has the full block size. The last has the remainder. No block is empty. |
| AgoraPlan.BlockEventsCover | src/agora/agora.cc:157-182 | The blocks' tags, read in order, are exactly units 0 to n-1 of the symbol, each once. |
| AgoraPlan.AsTasks | src/agora/agora.cc:178-181 | Every task of a scheduled block goes to the named stage queue with the frame's parity. |
| AgoraPlan.SubcarrierEventsDistinct | src/agora/agora.cc:222-253 | Subcarrier tasks of a symbol start a full block apart, so their ranges never overlap. |
| AgoraPlan.AntennaTxEventsCover | src/agora/agora.cc:184-220 | TX requests for a symbol are one per antenna, in antenna order. |
| AgoraPlan.FftEventsPrefix | src/agora/agora.cc:309-336 | The first i FFT tasks carry exactly the first i batches of queued packets, in order. |
| AgoraPlan.FftEventsCover | src/agora/agora.cc:309-336 | FFT tasks carry exactly the whole batches at the head of the packet queue. Fewer than one batch is left behind. |
| AgoraPlan.SeedFlags | src/agora/agora.cc:61-67 | The seeded flags pre-mark each direction the frame lacks as complete. The flags equal "complete" only when the frame has neither direction. |
| AgoraPlan.NextSchedule | src/agora/agora.cc:1251-1269 | The frontier moves by one exactly when the flags plus the new completion reach "both complete", modulo 256. The flags are then reseeded; otherwise they keep the sum. |
| AgoraPlan.BothDirectionsAdvanceOnce | src/agora/agora.cc:1251-1269 | With both directions present, the first report holds the frontier. The other direction's report then advances it by one. |
| AgoraPlan.UplinkOnlyAdvances | src/agora/agora.cc:1251-1269 | In an uplink-only layout, an uplink report alone advances the frontier. |
| AgoraPlan.DownlinkOnlyAdvances | src/agora/agora.cc:1251-1269 | In a downlink-only layout, a downlink report alone advances the frontier. |
| AgoraPlan.DuplicateReportStalls | src/agora/agora.cc:1251-1269 | Two reports from the same direction do not advance the frontier. |
| AgoraPlan.DrainCount | src/agora/agora.cc:1313-1332 | The drain pops at most the queue-count limit of deferred frames. Each popped frame is within the schedule window. The drain stops at the first frame outside it. |
| AgoraPlan.DrainCountIs | src/agora/agora.cc:1313-1332 | Any count meeting those three conditions is the drain count. |
| AgoraPlan.TxBurstTags | src/agora/agora.cc:790-805 | Every TX request of a released burst is for the frame and for one of the released symbols. |
| AgoraPlan.ReleaseCount | src/agora/agora.cc:790-805 | The scan releases a contiguous run of downlink symbols whose IFFT for the frame is done. It stops at the first symbol not done or past the frame's completed-symbol bound. No result means the scan ran off the symbol table. |
| AgoraPlan.PilotRecords | src/agora/agora.cc:140-148 | Scheduling downlink pilots records the frame for every pilot symbol, unless beamforming is already done; other symbols are untouched. |
| AgoraPlan.ReleasedSymbolsSpec | src/agora/agora.cc:491-524 | The symbols released when beamforming completes are exactly those whose earlier stage has recorded the frame (uplink: equal; downlink: at least). |
| AgoraPlan.CountPacket | src/agora/agora.cc:1045-1051 | The packet count wraps to 0 exactly when it reaches the per-frame total; otherwise it adds one. |
| AgoraPlan.CountPacketsCycle | src/agora/agora.cc:1045-1051 | From 0, k packets give count k, and the per-frame total wraps it back to 0. |
| AgoraPlan.FftIssueStepsBounded | src/agora/agora.cc:320-333 | The created-packet count stays below the per-frame total over any number of issued packets. |
| AgoraPlan.FftIssueStepsKeepFrontier | src/agora/agora.cc:320-333 | Outside BigStation mode, issuing FFT packets never changes the flags or the frontier. |
| AgoraPlan.FftIssueStepsAdvance | src/agora/agora.cc:320-333 | Issuing k packets advances the frontier by at most k frames. |
| AgoraPlan.FftIssueStepsCompose | src/agora/agora.cc:320-333 | Issuing j packets and then k is the same as issuing j + k. |
| Agora.Interleave | src/agora/agora.cc:404-434 | The fetch order alternates the radio side and the worker side, starting with the radio side. It stops at the first side with no batch left. |
| Agora.InterleaveAt | src/agora/agora.cc:404-434 | Fetch 2k is the radio side's k-th batch, and fetch 2k+1 the worker side's k-th batch. |
| Agora.NextFetch | src/agora/agora.cc:404-434 | After i radio batches and j worker batches, the next fetch is from the side whose turn it is, or the order has ended. |
| Agora.FlattenPrefix | src/agora/agora.cc:404-434 | The events of the first n batches are a prefix of all the events fetched. |
| Agora.HandledExtends | src/agora/agora.cc:404-434 | Handling part of the next batch extends a prefix of the fetched events. Handling all of it reaches the end of that batch. |
| Agora.IfftStepProgress | src/agora/agora.cc:776-827 | An IFFT completion only grows the TX log. It moves the frontier by at most one frame, and only on the frame's last downlink symbol, which also restarts the TX scan at symbol 0. |
| Agora.Agora.constructor | src/agora/agora.cc:49-91 | The flags are seeded from the frame layout. Both frontiers are 0. Queues are empty. Frame records say "no frame". Packet counts are 0. The uplink stage counters start at zero for the layout's symbol and task counts; the downlink ones (encode, precode, IFFT, TX, MAC-to-PHY) do so only when the layout has downlink symbols. |
| Agora.Agora.CheckIncrementScheduleFrame | src/agora/agora.cc:1251-1269 | The flags and frontier change exactly as NextSchedule states. |
| Agora.Agora.EnqueueBlocks | src/agora/agora.cc:157-182 | Appends the block tasks of n units to the stage queue with the frame's parity, keeping every queued task gated on its inputs. |
| Agora.Agora.ScheduleAntennas | src/agora/agora.cc:157-182 | Appends one task per block of antennas for the symbol. |
| Agora.Agora.ScheduleCodeblocks | src/agora/agora.cc:255-279 | Appends the codeblock tasks of the symbol for the direction. |
| Agora.Agora.ScheduleSubcarriers | src/agora/agora.cc:222-253 | Appends one task per subcarrier block of the symbol. |
| Agora.Agora.ScheduleUsers | src/agora/agora.cc:281-292 | Appends one to-MAC event per spatial stream to the MAC queue. |
| Agora.Agora.ScheduleBroadCastSymbols | src/agora/agora.cc:294-299 | Appends one broadcast task for the frame. |
| Agora.Agora.ScheduleAntennasTX | src/agora/agora.cc:184-220 | Appends one TX request per antenna for the symbol to the TX log. |
| Agora.Agora.ScheduleReleased | src/agora/agora.cc:491-524 | Appends subcarrier tasks for exactly the released symbols, in symbol order. |
| Agora.Agora.ScheduleDownlinkPilots | src/agora/agora.cc:140-148 | If beamforming for the frame is done, precode tasks for the pilot symbols are queued; otherwise the pilot symbols record the frame. |
| Agora.Agora.ScheduleDownlinkData | src/agora/agora.cc:151-154 | Appends encode tasks for every downlink data symbol. |
| Agora.Agora.ScheduleDownlinkProcessing | src/agora/agora.cc:133-155 | Appends the frame's downlink tasks, pilots then data, and updates the pilot records. |
| Agora.Agora.ScheduleOrDeferDownlink | src/agora/agora.cc:702-712 | A frame within the schedule window is started; a frame ahead of it joins the deferral queue. Started frames stay exactly the admitted frames minus the deferral queue. |
| Agora.Agora.StartDeferredFront | src/agora/agora.cc:1313-1332 | Pops the head of the deferral queue and schedules its downlink processing. |
| Agora.Agora.DrainDeferral | src/agora/agora.cc:1313-1332 | Pops exactly DrainCount deferred frames and schedules them in order. It is fatal exactly when the drain stops at a deferred frame that is below the processing frontier. |
| Agora.Agora.CloseFrame | src/agora/agora.cc:1294-1306 | Resets the frame's stage counters (demodulation only in hard-demod mode) and advances the processing frontier by one. |
| Agora.Agora.CheckFrameComplete | src/agora/agora.cc:1271-1336 | If the frame has not finished every stage it has, nothing changes. Otherwise the frame is closed; the run finishes exactly at the last frame to test; and if it does not finish, the deferral queue is drained. |
| Agora.Agora.HandleBeamTag | src/agora/agora.cc:491-524 | Counts the beam task. On the last one it records the frame, resets the counter and releases demodulation and precoding for exactly the symbols whose inputs are ready. |
| Agora.Agora.TakeFftBatch | src/agora/agora.cc:309-336 | Removes one batch from the head of the frame's packet queue and advances the created count as FftIssueSteps states. |
| Agora.Agora.IssueFftBatches | src/agora/agora.cc:309-336 | Turns every whole batch at the head of the queue into an FFT task, leaving the remainder queued. |
| Agora.Agora.TryScheduleFft | src/agora/agora.cc:301-338 | Issues FFT tasks from the scheduling frontier's queue slot, on the frontier's parity. |
| Agora.Agora.ScheduleFft | src/agora/agora.cc:900 | Keeps the coordinator invariant; only queues and records grow. |
| Agora.Agora.FftPilot | src/agora/agora.cc:908-938 | Counts the pilot FFT task. Beamforming is queued when the frame's last pilot is done and calibration (if enabled) is done. |
| Agora.Agora.FftUplink | src/agora/agora.cc:939-960 | Counts the uplink FFT task. On the last antenna it records the frame, and queues demodulation when beamforming is already done. |
| Agora.Agora.FftCalibration | src/agora/agora.cc:961-987 | Counts the calibration task and records the frame on the last one. |
| Agora.Agora.HandleEventFft | src/agora/agora.cc:903-988 | Dispatches on the symbol type. Each type changes only its own counters and records. |
| Agora.Agora.DemulTag | src/agora/agora.cc:526-592 | Counts the demodulation task. On a symbol's last task decoding is queued (twice on the last symbol in BigStation mode). On the last symbol the uplink is reported complete. The frame check runs only in hard-demod mode. |
| Agora.Agora.DecodeTag | src/agora/agora.cc:594-626 | Counts the decode task. With the MAC on, user events are queued; without it, the last symbol triggers the frame check. |
| Agora.Agora.ToMacTag | src/agora/agora.cc:636-661 | Counts the to-MAC task; the frame check runs on the last symbol. |
| Agora.Agora.FromMacTag | src/agora/agora.cc:663-716 | Counts the MAC packet. On the last UE the counter is reset and the frame is started or deferred. |
| Agora.Agora.EncodeTag | src/agora/agora.cc:718-745 | Counts the encode task. On a symbol's last task it records the frame and queues precoding if beamforming is done. A non-downlink symbol is fatal. |
| Agora.Agora.PrecodeTag | src/agora/agora.cc:747-774 | Counts the precode task; on the last one it queues the symbol's IFFT blocks. |
| Agora.Agora.ReleaseTx | src/agora/agora.cc:790-805 | Releases exactly ReleaseCount symbols for transmission in order. It is fatal when the scan runs off the symbol table. |
| Agora.Agora.IfftTag | src/agora/agora.cc:776-827 | The new state and outcome are those of IfftStep, whose progress IfftStepProgress states. |
| Agora.Agora.RecordIfft | src/agora/agora.cc:782-789 | Records the frame for the downlink symbol. |
| Agora.Agora.IfftSymbol | src/agora/agora.cc:782-827 | The new state is IfftSymbolDone's: record, release scan, symbol count. |
| Agora.Agora.IfftRelease | src/agora/agora.cc:790-805 | Records the symbol. If it is the next symbol to send, it releases the contiguous ready run. |
| Agora.Agora.CountIfftSymbol | src/agora/agora.cc:806-824 | Counts the symbol. On the last one the scan restarts at 0 and the downlink is reported complete. |
| Agora.Agora.BroadcastTag | src/agora/agora.cc:829-837 | Appends TX requests for every control symbol on every antenna. |
| Agora.Agora.PacketTxTag | src/agora/agora.cc:839-891 | Counts the TX task; the frame check runs on the last symbol. |
| Agora.Agora.CountPilotPacket | src/agora/agora.cc:998-1014 | Counts pilot packets and reciprocity packets in their slots, wrapping at their per-frame totals. |
| Agora.Agora.UpdateRxCounters | src/agora/agora.cc:996-1052 | Counts the packet in its slot: pilot, reciprocity and total counts, each wrapping at its per-frame total. With the MAC off, a frame's first packet starts or defers its downlink processing. |
| Agora.Agora.ReceivePacket | src/agora/agora.cc:460-483 | A packet a full window ahead of the frontier stops the run and changes nothing else. Any other packet is counted and appended to its frame's FFT queue. |
| Agora.Agora.CheckFrameProgress | src/agora/agora.cc:1271-1336 | Before the frame is done nothing moves and neither outcome is reported. A done frame advances the processing frontier by one and finishes the run exactly when it is the last frame to test; never both finished and fatal. The task queue and started frames only grow. |
| Agora.Agora.FinishFrame | src/agora/agora.cc:1271-1336 | Keeps the coordinator invariant across the frame check. |
| Agora.Agora.OnPacketRx | src/agora/agora.cc:460-483 | Keeps the coordinator invariant; the effect is ReceivePacket's. |
| Agora.Agora.OnFftTag | src/agora/agora.cc:485-489 | Keeps the coordinator invariant; the effect is HandleEventFft's. |
| Agora.Agora.OnFft | src/agora/agora.cc:485-489 | Keeps the coordinator invariant over every tag of the event. |
| Agora.Agora.OnBeamTag | src/agora/agora.cc:491-524 | Keeps the coordinator invariant; the effect is HandleBeamTag's. |
| Agora.Agora.OnBeam | src/agora/agora.cc:491-524 | Keeps the coordinator invariant over every tag of the event. |
| Agora.Agora.OnDemul | src/agora/agora.cc:526-592 | Keeps the coordinator invariant through the frame check. |
| Agora.Agora.OnDecode | src/agora/agora.cc:594-626 | Keeps the coordinator invariant through the frame check. |
| Agora.Agora.OnToMac | src/agora/agora.cc:636-661 | Keeps the coordinator invariant through the frame check. |
| Agora.Agora.OnFromMac | src/agora/agora.cc:663-716 | Keeps the coordinator invariant; the effect is FromMacTag's. |
| Agora.Agora.FromMacStep | src/agora/agora.cc:663-716 | The frame's MAC-to-PHY count advances. Its last task clears the count and admits the frame to the downlink; earlier tasks admit nothing. Only the task queue, admitted frames and started frames grow. |
| Agora.Agora.OnEncodeTag | src/agora/agora.cc:718-745 | Keeps the coordinator invariant; the effect is EncodeTag's. |
| Agora.Agora.OnEncode | src/agora/agora.cc:718-745 | Keeps the coordinator invariant over every tag, stopping at the first fatal one. |
| Agora.Agora.OnPrecode | src/agora/agora.cc:747-774 | Keeps the coordinator invariant; the effect is PrecodeTag's. |
| Agora.Agora.IfftTagValid | src/agora/agora.cc:776-827 | Keeps the coordinator invariant across IfftTag. |
| Agora.Agora.OnIfftTag | src/agora/agora.cc:776-827 | Keeps the coordinator invariant through the frame check. |
| Agora.Agora.OnIfft | src/agora/agora.cc:776-827 | Keeps the coordinator invariant over every tag, stopping at finish or fatal. |
| Agora.Agora.OnBroadcast | src/agora/agora.cc:829-837 | Keeps the coordinator invariant; the effect is BroadcastTag's. |
| Agora.Agora.OnPacketTx | src/agora/agora.cc:839-891 | Keeps the coordinator invariant through the frame check. |
| Agora.Agora.HandleEvents | src/agora/agora.cc:454-901 | Keeps the coordinator invariant. Pilot-TX and SNR-report events are fatal. A RAN update neither finishes nor fails the run. |
| Agora.Agora.DispatchEvent | src/agora/agora.cc:454-898 | The same per-kind guarantees, before FFT scheduling. |
| Agora.Agora.HandleBatch | src/agora/agora.cc:404-434 | Handles events until the batch ends or an event finishes or fails the run; all are handled when neither happens. |
| Agora.Agora.Start | src/agora/agora.cc:381-452 | The events handled are a prefix of the interleaved fetch order: all of it when the run neither finishes nor fails, none when the system was not running. |
| AgoraWorker.StageEvents | src/agora/agora_worker.cc:106-126 | Beamforming and FFT come first and only there. Decode and demodulation are present exactly when the frame has uplink symbols. IFFT, precode and encode are present exactly when it has downlink symbols. |
| AgoraWorker.StageGroupsAligned | src/agora/agora_worker.cc:106-126 | Each stage group's doers handle the event kinds listed beside them, in the same order. |
| AgoraWorker.FirstReady | src/agora/agora_worker.cc:133-140 | The launched stage is the first, in priority order, with work on the queue parity; none when no stage has work. |
| AgoraWorker.AfterScan | src/agora/agora_worker.cc:143-155 | A launch keeps the state. The fifth empty scan in a row resets the count and re-decides the parity: flipped while the frontiers differ, otherwise the frontier's parity. |
| AgoraWorker.EmptyScansRedecide | src/agora/agora_worker.cc:143-155 | From a fresh count, four empty scans only count, and the fifth re-decides the parity. |
| AgoraWorker.ScanLogSound | src/agora/agora_worker.cc:255-283 | Every scan of a worker's run tries parity 0 or 1 and launches the first ready stage. |
| AgoraWorker.Worker.Init | src/agora/agora_worker.cc:53-129 | A new worker has no stages, parity 0 and no empty scans. |
| AgoraWorker.Worker.AddStages | src/agora/agora_worker.cc:106-126 | The stage list is StageEvents of the frame layout, with each doer aligned to its event kind. |
| AgoraWorker.Worker.InitializeWorker | src/agora/agora_worker.cc:53-58 | Initialisation succeeds exactly with one worker thread and then builds the stage list; otherwise the worker has no stages. |
| AgoraWorker.Worker.RunWorker | src/agora/agora_worker.cc:131-157 | Launches FirstReady's stage, and the scan state becomes AfterScan's. |
| AgoraWorker.WorkerThread | src/agora/agora_worker.cc:184-285 | The worker's scans over its rounds are exactly ScanLog from parity 0 over the layout's stage list. |
| TxRxWorkerClientUhd.UplinkSymbolFlags | src/client/txrx/workers/txrx_worker_client_uhd.cc:700-729 | The first uplink symbol starts a burst and the last ends one. A symbol has no flags exactly when both neighbours in the list are adjacent symbols. |
| TxRxWorkerClientUhd.UplinkFlagsFollowSchedule | src/client/txrx/workers/txrx_worker_client_uhd.cc:700-729 | An uplink symbol starts a burst exactly when the frame symbol before it is not uplink (or it is first). It ends one exactly when the next is not uplink (or it is last). |
| TxRxWorkerClientUhd.TxUplinkSymbols | src/client/txrx/workers/txrx_worker_client_uhd.cc:686-768 | One request per uplink symbol, in order, on the UE's radio, with those flags and the symbol's transmit time. |
| TxRxWorkerClientUhd.PilotFlags | src/client/txrx/workers/txrx_worker_client_uhd.cc:793-806 | A pilot always starts a burst. Every channel but the last only starts one. |
| TxRxWorkerClientUhd.PilotFlagsFollowSchedule | src/client/txrx/workers/txrx_worker_client_uhd.cc:793-806 | The last channel keeps the burst open exactly when the symbol after the pilot is uplink and no uplink symbol precedes the pilot. |
| TxRxWorkerClientUhd.TxPilot | src/client/txrx/workers/txrx_worker_client_uhd.cc:770-831 | The pilot is on exactly one channel, pilot antenna modulo channels, of radio pilot antenna / channels, with the pilot flags and time. |
| TxRxWorkerClientUhd.IsRxSymbolSpec | src/client/txrx/workers/txrx_worker_client_uhd.cc:672-683 | A symbol is received exactly when it is a beacon or downlink symbol. |
| TxRxWorkerClientUhd.Advance | src/client/txrx/workers/txrx_worker_client_uhd.cc:323-332 | The symbol advances by one, and the frame advances by one exactly after the last symbol, returning to symbol 0. |
| TxRxWorkerClientUhd.Resync | src/client/txrx/workers/txrx_worker_client_uhd.cc:254-317 | A re-sync changes only the re-sync state: flags, retries, successes and the TX adjustment. |
| TxRxWorkerClientUhd.OnPackets | src/client/txrx/workers/txrx_worker_client_uhd.cc:210-317 | Handling a received symbol never changes the frame, symbol or receive times. |
| TxRxWorkerClientUhd.RxStepRollover | src/client/txrx/workers/txrx_worker_client_uhd.cc:190-332 | A successful transmit attempt keeps the position. Otherwise one step advances to the next symbol, rolling over into the next frame exactly after the last symbol. This holds for the first-sync test as written and as intended. |
| TxRxWorkerClientUhd.RxStepResyncTrigger | src/client/txrx/workers/txrx_worker_client_uhd.cc:247-251 | A re-sync starts only on the last beacon symbol of a frame that is a positive multiple of the re-sync period, for the first-sync test as written and as intended. |
| TxRxWorkerClientUhd.ResyncOutcome | src/client/txrx/workers/txrx_worker_client_uhd.cc:254-317 | A found beacon hands its adjustment to the transmitter; a small one completes the re-sync. A missed beacon adds a retry, and exceeding the retry limit stops the system. |
| TxRxWorkerClientUhd.FirstSyncOnce | src/client/txrx/workers/txrx_worker_client_uhd.cc:210-242 | With the intended condition, the transmit time base is taken only at symbol 0 of frame 0. |
| TxRxWorkerClientUhd.FirstSyncAsWrittenDiffers | src/client/txrx/workers/txrx_worker_client_uhd.cc:210 | The condition as written holds at frame 0, symbol 1, where the intended one does not. |
| TxRxWorkerClientUhd.FirstSyncAsWrittenRetakes | src/client/txrx/workers/txrx_worker_client_uhd.cc:210-242 | As written, a received downlink symbol 1 of frame 0 retakes the time base from its own receive time; the intended step keeps it. |
| TxRxWorkerClientUhd.ClientWorker.constructor | src/client/txrx/workers/txrx_worker_client_uhd.cc:164-169 | A new worker is not running and has no re-sync pending and no TX adjustment. |
| TxRxWorkerClientUhd.ClientWorker.DoTxRx | src/client/txrx/workers/txrx_worker_client_uhd.cc:87-342 | No interface leaves the state as it was; more than one throws; one runs the receive loop as RxRun over the inputs, with the first-sync test as written. |
| TxRxWorkerClientUhd.ClientWorker.RxIteration | src/client/txrx/workers/txrx_worker_client_uhd.cc:183-332 | One loop iteration computes exactly RxStep's status and state, with the first-sync test as written. |
| TxRxWorkerClientUhd.ClientWorker.ReceiveSymbol | src/client/txrx/workers/txrx_worker_client_uhd.cc:198-332 | Receiving a symbol computes exactly ReceiveStep's status and state, with the first-sync test as written. |
| TxRxWorkerClientUhd.ClientWorker.PublishSymbol | src/client/txrx/workers/txrx_worker_client_uhd.cc:210-317 | Handling the received packets computes exactly OnPackets' status and state, with the first-sync test as written (frame 0 and interface 0, any symbol). |
| TxRxWorkerClientUhd.ClientWorker.ResyncOnBeacon | src/client/txrx/workers/txrx_worker_client_uhd.cc:254-317 | The beacon re-sync computes exactly Resync's status and state. |
| DataGenerator.ToInt8 | src/data_generator/data_generator.cc:1098 | The truncating cast to int8 keeps the value modulo 256, and keeps small values unchanged. |
| DataGenerator.DivModUnique | src/data_generator/data_generator.cc:318-324 | Quotient and remainder are unique. |
| DataGenerator.CodeblockOf | src/data_generator/data_generator.cc:316-324 | A codeblock number decomposes into symbol, UE and the UE's block within the symbol, in that nesting. The UE's running block count is symbol times blocks per symbol plus the block. |
| DataGenerator.CodeblockOfCompose | src/data_generator/data_generator.cc:316-324 | Composing a (symbol, UE, block) triple and decomposing it gives the triple back. |
| DataGenerator.CodeblockCountsDistinct | src/data_generator/data_generator.cc:316-324 | Two codeblocks of the same UE never read the same slice of its MAC data. |
| DataGenerator.CodeblockCountBound | src/data_generator/data_generator.cc:316-324 | Every codeblock of the frame reads within the UE's MAC data. |
| DataGenerator.SplitCodeblocks | src/data_generator/data_generator.cc:316-333 | One information block per codeblock, each the UE's slice at its running block count. |
| DataGenerator.ByteHomePlace | src/data_generator/data_generator.cc:316-333 | Every byte of a UE's MAC data belongs to one codeblock of that UE, at a computed offset. |
| DataGenerator.CodeblocksCover | src/data_generator/data_generator.cc:316-333 | No MAC byte is lost: each one appears in its home codeblock. |
| DataGenerator.Profile123Pattern | src/data_generator/data_generator.cc:1100-1101 | Profile-123 bytes are 1 + 3u + (i mod 3). They repeat every three bytes, and two UEs never share a byte value. |
| DataGenerator.GenMacData | src/data_generator/data_generator.cc:1095-1103 | Random profile: each byte is the truncated random word. Profile 123: the pattern. Any other profile leaves the payload as it was. |
| DataGenerator.MapOfdmSymbol | src/data_generator/data_generator.cc:1337-1367 | Computes exactly the OFDM symbol that OfdmSymbol specifies. |
| DataGenerator.OfdmSymbolUplink | src/data_generator/data_generator.cc:1343-1346 | An uplink symbol is the codeword cut to the data band, or padded with zeros. |
| DataGenerator.OfdmSymbolDownlink | src/data_generator/data_generator.cc:1347-1366 | Downlink data and control subcarriers carry their mapped values, the rest the pilot. Other symbol types are zero. |
| DataGenerator.BinForIfft | src/data_generator/data_generator.cc:1375-1383 | The codeword fills the data band at its start offset; every other bin is zero. |
| DataGenerator.SpliceSpec | src/data_generator/data_generator.cc:618-636 | Copying into a row puts the data at the offset and leaves earlier disjoint copies intact. |
| DataGenerator.FillRowSpans | src/data_generator/data_generator.cc:618-636 | After filling the first j UEs, each one's span holds its pilot or data. |
| DataGenerator.FillUplinkRow | src/data_generator/data_generator.cc:620-635 | Filling an uplink symbol's row gives FillRow over every UE antenna. |
| DataGenerator.PopulateUplink | src/data_generator/data_generator.cc:618-636 | Every uplink symbol's row is filled as FillRow states; every other row is unchanged. |

## Left out

- Statistics, the recorder, file output, logging and timing measurements: they do not affect scheduling.
- Threads and the lock-free queues: the queues are append-only logs, and the event batches the main loop fetches are inputs. The sizes of the bulk dequeues are therefore not modelled.
- The signal handler and `config.Running()` are inputs. The end of input batches stands for the loop's exit.
- The RAN update (src/agora/agora.cc:628-634, 990-994) changes only the uplink MCS, a JSON configuration update; the model keeps it as an event with no scheduling effect.
- The SNR report and equaliser-data paths compute floating-point statistics; they are left out.
- Agora.Agora.ScheduleAntennasTX: TX requests go to one log, not to per-worker queues chosen by antenna, because worker assignment does not change which requests are made.
- The single-thread build's direct `RunWorker` call inside the main loop is left out; the worker is modelled on its own.
- The `FrameCounters` class, the configuration class and the constants header are not part of this model; their behaviour is reconstructed from their call sites. The initial value of the "last frame" records is modelled as "no frame" (`NoFrame`, standing for the maximum `size_t`).
- Agora.Agora.CloseFrame, Agora.Agora.CheckFrameComplete: the downlink-bits status of every UE for the closed frame's slot is not reset, because the MAC's downlink bit buffers are not part of this model (src/agora/agora.cc:1301-1305).
- Agora.Agora.constructor: with no downlink symbols in the layout the encode, precode, IFFT, TX and MAC-to-PHY counters are left unconstrained, because the `FrameCounters` default state is not part of this model; the IFFT and TX parts of the frame-completion test are therefore undetermined for an uplink-only layout.
- Debug assertions and the `RtAssert` failure paths for impossible indices are not modelled.
- The radio calls in the UE worker (`DoRx`, `DoTx`, `DoTxThread`, beacon search `FindSyncBeacon`, `SyncBeacon`, `AdjustRx`, and the initial beacon search loop at src/client/txrx/workers/txrx_worker_client_uhd.cc:135-159) are inputs: each step receives whether a symbol arrived, its time, the sync result and the TX status.
- The frame re-sync period is computed from floating-point rates in the source; here it is a parameter.
- CRC, LDPC encoding, scrambling, modulation, FFT/IFFT, FFTShift, noise and the ACC100 path of the data generator are left out; the model keeps the byte and subcarrier placement around them.
- DataGenerator.BinForIfft: the optional FFT shift of the binned symbol is not modelled.
- DataGenerator.GenMacData: the random generator is replaced by a given sequence of random words.
- TxRxWorkerClientUhd.TxPilot: the pilot sample data is not modelled, only the channel, radio, flags and time.
- Agora.Agora.OnPacketRx, Agora.Agora.OnFftTag, Agora.Agora.OnFft, Agora.Agora.OnBeamTag, Agora.Agora.OnBeam, Agora.Agora.OnDemul, Agora.Agora.OnDecode, Agora.Agora.OnToMac, Agora.Agora.OnFromMac, Agora.Agora.OnEncodeTag, Agora.Agora.OnEncode, Agora.Agora.OnPrecode, Agora.Agora.IfftTagValid, Agora.Agora.OnIfftTag, Agora.Agora.OnIfft, Agora.Agora.OnBroadcast, Agora.Agora.OnPacketTx, Agora.Agora.FinishFrame, Agora.Agora.ScheduleFft: these dispatch wrappers state only the coordinator invariant; the exact state change is in the method each one calls.
- Agora.Agora.DispatchEvent: beyond the invariant and the fatal/RAN cases, its per-kind effect is that of the wrapper it dispatches to.
- Agora.Agora.HandleEvents: beyond the invariant and the fatal/RAN cases, its per-kind effect is that of the wrapper it dispatches to.

## Findings

| source | as written | input that shows it | evidently intended | confidence | as-written member | corrected member |
|---|---|---|---|---|---|---|
| src/client/txrx/workers/txrx_worker_client_uhd.cc:210 | The first-sync test compares the frame number with 0 twice and never tests the symbol. | Frame 0, symbol 1 a downlink symbol, received with TX status 0. The time base is retaken from symbol 1's receive time. | Test the symbol number for 0, so only the first symbol of frame 0 takes the time base. | not executed | TxRxWorkerClientUhd.FirstSyncAsWrittenRetakes | TxRxWorkerClientUhd.FirstSyncOnce |
