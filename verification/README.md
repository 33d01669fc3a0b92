# MosaicSim: models and proofs

Dafny models of the components of MosaicSim whose correctness is a protocol or an invariant
over a whole run, with the proofs of what those components are for. The simulator is C++; a
step that ends in one of its error exits or failed asserts is modelled by a result without a
value, and the main theorems say that no run of the component gets there.

- **DRAM controller against DRAM rank** (`Dram*.dfy`). `MemoryController` and `CommandQueue`
  keep one table of bank states, every `Rank` a second one, and commands travel one cycle
  between them. `DramTypes`, `DramBanks`, `DramQueue` and `DramSystem` are the behaviour as
  functions from state to state, for any configuration (both row policies, both queue
  structures, both scheduling orders, low power on or off, any timing that meets
  `Timing.Valid`). `DramTheorems` keeps one invariant through every phase of a cycle,
  `DramPromises` says what it means for whole runs. `DramGaps`, `DramDistances`, `DramSleep` and
  `DramLatency` give the distances between commands, and from a command to its data, in the raw
  timing parameters; `DramLimits` shows that nothing is delayed longer than those.
  `DramProgress`, `DramDuties`, `DramRefreshes` and `DramLiveness` say what must happen: what
  pop() gives out, when each phase acts, and that no run stalls. `DramRankHistory` says from the
  received commands alone what a rank lets through. `DramCommandQueue`, `DramRank` and
  `DramController` are the classes with their loops and in-place updates, each method proved
  equal to its function.
- **Decoupled supply/compute queue** (`Descq*.dfy`). The protocol among SEND, LD_PROD, RECV,
  STADDR and STVAL. `Descq` is a machine with one step per operation, in any order the callers
  allow, `DescqAnswers` says which requests it takes and where values come from, `DescqHistory`
  what follows from the steps alone; `DescqQueue` is the class.
- **Load/store queue with in-order retirement and barriers** (`LoadStore*.dfy`).
  `LoadStoreAnswers` and `LoadStoreHistory` give the exact answers of its checks and its window.
- **Cache-line lock of the last-level cache** (`LineLock*.dfy`), with the eviction requests and
  acknowledgements that pass through the private caches; `LineLockAnswers` says who gets access.
- **LRU cache sets on linked lists** (`Recency`, `Residency`, `CacheSets`, `FunctionalCaches`,
  `CacheAddress`, `WriteBack`).
- **Trace buffer and its reader** (`Trace`, `TraceBuffer`).
- **CSR to CSC** (`Transpose`), **address mapping** (`AddressMapping`, `DramAddressing`) and
  **clock crossing** (`ClockDomain`).

Each component has a model on values, proofs about every run of that model, and, where the
original updates objects in place, a class whose methods are proved equal to the model's
functions. `Wrappers` holds the option type, `Arithmetic` powers of two and division.

## Findings

- `LoadStorePromises.AtomicsOverflow`: BasicBlock::addInst (`sim/graph/Graph.cpp:42-49`)
  counts loads and stores but not atomics, while an atomic takes an entry of the store queue.
  A block of two atomics is let into a store queue of one entry. `AcceptedBlockFits` says
  exactly when an accepted block fits: when the room the check leaves covers its atomics.
- `LoadStorePromises.NothingToRunAgain`: check_load_issue never answers "go, speculatively" in
  any run, so check_speculation never finds a load to run again.
- `DescqPromises.DependencyIsOldest`: sab_has_dependency finds the oldest matching store that
  is older than the load, not the youngest.
- `DescqPromises.BackPointersAreRedundant`: the checks against SAB_back and SVB_back refuse
  exactly what the counts already refuse.
- `DramAddressing.EveryAddressInRange`: addresses land on ranks and banks that exist exactly
  when the numbers of ranks and banks are powers of two. MultiChannelMemorySystem checks the
  memory size and the number of channels for this, but not these two.
  `ThreeBanks` is a failing address.
- `AddressMapping.IsPowerOfTwo`: isPowerOfTwo takes an unsigned long but hands it to
  dramsim_log2 as 32 bits, so 2^32 and larger powers of two are not recognised.
- `DramPromises.BurstsNeverMeet`: a write keeps off the burst of an earlier read when
  tRTRS >= 1 and tRCD - AL >= BL/2 + 1. All device files satisfy both; nothing checks them.
  `WriteAfterRead` and `WriteToNewRow` show that the controller's table needs each of the two.
- `DramDistances.ActivateDistances`: powering up sets nextActivate to the current cycle plus tXP
  instead of raising it (`sim/memsys/DRAMSim2/MemoryController.cpp:612`), so with low power
  a bank may be activated again before its row cycle time tRC is over. tRC is kept when low
  power is off or tRC is no longer than the shortest way over a sleep (`SleepCovers`);
  `DramSleep.SleepShortensRowCycle` shows on the bank table that this is needed, and
  `DramShortCycle.RowCycleIsCut` is a run of a DDR2 device in close page with 16 cycles where
  tRC is 18. `DramAddressing.DeviceDistances`: six of the ten device timings are affected, in
  close page only.
- `DramDistances.ColumnDistances`: a column command with auto-precharge overwrites its bank's
  nextRead and nextWrite, so the write-to-read time is kept in close page only because opening
  a row takes longer; `DramSleep.ReadOfReopenedRow` gives the exact condition. All device files
  meet it.
- `Residency.FlushMakesRoom`: a flush makes room, so a line may stay resident although as many
  other lines as the set has ways were used since its last use.
- `LoadStoreFences.BarriersWaitInWindows`: with an unlimited instruction window (-1) the
  unsigned window_end lies before every waiting operation once two have left, so a barrier no
  longer looks at what is older and can overtake it. With any other window it never does.
- `CacheSets.CacheSet.HasEntry`: CacheSet::present answers for the map entry, which is also
  there, empty, after a missed access (`MissedAccess`).

## Model

| member | source | states |
|---|---|---|
| DramTheorems.NoErrorExit | sim/memsys/DRAMSim2/MemorySystem.cpp:210-238 | no run of requests and cycles ends in an error exit of the controller, the queue or a rank, and every run keeps the invariant |
| DramTheorems.CycleKeeps | sim/memsys/DRAMSim2/MemorySystem.cpp:210-238 | one cycle from a state with the invariant meets no exit and ends in such a state |
| DramTheorems.StartHolds | sim/memsys/DRAMSim2/MemoryController.cpp:63-111 | a new controller with new ranks meets the invariant |
| DramTheorems.AddKeeps | sim/memsys/DRAMSim2/MemoryController.cpp:768-780 | taking in a request keeps the invariant |
| DramTheorems.PassKeeps | sim/memsys/DRAMSim2/MemoryController.cpp:156-260 | when time passes, no rank refuses the command that arrives and the data bus is free when a write burst starts |
| DramTheorems.TimerKeeps | sim/memsys/DRAMSim2/MemoryController.cpp:262-279 | the refresh timer keeps agreement, queues, buses and flow |
| DramTheorems.PopKeeps | sim/memsys/DRAMSim2/MemoryController.cpp:281-490 | whatever pop() gives out, the command bus is free, the rank will accept it, and all parts of the invariant survive the send |
| DramTheorems.SplitKeeps | sim/memsys/DRAMSim2/MemoryController.cpp:492-570 | splitting a transaction never overfills a command queue and keeps the invariant |
| DramTheorems.PowerRanksKeep | sim/memsys/DRAMSim2/MemoryController.cpp:572-616 | no powerDown() or powerUp() is refused by a rank, and the invariant is kept |
| DramTheorems.ReturnKeeps | sim/memsys/DRAMSim2/MemoryController.cpp:661-700 | a read that comes back always finds its pending transaction |
| DramPromises.After | sim/memsys/DRAMSim2/MemorySystem.cpp:210-238 | every legal run has a final state, and it meets the invariant |
| DramPromises.RanksAgree | sim/memsys/DRAMSim2/Rank.cpp:82-292 | after any run every rank, with the command under way applied, has the controller's bank states with limits at most one cycle later, and that command passes the rank's own checks |
| DramPromises.FourActivateWindow | sim/memsys/DRAMSim2/CommandQueue.cpp:632-644 | in any run, any tFAW consecutive cycles hold at most four ACTIVATEs to one rank |
| DramPromises.StateWindow | sim/memsys/DRAMSim2/CommandQueue.cpp:171-184 | the same from the invariant: the decrementing counters are enough to enforce the window |
| DramPromises.ServedInArrivalOrder | sim/memsys/DRAMSim2/MemoryController.cpp:492-570 | for every address: column commands sent, reads returned and writes reported are prefixes, in order and without repeats, of the requests accepted; the rest is still under way |
| DramPromises.SameAddressOrder | sim/memsys/DRAMSim2/CommandQueue.cpp:164-555 | two column commands to one address leave in the order their requests arrived, under every policy |
| DramPromises.NoStrandedAccess | sim/memsys/DRAMSim2/CommandQueue.cpp:404-463 | a column command whose ACTIVATE was issued finds its row open and untouched, and is the first packet of its bank |
| DramPromises.QueueIsBlocks | sim/memsys/DRAMSim2/CommandQueue.cpp:131-160 | every command queue is a sequence of blocks, an ACTIVATE with its own column command or a column command alone, and never exceeds its depth |
| DramPromises.RowAccessBound | sim/memsys/DRAMSim2/CommandQueue.cpp:506-531 | at most TOTAL_ROW_ACCESSES + 1 column commands go to a row between two ACTIVATEs |
| DramPromises.BusesNeverOverlap | sim/memsys/DRAMSim2/Rank.cpp:299-342 | when a rank starts a read burst, or the controller a write burst, the burst before it is leaving the bus or gone |
| DramPromises.BurstsNeverMeet | sim/memsys/DRAMSim2/MemoryController.cpp:296-470 | the data bursts of any two column commands of a run, to any ranks, are on the bus one after the other; for a read and a later write when tRTRS >= 1 and a row takes longer than a burst to open |
| DramPromises.WritesNeverMeet | sim/memsys/DRAMSim2/MemoryController.cpp:361-414 | any two writes sent in a run, to any ranks, are at least BL/2 cycles apart |
| DramProgress.RefreshComesThrough | sim/memsys/DRAMSim2/CommandQueue.cpp:194-402 | with a refresh waiting: once every bank of its rank is quiet the REFRESH is given out; until then the next command to the first open row in the way, or in open page, when nobody waits for that row, its PRECHARGE |
| DramProgress.PopMakesProgress | sim/memsys/DRAMSim2/CommandQueue.cpp:264-531 | otherwise, if some queued packet meets its bank's state and times, has room in the window and the access count and is not held back by one in front, the first such packet of the next such queue in turn is given out; if none, in open page the PRECHARGE of a bank with no packet for its row or no accesses left; and only else nothing |
| DramProgress.ClosesInTurn | sim/memsys/DRAMSim2/CommandQueue.cpp:485-531 | that PRECHARGE is of the first bank in turn that may be closed, and the next search starts there |
| DramProgress.NothingGoes | sim/memsys/DRAMSim2/CommandQueue.cpp:164-555 | pop() gives nothing out if and only if no refresh step, no packet and no bank to close is ready |
| DramProgress.ServedGoesLast | sim/memsys/DRAMSim2/CommandQueue.cpp:533-546 | the queue that is served goes to the end of the round robin and those behind it come nearer; with additive latency it stays in front for the column command of its ACTIVATE |
| DramTable.CycleOnTable | sim/memsys/DRAMSim2/MemorySystem.cpp:210-238 | one cycle of a run, seen on the bank table and the list of sent commands: countdowns, at most one command the table allows, power management of each rank |
| DramDistances.SendKeepsGaps | sim/memsys/DRAMSim2/MemoryController.cpp:296-470 | sending an allowed command keeps every earlier command of its rank remembered in every bank's entry, at its distance |
| DramDistances.RunKeepsGaps | sim/memsys/DRAMSim2/MemorySystem.cpp:210-238 | every run keeps the raw distances between the commands of each rank |
| DramDistances.ActivateDistances | sim/memsys/DRAMSim2/MemoryController.cpp:296-470 | in every run, in raw parameters, from any command to a later ACTIVATE: tRC and tRP, CL + AL - 1 + BL/2 + tWR + tRP after WRITE_P and AL + tRTP + tRP after READ_P within the bank, tRRD and tRFC within the rank; with low power only if a sleep is as long as the distance |
| DramDistances.RefreshDistances | sim/memsys/DRAMSim2/MemoryController.cpp:441-458 | the same distances from any command to a later REFRESH of its rank |
| DramDistances.PrechargeDistances | sim/memsys/DRAMSim2/MemoryController.cpp:441-452 | from ACTIVATE, WRITE and READ to a later PRECHARGE of the bank: tRAS, CL + AL - 1 + BL/2 + tWR, AL + BL/2 + max(tRTP, tCCD) - tCCD |
| DramDistances.RowOpensFirst | sim/memsys/DRAMSim2/MemoryController.cpp:415-440 | from an ACTIVATE to a column command of its bank: tRCD - AL |
| DramDistances.ColumnDistances | sim/memsys/DRAMSim2/MemoryController.cpp:317-414 | between the column commands of a rank: tCCD and BL/2, from a write to a read CL + AL - 1 + BL/2 + tWTR, from a read to a write BL/2 + tRTRS + 1; in close page if opening a row anew covers it |
| DramDistances.HandoverDistance | sim/memsys/DRAMSim2/MemoryController.cpp:317-414 | between column commands to two ranks, the second to a row already open: BL/2 + tRTRS, one more from a read to a write and one less from a write to a read |
| DramLimits.LimitsAreDue | sim/memsys/DRAMSim2/MemoryController.cpp:296-470 | after any run no limit in the bank table is later than some command sent demands by its raw distance, tXP after waking up apart: nothing is delayed needlessly |
| DramLimits.ClosedBanksReopen | sim/memsys/DRAMSim2/MemoryController.cpp:176-212 | a bank under precharge, auto-precharge or refresh was sent the command for it less than that command's time ago: none stays closed |
| DramSleep.WakeDistance | sim/memsys/DRAMSim2/MemoryController.cpp:604-616 | a rank that wakes up in cycle T is sent no ACTIVATE before T + tXP, in any run |
| DramSleep.SleepDistance | sim/memsys/DRAMSim2/Rank.cpp:343-362 | a rank that falls asleep in cycle T does not wake up before T + tCKE, in any run |
| DramSleep.SleepShortensRowCycle | sim/memsys/DRAMSim2/MemoryController.cpp:593-616 | after ACTIVATE, READ_P and a sleep the table allows the bank's next ACTIVATE exactly tRCD - AL + read recovery + tRP + tCKE + tXP after the last: tRC is kept if and only if it is no longer |
| DramSleep.ReadOfReopenedRow | sim/memsys/DRAMSim2/MemoryController.cpp:361-414 | a row opened anew right after WRITE_P may be read as soon as it is open: the write-to-read time is kept if and only if opening covers it |
| DramShortCycle.RowCycleIsCut | sim/memsys/DRAMSim2/MemoryController.cpp:593-616 | a whole run with a DDR2 device's timing in close page and low power: two ACTIVATEs of one bank 16 cycles apart with tRC = 18 |
| DramDuties.NextCycleSends | sim/memsys/DRAMSim2/CommandQueue.cpp:264-463 | in every run, if a queued packet finds its bank in the right state, every raw distance to the commands sent passed, fewer than four ACTIVATEs in the window and accesses left, and nothing in front of it, the next cycle sends such a packet |
| DramLiveness.QueueMoves | sim/memsys/DRAMSim2/CommandQueue.cpp:194-531 | a channel whose times have all passed and that has a packet queued for a rank not being cleared has a packet that may leave or, in open page, a bank to close, under every policy |
| DramLiveness.RefreshMoves | sim/memsys/DRAMSim2/CommandQueue.cpp:194-402 | a channel whose times have all passed and that has a refresh waiting can take the next step towards it |
| DramLiveness.NeverStalls | sim/memsys/DRAMSim2/MemorySystem.cpp:210-238 | without low power no run stalls: with a command queued or a refresh waiting, and nothing sent for as long as the longest distance, the next cycle sends a command |
| DramDuties.RequestActs | sim/memsys/DRAMSim2/MemoryController.cpp:762-780 | after any run a request is taken, as the last of the transaction queue and of those accepted, exactly while the queue has room |
| DramDuties.SplitActs | sim/memsys/DRAMSim2/MemoryController.cpp:492-570 | the first transaction whose command queue has two places free, and only it, becomes an ACTIVATE and a column command to its location at the end of that queue |
| DramDuties.ReturnActs | sim/memsys/DRAMSim2/MemoryController.cpp:661-700 | while data waits to be returned, every cycle returns the first of it to the oldest pending read of its address |
| DramDuties.PowerActs | sim/memsys/DRAMSim2/MemoryController.cpp:572-616 | an idle rank without commands or refresh goes to sleep, one with work wakes up once it has slept its time, and its power state changes only so |
| DramRefreshes.RefreshesOnTime | sim/memsys/DRAMSim2/MemoryController.cpp:262-279 | in every run rank r is asked for its refresh number n in the cycle share * (r + 1) + n * interval and in no other; a sleeping rank is told tXP cycles ahead |
| DramLatency.ReadDataOnTime | sim/memsys/DRAMSim2/Rank.cpp:299-342 | in every run a read's data is on its rank's bus from 1 + CL + AL cycles after the command for BL/2 cycles |
| DramLatency.OnlyPlannedReads | sim/memsys/DRAMSim2/Rank.cpp:299-342 | whatever a rank has on its bus is the data of a read sent that long ago |
| DramLatency.ReadsArriveOnTime | sim/memsys/DRAMSim2/Rank.cpp:303-318 | in the cycle a read's data is through the controller has it |
| DramLatency.WriteDataOnTime | sim/memsys/DRAMSim2/MemoryController.cpp:214-260 | in every run a write's data is on the controller's bus from CL + AL - 1 cycles after the command for BL/2 cycles |
| DramLatency.OnlyPlannedWrites | sim/memsys/DRAMSim2/MemoryController.cpp:214-260 | whatever the controller has on its bus is the data of a write sent that long ago |
| DramLatency.WritesReportedOnTime | sim/memsys/DRAMSim2/MemoryController.cpp:214-236 | after any run exactly the writes whose CL + AL - 1 + BL/2 cycles are over have been reported, in the order they were sent |
| DramBanks.SendKeepsBank | sim/memsys/DRAMSim2/MemoryController.cpp:296-470 | the controller's update of a bank at a send and the rank's update one cycle later leave the two entries in agreement, for every command |
| DramBanks.SendIsAccepted | sim/memsys/DRAMSim2/Rank.cpp:82-292 | a command the controller's table allows meets the rank's state, row and timing checks one cycle later |
| DramBanks.SendKeepsRank | sim/memsys/DRAMSim2/MemoryController.cpp:296-470 | the same for all banks of a rank, REFRESH included |
| DramBanks.TickKeepsRank | sim/memsys/DRAMSim2/MemoryController.cpp:156-190 | the countdowns of auto-precharge, precharge and refresh keep the two tables in agreement |
| DramAgreement.DeliverKeepsAgreement | sim/memsys/DRAMSim2/MemoryController.cpp:194-203 | delivery of the command under way never meets a refusal and leaves the tables in agreement |
| DramAgreement.SendKeepsAgreement | sim/memsys/DRAMSim2/MemoryController.cpp:474-490 | a command that may be sent keeps all ranks in agreement, with it under way |
| DramAgreement.PowerKeepsAgreement | sim/memsys/DRAMSim2/Rank.cpp:345-385 | powering a rank down or up is never refused and keeps the tables in agreement |
| DramBuses.SendKeepsReads | sim/memsys/DRAMSim2/MemoryController.cpp:317-360 | a command that may be sent keeps the read bursts of every rank apart |
| DramBuses.SendKeepsWrites | sim/memsys/DRAMSim2/MemoryController.cpp:361-414 | a command that may be sent keeps the write bursts of the channel apart |
| DramBuses.TickShiftsWrites | sim/memsys/DRAMSim2/MemoryController.cpp:206-260 | with bursts apart there is no data bus collision, and all start times come one cycle closer |
| DramBuses.TickKeepsReads | sim/memsys/DRAMSim2/Rank.cpp:299-342 | a rank's update keeps its read bursts apart and in time |
| DramWindow.TickKeepsWindow | sim/memsys/DRAMSim2/CommandQueue.cpp:171-184 | counting down keeps the counters equal to the ACTIVATEs of the last tFAW cycles |
| DramWindow.ActKeepsWindow | sim/memsys/DRAMSim2/CommandQueue.cpp:549-552 | so does a new ACTIVATE that found fewer than four counters |
| DramWindow.FiveActsSpanWindow | sim/memsys/DRAMSim2/CommandQueue.cpp:632-644 | any five ACTIVATEs of a rank in order span at least tFAW cycles |
| DramDataBus.SendKeepsSpacing | sim/memsys/DRAMSim2/MemoryController.cpp:296-470 | a send keeps the bursts of all logged column commands apart and every open row waiting for them |
| DramDataBus.RunIsSpaced | sim/memsys/DRAMSim2/MemorySystem.cpp:210-238 | so does every run |
| DramDataBus.WriteAfterRead | sim/memsys/DRAMSim2/MemoryController.cpp:317-360 | the earliest write the table allows to an open row after a read stays off the read's burst if and only if tRTRS >= 1 |
| DramDataBus.WriteToNewRow | sim/memsys/DRAMSim2/MemoryController.cpp:415-440 | the earliest write to a row of another rank opened right after a read stays off the read's burst if and only if tRCD - AL is longer than a burst |
| DramQueueProofs.DecideOk | sim/memsys/DRAMSim2/CommandQueue.cpp:164-555 | every decision of pop() takes a packet the controller's table allows, with nothing earlier for its bank or address, or precharges a bank nothing waits for, and moves only the search pointers |
| DramQueueProofs.RefreshDecisionOk | sim/memsys/DRAMSim2/CommandQueue.cpp:196-402 | the refresh path decides soundly under both policies |
| DramQueueProofs.TakeOk | sim/memsys/DRAMSim2/CommandQueue.cpp:252-463 | the packet that the search picks may be sent, and the packet dropped before it is its own ACTIVATE |
| DramQueueProofs.PreSearchOk | sim/memsys/DRAMSim2/CommandQueue.cpp:485-531 | the precharge search closes an open row only when it is time and no column command whose ACTIVATE has left still waits for the bank, and moves only its own pointers |
| DramCommitProofs.CommitKeepsQueues | sim/memsys/DRAMSim2/CommandQueue.cpp:404-545 | removing what was chosen and sending it keeps the block shape, the safety of lone column commands and the access counters |
| DramCommitProofs.DecisionIsSendable | sim/memsys/DRAMSim2/CommandQueue.cpp:625-690 | what a sound decision sends is allowed by the controller's table, and an ACTIVATE finds room in the window |
| DramQueueRuns.TickKeepsQueues | sim/memsys/DRAMSim2/MemoryController.cpp:156-190 | bank countdowns keep the queue invariant |
| DramQueueRuns.EnqueueKeepsQueues | sim/memsys/DRAMSim2/CommandQueue.cpp:131-160 | enqueueing an ACTIVATE and its column command keeps it |
| DramQueue.WalkReturns | sim/memsys/DRAMSim2/CommandQueue.cpp:721-756 | the round-robin walk over ranks and banks is back at its start after exactly one lap |
| DramQueue.DecideShaped | sim/memsys/DRAMSim2/CommandQueue.cpp:164-555 | pop() never indexes outside its tables |
| DramFlow.SplitKeepsOrder | sim/memsys/DRAMSim2/MemoryController.cpp:492-570 | splitting a transaction past others keeps the order of every address |
| DramFlow.CommitTags | sim/memsys/DRAMSim2/CommandQueue.cpp:404-545 | of the queued column commands to an address, pop() takes the first |
| DramFlow.ReturnKeepsOrder | sim/memsys/DRAMSim2/MemoryController.cpp:661-700 | returning a read by address returns the oldest pending one |
| DramFlow.DeliverKeepsOrder | sim/memsys/DRAMSim2/MemoryController.cpp:194-203 | a delivered read stays in order |
| DramFlow.TickRanksKeepsOrder | sim/memsys/DRAMSim2/Rank.cpp:299-342 | data sent back by the ranks stays in order |
| DramFlow.LaunchKeepsOrder | sim/memsys/DRAMSim2/MemoryController.cpp:223-260 | write data goes on the bus in order |
| DramCommandQueue.CommandQueue.constructor | sim/memsys/DRAMSim2/CommandQueue.cpp:49-108 | empty queues of the configured structure |
| DramCommandQueue.CommandQueue.Enqueue | sim/memsys/DRAMSim2/CommandQueue.cpp:131-160 | appends to the packet's queue and nothing else; fails when the queue is past its depth |
| DramCommandQueue.CommandQueue.PopCommand | sim/memsys/DRAMSim2/CommandQueue.cpp:164-555 | the nested search loops find and remove exactly what the declarative Pop chooses; DramProgress says what that must be |
| DramCommandQueue.CommandQueue.Search | sim/memsys/DRAMSim2/CommandQueue.cpp:252-463 | the search stops at the first queue of the lap with an issuable packet |
| DramCommandQueue.CommandQueue.SearchPre | sim/memsys/DRAMSim2/CommandQueue.cpp:485-531 | the precharge search stops at the first bank of the lap to close |
| DramCommandQueue.CommandQueue.HasRoomFor | sim/memsys/DRAMSim2/CommandQueue.cpp:558-562 | the unsigned comparison of the room that is left |
| DramCommandQueue.CommandQueue.IsEmpty | sim/memsys/DRAMSim2/CommandQueue.cpp:693-712 | whether no queue of the rank holds a packet |
| DramCommandQueue.CommandQueue.NeedRefresh | sim/memsys/DRAMSim2/CommandQueue.cpp:715-719 | the one pending refresh is replaced |
| DramRank.Rank.constructor | sim/memsys/DRAMSim2/Rank.cpp:40-60 | all banks idle, nothing on the way |
| DramRankHistory.RankTakesExactly | sim/memsys/DRAMSim2/Rank.cpp:82-385 | after any calls that got through, the next command, power-down or power-up gets through if and only if what the rank received allows it: the row open or closed, awake or asleep, and every raw distance passed to what it has not forgotten (REFRESH and waking up make it forget earlier waits for an ACTIVATE, an ACTIVATE those of its bank's columns and precharge) |
| DramRankHistory.RankAwaitsRefresh | sim/memsys/DRAMSim2/Rank.cpp:254-267 | a rank waits for a refresh exactly from being told of it until it receives a REFRESH, whatever happens in between |
| DramRank.Rank.ReceiveFromBus | sim/memsys/DRAMSim2/Rank.cpp:82-292 | refused exactly when the Receive that DramRankHistory is about refuses; otherwise the whole new state of the rank |
| DramRank.Rank.Update | sim/memsys/DRAMSim2/Rank.cpp:299-342 | the read pipeline moves on by one cycle |
| DramRank.Rank.PowerDownRank | sim/memsys/DRAMSim2/Rank.cpp:345-361 | refused exactly when a bank is not idle |
| DramRank.Rank.PowerUpRank | sim/memsys/DRAMSim2/Rank.cpp:364-385 | refused exactly when the rank is not down or it is too early |
| DramController.MemoryController.constructor | sim/memsys/DRAMSim2/MemoryController.cpp:63-111 | a valid controller in the start state, with ranks and queue of its own |
| DramController.MemoryController.AddTransaction | sim/memsys/DRAMSim2/MemoryController.cpp:768-780 | accepted exactly while the queue has room |
| DramController.MemoryController.ReceiveFromBus | sim/memsys/DRAMSim2/MemoryController.cpp:114-135 | read data is kept for return |
| DramController.MemoryController.DeliverCommand | sim/memsys/DRAMSim2/MemoryController.cpp:194-203 | the command under way reaches its rank when its countdown ends |
| DramController.MemoryController.FinishWrite | sim/memsys/DRAMSim2/MemoryController.cpp:205-222 | a finished write is reported once |
| DramController.MemoryController.LaunchWrite | sim/memsys/DRAMSim2/MemoryController.cpp:223-260 | fails exactly on a data bus collision |
| DramController.MemoryController.RefreshTimer | sim/memsys/DRAMSim2/MemoryController.cpp:262-279 | the timer of the rank whose turn it is |
| DramController.MemoryController.UpdateBankStates | sim/memsys/DRAMSim2/MemoryController.cpp:296-470 | the whole bank table after a popped command, as the table of which DramDistances and DramLimits speak |
| DramController.MemoryController.PopAndSend | sim/memsys/DRAMSim2/MemoryController.cpp:281-490 | fails exactly on a command bus collision, otherwise the specified state |
| DramController.MemoryController.SplitTransaction | sim/memsys/DRAMSim2/MemoryController.cpp:492-570 | the first transaction with room is split |
| DramController.MemoryController.ManagePower | sim/memsys/DRAMSim2/MemoryController.cpp:572-616 | every rank powered down or up as specified, failing exactly when a rank refuses |
| DramController.MemoryController.ReturnRead | sim/memsys/DRAMSim2/MemoryController.cpp:661-700 | fails exactly when no pending read matches |
| DramController.MemoryController.Update | sim/memsys/DRAMSim2/MemoryController.cpp:153-760 | all phases together are the controller's part of a cycle |
| DramController.MemorySystem.constructor | sim/memsys/DRAMSim2/MemorySystem.cpp:56-149 | a new channel is in the start state and in good order |
| DramController.MemorySystem.AddTransaction | sim/memsys/DRAMSim2/MemorySystem.cpp:197-201 | a request keeps the channel in good order |
| DramController.MemorySystem.Update | sim/memsys/DRAMSim2/MemorySystem.cpp:210-238 | on objects in good order no exit is taken, the new state is one cycle of the model, and the order is kept |
| AddressMapping.Log2 | sim/memsys/DRAMSim2/SystemConfiguration.h:200-212 | the ceiling of the logarithm |
| AddressMapping.IsPowerOfTwo | sim/memsys/DRAMSim2/SystemConfiguration.h:213-216 | for any 64-bit value: true exactly for powers of two below 2^32, because the logarithm takes 32 bits of it |
| AddressMapping.XorKeepsLow | sim/memsys/DRAMSim2/AddressMapping.cpp:84-115 | an address exclusive-or its upper bits is its lower bits |
| AddressMapping.Map | sim/memsys/DRAMSim2/AddressMapping.cpp:36-311 | for each scheme shifting field after field off gives the location that the bits stand for, every field within its width and the five packing back into the address |
| AddressMapping.MappingIsBijective | sim/memsys/DRAMSim2/AddressMapping.cpp:36-311 | two addresses in range share a location exactly when they share a transaction-sized block, and the location packs back into the block's number |
| AddressMapping.EveryLocation | sim/memsys/DRAMSim2/AddressMapping.cpp:36-311 | every location is where some address in range is mapped |
| AddressMapping.PackInjective | sim/memsys/DRAMSim2/AddressMapping.cpp:36-311 | packed fields can be told apart again |
| AddressMapping.MapIsLocate | sim/memsys/DRAMSim2/AddressMapping.cpp:36-311 | shifting fields off step by step gives the bits each field stands for, for every scheme and address |
| AddressMapping.FieldDistance | sim/memsys/DRAMSim2/AddressMapping.cpp:89-311 | for each scheme and field: addresses of two locations that differ by one in that field and nothing else lie two to the field's bit position apart |
| DramAddressing.EveryAddressInRange | sim/memsys/DRAMSim2/AddressMapping.cpp:36-311 | every address is mapped to a rank and a bank the channel has if and only if both counts are powers of two |
| DramAddressing.ThreeBanks | sim/memsys/DRAMSim2/AddressMapping.cpp:87-118 | with three banks, address 3 is mapped to a bank that does not exist |
| DramAddressing.EveryRunSucceeds | sim/memsys/DRAMSim2/MemorySystem.cpp:210-238 | with such counts every sequence of requests and cycles is legal and meets no error exit |
| DramAddressing.EveryDeviceRuns | sim/memsys/DRAMSim2/ini/DDR3_micron_32M_8B_x8_sg15.ini:1-58 | with the timing of any device file, any policy, scheme and widths, no sequence of requests to any addresses ends in an error exit |
| DramAddressing.EveryDeviceSharesItsBus | sim/memsys/DRAMSim2/ini/DDR3_micron_32M_8B_x8_sg15.ini:1-58 | with the timing of any device file the bursts of any two column commands are one after the other |
| DramAddressing.DeviceDistances | sim/memsys/DRAMSim2/SystemConfiguration.h:115-130 | which distances a sleep and a reopened row cover, for the timing of every device file: all but tRC, which in close page with low power only four of the ten timings cover |
| DramAddressing.EveryDeviceWaitsToActivate | sim/memsys/DRAMSim2/MemoryController.cpp:296-470 | so with any device file every run keeps all distances to an ACTIVATE, tRC with that exception |
| ClockDomain.ClockDomainCrosser.constructor | sim/memsys/DRAMSim2/ClockDomain.cpp:10-18 | counters at zero |
| ClockDomain.ClockDomainCrosser.Update | sim/memsys/DRAMSim2/ClockDomain.cpp:59-88 | the inner loop ends, and counter2 is never behind nor a whole clock2 ahead |
| ClockDomain.ClockDomainCrosser.FiredExactly | sim/memsys/DRAMSim2/ClockDomain.cpp:59-88 | after N updates the callback has fired exactly ceil(N * clock1 / clock2) times, resets and the 1:1 shortcut included |
| ClockDomain.ClockDomainCrosser.CountersBounded | sim/memsys/DRAMSim2/ClockDomain.cpp:82-87 | the resets keep the counters below clock1 * clock2 (+ clock2) |
| DescqProofs.StepKeeps | sim/tile/DESCQ.cpp:3-262 | every step its callers may take succeeds and keeps the invariant |
| DescqProofs.RunKeeps | sim/tile/DESCQ.cpp:3-262 | so does every run, in any processing order |
| DescqProofs.IssueKeeps | sim/tile/DynamicNode.cpp:661-792 | issuing a node, accepted or refused, breaks no assert and keeps the invariant |
| DescqProofs.ReturnKeeps | sim/tile/DynamicNode.cpp:445-494 | data that comes back keeps the invariant |
| DescqProofs.RecvSucceeds | sim/tile/DESCQ.cpp:60-77 | a RECV finds the store it waits for in both maps |
| DescqProofs.StvalKeeps | sim/tile/DESCQ.cpp:78-105 | every load listed with the store is still in the communication queue, and retiring keeps the invariant |
| DescqProofs.CompletedStvalIsHead | sim/tile/DESCQ.cpp:106-121 | a STADDR that finds its STVAL completed heads the store address buffer |
| DescqPromises.NoAssertFails | sim/tile/DESCQ.cpp:41-222 | no run fails an assert, and no node is handed over twice |
| DescqPromises.StoresRetireInOrder | sim/tile/DESCQ.cpp:78-121 | STADDRs and STVALs leave in id order, each STADDR after its STVAL, and exactly those the counters say |
| DescqPromises.ValueIsInOnePlace | sim/tile/DESCQ.cpp:129-184 | the value of an issued producer is in the queue, on its way from memory or received, exactly one of them, and received only when the producer completed |
| DescqPromises.Accounting | sim/tile/DESCQ.cpp:129-184 | the counters are the entries plus the terminal loads, within both sizes |
| DescqPromises.ForwardingIsExact | sim/tile/DESCQ.cpp:148-167 | STLMap and SVB are inverse over the forwarded loads still queued, and no load waits for a retired store |
| DescqPromises.DependencyIsOldest | sim/tile/DESCQ.cpp:27-39 | sab_has_dependency finds the oldest older store to the address, or there is none |
| DescqPromises.BackPointersAreRedundant | sim/tile/DESCQ.cpp:188-216 | the checks against the back pointers refuse exactly what the counts refuse |
| DescqAnswers.LoadsFindTheirSource | sim/tile/DynamicNode.cpp:661-712 | in every run a load that is taken gets its value from the load/store queue if that forwards; else, if an older matching store exists with a store before it in the buffer, it is listed with the oldest such one; else it goes to memory; it is refused exactly when it may not issue or a buffer it needs is full |
| DescqAnswers.ProducersAnswer | sim/tile/DESCQ.cpp:127-184 | a SEND is taken exactly when the communication queue has room, an atomic when the terminal buffer has room too, and where the value then is |
| DescqAnswers.StoresAnswer | sim/tile/DESCQ.cpp:186-220 | store addresses and values are taken exactly in id order and while their buffer has room, counted by its entries |
| DescqHistory.StepsTell | sim/tile/DESCQ.cpp:3-25 | in every run the nodes are those ordered, in order, time is the number of cycles processed, and exactly the finished nodes have completed |
| DescqHistory.OrderedInTurn | sim/tile/DESCQ.cpp:3-25 | so ids are given out in order of arrival, without gaps, one series for all producers |
| DescqHistory.RecvIsTaken | sim/tile/DESCQ.cpp:185-187 | a RECV is always taken |
| DescqHistory.WakesAfterLatency | sim/tile/DESCQ.cpp:217-231 | a node taken in cycle T enters the execution set with the first wake-up after cycle T + latency and with no earlier one |
| DescqAnswers.RecvAnswers | sim/tile/DESCQ.cpp:60-77 | a RECV leaves exactly when its producer has completed and its value waits for no store; its entry is then free |
| DescqAnswers.StvalAnswers | sim/tile/DESCQ.cpp:78-101 | exactly the loads listed with the store become ready, and the STVAL leaves exactly when its store is the oldest in the buffer and no load is listed with it |
| DescqAnswers.StaddrAnswers | sim/tile/DESCQ.cpp:102-120 | a STADDR leaves the buffer exactly when its STVAL has completed |
| DescqAnswers.ProducersExecute | sim/tile/DESCQ.cpp:42-59 | a producer leaves at once unless its value comes from memory, and then waits in the terminal load buffer |
| DescqHistory.LeavesWhenReturned | sim/tile/DESCQ.cpp:247-261 | an entry of the terminal load buffer leaves for the communication queue exactly if its data has come back in the run |
| DescqQueue.DescQ.constructor | sim/tile/DESCQ.hpp:26-80 | an empty queue in good order |
| DescqQueue.DescQ.OrderNewProducer | sim/tile/DESCQ.cpp:3-25 | the next id, and the queue in good order |
| DescqQueue.DescQ.OrderNewStaddr | sim/tile/DESCQ.cpp:3-25 | the next id, and the queue in good order |
| DescqQueue.DescQ.SabHasDependency | sim/tile/DESCQ.cpp:27-39 | the scan from the head gives what the search on values gives |
| DescqQueue.DescQ.IssueNode | sim/tile/DynamicNode.cpp:661-792 | decides where a load's value comes from, then inserts, as the Issue that DescqAnswers is about |
| DescqQueue.DescQ.InsertNode | sim/tile/DESCQ.cpp:127-222 | taken exactly when the buffers the node needs have room |
| DescqQueue.DescQ.ExecuteNode | sim/tile/DESCQ.cpp:41-125 | one node executes as specified, its asserts included |
| DescqQueue.DescQ.Process | sim/tile/DESCQ.cpp:224-262 | one cycle is a path of steps of the machine, whatever order the execution set is walked in |
| DescqQueue.DescQ.HandleMemoryReturn | sim/tile/DynamicNode.cpp:445-494 | a load or atomic under way is marked as returned |
| DescqQueue.DescQ.FinishNode | sim/tile/DynamicNode.cpp:794-860 | a node completes once, a RECV after its producer and a STADDR after its STVAL |
| LoadStoreProofs.CheckedIsSafe | sim/tile/LoadStoreQ.cpp:165-241 | an operation the checks let go has every older conflicting operation issued |
| LoadStoreProofs.NeverSpeculates | sim/tile/LoadStoreQ.cpp:165-202 | check_load_issue never answers that the load speculates |
| LoadStoreProofs.StepKeeps | sim/tile/LoadStoreQ.cpp:9-123 | indexes, queues, window and memory order are kept by every step |
| LoadStoreProofs.RunKeeps | sim/tile/LoadStoreQ.cpp:9-123 | and by every run |
| LoadStorePromises.MemoryOrder | sim/tile/LoadStoreQ.cpp:165-241 | of two accesses to one address of which one writes, the older issued, exactly once, before the younger |
| LoadStorePromises.RetiresInOrder | sim/tile/Core.cpp:71-84 | what has left the window is a prefix of the program, all of it issued |
| LoadStorePromises.NothingToRunAgain | sim/tile/LoadStoreQ.cpp:283-298 | check_speculation finds nothing in any run |
| LoadStorePromises.OldestMayIssue | sim/tile/LoadStoreQ.cpp:165-241 | the oldest operation of the window passes its check as soon as its address is known |
| LoadStorePromises.AcceptedBlockFits | sim/tile/LoadStoreQ.cpp:71-123 | an accepted block fits the load queue, and the store queue if and only if the room left covers its atomics |
| LoadStorePromises.AtomicsOverflow | sim/graph/Graph.cpp:42-49 | a reachable state in which a store queue of one entry holds two atomics |
| LoadStoreAnswers.OpenUntilResolved | sim/tile/LoadStoreQ.cpp:16-68 | in every run the unresolved operations are exactly those whose address has not been resolved |
| LoadStoreAnswers.LoadAnswers | sim/tile/LoadStoreQ.cpp:165-202 | in every run check_load_issue answers 1 if and only if every older store to the address has issued and, without speculation, every older store has its address; else it answers -1 |
| LoadStoreAnswers.StoreAnswers | sim/tile/LoadStoreQ.cpp:204-241 | in every run check_store_issue says yes if and only if every older access to the address has left and no older load, nor without speculation an older store, waits for its address |
| LoadStoreAnswers.IssueAnswers | sim/tile/DynamicNode.cpp:597-658 | an operation whose turn the window and the barriers give issues exactly when it is free in this sense |
| LoadStoreAnswers.RoomAnswers | sim/tile/LoadStoreQ.cpp:71-123 | room for a block is made if and only if the entries in excess at the front of each queue have all left, and just those are given up |
| LoadStoreHistory.LeavesWhenOver | sim/tile/Core.cpp:71-84 | in every run what leaves is the longest run, from the front, of operations that have completed, or are STADDRs that have issued |
| LoadStoreHistory.IssuesInWindow | sim/tile/Core.cpp:27-42 | in every run no operation has issued a whole window or more ahead of the oldest that has not left |
| LoadStoreHistory.TurnInWindow | sim/tile/Core.cpp:27-69 | in every run an operation whose address is known gets its turn if and only if it lies in the window (before the first has left: is the first) and every older barrier, for a barrier everything older, has completed |
| LoadStoreAnswers.OldestGoes | sim/tile/Core.cpp:22-69 | no run gets stuck: the oldest operation that has not issued is let through by the window, the barriers and the checks once its address is known |
| LoadStoreFences.YoungerWait | sim/tile/Core.cpp:44-54 | in every run, what is younger than a barrier issues only after the barrier has issued and completed |
| LoadStoreFences.FirstToFinish | sim/tile/DynamicNode.cpp:805-809 | a barrier that completes is the oldest open one, so the assert never fails |
| LoadStoreFences.BarriersWaitInWindows | sim/tile/Core.cpp:55-67 | in all runs a barrier issues only after everything older, if and only if the window is limited |
| LoadStoreFences.BarrierOvertakes | sim/tile/Core.cpp:71-84 | a run with an unlimited window in which a barrier issues before an older operation |
| LoadStoreQueue.LoadStoreQ.constructor | sim/tile/LoadStoreQ.cpp:5-8 | empty |
| LoadStoreQueue.LoadStoreQ.InsertNode | sim/tile/LoadStoreQ.cpp:19-37 | deque, index and unresolved set grow together |
| LoadStoreQueue.LoadStoreQ.Resolve | sim/tile/LoadStoreQ.cpp:9-17 | the operation's address is known |
| LoadStoreQueue.LoadStoreQ.Remove | sim/tile/LoadStoreQ.cpp:39-69 | the operation leaves its deque and its index, all others stay in order |
| LoadStoreQueue.LoadStoreQ.CheckRoom | sim/tile/LoadStoreQ.cpp:71-123 | gives up just enough of a prefix that has left the window, or nothing |
| LoadStoreQueue.LoadStoreQ.CheckUnresolvedLoad | sim/tile/LoadStoreQ.cpp:125-135 | whether an older load has no address yet |
| LoadStoreQueue.LoadStoreQ.CheckUnresolvedStore | sim/tile/LoadStoreQ.cpp:137-163 | whether an older store has no address yet |
| LoadStoreQueue.LoadStoreQ.CheckLoadIssue | sim/tile/LoadStoreQ.cpp:165-202 | the ordered scan gives the unordered condition, which LoadStoreAnswers shows to be exact |
| LoadStoreQueue.LoadStoreQ.CheckStoreIssue | sim/tile/LoadStoreQ.cpp:204-241 | the ordered scans give the unordered condition |
| LoadStoreQueue.LoadStoreQ.CheckForwarding | sim/tile/LoadStoreQ.cpp:243-281 | which store would forward, and whether its value is there |
| LoadStoreQueue.IssueWindow.constructor | sim/tile/Core.hpp:34-56 | an empty window; its end is zero until a node has left |
| LoadStoreQueue.IssueWindow.InsertDN | sim/tile/Core.cpp:18-25 | the next place in program order; a barrier is also listed among the open barriers |
| LoadStoreQueue.IssueWindow.CanIssue | sim/tile/Core.cpp:27-69 | yes exactly when the place is inside the window, a slot is free, no older barrier is open, and, for a barrier, everything older up to the window's end is completed: the two scans stop early without missing anything |
| LoadStoreQueue.IssueWindow.FinishBarrier | sim/tile/DynamicNode.cpp:805-809 | the assert holds exactly for the oldest open barrier, which leaves the list |
| LoadStoreQueue.IssueWindow.Process | sim/tile/Core.cpp:71-84 | retires the longest prefix that is done |
| LineLockProofs.ExecuteKeeps | sim/memsys/LLCache.cpp:222-259 | the lock part of execute() never follows a missing counter and keeps the invariant |
| LineLockProofs.StepKeeps | sim/memsys/LLCache.cpp:8-65 | every step keeps the invariant |
| LineLockProofs.RunKeeps | sim/memsys/LLCache.cpp:8-65 | so does every run |
| LineLockPromises.CountersAreAlive | sim/memsys/LLCache.cpp:222-259 | no missing or freed acknowledgement counter is ever used |
| LineLockPromises.OnlyTheHolderAccesses | sim/memsys/LLCache.cpp:222-259 | while a line is locked only its holder accesses it, and only when no eviction of its grant is still on the way |
| LineLockPromises.HolderGetsThrough | sim/memsys/LLCache.cpp:222-259 | no acknowledgement is lost: without requests on the way the holder gets through |
| LineLockPromises.AcknowledgementsAddUp | sim/memsys/L2Cache.cpp:82-106 | counted and on their way, the acknowledgements of a grant are one per core |
| LineLockPromises.FirstComeFirstServed | sim/memsys/LLCache.cpp:18-57 | after n releases the line belongs to request n and the later ones wait in order, none twice |
| LineLockPromises.WaiterIsServed | sim/memsys/LLCache.cpp:18-57 | the k-th waiter holds the line after exactly k + 1 more releases and not before, whatever else happens |
| LineLockAnswers.OrdinaryAnswers | sim/memsys/LLCache.cpp:222-261 | in every run a transaction that needs no lock accesses the cache if and only if its line has no holder; then it is done and no lock, queue or counter has changed, otherwise nothing has |
| LineLockAnswers.HolderAnswers | sim/memsys/LLCache.cpp:224-239 | the holder accesses the cache if and only if no request for its line is on its way |
| LineLockAnswers.AtomicAnswers | sim/memsys/LLCache.cpp:240-249 | an atomic without the lock does not access the cache; it holds a free line at once, with a request to every core and an unused counter, and otherwise waits in exactly one place of the queue |
| LineLockAnswers.ReleaseAnswers | sim/memsys/LLCache.cpp:18-33 | a release hands the line to the first waiter, with a request to every core and an unused counter, or frees it, and touches no other line |
| LineLockCache.LLCache.constructor | sim/memsys/LLCache.cpp:8-16 | nothing locked, nothing on the way |
| LineLockCache.LLCache.Arrive | sim/memsys/Cache.cpp:92-103 | a transaction arrives and the protocol stays in good order |
| LineLockCache.LLCache.HoldsLock | sim/memsys/LLCache.cpp:13-16 | whether the node is the holder of its line |
| LineLockCache.LLCache.LineIsLocked | sim/memsys/LLCache.cpp:8-11 | whether the line has a holder |
| LineLockCache.LLCache.LockCacheline | sim/memsys/LLCache.cpp:35-57 | the lock is had exactly if afterwards the node is the holder; a first request waits once |
| LineLockCache.LLCache.EvictAllCaches | sim/memsys/LLCache.cpp:59-65 | one request with the grant's counter to every core |
| LineLockCache.LLCache.ReleaseLock | sim/memsys/LLCache.cpp:18-33 | the line goes to the first waiter with a new counter, or becomes free |
| LineLockCache.LLCache.ExecuteTransaction | sim/memsys/LLCache.cpp:222-259 | whether the transaction may access the cache, and the new state, as the Execute that LineLockAnswers is about |
| LineLockCache.LLCache.EvictAtL1 | sim/memsys/L1Cache.cpp:34-55 | an eviction request becomes one message with the same counter |
| LineLockCache.LLCache.EvictAtL2 | sim/memsys/L2Cache.cpp:82-106 | the counter of that very grant goes up by one |
| LineLockCache.PPBuff.constructor | sim/memsys/CommMec.hpp:8-30 | both buffers empty |
| LineLockCache.PPBuff.Put | sim/memsys/CommMec.hpp:15-28 | what is put in now can be taken in the next cycle, not in this one |
| LineLockCache.PPBuff.TakeAll | sim/memsys/CommMec.hpp:15-28 | everything of the last cycle is taken once |
| Recency.RunIsRight | sim/memsys/FunctionalCache.cpp:30-132 | after every proper run the lines stand in order of last use, with the offset and node of that use, its number of uses since filled, dirty exactly if stored to since then |
| Recency.VictimIsLeastRecentlyUsed | sim/memsys/FunctionalCache.cpp:48-98 | the victim's last use is the longest ago of a full set |
| Residency.ResidentIffKept | sim/memsys/FunctionalCache.cpp:30-132 | after every proper run a line is resident if and only if it was used, not flushed since, and at no time since its last use were as many other lines newer (used since, and not flushed) as the set has ways |
| Residency.ResidentIffRecent | sim/memsys/FunctionalCache.cpp:30-132 | without a flush in between: if and only if fewer than `ways` other lines were used since its last use |
| Residency.FlushMakesRoom | sim/memsys/FunctionalCache.cpp:100-118 | a run in which, because of a flush, a line outlives as many other lines as the set has ways |
| Residency.CacheHoldsKept | sim/memsys/FunctionalCache.cpp:172-233 | the same for the whole cache: what a set holds is told by the calls that touched it |
| CacheSets.CacheSet.constructor | sim/memsys/FunctionalCache.cpp:4-22 | an empty list between two sentinels and all other nodes free, all new |
| CacheSets.CacheSet.AccessLine | sim/memsys/FunctionalCache.cpp:30-46 | on the linked list, a hit moves the line to the front of the recency sequence; the set keeps its nodes |
| CacheSets.CacheSet.InsertLine | sim/memsys/FunctionalCache.cpp:48-98 | a new line in front; a full set gives up its last line |
| CacheSets.CacheSet.EvictLine | sim/memsys/FunctionalCache.cpp:100-118 | the line leaves and its node is free; true exactly if it was resident and dirty |
| CacheSets.CacheSet.HasEntry | sim/memsys/FunctionalCache.cpp:120-123 | answers for the map entry, which is residency only when the entry is not empty |
| CacheSets.MissedAccess | sim/memsys/FunctionalCache.cpp:30-36 | a missed access makes present() say yes to a tag that is not resident |
| CacheSets.CacheSet.DeleteNode | sim/memsys/FunctionalCache.cpp:165-170 | the neighbours of the node close the gap |
| CacheSets.CacheSet.InsertFront | sim/memsys/FunctionalCache.cpp:125-132 | the node stands right after the front sentinel |
| FunctionalCaches.FunctionalCache.constructor | sim/memsys/FunctionalCache.cpp:172-181 | every set empty and valid, no node shared, all of it new |
| FunctionalCaches.FunctionalCache.AccessAddress | sim/memsys/FunctionalCache.cpp:194-204 | an access of the address's set, by its tag; all other sets as before |
| FunctionalCaches.FunctionalCache.InsertAddress | sim/memsys/FunctionalCache.cpp:206-225 | an insert into the address's set, and the line number of the victim |
| FunctionalCaches.FunctionalCache.EvictAddress | sim/memsys/FunctionalCache.cpp:227-233 | an eviction from the address's set |
| FunctionalCaches.UseCache | sim/memsys/FunctionalCache.cpp:172-233 | a cache built and used by any proper sequence of calls holds what the recency model of every set says |
| CacheAddress.RebuiltIsAddress | sim/memsys/FunctionalCache.cpp:183-192 | tag, set and offset put the address together again |
| CacheAddress.SameLine | sim/memsys/FunctionalCache.cpp:183-192 | two addresses have the same tag and set exactly when they lie in one line |
| WriteBack.EachSetRuns | sim/memsys/FunctionalCache.cpp:194-233 | each set of the cache holds what its own calls, and only they, made of it |
| WriteBack.VictimAddress | sim/memsys/Cache.cpp:105-127 | the write-back address rebuilt for a victim is the one last used in its line, among the calls of its set |
| WriteBack.CacheVictim | sim/memsys/Cache.cpp:105-127 | the same over all calls to the whole cache, and the victim's dirty flag is "stored to since insertion" |
| WriteBack.LineNumberFits | sim/memsys/FunctionalCache.cpp:206-225 | with at least two bytes in a line the line number fits the signed integer it is passed in |
| Trace.JoinOfHalves | sim/tile/Core.cpp:290-302 | an address stored as two words is read back |
| Trace.ReadPacked | sim/tile/Core.cpp:239-302 | a message in the middle is read back as the records packed into it |
| Trace.ReadClosed | sim/tile/Core.cpp:239-302 | the last message is read back with its records and the last target, and ends the trace |
| TraceBuffer.ClosedIsRead | sim/tile/Core.cpp:239-302 | after the messages before it, the last message completes what the reader knows |
| TraceBuffer.Tracer.constructor | compiler/tracer.cc:83-100 | an empty buffer |
| TraceBuffer.Tracer.WriteMess | compiler/tracer.cc:65-81 | the buffer goes out with its thread id |
| TraceBuffer.Tracer.InsertBranch | compiler/tracer.cc:83-153 | the record is recorded; the two regions never overlap |
| TraceBuffer.Tracer.InsertAccess | compiler/tracer.cc:83-153 | the record is recorded; the two regions never overlap |
| TraceBuffer.Tracer.Close | compiler/tracer.cc:83-153 | reading all messages gives exactly the branches in order with the last target and exactly the accesses in order, and only the last message finishes the trace |
| TraceBuffer.TraceReader.ReadDynData | sim/tile/Core.cpp:239-302 | the decoding loops do what Read says, failed asserts included |
| Transpose.Convert | sim/tests/common/common_spmm.h:39-123 | counting, prefix sum and scatter build the transpose, every slot filled |
| Transpose.ConversionIsTranspose | sim/tests/common/common_spmm.h:39-123 | entry j counts the edges to nodes below j, the slots hold every edge exactly once, each column in row order |
| Transpose.SameEdges | sim/tests/common/common_spmm.h:39-123 | the columns one after the other are a permutation of the edges |
| Transpose.ColumnSorted | sim/tests/common/common_spmm.h:96-116 | rows in a column do not decrease |

## Left out

DRAM:

- The cycle counter is unbounded; its 64-bit wrap is not modelled.
- Packet tags, transaction tags and the logs of what was accepted, sent, returned and written
  are bookkeeping of the model, used to state order and conservation.
- `MemorySystem::pendingTransactions`, which a later request can overtake: claims start at
  `MemoryController::addTransaction`.
- DramController.MemorySystem.Update: does not take requests over from pendingTransactions.
- DramController.MemorySystem.constructor: the number of ranks is given, not computed from the
  memory size.
- DramDataBus.WriteAfterRead: that the two turn-around conditions are needed is shown on the
  controller's table, not by a whole run.
- That every refresh is eventually sent: only one pending refresh is remembered, so a late one
  can be replaced by the next.
- DramDuties.NextCycleSends: without low power only; with it a sleeping rank wakes up for its
  queue (`DramDuties.PowerActs`), but no run theorem puts the two together.
- DramLiveness.NeverStalls: without low power only, for the same reason.
- DramSleep.SleepShortensRowCycle: that the condition is needed is shown for every timing on the
  controller's table; the one whole run is `DramShortCycle.RowCycleIsCut`.
- DramSleep.ReadOfReopenedRow: the same, without a whole run.
- Stored data (the build defines NO_STORAGE), statistics, latencies, energy and printing.
- Timing parameters outside `Timing.Valid` (tCMD other than 1, AL above tRCD and so on), which
  no device file has.
- Several channels: each channel is one system of its own, and the channel field of an address
  only selects it.
- Fields of an address are unbounded; truncation to 32 bits (wider fields than any device has)
  and the alignment warning are not modelled.
- The clock crosser's constructor from a real ratio and 64-bit overflow of its counters
  (`CountersBounded` says how large they get).

Decoupled queue:

- Unlimited (negative) sizes, and unsigned wrap of the back pointers.
- Runahead and debug maps that only feed statistics; the debug-mode asserts are modelled.
- `mem_status` of a STVAL, which is never read.
- DescqQueue.DescQ.HandleMemoryReturn: the outstanding-access counters under speculation and the
  lock release of atomics (modelled with the cache-line lock) are not part of this queue.
- DescqQueue.DescQ.FinishNode: dependents, phi nodes, functional units and context launch are
  not modelled, only completion and the asserts around it.

Load/store queue:

- The 1-wide, 1-window core that bypasses the queue, and context deletion.
- LoadStoreQueue.LoadStoreQ.Remove: the sets `ul` and `us` are not modelled, because nothing
  ever reads them.
- Forwarding (mem_forward) in runs: `CheckForwarding` is proved as a method only.
- LD_PROD and terminal atomics, which are not inserted in this queue.
- LoadStoreAnswers.IssueAnswers: an attempt that the cache (canAccess) or a matching entry of the
  decoupled queue's store address buffer holds back is no step of this model.
- LoadStoreHistory.TurnInWindow: the issue width, which limits how many operations issue in one
  cycle, is part of `IssueWindow.CanIssue` only.
- LoadStoreHistory.IssuesInWindow: as long as the unsigned end of the window does not wrap.
- Reads of the front of a possibly empty deque for statistics.

Line lock:

- Prefetches that share a node with an atomic, L1 hits and MSHR merges of atomics, and unequal
  line sizes; only the holder releases, and each atomic sends one transaction.
- LineLockCache.LLCache.EvictAtL1: the eviction from the functional cache and the dirty flag of
  the message are not modelled, only the request and its counter.
- LineLockCache.LLCache.EvictAtL2: the eviction from the functional cache is not modelled.
- Threads: a step is atomic, and the two-buffer channels are the delay between threads. The
  bounded `PP_static_Buff` is not modelled.

Caches:

- Inserts of resident tags, RRIP and insertByNumAccesses (unused), and numbers of sets or line
  sizes that are not powers of two.
- CacheSets.CacheSet.InsertLine: requires that the tag is not resident; the caches insert only
  after a miss.
- FunctionalCaches.FunctionalCache.InsertAddress: the same, for the line of the address.
- FunctionalCaches.FunctionalCache.constructor: only powers of two of sets and bytes in a line,
  which the extraction of the set number relies on.
- A shift by 64 in `extract`, which the language leaves undefined, is taken as all ones.

Trace:

- TraceBuffer.TraceReader.ReadDynData: does not keep `bb_cond_destinations`. The reader notes the successors of conditional branches inside one
  message only, so pairs that straddle two messages are missed; the model keeps the block
  sequence, not this set.
- Files, pipes and processes; accelerator and partial-barrier messages.

CSR to CSC:

- Weights are real numbers that are only moved; timing output is dropped.
