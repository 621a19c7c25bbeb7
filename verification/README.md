# Verification of the HostMot2 driver process

`driver-hostmot2` runs LinuxCNC's HostMot2 driver in a process of its own and
joins it to a motion core in another process through one shared memory region,
without a lock. This project models the parts of that process whose correctness
is not visible in any one function, and proves what they promise over every run.

- **The channel** (`Channel`, `ChannelRuns`, `ChannelWitness`, `HostLoop`,
  `HostCycle`, `OnChange`, `AnswerWait`, `Region`, `Layout`). Both processes as small steps, one value
  cell at a time, under release/acquire with vector clocks: an acquire load may
  return any store not older than the last one that process saw. On top of it
  the cycle loop in both modes, the response watchdog, the rule for outputs the
  driver writes too, the wait for an answer, and the byte layout of the region.
  `host/region.c` leaves the safety argument of the double buffer to the core's
  own source, which is not part of this model; the argument is made here.
- **The log ring** (`LogRing`, `LogRingStale`, `LogQueue`): one producer, one writer thread, two
  counters that wrap, a stop and drain handshake; as interleaved byte steps with
  stale loads, and as the code of each call.
- **The counter extension** (`CounterExtension`): 64-bit shifts for every width.
- **Start-up** (`Cells`, `Params`, `Declarations`, `DeclarationRuns`, `DriverCells`,
  `Shim`, `FixedPins`, `Binding`, `SignalNames`, `Startup`): the arena, pins that share a
  cell, claimed parameters, dense binding, the names that cross, and the region
  made under one name and shown under another.
- **Streams** (`MessageGather`, `ArgvSplit`, `SserialWatch`): message fragments,
  the in-place tokenizer, and the fault counts.

`Options` and `Words` hold what the others share.

Code that updates state in place is a class or a method over arrays, proved
against a function of the old state. Where whole runs matter -- the cycle loop,
the declarations, the message stream, the tokenizer, the fault watch -- the
theorems are about those same functions. Concurrent code is a state machine:
`Possible` says which sequences of steps can happen from the start, `After` where
one leads, and a theorem with a `Possible` premise is about every interleaving.
`LogQueue`, `Region` and `AnswerWait.WaitAnswer` are the code of single calls
beside those machines; no lemma ties each of them to the machine's own steps.

What the proofs found, beside what they confirm:

- A pulse that the core holds for one answer can be lost. The host applies every
  change of an output in every run if and only if the core holds each level but
  the first and last for two answers (`ChannelWitness.NoneLostIffHeld`); for any
  level it does not hold there is a run of both processes that loses it
  (`ChannelWitness.LosingRun`).
- The comment on `hal_extend_counter` asks for steps of less than 2^(n-1); the
  code is right for a step of exactly -2^(n-1) too, and for no other beyond
  (`CounterExtension.TracksIffStep`).
- A both-ways pin declared when one slot of the signal table is left is refused
  but leaves its first entry behind, unmarked (`DeclarationRuns.OrphanIffOneSlot`).
- `hm2_shim_flush_log` prints what is left whatever its level
  (`MessageGather.FlushIsNewlineIff`, `MessageGather.FlushPrintsOverLimit`).
- The first token of `rtapi_argv_split` is the start of its allocation, which
  `rtapi_argv_free` frees, only if the string does not begin with a separator
  (`ArgvSplit.FirstIsStartIff`).
- At shutdown the log leaves unreported exactly the drops decided on an old tail
  since the writer last looked, and one more if a line was being dropped just
  then (`LogRing.ShutdownIsComplete`): one at most when every load of the tail is
  current, and any number when they are not (`LogRingStale.AnyNumberCanBeHidden`).
- The state of the channel is moved back in one place: RUNNING is stored after the
  rename, over whatever a core that attached between has said
  (`Startup.EndedStaysIff`, `Startup.EndIsOverwritten`).
- A core that looks only after the host has closed the region reads SHUTDOWN after
  a fault too: the close stores it over FAULTED (`Startup.StatusTells`).
- Two inputs have one name exactly when a `pin.` line sets a pin that has a
  parameter's name (`SignalNames.InputNamesAreUniqueIff`).
- `add_ns` can leave nanoseconds below zero for a negative duration, exactly when
  the remainder takes them there (`AnswerWait.Timespec.AddNs`). Every duration
  its callers add is not negative.
- A signal total that is a multiple of 2^32 would read as no signals at all
  (`Layout.CountsFit`). The signal table is nowhere near that size.

## Model

| member | source | states |
|---|---|---|
| Channel.LoadAllowed | host/region.c:322-337 | whatever store the memory model lets an acquire load of `response` return, its value is between what was seen before and what was published |
| Channel.DataKept | host/include/cnc_outboard.h:639-652 | every step of either process keeps the contents of both halves of both buffers: a half in use holds one whole vector of one cycle, cell by cell, and response <= cycle <= response + 1 |
| Channel.TimesKept | host/include/cnc_outboard.h:639-652 | every step keeps who has synchronised with whose accesses to which half |
| Channel.LoopEventAllowed | host/region.c:253-272 | on the channel, every load the loop makes keeps the loop's own invariant, and one collect follows another by 0, 1 or 2 |
| Channel.PublishAllowed | host/region.c:292-311 | a publish reached through the guard keeps it too |
| ChannelRuns.NoDataRace | host/region.c:253-332 | in every interleaving, each access to an input, output or bus cell is ordered by happens-before after the other process's last access to that half, by the release stores and acquire loads alone (section 5.1.2.4 of ISO/IEC 9899:2011) |
| ChannelRuns.AnswersArePaired | host/main.c:671-697 | in every interleaving, the vector taken as answer a is, whole, what the core computed from the whole vector published as cycle a; the core hears every cycle, in order |
| ChannelRuns.SeedsReachTheCore | host/region.c:226-243 | what an attaching core reads of either output half before it answers is this process's starting values |
| ChannelRuns.RunsAreLoopRuns | host/main.c:1304-1522 | the loop's events in any run of the channel are a run of the loop automaton, so the watchdog and advance theorems hold of it |
| ChannelRuns.NoLostEdge | host/main.c:675-697 | whatever the driver writes between, an on-change pin is given exactly the changes in the starting value and all answers up to the last taken, if and only if every answer passed over was held for two; in particular when the core holds every level for two answers |
| ChannelWitness.LoopRunsAreChannelRuns | host/main.c:1304-1522 | conversely, every run of the loop automaton, with any answers of the core, is made by an interleaving of both processes cell by cell |
| ChannelWitness.WorstCaseIsReached | host/main.c:1406-1438 | for every n there is a run of the channel in which answer n is written W + 1 times and the channel is then faulted |
| ChannelWitness.NoneLostIffHeld | host/main.c:671-697 | for all levels: every run in which the core's answers carry them gives an on-change pin exactly their changes, if and only if each level but the first and last is held for two answers |
| ChannelWitness.LosingRun | host/main.c:671-697 | for every level not held there is a run of the channel with these levels that loses an edge |
| HostLoop.AnswersAdvance | host/main.c:1340-1497 | collected numbers never go back, advance by at most two, and by two only right after a collect that was behind, in both modes |
| HostLoop.WatchdogBound | host/main.c:1406-1438 | with a watchdog of W > 0, at most W + 1 consecutive writes to the card carry one answer |
| HostLoop.SilentCoreFaults | host/main.c:1408-1438 | that bound is reached: a core silent after a fresh answer has it written W + 1 times and the W-th refusal faults the channel; with W = 0 it never does |
| HostLoop.FaultEndsRun | host/main.c:1420-1438 | after FAULTED is stored the loop makes no step, so no write |
| HostLoop.NeverAnsweredNeverFaults | host/main.c:1205-1217 | a core that never answered is never counted, however long the run |
| HostLoop.Accounting | host/main.c:1406-1456 | every begin is a publish or an overrun, every write is recorded, and `stale` counts exactly the stale collects |
| HostLoop.RunInv | host/main.c:1304-1522 | the counters, watchdog and repeats invariant holds after every run |
| HostLoop.KeepingUpRuns | host/main.c:1407-1497 | a core that keeps up is collected fresh every cycle, in both modes: the collects are 1, 2, ... n each at its own cycle, none stale and no begin refused |
| HostLoop.AnyAnswerCanBeSkipped | host/main.c:671-697 | for every i and every later last answer the loop has a run that collects every other answer up to the last and never answer i |
| HostCycle.Host.TakeAnswer | host/main.c:671-706 | an answer changes the cell of every output the driver does not write to its value, converted to the pin's type; of the others only those whose value is not the last one, with `last` and what was applied; no type and no flag changes; without an answer nothing does; `attached` and `stale` as the automaton's collect has them |
| HostCycle.AnswerFollows | host/main.c:676-695 | over any history of answers and driver's writes, such an answer leaves an ordinary cell holding the value of the last answer taken and the pin the driver writes too where the theory of OnChange has it |
| HostCycle.DriverFollows | host/main.c:676-695 | and so does a write by the driver |
| HostCycle.FollowsChanges | host/main.c:684-695 | after any such history the values applied to a pin the driver writes too are the changes of the answers taken, and `last` is the newest |
| HostCycle.Host.TakeAndWrite | host/main.c:1340-1364 | the take and the write after it, as both modes make them, and the outputs by the answer taken |
| HostCycle.Host.BeginAndPublish | host/main.c:1406-1456 | the guard, the watchdog and the publish leave what the automaton's begin and publish leave |
| HostCycle.Host.WaitLoads | host/main.c:1475-1493 | the loads of the wait change nothing but what was seen |
| HostCycle.Host.Period | host/main.c:1304-1522 | one turn of the loop, in either mode, is the automaton's run over that period's events, and each output is changed as its answer says, or not at all if no answer was taken |
| HostCycle.Host.Turns | host/main.c:1304-1522 | turn after turn until the watchdog ends it: whatever the driver writes to the pins it writes too, the code's whole run is a legal run of the automaton, and every other output holds its value of the last answer taken, or what it held at first if none was |
| HostCycle.ATurnIsPossible | host/main.c:1304-1522 | wherever a run leaves the loop at the start of a period there are loads it can make, so no turn is stuck |
| HostCycle.PlayAppend | host/main.c:1304-1522 | playing events in two parts is playing them together |
| HostCycle.PeriodsAreRuns | host/main.c:1304-1522 | so any number of periods is one run, and the run theorems speak of the code |
| OnChange.CellIsLastWriter | host/main.c:676-695 | under any interleaving with the driver's writes, the cell holds what the last writer put there, a writer being the driver or a change of the core's level converted to the pin's type |
| OnChange.CellKeepsSeed | host/main.c:1170-1175 | with no such writer it still holds what the driver left, so a first answer equal to the starting value writes nothing |
| OnChange.CardWriteSurvives | host/include/cnc_outboard.h:366-381 | a value the card set survives any number of answers that repeat the core's level |
| OnChange.LastIsLevel | host/main.c:684-693 | `last` is the core's newest level |
| OnChange.AppliedAreChanges | host/main.c:684-695 | the values applied are exactly the changes in seed then answers |
| OnChange.EdgesIffHeld | host/main.c:671-697 | over any sampling that passes over at most one answer at a time, the changes seen are all the changes if and only if each passed-over answer was held for two; otherwise strictly fewer |
| AnswerWait.Timespec.AddNs | host/main.c:724-731 | the time moves by exactly `ns`; the result is normal if and only if the remainder does not take the nanoseconds below zero |
| AnswerWait.WaitAnswer | host/region.c:348-366 | under spurious wakes the loop ends if any round would find the answer or no time left, with 1 exactly at the first round that finds the answer and 0 only past the deadline |
| AnswerWait.ClockEndsWait | host/region.c:348-366 | a clock that moves on within any fixed number of rounds makes such a round, whatever the core does |
| AnswerWait.InvKept | host/region.c:348-366 | every step of the futex protocol keeps its invariant: the host's last view of the word bounds what it has seen of `response` |
| AnswerWait.NoLostWake | host/region.c:340-347 | in every run, a host asleep on an answer that is there has a bump or a wake by the core still to come; 1 means response is the awaited cycle, 0 that the deadline passed |
| AnswerWait.WakeReaches | host/include/cnc_outboard.h:685-696 | the core's own next steps end that sleep, and once the core is done the host cannot go to sleep on this cycle |
| AnswerWait.NoWrap | host/region.c:309-365 | the 32-bit word cannot come round between the host's load and its sleep |
| Layout.ToLineIsLeast | host/region.c:49-51 | the least multiple of 64 not below the size |
| Layout.LayoutIsSound | host/region.c:53-94 | for all counts: fixed part, block, table and the four value halves are in order, disjoint, inside the region, and the value parts on cache lines; without signals the size is the fixed size |
| Layout.CountsFit | host/region.c:64-94 | the 32-bit counts are the counts whenever the total fits; the region reads as empty if and only if the total is a multiple of 2^32 |
| Layout.CellIsInside | host/region.c:211-224 | every value's address is eight aligned bytes of the region past the table |
| Layout.CellsAreDisjoint | host/region.c:211-224 | two values of different direction, parity or index have no byte in common |
| Region.SharedRegion.constructor | host/region.c:105-143 | a new region is zero everywhere |
| Region.SharedRegion.Store | host/region.c:211-224 | one value stored changes that value and no other |
| Region.SharedRegion.SeedOutput | host/region.c:232-243 | both halves of that output and nothing else; an index past the outputs writes nothing |
| Region.SharedRegion.Begin | host/region.c:253-272 | 0 and one overrun exactly when a cycle was published and not answered, else the next number, which goes to the half not of the newest cycle |
| Region.SharedRegion.FillInputs | host/main.c:1439-1451 | every input of this cycle's half and no other value of the region |
| Region.SharedRegion.MakeCycle | host/main.c:1406-1456 | refused, nothing changes but the count; otherwise every input and the bus words of this cycle's half are written and the inputs and bus words of the cycle before, which the core may be reading, and every output are as they were |
| Region.SharedRegion.Collect | host/region.c:322-332 | never, fresh or stale by the two counters, with the answer's own number |
| LogRing.ComposedIsLine | host/main.c:141-160 | a line fits its slot, ends with its newline and has no NUL; one short enough is not cut and a longer one keeps its first 510 characters |
| LogRing.LinesKept | host/main.c:88-112 | every byte step of either thread keeps every waiting line whole in its own slot and stderr in order |
| LogRing.CountsKept | host/main.c:165-174 | accepted + dropped = submitted, step by step |
| LogRing.DropsSeenKept | host/main.c:100-109 | with the ring empty after the writer looked, what it has not reported is the drops decided since on an old tail and the one in flight when it looked |
| LogRing.SlotOf | host/main.c:78-97 | a counter that wraps at 2^64 goes on to the next slot |
| LogRing.UsedIs | host/main.c:166-169 | head - tail in `size_t` is the number of waiting lines, across the wrap |
| LogRing.LogIsRefined | host/main.c:78-174 | in every interleaving, what is on stderr followed by what is in the ring is every accepted line in order, and accepted + dropped = submitted |
| LogRing.DroppedIffFull | host/main.c:166-170 | in every interleaving a line is dropped exactly when all 256 slots are taken on the tail just loaded |
| LogRing.SlotsApart | host/main.c:162-174 | the producer is never in a slot the writer may still read |
| LogRing.ShutdownIsComplete | host/main.c:88-132 | when the writer returns, stderr has every accepted line in submission order, and the unreported drops are exactly those decided on an old tail since it last looked, and one more if a line was being dropped just then |
| LogRingStale.CurrentLoadsMissAtMostOne | host/main.c:100-109 | when every tail load returns the newest store, one at most is unreported, and exactly when a line was being dropped at the last look |
| LogRingStale.AnyNumberCanBeHidden | host/main.c:162-174 | for every n there is a run with old tail loads that ends with n drops unreported |
| LogQueue.Log.Submit | host/main.c:162-174 | a line goes out, or to the end of the queue, or is dropped and counted, exactly when the queue is full |
| LogQueue.Log.PrintOne | host/main.c:94-97 | the oldest line out, the rest in order |
| LogQueue.Log.Pass | host/main.c:92-106 | the whole queue in order and then what was lost since the last report |
| LogQueue.Log.FromRing | host/main.c:125-132 | everything waiting is out before lines go straight out again |
| CounterExtension.ExtendAddsResidue | shim/include/linuxcnc/hal.h:1380-1384 | for every width 1..64 and every word, the shift form adds the signed residue of the difference |
| CounterExtension.ResidueIsUnique | shim/include/linuxcnc/hal.h:1345-1356 | that residue is the only difference in [-2^(n-1), 2^(n-1) - 1] congruent to it modulo 2^n |
| CounterExtension.ExtendFollowsStep | shim/include/linuxcnc/hal.h:1318-1325 | any step of the counter in that range that agrees with the reading is what is added |
| CounterExtension.TracksIffStep | shim/include/linuxcnc/hal.h:1318-1325 | one call tracks the true position modulo 2^64 if and only if the movement is such a step |
| CounterExtension.FollowIsTruePosition | shim/include/linuxcnc/hal.h:1312-1325 | over any sequence of true positions with such steps, the iterated counter is the true position modulo 2^64 |
| Cells.SetIsTowardZero | shim/hal_shim.c:528-555 | a cell holds of a value whether it is zero, the value itself, or the integer next to it toward zero, with nothing below zero in an unsigned one |
| Cells.SettableIff | shim/hal_shim.c:528-555 | which values those conversions are defined for |
| Cells.FitsIffReadBack | host/main.c:411-433 | of the 32-bit values, exactly those that `fix_pins` accepts are read back from the cell as set |
| Cells.GetThenSet | shim/hal_shim.c:528-555 | setting what was read keeps the value, and the word too unless it is a bit above 1 |
| Params.ParamTable.constructor | shim/param_table.c:44-50 | nothing is claimed at first |
| Params.ParamTable.Lookup | shim/param_table.c:52-68 | the first configured value under the name, which it claims and no other |
| Params.ParamTable.Add | shim/param_table.c:70-85 | one more entry at the end and all before it kept, through every doubling |
| Params.ParamTable.ListUnclaimed | shim/param_table.c:148-160 | how many names are unclaimed, and as many of them in order as fit |
| Params.UnclaimedAre | shim/param_table.c:148-160 | as many are listed as there are places not claimed, and each such place's name stands after those of the places before it |
| Params.DeclaringKeepsExact | shim/param_table.c:52-85 | a place is claimed exactly when its name was declared and no earlier place has that name |
| Params.NoneUnclaimedIff | shim/param_table.c:138-160 | nothing is unclaimed if and only if the configured names are distinct and each was declared |
| Declarations.Allocate | shim/hal_shim.c:133-154 | an aligned block at the old end, or nothing taken |
| DeclarationRuns.RunGrows | shim/hal_shim.c:269-344 | no declaration changes an entry, a block or a cell of an earlier one |
| DeclarationRuns.AllIsLaid | shim/hal_shim.c:133-154 | after any declarations, blocks are 8-aligned, in bounds and pairwise disjoint, and every pin and parameter holds one such cell with a value of its type |
| DeclarationRuns.SharingIsOneDeclaration | shim/hal_shim.c:308-344 | two table entries share a cell if and only if one declaration made both |
| DeclarationRuns.WholePinIsPublished | shim/hal_shim.c:257-344 | a pin declared with success has an entry from the core if and only if the driver reads it, and one to the core if and only if the driver writes it, over one cell and under its own name |
| DriverCells.PinWays | shim/hal_shim.c:300-344 | of a pin declared with success: an entry from the core if and only if it has the HAL_IN bit, and one to the core over the same cell if and only if it has not, or has both HAL_IO bits, or its name is some non-empty name followed by `.probe-enable` |
| DriverCells.OnChangeWays | host/main.c:348-361 | the host finds another entry to the core over the cell of a pin the driver reads, declared with success, under exactly that condition |
| DriverCells.DoneIff | shim/hal_shim.c:133-410 | a declaration succeeds if and only if there is a place for the handle, the name has at most 55 characters, the arena has room for name and cell, and the table for one entry or two |
| DeclarationRuns.MarkedIffBothWays | host/main.c:348-361 | the host's pointer scan finds a pin the driver reads if and only if it was declared both ways, as `DriverCells.PinWays` spells out, and the declaration succeeded |
| DeclarationRuns.OrphanIffOneSlot | shim/hal_shim.c:334-341 | a both-ways entry the scan misses is exactly one that found a single slot left |
| DeclarationRuns.OrphanExists | shim/hal_shim.c:334-341 | an input for which that happens |
| DeclarationRuns.StartingValueStays | shim/hal_shim.c:393-405 | no later declaration touches what a cell started at |
| DriverCells.ParamStartsAt | shim/hal_shim.c:393-405 | over any declarations, a parameter's cell finally holds the first value configured under its name, converted to its type, and the driver's default if none was |
| DriverCells.OthersStartAt | shim/hal_shim.c:319-333 | a pin's cell starts at what the driver gave, a fake parameter's at zero |
| DriverCells.NotedAreDeclared | shim/hal_shim.c:405-410 | the host finds exactly the parameters declared with success, in order, each with its name, type and cell, and writable if and only if it was declared with the HAL_WO bit |
| DeclarationRuns.NothingUnclaimedIff | shim/param_table.c:138-160 | after any declarations nothing is unclaimed if and only if the configured names are distinct and each was declared, not merely asked for |
| Shim.Hal.constructor | shim/hal_shim.c:76-108 | an empty arena and table |
| Shim.Hal.HalMalloc | shim/hal_shim.c:133-154 | in place, the function the run theorems are about |
| Shim.Hal.ArenaName | shim/hal_shim.c:231-255 | a name over 55 characters is refused before anything is taken |
| Shim.Hal.PublishSignal | shim/hal_shim.c:269-283 | one entry at the end, or none when full |
| Shim.Hal.NewPin | shim/hal_shim.c:319-344 | in place, the pin declaration the run theorems are about, with each refusal half-way; which ways it is published is `DriverCells.PinWays` |
| Shim.Hal.NewParam | shim/hal_shim.c:380-410 | likewise for a parameter, with its look-up and its note; what it starts at is `DriverCells.ParamStartsAt` |
| Shim.Hal.ParamNewFake | shim/hal_shim.c:440-452 | a zero cell and no entry |
| FixedPins.FindBoth | host/main.c:381-393 | the last entry of the name in each direction |
| FixedPins.FixPins | host/main.c:370-438 | the in-place loop sets, lists and refuses exactly as the lines say one by one |
| FixedPins.AllFixedIff | host/main.c:363-369 | the host goes on if and only if for every line the table has pins of its name, the driver reads them all, and the value fits the last |
| FixedPins.LastLineIsRead | host/main.c:433-434 | the driver reads, exactly, the value of the last line that set the pin |
| FixedPins.OthersStay | host/main.c:370-438 | a cell no line set is left alone |
| FixedPins.DeclaredPinsAreApart | shim/hal_shim.c:319-344 | after any declarations the pins the driver reads have cells of their own |
| FixedPins.FixedIsOnlyRead | host/main.c:402-410 | the driver has no entry to write a fixed pin through |
| FixedPins.OnChangeIffBothWays | host/main.c:525-532 | an output has flag 1 if and only if its pin was declared whole and with both HAL_IO bits or a name that ends in `.probe-enable`, and no output is a fixed pin |
| Binding.PinsAreOrdered | host/main.c:506-535 | inputs and outputs list pins in the table's order without repeats, and together have all of them |
| Binding.EveryPinOnce | host/main.c:514-535 | each pin is in exactly one list, at exactly one place, which is how many of its side come before it |
| Binding.ParamsAreFew | host/main.c:472-504 | what is bound for parameters fits the tables as allocated |
| Binding.ParamIsBoundIff | host/main.c:472-504 | a parameter is read back if and only if no pin that goes to the core has its name, and written too if and only if it is writable and no pin of either direction has its name |
| Binding.Binder.IsFixed | host/main.c:339-346 | whether the pin is in the list of fixed ones |
| Binding.Binder.WrittenByTheDriver | host/main.c:352-361 | the scan finds another entry, to the core, over the same cell exactly when there is one |
| Binding.Binder.PinNamed | host/main.c:452-461 | whether a pin of this direction has the name |
| Binding.Binder.BindPin | host/main.c:514-535 | one pin goes to the end of its list with that place for its index, and nothing bound before changes |
| Binding.Binder.BindPins | host/main.c:514-535 | every pin bound in its list, with its index and flags |
| Binding.Binder.BindParam | host/main.c:472-504 | one parameter more is bound, its views with its own name, type and cell, and nothing bound before changes |
| Binding.Binder.BindSignals | host/main.c:506-540 | all that is left bound: in each direction, the pins that go that way in the table's order and then the parameters that do, each at its own dense index with flags 0, 1 or 2, pointing at its own entry or at a view with the parameter's own name, type and cell |
| DriverCells.InputIsOwn | host/main.c:479-490 | after any declarations and then the binding, the view a parameter is read through is over the cell its declaration returned, which no other parameter and no pin has |
| DriverCells.OutputIsOwn | host/main.c:491-501 | and so is the view it is written through, which only a writable one has |
| SignalNames.OutputNamesAreUnique | host/main.c:449-461 | a driver that uses each name once per direction has no two outputs of one name, parameters included |
| SignalNames.InputNamesAreUniqueIff | host/main.c:449-461 | it has no two inputs of one name if and only if no `pin.` line names a parameter |
| SignalNames.TwoInputsOneName | host/main.c:472-496 | an input for which there are two |
| Startup.NameIsEarlierOrMine | host/region.c:377-389 | the configured name shows what it showed at first, until this run's object takes it in one step, and nothing once that is removed |
| Startup.NameShowsFinished | host/main.c:1127-1184 | at every step of every run, a core that opens the configured name finds nothing, an earlier run's object, or this run's with its header, block, whole table and worst cycle written |
| Startup.NamedIsSeeded | host/main.c:1170-1184 | when it takes the name, both output halves hold every starting value and no core is attached |
| Startup.RunningIsNamed | host/main.c:1182-1186 | while the object says RUNNING the configured name shows it |
| Startup.NamedIsNotRewritten | host/region.c:226-243 | once named, no step writes the header, block, table or worst cycle, and none of this process's writes an output |
| Startup.NamedStaysWhole | host/region.c:226-243 | so over any rest of any run |
| Startup.EndedStaysIff | host/include/cnc_outboard.h:701-714 | a channel that ended stays ended over every step but the store of RUNNING after the rename |
| Startup.EndedStays | host/include/cnc_outboard.h:701-714 | once RUNNING has been stored, an ended channel stays ended over any rest of any run |
| Startup.EndIsOverwritten | host/main.c:1182-1186 | from any run that has just taken the name there is one in which a core's SHUTDOWN or FAULTED becomes RUNNING |
| Startup.StatusTells | host/region.c:391-408 | over any run in which the core stores no state: STARTING until RUNNING is stored, RUNNING while it cycles, FAULTED from a fault on, and SHUTDOWN from the moment the host has closed the region, after a fault too |
| Startup.NameIsTaken | host/main.c:1143-1186 | there is such a run |
| Startup.RunKeepsInv | host/main.c:1143-1186 | how far the object is written at each place of the start-up program |
| MessageGather.Gatherer.Put | shim/rtapi_shim.c:89-100 | one character's effect on the pending line, which never overflows its 1024 bytes |
| MessageGather.Gatherer.Gather | shim/rtapi_shim.c:80-101 | a call adds its characters, at its level, to the one stream whose lines have been emitted |
| MessageGather.Gatherer.FlushLog | shim/rtapi_shim.c:117-124 | what is left goes out, whatever its level |
| MessageGather.Replay | shim/rtapi_shim.c:70-101 | after any calls, what was emitted and what is pending depend only on the stream they printed |
| MessageGather.SplitIsSame | shim/rtapi_shim.c:70-79 | a message under 1024 characters printed in two calls or in one is the same stream |
| MessageGather.LongIsCut | shim/rtapi_shim.c:80-85 | a longer one is the stream of its first 1023 characters |
| MessageGather.FragmentsDoNotMatter | shim/rtapi_shim.c:70-101 | any two lists of calls under 1024 characters each that print the same levelled characters emit the same lines and leave the same rest |
| MessageGather.CutIsTwo | shim/rtapi_shim.c:89-100 | a stream cut after a newline is two streams |
| MessageGather.RunIsLine | shim/rtapi_shim.c:89-100 | every newline emits what the run since the one before ends in, and nothing else is a line |
| MessageGather.EndedIs | shim/rtapi_shim.c:89-100 | that is the first 1023 characters at the level of the first, or nothing if the run is empty or over the limit |
| MessageGather.FlushIsNewlineIff | shim/rtapi_shim.c:117-124 | a flush prints what a newline would if and only if nothing waits or its level is within the limit |
| MessageGather.FlushPrintsOverLimit | shim/rtapi_shim.c:117-124 | an input for which it prints more |
| ArgvSplit.TokensAreRuns | shim/rtapi_shim.c:239-242 | exactly the maximal runs without a separator are tokens |
| ArgvSplit.TokensInOrder | shim/rtapi_shim.c:231-232 | tokens are in order, apart, and at most one for two characters, so the ending null fits |
| ArgvSplit.Strtok | shim/rtapi_shim.c:239-241 | one call finds the next token, cuts it, and leaves those before it readable |
| ArgvSplit.Split | shim/rtapi_shim.c:225-257 | argc and argv are the tokens in order, each readable up to its NUL in the mutated copy, and a null after the last |
| ArgvSplit.FirstIsStartIff | shim/rtapi_shim.c:246-265 | argv[0] is the start of the allocation if and only if the string begins with no space, tab, newline or carriage return |
| ArgvSplit.LeadingSpaceMissesStart | shim/rtapi_shim.c:246-265 | an input for which it is not |
| SserialWatch.Watch.Add | host/sserial_watch.c:55-65 | a port is watched if its pin names one and there is room |
| SserialWatch.Watch.FaultsSeen | host/sserial_watch.c:73-108 | what one look sees is the number of ports whose count is above the one before; it logs those faults by number and remembers every count |
| SserialWatch.Watch.WatchRun | host/sserial_watch.c:1-17 | over a run the total is the number of pairs of a look and a port whose count is above the look before |
| SserialWatch.NoneRisenIff | host/sserial_watch.c:73-108 | none is counted and none logged if and only if no count ever rises, whatever falls |
| SserialWatch.LogIsByNumber | host/sserial_watch.c:27-31 | what is logged of a run is each fault up to the hundredth and then each hundredth, once |
| SserialWatch.TransferWait | host/sserial_watch.c:69-71 | after the wait the transfer has had its time, and no longer is waited |

## Left out

- The core's inside: it is any program that makes the header's steps, with any
  outputs from what it heard; it attaches by acquiring RUNNING, and its axis
  structures are not modelled apart from the named values.
- The upstream driver, the UDP transport, `dlopen`, module parameters, firmware
  and `--setsserial`: the driver is any writes to cells it owns.
- Floating point: values are reals, so rounding, NaN and infinities are outside;
  a conversion that C leaves undefined is outside the domain.
- `cycle` and `response` are unbounded numbers; at one cycle a microsecond 64
  bits last half a million years. The futex word and the log's counters, which
  can wrap, do.
- A second driver process on the same region name, which could unlink it.
- mmap, mlock, scheduling, affinity, signals, failed allocations of the host's
  own tables, and the kernel's side of the futex beyond compare, sleep and wake.
- Configuration parsing and its ranges, log wording, levels of `hm2_log`, roles,
  type names, timing statistics and how the bus state is decided.
- `drives_dropped` is not a field: the loop ends the moment it is set.
- Names of this process's own five signals are not compared with the driver's.
- LogQueue.Log.FromRing: joins the writer's passes into one, since nothing is
  logged while the one logging thread waits; the interleavings are in `LogRing`.
- SserialWatch.Watch.Add: takes the port number; reading it from the pin's name
  is not modelled.
- Declarations.Declare: component bookkeeping and exported functions are not
  declarations here; their names are arena blocks like any `Raw` one.
- Params.ParamTable.Add: a failed `realloc`, which the source answers by not
  noting the parameter, is not modelled.
