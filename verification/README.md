# The native_posix board and the mesh node, modelled and verified in Dafny

This project models two parts of the repository and proves properties of the models.

* **The native_posix board** is a deterministic discrete-event simulator of a small microcontroller: an
  interrupt controller with priorities, a lock and masks; a handler that nests interrupt service routines; a
  system tick, a one-shot awake timer and a counter; an event loop that drives simulated time; and waiting
  primitives that halt the CPU.
* **The mesh node** has three smaller parts with whole-run behaviour: the framing of the modem's byte stream, the
  node's identity across reboots, and the board's table of command line options.

`dafny verify dfyconfig.toml` checks everything.

## How it is built

The C code keeps its state in file-level variables that every function updates. `Board.dfy` is a class with those
variables as fields and one method per function. `IrqCtrl.dfy` and `HwModels.dfy` give the same state as a value
(`Hw`) and the step each function makes (`Apply`), with what callers must see to (`Allowed`). A *run* is any
sequence of allowed steps, software calls and hardware events in any order; `HwRuns.dfy`, `HwClocks.dfy`,
`HwLedger.dfy` and `HwMasks.dfy` prove what every run keeps.

`CpuModel.dfy` is the software side. The handler, the routines it runs and the calls those make are mutually recursive
methods. What routines do is not fixed: `supply` lists the executions of routines still to come, each a finite
sequence of calls (raise, enable, disable, clear, lock, unlock, change a priority, hold the CPU, use the counter or
the silent ticks, make a thread ready), and every theorem holds for every supply. When the supply is used up,
routines do nothing; so a supply is any behaviour of the interrupt routines with a finite total of work.

The CPU records its hardware steps in a log and its calls in another. Its invariant `Good` says that the hardware is
where the first leads, so that every theorem about hardware runs is a theorem about every execution of the CPU; that
the lines taken are those of the routines run; and that the steps software asked for are exactly those of its calls,
in order. `Steady` adds that no interrupt is lost; it is the `Valid()` that every call of software keeps. `Kept`
relates the states before and after any completed piece of software: everything the handler saves is restored, time
has gone on by exactly what was held, one execution of the supply is used up for each routine begun, and the calls
made are exactly those of the executions used up and its own. So a handler that cleared a line, locked interrupts or
disabled anything by itself would break it. `Nesting.dfy` holds these, the single-step lemmas, and `Dispatched`: what
could interrupt was served, cleared by a call, or is pending still for a stated reason. `Interrupts.dfy` and
`SwapRequests.dfy` draw the conclusions. The order in which the compiler evaluates `*may_swap |= f()` is a constant of the model.

`EventLoop.dfy` is posix_exec_for on the same board, with software seen from the hardware's side: any function from
what it finds when it is woken to the calls it makes before it halts again.

A mask word is the set of the positions of its 1 bits. Times are `uint64_t` with wrap-around written out, and NEVER
is the largest of them. A `double` is a real number. An integer `horizon` bounds the times of a run, and callers see
to it that the horizon plus a period does not reach NEVER; `HwRuns.CounterStartSound` says exactly when starting the
counter breaks this. Halting the CPU means: the search that ends the event that last woke it, then events until one
wakes it, then the handler.

## Where the code and its documentation differ

The model follows the code.

* The comment above the modem's queue says 10 messages; its size is 20 (samples/mesh/src/gsm_driver.c:15-16). The write
  position of the receive buffer is 8 bits wide, so lines are cut at 255 bytes and not at the buffer's 1279
  (`GsmDriver.ShortLinesWhole` says exactly when nothing is lost).
* `generate_id` sets the version of RFC 9562 but not its variant bits, and repeats uptime bits in place of a 60-bit
  timestamp; only the text form of section 4 of RFC 9562 is claimed. `Node.VariantIff` says exactly when byte 8 has
  the variant of section 4.1 all the same.
* `cmd_is_option` documents that an option may be written with no dash, one or two. It skips the dashes of the
  argument first, so an option whose own name starts with a dash is not found under its name
  (`Cmdline.DashOptionIsMissed`); and an empty argument that matches a switch without a name gives 0, which reads as no
  match (`Cmdline.EmptySwitchIsMissed`). `Cmdline.MeetsSyntaxIff`: for all other options, and no others, every argument
  is answered as documented.
* The counter "must be previously configured"; started without that, its first event is in the past
  (`HwRuns.UnconfiguredCounterIsOverdue`).
* The comment on the swap says that it happens if a routine enabled it. C leaves open whether `*may_swap |= f()` reads
  `*may_swap` before or after the call; if before, a request made by a routine nested in a direct one can be lost.
  `SwapRequests.RequestIsLost` gives the run, `SwapRequests.SetFromBoot` the calls that lead to it from boot, and
  `SwapRequests.LossPossibleIff` the vector tables and priorities with which it can happen.

## Model

The theorems come first.  A row marked (step) names a refinement helper: one function of the C code as the step
it makes, or one step of a larger proof.

| member | source | states |
|---|---|---|
| CpuModel.Cpu.PosixIrqHandler | samples/mesh/boards/posix/native_posix/irq_handler.c:66-112 | terminates for every finite supply of routine executions; the first routine run is that of the pending line of highest priority; on return every line that could interrupt was served, or cleared by a Clear call of a routine run, or is still pending because interrupts were locked again or its priority changed; software made no calls but those of the executions used up; priority, line, nesting and time are exactly restored; the swap decision |
| CpuModel.Cpu.HwIrqCtrlChangeLock | samples/mesh/boards/posix/native_posix/irq_ctrl.c:120-132 | the old lock is returned; an unlocking call dispatches every line raised while locked that can interrupt, the one of highest priority first; any other call changes the lock and nothing else |
| CpuModel.Cpu.HwIrqCtrlRaiseImFromSw | samples/mesh/boards/posix/native_posix/irq_ctrl.c:258-265 | the raise is made first; unless locked, everything pending that can interrupt, the raised line included, is dispatched before the call returns |
| CpuModel.Cpu.HwIrqCtrlEnableIrq | samples/mesh/boards/posix/native_posix/irq_ctrl.c:173-187 | the line is enabled first; if it was pending it is raised again and dispatched like a raised line; if not, nothing else happens |
| CpuModel.Cpu.PosixIrqHandlerImFromSw | samples/mesh/boards/posix/native_posix/irq_handler.c:119-136 | the same promises as the handler's, whether or not it has to be run |
| CpuModel.Cpu.PosixIrqOffload | samples/mesh/boards/posix/native_posix/irq_handler.c:292-300 | on return the offload line is disabled, and if its priority beats what runs it was dispatched; the calls made are enable, raise and disable, and those of routines run in between |
| Nesting.DispatchedWhenDrained | samples/mesh/boards/posix/native_posix/irq_ctrl.c:120-132 | between any two states of software, once nothing can interrupt: every line that could was served, cleared by a Clear call, or is still pending with interrupts locked or its priority changed |
| Nesting.PendingLeaves | samples/mesh/boards/posix/native_posix/irq_ctrl.c:139-170 | a pending line stops being pending only by its routine being run or by a Clear call of software |
| HwLedger.TakenOrCleared | samples/mesh/boards/posix/native_posix/irq_ctrl.c:139-201 | in every run of the hardware a pending line stops being pending only by being taken or cleared |
| Nesting.Offloaded | samples/mesh/boards/posix/native_posix/irq_handler.c:292-300 | enabling, raising and disabling the offload line dispatches it if its priority beats what runs |
| Interrupts.NoLostInterrupt | samples/mesh/boards/posix/native_posix/irq_ctrl.c:209-223 | from every state the invariant allows with no routine running, unlocked and something pending: however the hardware goes on, the CPU is woken before any time goes by and within five events |
| CpuModel.Cpu.PosixHaltCpu | samples/mesh/boards/posix/native_posix/irq_ctrl.c:209-223 | no lost interrupt: a thread that halts unlocked with interrupts pending spends no time halted, and every line then pending is dispatched when it goes on |
| CpuModel.Cpu.HwmOneEvent | samples/mesh/boards/posix/native_posix/hw_models_top.c:133-156 | an event, the handler it wakes and the thread's calls after that keep the invariant; if the event wakes the CPU the routine of the pending line of highest priority is the first to run; the time is exactly accounted for |
| CpuModel.Cpu.MainLoop | samples/mesh/boards/posix/native_posix/main.c:110-118 | over any number of events, with or without a tick, with any routines and any thread calls after each wake, the invariant holds at the end; in particular between events, unlocked with something pending, the next event is at the present instant |
| Interrupts.EveryRaiseAccountedFor | samples/mesh/boards/posix/native_posix/irq_handler.c:83-97 | since boot, for every line: raises not merged = times its routine ran + requests cleared + pending now, and the Clear calls of software are exactly those that cleared a request and those that found none |
| HwLedger.Conservation | samples/mesh/boards/posix/native_posix/irq_ctrl.c:139-201 | for every line and run: raises not merged with a pending one = routines taken + requests cleared + pending now; enabling adds nothing |
| Interrupts.NestingDepth | samples/mesh/boards/posix/native_posix/irq_handler.c:83-99 | at most 256 routines are nested, with strictly decreasing priority numbers |
| Interrupts.NoReentry | samples/mesh/boards/posix/native_posix/irq_handler.c:83-99 | unless priorities change while routines run, no routine is entered again before it ends, and at most 32 nest |
| Interrupts.DisabledIsNotServed | samples/mesh/boards/posix/native_posix/irq_ctrl.c:190-201 | between any two states of the CPU, the routine of a line neither able to interrupt nor enabled at first is not run unless a call enabled the line, however often it was raised |
| HwMasks.StatusIsHistory | samples/mesh/boards/posix/native_posix/irq_ctrl.c:139-201 | in every run a line can interrupt if and only if it was raised while enabled, or enabled while pending, and neither taken nor cleared since (or could from the start) |
| HwMasks.StatusOrigin | samples/mesh/boards/posix/native_posix/irq_ctrl.c:190-201 | a line that has come to interrupt was at some step raised while enabled or enabled while pending |
| HwMasks.MaskIsLastSetting | samples/mesh/boards/posix/native_posix/irq_ctrl.c:151-184 | in every run a line is enabled if and only if the last call that enables or disables it enabled it, or none was made and it was enabled before |
| HwMasks.DisabledStaysOut | samples/mesh/boards/posix/native_posix/irq_ctrl.c:190-201 | in every run a line neither able to interrupt nor enabled stays so until it is enabled |
| HwMasks.BootLinesDisabled | samples/mesh/boards/posix/native_posix/irq_ctrl.c:50-60 | no line can interrupt in any run from boot before it is enabled |
| HwMasks.ClearingSettles | samples/mesh/boards/posix/native_posix/irq_ctrl.c:139-149 | after either call that clears many lines nothing can interrupt; the one for enabled lines leaves exactly the disabled ones pending |
| SwapRequests.LossPossibleIff | samples/mesh/boards/posix/native_posix/irq_handler.c:44-53 | in which configurations a swap request can be lost in a run from boot while priorities are held: if and only if the compiler reads *may_swap before the call and the vector table has a direct routine and any other routine of higher priority |
| SwapRequests.RequestIsLost | samples/mesh/boards/posix/native_posix/irq_handler.c:66-112 | a run of the CPU, for all such lines: the direct routine of one raises the other, whose routine asks for a swap; the run keeps all the handler promises, and another thread is swapped in exactly if the call is made before the read |
| SwapRequests.SetFromBoot | samples/mesh/boards/posix/native_posix/irq_handler.c:193-247 | the calls from boot that lead to the start of that run, for every vector table and all priorities |
| SwapRequests.LossNeedsNesting | samples/mesh/boards/posix/native_posix/irq_handler.c:44-53 | in every state of the CPU in which a request is lost, no priority having changed, the compiler reads first and some direct routine can be interrupted by another |
| SwapRequests.RequestsLostIff | samples/mesh/boards/posix/native_posix/irq_handler.c:44-53 | in every state requests are lost if and only if the compiler reads *may_swap before the call and a direct routine ran around every routine that asked |
| SwapRequests.NotNestedIsHeard | samples/mesh/boards/posix/native_posix/irq_handler.c:44-53 | a request not made inside a direct routine is heard in either order of evaluation |
| Nesting.SwapAskedNext | samples/mesh/boards/posix/native_posix/irq_handler.c:44-53 | what *may_swap holds after one more routine, for both orders |
| CpuModel.Cpu.ServeIrq | samples/mesh/boards/posix/native_posix/irq_handler.c:85-97 | one turn of the handler's loop serves the line chosen, restores everything, uses up one execution of the supply for each routine begun, and lowers the work left |
| CpuModel.Cpu.VectorToIrq | samples/mesh/boards/posix/native_posix/irq_handler.c:31-56 | the routine's calls are made in order, and its swap request recorded, for both orders in which `*may_swap or= f()` can be evaluated; without a routine the process ends |
| CpuModel.Cpu.RunBody | samples/mesh/boards/posix/native_posix/irq_handler.c:42-52 | all calls of a routine are made, in order, and no others but those of routines run in between; they take exactly their holds |
| CpuModel.Cpu.Do | samples/mesh/boards/posix/native_posix/irq_handler.c:169-269 | any call makes its own hardware step first, keeps the invariant, takes exactly its hold, and besides it only calls of routines run in between are made |
| CpuModel.Cpu.PosixCpuHold | samples/mesh/boards/posix/native_posix/cpu_wait.c:58-75 | exactly the time asked for is spent here, beyond what routines in between hold |
| CpuModel.Cpu.ArchBusyWait | samples/mesh/boards/posix/native_posix/cpu_wait.c:34-46 | never returns early; waits at most the time asked for; undisturbed it returns exactly on time |
| CpuModel.Cpu.WaitOnce | samples/mesh/boards/posix/native_posix/cpu_wait.c:68-74 | one turn of a waiting loop waited no longer than asked, and waited, ran a routine, or used up an event due now |
| CpuModel.Cpu.HaltUntilWoken | samples/mesh/boards/posix/native_posix/cpu_wait.c:69-71 | the CPU is woken by an event, no later than the wake that is coming |
| EventLoop.PosixExecFor | samples/mesh/boards/posix/native_posix/main.c:91-98 | for any software that does not ask for events at the present instant: the loop ends, with the first event at or after start + us, after at most six events a microsecond and five more; that is at most R later while the tick or the counter comes round within R, and otherwise by the end of time |
| EventLoop.TurnRuns | samples/mesh/boards/posix/native_posix/hw_models_top.c:133-156 | one turn of the loop, whatever software does in it, is a run that moves time on or lowers the weight of what is due now |
| Interrupts.EventsBounded | samples/mesh/boards/posix/native_posix/main.c:91-98 | whatever the CPU's software does between two states short of asking for events at the present instant, at most six events happen for each microsecond, and five more |
| HwRuns.EventsOverTime | samples/mesh/boards/posix/native_posix/hw_models_top.c:133-156 | over every run in which software does not ask for events at the present instant, at most six events for each microsecond that goes by, and five more |
| HwRuns.EventsPerInstant | samples/mesh/boards/posix/native_posix/hw_models_top.c:133-156 | at most five events happen at one instant, whatever software does short of asking for events at that instant |
| HwRuns.EndlessEvents | samples/mesh/boards/posix/native_posix/irq_ctrl.c:209-223 | that condition is needed: software that asks again at each wake makes any number of events happen at one instant |
| HwRuns.RunInv | samples/mesh/boards/posix/native_posix/hw_models_top.c:91-156 | time never skips an event: in every run no armed timer is in the past, the cached next event is the earliest of all four timers between events, time never goes back, and status, premask and mask agree |
| HwRuns.NeverCorrupted | samples/mesh/boards/posix/native_posix/hw_models_top.c:93-152 | since boot, the branches for a corrupted time or index are never taken |
| HwRuns.ClockNeverBack | samples/mesh/boards/posix/native_posix/hw_models_top.c:91-110 | in every state, even with a corrupted cached time, the clock does not go back; it moves to the cached time if and only if that is not past |
| HwRuns.CounterStartSound | samples/mesh/boards/posix/native_posix/hw_counter.c:57-71 | starting the counter leaves no timer in the past if and only if it was running or its first due time fits a uint64_t |
| HwRuns.UnconfiguredCounterIsOverdue | samples/mesh/boards/posix/native_posix/hw_counter.c:57-71 | a run after which the unconfigured counter, once started, is due in the past |
| HwRuns.WokenInTime | samples/mesh/boards/posix/native_posix/timer_model.c:250-265 | after a request to be woken at T, whatever happens and even locked, the CPU is woken before time passes T |
| HwRuns.WokenByEvents | samples/mesh/boards/posix/native_posix/cpu_wait.c:69-71 | left to itself the hardware wakes the CPU before time passes T, if a wake is owed by T or the controller's is due and interrupts are unlocked |
| HwRuns.LockHolds | samples/mesh/boards/posix/native_posix/irq_ctrl.c:227-238 | in every run, the CPU is woken with interrupts locked at most once for each lock-ignoring interrupt raised |
| HwRuns.LockedSchedulesNothing | samples/mesh/boards/posix/native_posix/irq_ctrl.c:209-223 | in every run with interrupts locked no raise schedules a wake, but for the lock-ignoring one |
| HwRuns.RaisedIsWoken | samples/mesh/boards/posix/native_posix/irq_ctrl.c:209-223 | unlocked, or with the lock-ignoring interrupt, any raise, even of a disabled line, wakes the CPU before time goes by |
| HwClocks.AwakeIsEarliestRequest | samples/mesh/boards/posix/native_posix/timer_model.c:250-265 | the awake timer is always set for the earliest request since it last fired |
| HwClocks.TickGrid | samples/mesh/boards/posix/native_posix/timer_model.c:179-228 | the k-th tick after enabling at t0 with period p is at exactly t0 + k * p, and none is left out |
| HwClocks.TicksCounted | samples/mesh/boards/posix/native_posix/timer_model.c:187-228 | from any state on the grid, every tick of every run is on it |
| HwClocks.SilentTicks | samples/mesh/boards/posix/native_posix/timer_model.c:220-274 | after asking for n silent ticks exactly the next n raise no interrupt and all later ones do |
| HwMasks.BootTicksLoud | samples/mesh/boards/posix/native_posix/timer_model.c:150-156 | every tick of a run from boot raises its interrupt until silent ticks are asked for |
| HwClocks.CounterDivides | samples/mesh/boards/posix/native_posix/hw_counter.c:33-71 | n advances after a start at t0 the counter reads v0 + n and is due at t0 + (n + 1) * p; when not due, n is the whole periods since t0 |
| HwClocks.CounterIrqOnTime | samples/mesh/boards/posix/native_posix/hw_counter.c:33-100 | with period p and a target k advances ahead set by their calls, and started at t0, the counter raises its line at exactly t0 + k * p and at no other advance before its value has gone all the way round; starting it again while it runs changes nothing |
| HwClocks.CounterIrqFromBoot | samples/mesh/boards/posix/native_posix/hw_counter.c:24-100 | from boot, whatever came before the first start: period p, target k, start at t0, and the line is raised at t0 + k * p |
| HwClocks.CounterIrqRetargeted | samples/mesh/boards/posix/native_posix/hw_counter.c:97-100 | a target set k advances ahead while the counter runs is met at the k-th advance from then |
| HwClocks.CounterIrqAtTarget | samples/mesh/boards/posix/native_posix/hw_counter.c:40-45 | an event leaves the counter's line pending that was not if and only if it is the advance that reaches the target |
| HwClocks.StoppedKeepsValue | samples/mesh/boards/posix/native_posix/hw_counter.c:61-83 | while the counter is stopped no run changes its value or raises its line, and a start goes on from that value |
| HwClocks.CounterStopKeepsValue | samples/mesh/boards/posix/native_posix/hw_counter.c:73-83 | after a stop, whatever happens before the next start, the value is kept |
| HwClocks.AdvancesCounted | samples/mesh/boards/posix/native_posix/hw_counter.c:33-46 | in every run without a restart the counter reads and is due as its number of advances says |
| ClockRatio.NeverWraps | samples/mesh/boards/posix/native_posix/timer_model.c:187-195 | in every run of the hardware with adjustments anywhere in it: the last adjustment is not after the present, nor the present after the tick, so the uint64_t subtraction of the tick handler is exact; the int64_t one of the adjustment is exact if and only if less than 2^63 us have gone by |
| ClockRatio.AdjustmentScales | samples/mesh/boards/posix/native_posix/timer_model.c:320-350 | after an adjustment by r every stretch of simulated time takes the real time it took before, divided by r |
| ClockRatio.RatioIsProduct | samples/mesh/boards/posix/native_posix/timer_model.c:349 | after any run the ratio is the first one times the product of all corrections |
| ClockRatio.DriftBound | samples/mesh/boards/posix/native_posix/timer_model.c:320-350 | after any run with n adjustments the stored anchor is at most the exact one and less than n microseconds below it |
| ClockRatio.ExpectedNeverGoesBack | samples/mesh/boards/posix/native_posix/timer_model.c:187-195 | over every run with adjustments, the real time expected of the present instant never goes back |
| ClockRatio.ExpectedIsExact | samples/mesh/boards/posix/native_posix/timer_model.c:189-192 | what the tick handler computes is the exact real time cut to microseconds |
| ClockRatio.StrictlyIncreasing | samples/mesh/boards/posix/native_posix/timer_model.c:189-192 | the map from simulated to real time increases if and only if the ratio is positive |
| ClockRatio.AdjustmentIsContinuous | samples/mesh/boards/posix/native_posix/timer_model.c:320-350 | an adjustment does not move the present instant |
| ClockRatio.FormulasInverse | samples/mesh/boards/posix/native_posix/doc/index.rst:236-247 | the two documented formulas undo each other |
| Board.Board.HwIrqCtrlGetHighestPrioIrq | samples/mesh/boards/posix/native_posix/irq_ctrl.c:91-112 | -1 exactly when locked or nothing pending beats the running routine; otherwise the pending line of least priority number, ties to the lowest line |
| IrqCtrl.IntTestAgrees | samples/mesh/boards/posix/native_posix/irq_ctrl.c:195 | the 32-bit test of a mask bit answers as the 64-bit one exactly when the line is not 31, or line 31 is in the mask, or no higher line is |
| IrqCtrl.FindLsbSet | samples/mesh/boards/posix/native_posix/irq_ctrl.c:102 | one more than the position of the lowest 1 bit |
| IrqCtrl.DrainedAtThreadLevel | samples/mesh/boards/posix/native_posix/irq_ctrl.c:91-112 | with no routine running and interrupts unlocked, nothing can interrupt exactly when nothing is pending |
| Board.Board.HwmFindNextTimer | samples/mesh/boards/posix/native_posix/hw_models_top.c:117-128 | the cached next event becomes the earliest of the three event times, the lowest index first |
| GsmDriver.Framing | samples/mesh/src/gsm_driver.c:114-127 | for every stream, the strings offered are its lines in order, each cut to its last length-mod-256 bytes, none when that is empty |
| GsmDriver.OnlyTheseEndLines | samples/mesh/src/gsm_driver.c:114-127 | a line feed, a carriage return or a NUL ends a line, and no other byte does |
| GsmDriver.OfferedAreClean | samples/mesh/src/gsm_driver.c:114-127 | no string offered contains one of them, is empty, or is longer than 255 bytes |
| GsmDriver.ShortLinesWhole | samples/mesh/src/gsm_driver.c:114-127 | the strings offered are exactly the nonempty lines if and only if no line exceeds 255 bytes |
| GsmDriver.EveryStreamHasLines | samples/mesh/src/gsm_driver.c:114-127 | every stream is a sequence of lines and a rest |
| GsmDriver.MessageIs | samples/mesh/src/gsm_driver.c:116-120 | the string in the message put on the queue is the line as cut |
| GsmDriver.SerialPort.SerialCb | samples/mesh/src/gsm_driver.c:101-128 | however the stream is cut into callbacks, the buffer and the strings offered depend on the whole stream only; the queue holds those not yet read, in order, without those dropped while it was full |
| GsmDriver.SerialPort.NothingDropped | samples/mesh/src/gsm_driver.c:114-135 | if nothing was dropped, what readers got and the queue holds is exactly what was offered |
| GsmDriver.SerialPort.DroppedOnlyWhenFull | samples/mesh/inc/gsm_driver.h:15 | a message is dropped only when 20 are waiting |
| Node.GeneratedIsVersion6 | samples/mesh/src/node.c:4-38 | a generated identifier has version 6 |
| Node.GeneratedFields | samples/mesh/src/node.c:14-33 | the fields of a generated identifier: 48 bits of the uptime, version 6 and 12 bits of the uptime without its lowest four, and the two random numbers, most significant byte first |
| Node.SameGeneratedId | samples/mesh/src/node.c:4-38 | two generated identifiers are equal if and only if the random numbers are and the uptimes agree modulo 2^48 |
| Node.TextGroups | samples/mesh/src/node.c:40-52 | the text is the bytes in two hex digits each, in groups of 4, 2, 2, 2 and 6 with dashes between |
| Node.TextRoundTrip | samples/mesh/src/node.c:40-52 | reading the text back gives the identifier |
| Node.TextInjective | samples/mesh/src/node.c:40-52 | different identifiers have different texts |
| Node.TextValidIff | samples/mesh/src/node.c:59-84 | the text passes the check if and only if the high half of byte 6 is 6 |
| Node.ValidLowercaseIsText | samples/mesh/src/node.c:55-84 | every accepted text without capitals is the text of an identifier |
| Node.IsValidUuidV6 | samples/mesh/src/node.c:59-84 | accepts exactly the version-6 texts |
| Node.Node.SramStore | samples/mesh/src/sram_setup.c:5-24 | the memory holds the identifier if the device is ready, and is unchanged with -1 if not |
| Node.Node.SramLoad | samples/mesh/src/sram_setup.c:27-54 | 0 exactly if the device is ready and the memory holds a version-6 identifier; the bytes are copied either way |
| Node.Node.Boot | samples/mesh/src/main.c:58-70 | the identity a boot ends with, its text, and what the memory then holds |
| Node.StableIdentity | samples/mesh/src/main.c:58-70 | from any memory contents, all boots that find the device ready have the same identity and text |
| Node.IdentityIs | samples/mesh/src/main.c:58-70 | the identity a boot ends with: the one in the memory if the device is ready and its version is 6, otherwise a fresh one made of this boot's uptime and random numbers |
| Node.CapitalsAccepted | samples/mesh/src/node.c:55-57 | capitals are accepted like small letters |
| Node.VariantIff | samples/mesh/src/node.c:25-29 | byte 8 has the variant bits of RFC 9562 if and only if the top two bits of the first random number are 10 |
| Node.VariantNotSet | samples/mesh/src/node.c:25-29 | an identifier without them |
| Cmdline.OptionTable.AddCommandLineOpts | samples/mesh/boards/posix/native_posix/cmdline.c:41-78 | the table is what it was, then the new options, then one end marker within capacity; how it grows |
| Cmdline.OptionTable.AddAll | samples/mesh/boards/posix/native_posix/cmdline.c:41-78 | after any registrations the table is the concatenation of all options and one end marker |
| Cmdline.MeetsSyntaxIff | samples/mesh/boards/posix/native_posix/cmdline_common.c:31-73 | the matcher keeps to the documented syntax `[-[-]]option` and `[-[-]]option{:or=}value` for every argument, if and only if the option's name does not start with a dash and the option is not a switch without a name |
| Cmdline.MeetsSyntax | samples/mesh/boards/posix/native_posix/cmdline_common.c:31-73 | for such names: a match exactly on the syntax, with the value after the offset; a missing value exactly when the separator or the value is missing |
| Cmdline.DashOptionIsMissed | samples/mesh/boards/posix/native_posix/cmdline_common.c:31-73 | an option whose name starts with a dash is not found under its own name |
| Cmdline.EmptySwitchIsMissed | samples/mesh/boards/posix/native_posix/cmdline_common.c:31-73 | the empty argument for the empty switch reads as no match |
| Cmdline.CmdIsOption | samples/mesh/boards/posix/native_posix/cmdline_common.c:31-73 | the loop's answer, which for names without a leading dash is the documented one, the empty argument for the empty switch aside |
| Cmdline.CmdParseOneArg | samples/mesh/boards/posix/native_posix/cmdline_common.c:364-418 | the first listed entry that matches decides, and is stored |
| Cmdline.HelpIff | samples/mesh/boards/posix/native_posix/cmdline_common.c:80-98 | for every table, an argument asks for help if and only if it is "?", "h" or "help" in any case, after no dash, one or two |
| Cmdline.FirstMatchDecides | samples/mesh/boards/posix/native_posix/cmdline_common.c:364-418 | the first listed entry the argument is an option of decides: a missing value ends the process, and so does a switch that is stored and not boolean; otherwise it is found |
| Cmdline.UnknownIff | samples/mesh/boards/posix/native_posix/cmdline_common.c:400-418 | an argument is unknown if and only if it is an option of no listed entry |
| Cmdline.ValueFindsItsOption | samples/mesh/boards/posix/native_posix/cmdline_common.c:392-418 | among distinct clean names an argument with a value finds exactly its own option, and the value follows the offset |
| Cmdline.ValueMissing | samples/mesh/boards/posix/native_posix/cmdline_common.c:66-71 | an option without its value ends the process, with or without the separator |
| Cmdline.SwitchFindsItsOption | samples/mesh/boards/posix/native_posix/cmdline_common.c:364-418 | a switch is answered with help if its name asks for it; otherwise its own option is found, unless it is stored and not boolean, which ends the process |
| Cmdline.OrderDoesNotMatter | samples/mesh/boards/posix/native_posix/cmdline_common.c:392-418 | the option found does not depend on the order of registration |
| Cmdline.NativeHandleCmdLine | samples/mesh/boards/posix/native_posix/cmdline.c:114-139 | arguments are parsed in order up to "testargs", and all they say is stored in that order; those after it are left for the test |
| Cmdline.TestArgsIff | samples/mesh/boards/posix/native_posix/cmdline.c:128 | the test's arguments start after "testargs" with no dash, one or two, and no other argument |
| Cmdline.LastValueStored | samples/mesh/boards/posix/native_posix/cmdline_common.c:364-387 | an option given more than once keeps its last value |
| Cmdline.NotGivenNotStored | samples/mesh/boards/posix/native_posix/cmdline_common.c:364-387 | an option not given is not stored |
| Board.Board.HwIrqCtrlIrqRaisePrefix | samples/mesh/boards/posix/native_posix/irq_ctrl.c:190-201 | (step) the raise step: pending before the mask, and in the status if enabled; the hard phony line only sets the lock-ignoring flag |
| Board.Board.HwIrqCtrlSetIrq | samples/mesh/boards/posix/native_posix/irq_ctrl.c:209-223 | (step) the raise step, and a wake at the present instant unless the lock forbids it |
| Board.Board.IrqRaisingFromHwNow | samples/mesh/boards/posix/native_posix/irq_ctrl.c:227-238 | (step) wakes unless locked and not told to ignore that; a wake uses the flag up |
| Board.Board.HwIrqCtrlRaiseIm | samples/mesh/boards/posix/native_posix/irq_ctrl.c:247-251 | (step) raise and wake now |
| Board.Board.HwIrqCtrlTimerTriggered | samples/mesh/boards/posix/native_posix/irq_ctrl.c:267-271 | (step) the controller's event: its timer is disarmed, and the CPU is woken unless the lock forbids it |
| Board.Board.HwIrqCtrlClearAllEnabledIrqs | samples/mesh/boards/posix/native_posix/irq_ctrl.c:139-143 | (step) no status bit stays, and only disabled lines stay pending |
| Board.Board.HwIrqCtrlClearAllIrqs | samples/mesh/boards/posix/native_posix/irq_ctrl.c:145-149 | (step) nothing stays pending |
| Board.Board.HwIrqCtrlClearIrq | samples/mesh/boards/posix/native_posix/irq_ctrl.c:166-170 | (step) the line is pending neither before nor behind the mask |
| Board.Board.HwIrqCtrlDisableIrq | samples/mesh/boards/posix/native_posix/irq_ctrl.c:151-154 | (step) the mask loses the line; the status keeps it |
| Board.Board.HwIrqCtrlPrioSet | samples/mesh/boards/posix/native_posix/irq_ctrl.c:75-78 | (step) the priority is stored modulo 256 |
| Board.Board.EnableLatch | samples/mesh/boards/posix/native_posix/irq_ctrl.c:181-187 | (step) the mask gains the line, and a pending line is raised again |
| Board.Board.HwmSleepUntilNextTimer | samples/mesh/boards/posix/native_posix/hw_models_top.c:91-110 | (step) the clock moves to the cached time unless that is past; the simulation stops past the end of time |
| Board.Board.HwmOneEvent | samples/mesh/boards/posix/native_posix/hw_models_top.c:133-156 | (step) the event step, and whether it wakes the CPU or ends the process |
| Board.Board.constructor | samples/mesh/boards/posix/native_posix/hw_models_top.c:182-190 | (step) the state hwm_init leaves from zeroed variables |
| Board.Board.HwtimerEnable | samples/mesh/boards/posix/native_posix/timer_model.c:179-185 | (step) the tick is due one period from now, and both cached minima are renewed |
| Board.Board.HwtimerTickTimerReached | samples/mesh/boards/posix/native_posix/timer_model.c:220-228 | (step) the tick moves on by a period; a silent tick is used up, or line 0 is raised |
| Board.Board.HwtimerAwakeTimerReached | samples/mesh/boards/posix/native_posix/timer_model.c:230-235 | (step) the awake timer is disarmed and the hard phony interrupt raised |
| Board.Board.HwtimerTimerReached | samples/mesh/boards/posix/native_posix/timer_model.c:237-248 | (step) both timers due at the instant are served, the awake timer first |
| Board.Board.HwtimerWakeInTime | samples/mesh/boards/posix/native_posix/timer_model.c:258-265 | (step) an earlier request prevails, a later one does nothing |
| Board.Board.HwCounterTriggered | samples/mesh/boards/posix/native_posix/hw_counter.c:33-46 | (step) a running counter advances, is due a period later, and raises its line at the target; a stopped one is disarmed |
| Board.Board.HwCounterStart | samples/mesh/boards/posix/native_posix/hw_counter.c:61-71 | (step) a stopped counter is due one period from now and keeps its value; a running one is left alone |
| Board.Board.HwCounterStop | samples/mesh/boards/posix/native_posix/hw_counter.c:78-83 | (step) disarmed, with its value kept |
| ClockRatio.RealTimeClock.HwtimerAdjustRtRatio | samples/mesh/boards/posix/native_posix/timer_model.c:320-350 | (step) the adjustment, at the board's time |
| CpuModel.Cpu.LeaveHandler | samples/mesh/boards/posix/native_posix/irq_handler.c:99-111 | (step) the swap happens exactly if asked for, no routine runs, and another thread is ready |
| Nesting.HandlerExit | samples/mesh/boards/posix/native_posix/irq_handler.c:99-111 | (step) a swap is decided on exactly as the routines run since the outermost entry asked, and only with no routine running |
| Nesting.EnterStep | samples/mesh/boards/posix/native_posix/irq_handler.c:86-92 | (step) taking the winner keeps the invariant, lowers the number of status bits, and leaves nothing that beats it |
| Nesting.LeaveStep | samples/mesh/boards/posix/native_posix/irq_handler.c:94-97 | (step) leaving a routine restores the running line and priority exactly, and made progress |
| Nesting.QuietStep | samples/mesh/boards/posix/native_posix/irq_ctrl.c:151-223 | (step) calls that only touch the hardware keep the invariant and lose no interrupt |
| Nesting.PrioStep | samples/mesh/boards/posix/native_posix/irq_ctrl.c:75-78 | (step) a change of priority keeps the invariant, and loses no interrupt of a thread |
| Nesting.WaitTurn | samples/mesh/boards/posix/native_posix/cpu_wait.c:63-74 | (step) each turn of a waiting loop waited, ran a routine, or used up an event due now |
| HwRuns.StepInv | samples/mesh/boards/posix/native_posix/irq_ctrl.c:139-201 | (step) every single call and event keeps that invariant |
| HwRuns.EventProgress | samples/mesh/boards/posix/native_posix/hw_models_top.c:133-156 | (step) an event moves time on or lowers the weight of what is due now |
| HwClocks.TickStep | samples/mesh/boards/posix/native_posix/timer_model.c:187-248 | (step) a tick is followed by one a period later, and either uses up a silent tick or raises line 0, never both |
| GsmDriver.SerialPort.Receive | samples/mesh/src/gsm_driver.c:114-127 | (step) one byte more of the stream |
| GsmDriver.SerialPort.Put | samples/mesh/src/gsm_driver.c:119-120 | (step) the whole buffer is queued, or dropped exactly when the queue is full |
| GsmDriver.SerialPort.Get | samples/mesh/src/gsm_driver.c:130-135 | (step) readers get the messages in order |

## Left out

- HaltUntilWoken: the threads behind posix_halt_cpu and the swap of threads are in posix_soc and the kernel, which are not part of this model; a halt is events until a wake, and a swap is recorded.
- ArchBusyWait: routines in the supply hold the CPU but do not busy-wait themselves.
- MainLoop: a board with no tick armed and no end of time, on which the clock jumps to NEVER once nothing is armed; the C loop runs for ever, and the model for any number of events; a hold in a routine or a thread runs its events inside the turn that made it, so the events are counted in the hardware runs (EventsBounded) and in PosixExecFor and not here.
- PosixExecFor: a board with neither tick nor counter running and no end of time, on which the clock jumps to NEVER; software does not ask for events at the present instant, without which the loop need not end (EndlessEvents).
- PosixIrqOffload: the offloaded routine is in the vector table from the start and its execution is one of the supply.
- Good: the tick is not reconfigured, and the counter's period not changed, by routines; both are covered by the hardware runs.
- HwtimerAdjustRtRatio: rounding of doubles, real times beyond 2^64 microseconds, and corrections that are not positive in a run.
- Reading the host's clocks, sleeping in real time mode, and the pseudo-host clock.
- Signals that end the simulation; the end of time is modelled.
- hw_irq_ctrl_init as a re-initialisation: it runs once, from zeroed variables.
- The check that the CPU runs when software raises an interrupt, and tracing.
- Reading option values with strtoul and strtod, setting defaults, callbacks, and printing help: a value is kept as text.
- Running out of memory in realloc.
- uuid_to_str with a buffer length other than the 37 all callers pass.
- Modem commands, signal strength and device set-up, the RTC wrappers, the heartbeat and LoRa drivers: device I/O and wrappers.
