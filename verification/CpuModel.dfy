/** The software side: irq_handler.c, the functions of irq_ctrl.c that run the handler, cpu_wait.c, and the
    event loop of main.c.  The handler, the routines it runs and the calls those make are mutually
    recursive; `supply` holds the executions of routines still to come, whatever they are. */
module CpuModel {
  import opened Sequences
  import opened IrqCtrl
  import opened HwModels
  import opened HwRuns
  import opened Nesting
  import B = Board

  class Cpu {
    const board: B.Board
    const irqVectorTable: seq<Vector>
    const readsFirst: bool    // how the compiler orders `*may_swap |= f()`
    var currentlyRunningIrq: int
    var nested: nat
    var maySwap: bool
    var otherReady: bool
    var supply: seq<Isr>

    ghost const boot: Hw
    ghost const horizon: int
    ghost var history: History

    ghost function State(): CpuState
      reads this, board, board.irqPrio
    {
      CpuState(board.State(), boot, irqVectorTable, currentlyRunningIrq, nested, maySwap, readsFirst, otherReady,
                  supply, history, horizon)
    }

    /** The invariant, but for the claim that no interrupt is lost. */
    ghost predicate Coherent()
      reads this, board, board.irqPrio
    {
      board.irqPrio.Length == N_IRQS && Good(State(), 0)
    }

    /** The invariant wherever software runs. */
    ghost predicate Valid()
      reads this, board, board.irqPrio
    {
      board.irqPrio.Length == N_IRQS && Steady(State())
    }

    /** Why the process may end: the routine just chosen is missing, or time is over. */
    ghost predicate ExitOk(why: Why)
      reads this, board, board.irqPrio
    {
      match why
      case NoHandler(irq) =>
        && irq < |irqVectorTable| && irqVectorTable[irq] == Unset
        && history.served != [] && Last(history.served).irq == irq
      case EndOfTime => State().hw.now > State().hw.endOfTime
    }

    /** After boot, with the vector table filled in, the routines' executions chosen, and the counter's period
        configured (NEVER for an unconfigured counter, which no routine may then start). */
    constructor (table: seq<Vector>, readsFirst: bool, supply: seq<Isr>, counterPeriod: u64, endOfTime: u64,
                 ghost horizon: int)
      requires |table| == N_IRQS && HoldTime(supply) <= horizon < NEVER
      requires SupplyOk(supply, counterPeriod, horizon)
      ensures Valid() && fresh(board) && fresh(board.irqPrio)
      ensures State().hw == Apply(Boot(endOfTime), CounterPeriod(counterPeriod)) && history.frames == []
      ensures irqVectorTable == table && this.readsFirst == readsFirst && this.supply == supply
      ensures this.horizon == horizon
    {
      hide Run, IsRun, Inv, Logged, Good, Steady, NothingLost, Boot, Apply;
      board := new B.Board(endOfTime);
      irqVectorTable := table;
      this.readsFirst := readsFirst;
      currentlyRunningIrq, nested, maySwap, otherReady := -1, 0, false, false;
      this.supply := supply;
      boot, this.horizon := Boot(endOfTime), horizon;
      history := History([], [], [], [], [], [], false);
      new;
      board.HwCounterSetPeriod(counterPeriod);
      history := history.(log := [] + [CounterPeriod(counterPeriod)], calls := [] + [ConfigureCounter(counterPeriod)]);
      Booted(this.State(), endOfTime, counterPeriod);
    }

    /** hwtimer_enable, as the tick driver calls it from a thread. */
    method HwtimerEnable(period: u64)
      requires Valid() && 0 < period && horizon + period < NEVER
      modifies this, board
      ensures Valid() && State() == CallMade(old(State()), ConfigureTick(period))
    {
      hide B.Board.State, Good, Steady, Kept, HoldTime, Apply;
      ghost var s := State();
      board.HwtimerEnable(period);
      history := CallMade(s, ConfigureTick(period)).history;
      assert State() == CallMade(s, ConfigureTick(period));
      TickEnabled(s, period);
    }

    // ----- irq_handler.c

    /** The routine of the chosen line runs: its calls are made, in order, and its request for a swap is recorded. */
    method VectorToIrq(irqNbr: nat) returns (r: Outcome)
      requires Valid() && irqNbr < |irqVectorTable| && history.frames != []
      requires history.served != [] && Last(history.served).irq == irqNbr == currentlyRunningIrq
      modifies this, board, board.irqPrio
      ensures r.Exited? ==> ExitOk(r.why)
      ensures r.Running? ==> Coherent() && RoutineRan(old(State()), State())
      ensures r.Running? && old(supply) != [] ==>
        && Performed(old(supply)[0].body, old(history).calls, history.calls)
        && history.requests != []
        && Last(history.requests).ask == (irqVectorTable[irqNbr] != Direct || old(supply)[0].swap)
      decreases |supply|, 1
    {
      hide B.Board.State, Good, Steady, Kept, HoldTime, Apply, RoutineRan, RoutineMade, Performed;
      if irqVectorTable[irqNbr] == Unset {
        return Exited(NoHandler(irqNbr));
      }
      ghost var s := State();
      SteadyFacts(s);
      var before := maySwap;
      var swap;
      r, swap := RunRoutine();
      if r.Exited? {
        return;
      }
      ghost var t := State();
      var direct := irqVectorTable[irqNbr] == Direct;
      if direct {
        maySwap := (if readsFirst then before else maySwap) || swap;
      } else {
        maySwap := true;
      }
      history := Requested(s, t, direct, swap).history;
      assert State() == Requested(s, t, direct, swap);
      RoutineOver(s, t, direct, swap);
    }

    /** The next execution of the supply, and what it answers; nothing when none is left. */
    method RunRoutine() returns (r: Outcome, swap: bool)
      requires Valid()
      modifies this, board, board.irqPrio
      ensures r.Exited? ==> ExitOk(r.why)
      ensures r.Running? ==> Valid() && RoutineMade(old(State()), State())
      ensures r.Running? && old(supply) != [] ==> swap == old(supply)[0].swap
      decreases |supply|, 0
    {
      hide B.Board.State, Good, Steady, Kept, HoldTime, Apply, HoldsOf, BodyOk, Performed;
      r, swap := Running, false;
      if supply != [] {
        var isr := supply[0];
        SupplyStep(State());
        supply := supply[1..];
        r := RunBody(isr.body);
        swap := isr.swap;
      }
    }

    /** The calls a routine makes, in order. */
    method RunBody(body: seq<Action>) returns (r: Outcome)
      requires Valid()
      requires BodyOk(body, State().hw.cnt.period, horizon)
      requires State().hw.now + HoldsOf(body) + HoldTime(supply) <= horizon
      modifies this, board, board.irqPrio
      ensures r.Exited? ==> ExitOk(r.why)
      ensures r.Running? ==> Valid() && Kept(old(State()), State(), HoldsOf(body), multiset(body))
      ensures r.Running? ==> Performed(body, old(history).calls, history.calls)
      decreases |supply|, 8
    {
      hide B.Board.State, Good, Steady, Kept, HoldTime, Apply, Made, HoldsOf, HoldOf, Performed, CallMade;
      ghost var s0 := State();
      var i := 0;
      MadeNone(s0, body);
      while i < |body|
        invariant 0 <= i <= |body|
        invariant Valid() && Made(s0, State(), body, i)
        decreases |body| - i
      {
        ghost var s := State();
        MadeFacts(s0, s, body, i);
        :- Do(body[i]);
        MadeNext(s0, s, State(), body, i);
        i := i + 1;
      }
      MadeAll(s0, State(), body);
      r := Running;
    }

    /** The chosen line becomes the running one, at its priority, and is no longer pending. */
    method TakeIrq(irqNbr: nat)
      requires board.irqPrio.Length == N_IRQS && irqNbr < N_IRQS
      modifies this, board
      ensures irqNbr < |old(State()).hw.irq.prio| && State() == Entered(old(State()), irqNbr)
    {
      hide B.Board.State, Apply;
      ghost var s := State();
      var prio := board.HwIrqCtrlGetPrio(irqNbr);
      board.HwIrqCtrlSetCurPrio(prio);
      board.HwIrqCtrlClearIrq(irqNbr, true);
      currentlyRunningIrq := irqNbr;
      history := Entered(s, irqNbr).history;
    }

    /** One turn of the handler's loop: run the routine of the chosen line at its priority, then go back to
        what was running. */
    method ServeIrq(irqNbr: nat) returns (r: Outcome)
      requires board.irqPrio.Length == N_IRQS && Good(State(), 1) && IsWinner(State().hw.irq, irqNbr)
      modifies this, board, board.irqPrio
      ensures r.Exited? ==> ExitOk(r.why)
      ensures r.Running? ==>
        && Good(State(), 1)
        && Resumed(old(State()), State(), 0, multiset{}, 0) && RequestsKept(old(State()), State(), 0)
        && Calm(old(State()), State())
        && old(history).served + [Served(irqNbr, old(State()).hw)] <= history.served
      ensures r.Running? ==>
        && |supply| <= |old(supply)|
        && (|supply| < |old(supply)| || |State().hw.irq.status| < |old(State()).hw.irq.status|)
      decreases |supply|, 2
    {
      hide B.Board.State, Good, Steady, Kept, HoldTime, Apply;
      ghost var s := State();
      GoodFacts(s, 1);
      EnterStep(s, irqNbr);
      var lastCurrentRunningPrio := board.HwIrqCtrlGetCurPrio();
      var lastRunningIrq := currentlyRunningIrq;

      TakeIrq(irqNbr);
      :- VectorToIrq(irqNbr);

      ghost var t := State();
      currentlyRunningIrq := lastRunningIrq;
      board.HwIrqCtrlSetCurPrio(lastCurrentRunningPrio);
      history := Left(s, t).history;
      assert State() == Left(s, t);
      LeaveStep(s, irqNbr, t);
      r := Running;
    }

    /** The routines of all pending lines that can interrupt are run, the line of the highest priority first,
        and nothing else; then everything is as before. */
    method PosixIrqHandler() returns (r: Outcome)
      requires Coherent()
      modifies this, board, board.irqPrio
      ensures r.Exited? ==> ExitOk(r.why)
      ensures r.Running? ==>
        && Valid() && Kept(old(State()), State(), 0, multiset{}) && Drained(State().hw.irq)
        && Calm(old(State()), State()) && SwapDecided(old(State()), State())
      ensures r.Running? ==> FirstServed(old(State()), State()) && Dispatched(old(State()), State())
      decreases |supply|, 3
    {
      hide B.Board.State, Good, Steady, Kept, HoldTime, Apply, IsWinner, Dispatched, FirstServed, Serving,
        HandlerEntered, HandlerLeft, Drained;
      ghost var s0 := State();
      GoodFacts(s0, 0);
      KeptRefl(s0);
      var irqLock := board.HwIrqCtrlGetCurrentLock();
      if irqLock {
        LockedIsDrained(s0.hw.irq);
        LockedDecides(s0);
        Settled(s0, s0, 0, multiset{});
        NoneServed(s0, s0);
        return Running;
      }
      EnterHandler();
      ghost var s1 := State();
      HandlerEntry(s0);
      board.LatchedIsValid();
      var irqNbr := board.HwIrqCtrlGetHighestPrioIrq();
      ghost var winner := irqNbr;
      ServingStarts(s0, s1, winner);
      while irqNbr != -1
        invariant board.irqPrio.Length == N_IRQS && Serving(s0, State(), irqNbr, winner)
        decreases |supply|, |State().hw.irq.status|
      {
        ghost var s := State();
        ServingFacts(s0, s, irqNbr, winner);
        :- ServeIrq(irqNbr);
        GoodFacts(State(), 1);
        board.LatchedIsValid();
        ghost var served := irqNbr;
        irqNbr := board.HwIrqCtrlGetHighestPrioIrq();
        ServingGoesOn(s0, s, State(), served, irqNbr, winner);
      }
      ghost var t := State();
      ServingFacts(s0, t, irqNbr, winner);
      LeaveHandler();
      ServingEnds(s0, t, winner);
      r := Running;
    }

    /** The start of the handler: the outermost entry forgets earlier swap requests. */
    method EnterHandler()
      modifies this
      ensures State() == HandlerEntered(old(State()))
    {
      hide B.Board.State, Good, Steady, Kept, HoldTime, Apply;
      ghost var s := State();
      if nested == 0 {
        maySwap := false;
      }
      nested := nested + 1;
      history := HandlerEntered(s).history;
    }

    /** The end of the handler: swap to another thread if a routine asked for it, no routine is being
        interrupted, and another thread is ready. */
    method LeaveHandler()
      requires nested > 0
      modifies this
      ensures State() == HandlerLeft(old(State()))
    {
      hide B.Board.State, Good, Steady, Kept, HoldTime, Apply;
      ghost var t := State();
      nested := nested - 1;
      var curPrio := board.HwIrqCtrlGetCurPrio();
      if maySwap && curPrio == 256 && otherReady {
        history := history.(swaps := history.swaps + [Swap(nested, history.requests)]);
      }
      assert history == HandlerLeft(t).history;
    }

    method PosixIrqHandlerImFromSw() returns (r: Outcome)
      requires Coherent()
      modifies this, board, board.irqPrio
      ensures r.Exited? ==> ExitOk(r.why)
      ensures r.Running? ==> Valid() && Kept(old(State()), State(), 0, multiset{}) && Drained(State().hw.irq)
      ensures r.Running? ==> FirstServed(old(State()), State()) && Dispatched(old(State()), State())
      decreases |supply|, 4
    {
      hide B.Board.State, Good, Steady, Kept, HoldTime, Apply;
      ghost var s := State();
      GoodFacts(s, 0);
      board.LatchedIsValid();
      KeptRefl(s);
      var irqNbr := board.HwIrqCtrlGetHighestPrioIrq();
      if irqNbr != -1 {
        :- PosixIrqHandler();
      } else {
        Settled(s, s, 0, multiset{});
        NoneServed(s, s);
      }
      r := Running;
    }

    // ----- irq_ctrl.c: the functions that run the handler

    /** Unlocking dispatches everything raised while interrupts were locked. */
    method HwIrqCtrlChangeLock(newLock: bool) returns (r: Outcome, previousLock: bool)
      requires Valid()
      modifies this, board, board.irqPrio
      ensures r.Exited? ==> ExitOk(r.why)
      ensures r.Running? ==> Valid() && Kept(old(State()), State(), 0, multiset{ChangeLock(newLock)})
      ensures previousLock == old(State()).hw.irq.locked
      ensures r.Running? ==> Follows(CallMade(old(State()), ChangeLock(newLock)), State())
      ensures r.Running? && previousLock && !newLock ==>
        && Drained(State().hw.irq) && Dispatched(old(State()), State())
        && FirstServed(CallMade(old(State()), ChangeLock(newLock)), State())
      ensures !(previousLock && !newLock) ==> State() == CallMade(old(State()), ChangeLock(newLock))
      decreases |supply|, 5
    {
      hide B.Board.State, Good, Steady, Kept, HoldTime, Apply, IsWinner, Dispatched, FirstServed;
      r := Running;
      ghost var s, a := State(), ChangeLock(newLock);
      SteadyFacts(s);
      GoodFacts(s, 0);
      previousLock := board.SetLock(newLock);
      history := CallMade(s, a).history;
      ghost var t := State();
      assert t == CallMade(s, a);
      CallStep(s, a, 0);
      LockFacts(s.hw, newLock);
      var irqStatus := board.HwIrqCtrlGetIrqStatus();
      if previousLock && !newLock && irqStatus != {} {
        r := PosixIrqHandlerImFromSw();
        if r.Running? {
          SteadyFacts(State());
          Continued(s, t, State(), a);
        }
      } else {
        QuietStep(s, a);
        SteadyFacts(t);
        if irqStatus == {} {
          NothingPending(t.hw.irq);
          Settled(s, t, 0, multiset{a});
          NoneServed(t, t);
        }
      }
    }

    /** The raise is made; if it can interrupt, its routine has run when this returns. */
    method HwIrqCtrlRaiseImFromSw(irq: nat) returns (r: Outcome)
      requires Valid()
      modifies this, board, board.irqPrio
      ensures r.Exited? ==> ExitOk(r.why)
      ensures r.Running? ==> Valid() && Kept(old(State()), State(), 0, multiset{Action.Raise(irq)})
      ensures r.Running? ==> Follows(CallMade(old(State()), Action.Raise(irq)), State())
      ensures r.Running? ==>
        && Drained(State().hw.irq) && Dispatched(CallMade(old(State()), Action.Raise(irq)), State())
        && FirstServed(CallMade(old(State()), Action.Raise(irq)), State())
      decreases |supply|, 5
    {
      hide B.Board.State, Good, Steady, Kept, HoldTime, Apply;
      ghost var s, a := State(), Action.Raise(irq);
      SteadyFacts(s);
      GoodFacts(s, 0);
      board.LatchedIsValid();
      board.HwIrqCtrlIrqRaisePrefix(irq);
      history := CallMade(s, a).history;
      ghost var t := State();
      assert t == CallMade(s, a);
      CallStep(s, a, 0);
      var locked := board.HwIrqCtrlGetCurrentLock();
      if !locked {
        :- PosixIrqHandlerImFromSw();
        SteadyFacts(State());
        Continued(s, t, State(), a);
      } else {
        LockedIsDrained(t.hw.irq);
        KeptRefl(t);
        Settled(t, t, 0, multiset{});
        NoneServed(t, t);
      }
      r := Running;
    }

    /** The enabled line, if it is pending, is raised again; if it can interrupt, its routine has run when this
        returns. */
    method HwIrqCtrlEnableIrq(irq: nat) returns (r: Outcome)
      requires Valid() && irq < N_IRQS
      modifies this, board, board.irqPrio
      ensures r.Exited? ==> ExitOk(r.why)
      ensures r.Running? ==> Valid() && Kept(old(State()), State(), 0, multiset{Enable(irq)})
      ensures r.Running? ==> Follows(CallMade(old(State()), Enable(irq)), State())
      ensures r.Running? && irq in old(State()).hw.irq.premask ==>
        && Drained(State().hw.irq) && Dispatched(CallMade(old(State()), Enable(irq)), State())
        && FirstServed(CallMade(old(State()), Enable(irq)), State())
      ensures irq !in old(State()).hw.irq.premask ==> State() == CallMade(old(State()), Enable(irq))
      decreases |supply|, 5
    {
      hide B.Board.State, Good, Steady, Kept, HoldTime, Apply;
      ghost var s, a := State(), Enable(irq);
      SteadyFacts(s);
      GoodFacts(s, 0);
      board.LatchedIsValid();
      var pending := board.EnableLatch(irq);
      history := CallMade(s, a).history;
      ghost var t := State();
      assert t == CallMade(s, a);
      EnableAllowed(s.hw, irq);
      CallStep(s, a, 0);
      if !pending {
        EnableUnpending(s, irq);
        MadeSteady(t);
        return Running;
      }
      var locked := board.HwIrqCtrlGetCurrentLock();
      if locked {
        LockedIsDrained(t.hw.irq);
        KeptRefl(t);
        Settled(t, t, 0, multiset{});
        NoneServed(t, t);
      } else {
        :- PosixIrqHandlerImFromSw();
        SteadyFacts(State());
        Continued(s, t, State(), a);
      }
      r := Running;
    }

    /** posix_irq_offload, with the offloaded routine in the vector table: when it returns, the offload line is
        disabled, and if it could interrupt what runs it was dispatched. */
    method PosixIrqOffload() returns (r: Outcome)
      requires Valid()
      modifies this, board, board.irqPrio
      ensures r.Exited? ==> ExitOk(r.why)
      ensures r.Running? ==>
        && Valid() && Kept(old(State()), State(), 0, OffloadCalls())
        && OFFLOAD_SW_IRQ !in State().hw.irq.mask && Drained(State().hw.irq)
      ensures r.Running? ==>
        var c := old(State()).hw.irq;
        OFFLOAD_SW_IRQ < |c.prio| && c.prio[OFFLOAD_SW_IRQ] < c.cur ==>
          LineDispatched(old(State()), State(), OFFLOAD_SW_IRQ)
    {
      hide B.Board.State, Good, Steady, Kept, HoldTime, Apply, IsWinner, Dispatched, FirstServed;
      ghost var s := State();
      :- HwIrqCtrlEnableIrq(OFFLOAD_SW_IRQ);
      ghost var t := State();
      :- HwIrqCtrlRaiseImFromSw(OFFLOAD_SW_IRQ);
      ghost var u := State();
      DoQuietly(Disable(OFFLOAD_SW_IRQ));
      DisableKeepsDrained(u.hw, OFFLOAD_SW_IRQ);
      SteadyFacts(s);
      SteadyFacts(t);
      SteadyFacts(State());
      Offloaded(s, t, u, State());
      r := Running;
    }

    // ----- the calls of a routine or a thread

    /** Any call: its own step of the hardware is made first, no interrupt is lost, and it takes exactly its time. */
    method Do(a: Action) returns (r: Outcome)
      requires Valid()
      requires ActionOk(a, State().hw.cnt.period, horizon)
      requires State().hw.now + HoldOf(a) + HoldTime(supply) <= horizon
      modifies this, board, board.irqPrio
      ensures r.Exited? ==> ExitOk(r.why)
      ensures r.Running? ==> Valid() && Kept(old(State()), State(), HoldOf(a), multiset{a})
      ensures r.Running? ==> Follows(CallMade(old(State()), a), State())
      ensures a.MakeReady? ==> State() == ReadyMade(old(State()), a.other)
      decreases |supply|, 7
    {
      hide B.Board.State, Good, Steady, Kept, HoldTime, Apply;
      ghost var s := State();
      r := Running;
      if IsQuiet(a) {
        DoQuietly(a);
        return;
      }
      match a {
        case Raise(irq) =>
          r := HwIrqCtrlRaiseImFromSw(irq);
        case Enable(irq) =>
          r := HwIrqCtrlEnableIrq(irq);
        case ChangeLock(on) =>
          var key;
          r, key := HwIrqCtrlChangeLock(on);
        case Hold(us) =>
          r := PosixCpuHold(us);
        case SetPrio(irq, prio) =>
          ChangePrio(irq, prio);
        case MakeReady(other) =>
          NoteCall(a);
          otherReady := other;
          assert State() == ReadyMade(s, other);
          ReadyStep(s, other);
      }
    }

    /** A call that makes no step of its own. */
    method NoteCall(ghost a: Action)
      requires StepOf(a) == []
      modifies this`history
      ensures State() == CallMade(old(State()), a)
    {
      hide B.Board.State;
      history := CallMade(State(), a).history;
    }

    /** posix_irq_priority_set */
    method ChangePrio(irq: nat, prio: nat)
      requires Valid() && irq < N_IRQS
      modifies this, board, board.irqPrio
      ensures Valid() && State() == PrioSet(old(State()), irq, prio)
      ensures Kept(old(State()), State(), 0, multiset{SetPrio(irq, prio)})
      ensures Follows(CallMade(old(State()), SetPrio(irq, prio)), State())
    {
      hide B.Board.State, Good, Steady, Kept, HoldTime, Apply;
      ghost var s := State();
      SteadyFacts(s);
      GoodFacts(s, 0);
      board.LatchedIsValid();
      board.HwIrqCtrlPrioSet(irq, prio);
      history := PrioSet(s, irq, prio).history;
      assert State() == PrioSet(s, irq, prio);
      PrioStep(s, irq, prio);
    }

    /** The calls that only touch the hardware. */
    method DoQuietly(a: Action)
      requires Valid()
      requires IsQuiet(a) && ActionOk(a, State().hw.cnt.period, horizon)
      modifies this, board
      ensures Valid() && Kept(old(State()), State(), 0, multiset{a})
      ensures State() == CallMade(old(State()), a)
    {
      hide B.Board.State, Good, Steady, Kept, HoldTime, Apply;
      ghost var s := State();
      SteadyFacts(s);
      GoodFacts(s, 0);
      board.LatchedIsValid();
      MakeStep(a);
      history := CallMade(s, a).history;
      assert State() == CallMade(s, a);
      QuietCall(s, a);
      QuietStep(s, a);
    }

    method MakeStep(a: Action)
      requires IsQuiet(a) && board.Valid() && ActionOk(a, State().hw.cnt.period, horizon)
      modifies board
      ensures StepOf(a) != [] && board.State() == Apply(old(board.State()), StepOf(a)[0])
    {
      hide B.Board.State, Apply;
      match a {
        case SetPending(irq) => board.HwIrqCtrlSetIrq(irq);
        case Disable(irq) => board.HwIrqCtrlDisableIrq(irq);
        case Clear(irq) => board.HwIrqCtrlClearIrq(irq, false);
        case SilentTicks(n) => board.HwtimerSetSilentTicks(n);
        case StartCounter => board.HwCounterStart();
        case StopCounter => board.HwCounterStop();
        case SetTarget(target) => board.HwCounterSetTarget(target);
      }
    }

    // ----- cpu_wait.c

    /** hwtimer_wake_in_time, as software calls it. */
    method WakeInTime(time: u64)
      requires Valid() && State().hw.now < time < NEVER
      modifies this, board
      ensures Valid() && Kept(old(State()), State(), 0, multiset{})
      ensures State() == Stepped(old(State()), WakeAt(time))
      ensures WakeComing(State().hw, time) && Due(State().hw) <= Due(old(State()).hw)
      ensures State().hw.now == old(State()).hw.now
    {
      hide B.Board.State, Good, Steady, Kept, HoldTime, Apply, WakeComing, Due;
      ghost var s := State();
      SteadyFacts(s);
      GoodFacts(s, 0);
      board.HwtimerWakeInTime(time);
      history := history.(log := history.log + [WakeAt(time)]);
      assert State() == Stepped(s, WakeAt(time));
      WakeStep(s, time);
      WakeAtSets(s.hw, time);
    }

    /** The search that ends the event in which the CPU was last woken. */
    method FinishEvent(ghost s: CpuState, ghost D: u64)
      requires board.irqPrio.Length == N_IRQS && Waits(s, State(), D) && WakeComing(State().hw, D)
      modifies this, board
      ensures Waits(s, State(), D) && WakeComing(State().hw, D) && !State().hw.inEvent
      ensures Due(State().hw) == Due(old(State()).hw) && State().hw.now == old(State()).hw.now
      ensures State() == old(State()).(hw := State().hw, history := history) && SameButLog(old(history), history)
    {
      hide B.Board.State, Good, Steady, Kept, HoldTime, Apply, WakeComing, Due, Waiting, Waits, JustWoken;
      var unfinished := board.EventUnfinished();
      if unfinished {
        ghost var t := State();
        WaitTailStep(s, t, D);
        board.HwmOneEventTail();
        history := history.(log := history.log + [Tail]);
        assert State() == Stepped(t, Tail);
      }
    }

    /** posix_change_cpu_state_and_wait: the CPU halts, and hardware events happen until one wakes it; that is
        no later than the wake that is coming. */
    method HaltUntilWoken(ghost D: u64) returns (r: Outcome)
      requires Coherent() && WakeComing(State().hw, D) && D + HoldTime(supply) <= horizon
      modifies this, board
      ensures r.Exited? ==> ExitOk(r.why)
      ensures r.Running? ==>
        && Coherent() && SameButLog(old(history), history)
        && State() == old(State()).(hw := State().hw, history := history)
        && Kept(old(State()), State(), State().hw.now - old(State()).hw.now, multiset{}) && State().hw.now <= D
        && JustWoken(State())
        && (old(State()).hw.now < State().hw.now || Due(State().hw) < Due(old(State()).hw))
    {
      hide B.Board.State, Good, Steady, Kept, HoldTime, Apply, WakeComing, Due, Waiting, Waits, JustWoken,
        Latched, Inv, EventWakes;
      ghost var s := State();
      WaitStart(s, D);
      var woke := false;
      while !woke
        invariant board.irqPrio.Length == N_IRQS
        invariant State() == s.(hw := State().hw, history := history) && SameButLog(s.history, history)
        invariant Waits(s, State(), D)
        invariant if woke then State().hw.inEvent && JustWoken(State()) else WakeComing(State().hw, D)
        invariant woke ==> s.hw.now < State().hw.now || Due(State().hw) < Due(s.hw)
        decreases D - State().hw.now, Due(State().hw), !woke
      {
        FinishEvent(s, D);
        ghost var t := State();
        WaitHeadStep(s, t, D);
        board.LatchedIsValid();
        var stop;
        stop, woke := board.HwmOneEvent();
        if stop {
          return Exited(EndOfTime);
        }
        history := history.(log := history.log + [Head]);
        assert State() == Stepped(t, Head);
      }
      WaitEnd(s, State(), D);
      r := Running;
    }

    /** posix_halt_cpu, by a thread with interrupts unlocked while some are pending: no interrupt is lost.  The CPU is
        woken before any time goes by, and everything pending is dispatched when this returns. */
    method PosixHaltCpu() returns (r: Outcome)
      requires Valid() && history.frames == []
      requires !State().hw.irq.locked && State().hw.irq.status != {}
      modifies this, board, board.irqPrio
      ensures r.Exited? ==> ExitOk(r.why)
      ensures r.Running? ==> Valid() && Kept(old(State()), State(), 0, multiset{}) && Drained(State().hw.irq)
      ensures r.Running? ==> forall l :: l in old(State()).hw.irq.status ==> LineDispatched(old(State()), State(), l)
    {
      hide B.Board.State, Good, Steady, Kept, HoldTime, Apply, WakeComing, Due;
      ghost var s := State();
      SteadyFacts(s);
      HorizonFacts(s);
      WakeIsDue(s);
      :- HaltUntilWoken(s.hw.now);
      ghost var u := State();
      :- PosixIrqHandler();
      KeptFacts(s, u, u.hw.now - s.hw.now, multiset{});
      KeptThen(s, u, State(), 0, 0, multiset{});
      SteadyFacts(State());
      Settled(s, State(), 0, multiset{});
      AllDispatched(s, State());
      r := Running;
    }

    /** One turn of a waiting loop: ask to be woken by `time`, halt, and run the handler; `woken` is the time read in
        between. */
    method WaitOnce(time: u64) returns (r: Outcome, woken: u64)
      requires Valid() && State().hw.now < time && time + HoldTime(supply) <= horizon < NEVER
      modifies this, board, board.irqPrio
      ensures r.Exited? ==> ExitOk(r.why)
      ensures r.Running? ==> Valid() && Waited(old(State()), State(), woken - old(State()).hw.now) && woken <= time
      decreases |supply|, 5
    {
      hide B.Board.State, Good, Steady, Kept, HoldTime, Apply, WakeComing, Due, Waited;
      ghost var s := State();
      woken := time;
      WakeInTime(time);
      ghost var t := State();
      SteadyFacts(t);
      r := HaltUntilWoken(time);
      if r.Exited? {
        return;
      }
      ghost var u := State();
      woken := board.HwmGetTime();
      r := PosixIrqHandler();
      if r.Running? {
        WaitTurn(s, t, u, State());
      }
    }

    /** Exact hold: exactly usecToWaste microseconds are spent in this context, beyond what routines that run
        in between hold, whatever wakes the CPU and however often. */
    method PosixCpuHold(usecToWaste: nat) returns (r: Outcome)
      requires Valid()
      requires State().hw.now + usecToWaste + HoldTime(supply) <= horizon
      modifies this, board, board.irqPrio
      ensures r.Exited? ==> ExitOk(r.why)
      ensures r.Running? ==> Valid() && Kept(old(State()), State(), usecToWaste, multiset{Hold(usecToWaste)})
      ensures r.Running? ==> Follows(CallMade(old(State()), Hold(usecToWaste)), State())
      decreases |supply|, 6
    {
      hide B.Board.State, Good, Steady, Kept, HoldTime, Apply, Due, Holding, CallMade, Waited;
      ghost var s0 := State();
      NoteCall(Hold(usecToWaste));
      HoldingStarts(s0, usecToWaste);
      var toWait := usecToWaste;
      while toWait > 0
        invariant 0 <= toWait <= usecToWaste
        invariant Valid() && Holding(s0, State(), usecToWaste, toWait)
        decreases toWait, |supply|, Due(State().hw)
      {
        ghost var s, left := State(), toWait;
        HoldingFacts(s0, s, usecToWaste, toWait);
        var timeStart := board.HwmGetTime();
        var woken;
        r, woken := WaitOnce(timeStart + toWait);
        if r.Exited? {
          return;
        }
        toWait := toWait - (woken - timeStart);
        HoldingTurn(s0, s, State(), usecToWaste, left, woken - timeStart);
      }
      HoldingEnds(s0, State(), usecToWaste);
      r := Running;
    }

    /** Busy wait: never returns before its time, and each of its halts ends by then, so that it returns exactly
        on time unless routines run in between hold the CPU; `waited` is the time this context waited. */
    method ArchBusyWait(usecToWait: nat) returns (r: Outcome, ghost waited: nat)
      requires Valid()
      requires State().hw.now + usecToWait + HoldTime(supply) <= horizon
      modifies this, board, board.irqPrio
      ensures r.Exited? ==> ExitOk(r.why)
      ensures r.Running? ==>
        && Valid() && Kept(old(State()), State(), waited, multiset{}) && waited <= usecToWait
        && old(State()).hw.now + usecToWait <= State().hw.now
      ensures r.Running? && HoldTime(supply) == HoldTime(old(supply)) ==>
        State().hw.now == old(State()).hw.now + usecToWait
      decreases |supply|, 6
    {
      hide B.Board.State, Good, Steady, Kept, HoldTime, Apply, Due, Waited;
      ghost var s0 := State();
      ghost var own: multiset<Action> := multiset{};
      KeptRefl(s0);
      waited := 0;
      var now := board.HwmGetTime();
      var timeEnd := now + usecToWait;
      while now < timeEnd
        invariant Valid() && now == State().hw.now && Kept(s0, State(), waited, own)
        invariant s0.hw.now + waited <= now && waited <= usecToWait
        decreases timeEnd - now, |supply|, Due(State().hw)
      {
        ghost var s := State();
        SteadyFacts(s);
        HorizonFacts(s);
        KeptFacts(s0, s, waited, own);
        var woken;
        r, woken := WaitOnce(timeEnd);
        if r.Exited? {
          return;
        }
        WaitedOn(s0, s, State(), waited, woken - now, own);
        waited := waited + (woken - now);
        now := board.HwmGetTime();
      }
      KeptFacts(s0, State(), waited, own);
      r := Running;
    }

    // ----- main.c

    /** hwm_one_event as the event loop calls it: if the event wakes the CPU, the handler runs, and then a thread makes
        its calls and halts again, before the search for the next event. */
    method HwmOneEvent(thread: seq<Action>) returns (r: Outcome)
      requires Valid() && history.frames == []
      requires !State().hw.inEvent && BodyOk(thread, State().hw.cnt.period, horizon) && TurnOk(State(), thread)
      modifies this, board, board.irqPrio
      ensures r.Exited? ==> ExitOk(r.why)
      ensures r.Running? ==>
        var s, t := old(State()), Stepped(old(State()), Head);
        && Valid() && !State().hw.inEvent && t.hw.now == s.hw.nextTime <= s.hw.endOfTime
        && (if EventWakes(s.hw)
            then Kept(s, State(), t.hw.now - s.hw.now + HoldsOf(thread), multiset(thread)) && FirstServed(t, State())
            else Kept(s, State(), t.hw.now - s.hw.now, multiset{}))
    {
      hide B.Board.State, Good, Steady, Kept, HoldTime, Apply, IsWinner, FirstServed, Event, EventWakes, HoldsOf,
        BodyOk;
      ghost var s := State();
      SteadyFacts(s);
      GoodFacts(s, 0);
      NextIsKnown(s.hw);
      board.LatchedIsValid();
      var stop, woke := board.HwmOneEvent();
      if stop {
        return Exited(EndOfTime);
      }
      EventTurn(s);
      history := history.(log := history.log + [Head]);
      ghost var t := State();
      assert t == Stepped(s, Head);
      ghost var c := t.hw.now - s.hw.now;
      ghost var none: multiset<Action> := multiset{};
      if woke {
        KeptFacts(s, t, c, none);
        :- RunWoken(thread);
        KeptFacts(t, State(), HoldsOf(thread), multiset(thread));
        KeptTrans(s, t, State(), c, HoldsOf(thread), none, multiset(thread));
        assert none + multiset(thread) == multiset(thread);
        c := c + HoldsOf(thread);
      } else {
        MadeSteady(t);
      }
      ghost var v := State();
      SearchNext(s, c, if woke then multiset(thread) else none);
      if woke {
        FirstStays(t, v, State());
      }
      r := Running;
    }

    /** The search that ends an event in which software has run. */
    method SearchNext(ghost s: CpuState, ghost c: int, ghost own: multiset<Action>)
      requires Valid() && Kept(s, State(), c, own) && State().hw.inEvent && !s.hw.inEvent
      modifies this, board
      ensures Valid() && Kept(s, State(), c, own) && !State().hw.inEvent && State() == Stepped(old(State()), Tail)
    {
      hide B.Board.State, Good, Steady, Kept, HoldTime, Apply;
      ghost var v := State();
      TailStep(s, v, c, own);
      board.HwmOneEventTail();
      history := history.(log := history.log + [Tail]);
      assert State() == Stepped(v, Tail);
    }

    /** What a woken CPU does: the handler runs, and then a thread. */
    method RunWoken(thread: seq<Action>) returns (r: Outcome)
      requires Coherent() && BodyOk(thread, State().hw.cnt.period, horizon)
      requires State().hw.now + HoldsOf(thread) + HoldTime(supply) <= horizon
      modifies this, board, board.irqPrio
      ensures r.Exited? ==> ExitOk(r.why)
      ensures r.Running? ==>
        && Valid() && Kept(old(State()), State(), HoldsOf(thread), multiset(thread))
        && FirstServed(old(State()), State())
    {
      hide B.Board.State, Good, Steady, Kept, HoldTime, Apply, HoldsOf, BodyOk;
      ghost var t := State();
      ghost var none: multiset<Action> := multiset{};
      :- PosixIrqHandler();
      ghost var u := State();
      KeptFacts(t, u, 0, none);
      :- RunBody(thread);
      KeptFacts(u, State(), HoldsOf(thread), multiset(thread));
      FirstStays(t, u, State());
      KeptTrans(t, u, State(), 0, HoldsOf(thread), none, multiset(thread));
      assert none + multiset(thread) == multiset(thread);
      r := Running;
    }

    /** The event loop of main, for as many events as there are thread bodies, each made if its event wakes the
        CPU: over the whole run no interrupt is lost.  Whenever the loop stands between two events with
        interrupts unlocked and some pending, the next event comes at the present instant. */
    method MainLoop(thread: seq<seq<Action>>) returns (r: Outcome)
      requires Valid() && history.frames == [] && !State().hw.inEvent && LoopOk(State(), thread)
      requires forall body :: body in thread ==> BodyOk(body, State().hw.cnt.period, horizon)
      modifies this, board, board.irqPrio
      ensures r.Exited? ==> ExitOk(r.why)
      ensures r.Running? ==> Valid() && history.frames == [] && !State().hw.inEvent
      ensures r.Running? && !State().hw.irq.locked && State().hw.irq.status != {} ==>
        State().hw.nextTime == State().hw.now
      ensures r.Running? && old(State()).hw.tmr.tick != NEVER ==>
        State().hw.now + HoldTime(supply)
          <= old(State()).hw.now + HoldTime(old(supply)) + LoopTime(thread, old(State()).hw.tmr.period)
    {
      hide B.Board.State, Good, Steady, Kept, HoldTime, Apply, LoopOk, TurnOk, LoopTime, HoldsOf, BodyOk, Stepped;
      ghost var s0 := State();
      ghost var p := s0.hw.tmr.period;
      assert thread[0..] == thread;
      var i := 0;
      while i < |thread|
        invariant 0 <= i <= |thread|
        invariant Valid() && history.frames == [] && !State().hw.inEvent && LoopOk(State(), thread[i..])
        invariant State().hw.tmr.period == p && State().hw.cnt.period == s0.hw.cnt.period
        invariant s0.hw.tmr.tick != NEVER ==>
          && State().hw.tmr.tick != NEVER
          && State().hw.now + HoldTime(supply) + LoopTime(thread[i..], p)
               <= s0.hw.now + HoldTime(s0.supply) + LoopTime(thread, p)
      {
        ghost var s, rest := State(), thread[i..];
        assert rest[0] == thread[i] && rest[1..] == thread[i + 1..] && thread[i] in thread;
        LoopTurnOk(s, rest);
        :- HwmOneEvent(thread[i]);
        LoopTurn(s, State(), rest);
        i := i + 1;
      }
      assert thread[i..] == [];
      NextEventIsDue(State());
      r := Running;
    }
  }
}
