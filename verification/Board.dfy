/** The file-level variables of irq_ctrl.c, timer_model.c, hw_counter.c and hw_models_top.c, and the
    functions that update them in place.  Each method makes exactly the step HwModels names. */
module Board {
  import opened IrqCtrl
  import opened HwModels

  class Board {
    // irq_ctrl.c
    var irqCtrlTimer: u64
    var irqStatus: Word
    var irqPremask: Word
    var irqMask: Word
    var irqsLocked: bool
    var lockIgnore: bool
    const irqPrio: array<nat>
    var currentlyRunningPrio: int

    // timer_model.c
    var hwTimerTimer: u64
    var hwTimerTickTimer: u64
    var hwTimerAwakeTimer: u64
    var tickP: u64
    var silentTicks: int

    // hw_counter.c
    var hwCounterTimer: u64
    var counterRunning: bool
    var counterValue: u64
    var counterTarget: u64
    var counterPeriod: u64

    // hw_models_top.c
    var simuTime: u64
    var endOfTime: u64
    var nextTimerIndex: nat
    var nextTimerTime: u64
    var inEvent: bool   // where the event loop has got to

    function Controller(): Irq
      reads this, irqPrio
    {
      Irq(irqStatus, irqPremask, irqMask, irqsLocked, lockIgnore, irqPrio[..], currentlyRunningPrio, irqCtrlTimer)
    }

    function State(): Hw
      reads this, irqPrio
    {
      Hw(Controller(),
         Timer(hwTimerTimer, hwTimerTickTimer, hwTimerAwakeTimer, tickP, silentTicks),
         Counter(hwCounterTimer, counterRunning, counterValue, counterTarget, counterPeriod),
         simuTime, nextTimerTime, nextTimerIndex, inEvent, endOfTime)
    }

    /** The controller's tables have one entry a line, and no other line is ever enabled. */
    ghost predicate Valid()
      reads this, irqPrio
    {
      irqPrio.Length == N_IRQS && Lines(irqMask)
    }

    lemma LatchedIsValid()
      requires irqPrio.Length == N_IRQS && Latched(State().irq)
      ensures Valid()
    {
    }

    /** The static initial values, then hwm_init(). */
    constructor (endOfTime: u64)
      ensures Valid() && fresh(irqPrio) && State() == Boot(endOfTime)
    {
      irqStatus, irqPremask, irqMask, irqsLocked, lockIgnore := {}, {}, {}, false, false;
      currentlyRunningPrio, irqCtrlTimer := NO_PRIO, NEVER;
      irqPrio := new nat[N_IRQS](_ => 255);
      tickP, silentTicks, hwTimerTickTimer, hwTimerAwakeTimer := 0, 0, NEVER, NEVER;
      hwTimerTimer := NEVER;
      hwCounterTimer, counterTarget, counterValue, counterRunning, counterPeriod := NEVER, NEVER, 0, false, NEVER;
      simuTime, nextTimerTime, nextTimerIndex, inEvent := 0, 0, NONE, false;
      this.endOfTime := endOfTime;
      new;
      assert irqPrio[..] == seq(N_IRQS, _ => 255);
      HwtimerUpdateTimer();
      HwmFindNextTimer();
    }

    // ----- hw_models_top.c

    function TimerList(i: nat): u64
      reads this
    {
      if i == HWTIMER then hwTimerTimer else if i == IRQCNT then irqCtrlTimer else hwCounterTimer
    }

    method HwmFindNextTimer()
      modifies this`nextTimerIndex, this`nextTimerTime
      ensures State() == FindNext(old(State()))
    {
      nextTimerIndex := 0;
      nextTimerTime := TimerList(0);
      for i := 1 to 3
        invariant (nextTimerIndex, nextTimerTime) ==
          if i == 1 then (HWTIMER, hwTimerTimer)
          else if i == 2 then EarlierOf(HWTIMER, hwTimerTimer, IRQCNT, irqCtrlTimer)
          else
            var (j, t) := EarlierOf(HWTIMER, hwTimerTimer, IRQCNT, irqCtrlTimer);
            EarlierOf(j, t, HW_COUNTER, hwCounterTimer)
      {
        if nextTimerTime > TimerList(i) {
          nextTimerIndex := i;
          nextTimerTime := TimerList(i);
        }
      }
    }

    method HwmGetTime() returns (time: u64)
      ensures time == State().now
    {
      time := simuTime;
    }

    /** Whether the search that ends the last event is still to be made. */
    method EventUnfinished() returns (b: bool)
      ensures b == State().inEvent
    {
      b := inEvent;
    }

    /** Answers whether the simulation stops here. */
    method HwmSleepUntilNextTimer() returns (stop: bool)
      modifies this`simuTime
      ensures State() == Sleep(old(State()))
      ensures stop <==> simuTime > endOfTime
    {
      if nextTimerTime >= simuTime {
        simuTime := nextTimerTime;
      }
      stop := simuTime > endOfTime;
    }

    /** hwm_one_event up to the search for the next event; `woke` when the event wakes the CPU, which
        then runs until it halts again before that search is made.  `stop` when the process ends: past the
        end of time, or because the index of the next event is none of the three. */
    method HwmOneEvent() returns (stop: bool, woke: bool)
      requires Valid() && !State().inEvent
      modifies this
      ensures stop <==> Sleep(old(State())).now > old(State()).endOfTime || old(State()).nextIndex > HW_COUNTER
      ensures stop ==> State().now == Sleep(old(State())).now && State().endOfTime == old(State()).endOfTime
      ensures !stop ==> State() == Apply(old(State()), Head) && (woke <==> EventWakes(old(State())))
    {
      hide TimerReached, CounterTriggered, RaisedNow, Wakes, Lines;
      woke := false;
      stop := HwmSleepUntilNextTimer();
      if stop {
        return;
      }
      inEvent := true;
      if nextTimerIndex == HWTIMER {
        HwtimerTimerReached();
      } else if nextTimerIndex == IRQCNT {
        woke := HwIrqCtrlTimerTriggered();
      } else if nextTimerIndex == HW_COUNTER {
        HwCounterTriggered();
      } else {
        stop := true;
      }
    }

    /** The search that ends hwm_one_event. */
    method HwmOneEventTail()
      requires State().inEvent
      modifies this
      ensures State() == Apply(old(State()), Tail)
    {
      HwmFindNextTimer();
      inEvent := false;
    }

    // ----- timer_model.c

    method HwtimerUpdateTimer()
      modifies this`hwTimerTimer
      ensures State() == old(State()).(tmr := UpdateTimer(old(State()).tmr))
    {
      hwTimerTimer := if hwTimerTickTimer < hwTimerAwakeTimer then hwTimerTickTimer else hwTimerAwakeTimer;
    }

    method HwtimerEnable(period: u64)
      modifies this
      ensures State() == Apply(old(State()), Tick(period))
    {
      hide Apply;
      TimedCalls(State(), period);
      tickP := period;
      hwTimerTickTimer := Add64(simuTime, tickP);
      HwtimerUpdateTimer();
      HwmFindNextTimer();
    }

    method HwtimerTickTimerReached()
      requires Valid()
      modifies this
      ensures State() == TickReached(old(State()))
    {
      hwTimerTickTimer := Add64(hwTimerTickTimer, tickP);
      HwtimerUpdateTimer();
      if silentTicks > 0 {
        silentTicks := silentTicks - 1;
      } else {
        HwIrqCtrlSetIrq(TIMER_TICK_IRQ);
      }
    }

    method HwtimerAwakeTimerReached()
      requires Valid()
      modifies this
      ensures Valid() && State() == AwakeReached(old(State()))
    {
      hwTimerAwakeTimer := NEVER;
      HwtimerUpdateTimer();
      HwIrqCtrlSetIrq(PHONY_HARD_IRQ);
    }

    method HwtimerTimerReached()
      requires Valid()
      modifies this
      ensures State() == TimerReached(old(State()))
    {
      var now := hwTimerTimer;
      if hwTimerAwakeTimer == now {
        HwtimerAwakeTimerReached();
      }
      if hwTimerTickTimer == now {
        HwtimerTickTimerReached();
      }
    }

    method HwtimerWakeInTime(time: u64)
      modifies this
      ensures State() == Apply(old(State()), WakeAt(time))
    {
      if hwTimerAwakeTimer > time {
        hwTimerAwakeTimer := time;
        HwtimerUpdateTimer();
        HwmFindNextTimer();
      }
    }

    method HwtimerSetSilentTicks(n: int)
      modifies this
      ensures State() == Apply(old(State()), Silence(n))
    {
      silentTicks := n;
    }

    // ----- hw_counter.c

    method HwCounterTriggered()
      requires Valid()
      modifies this
      ensures State() == CounterTriggered(old(State()))
    {
      if !counterRunning {
        hwCounterTimer := NEVER;
        return;
      }
      hwCounterTimer := Add64(simuTime, counterPeriod);
      counterValue := Add64(counterValue, 1);
      if counterValue == counterTarget {
        HwIrqCtrlSetIrq(COUNTER_EVENT_IRQ);
      }
    }

    method HwCounterSetPeriod(period: u64)
      modifies this
      ensures State() == Apply(old(State()), CounterPeriod(period))
    {
      counterPeriod := period;
    }

    method HwCounterStart()
      modifies this
      ensures State() == Apply(old(State()), CounterStarts)
    {
      hide Apply;
      TimedCalls(State(), 0);
      if counterRunning {
        return;
      }
      counterRunning := true;
      hwCounterTimer := Add64(simuTime, counterPeriod);
      HwmFindNextTimer();
    }

    method HwCounterStop()
      modifies this
      ensures State() == Apply(old(State()), CounterStops)
    {
      hide Apply;
      TimedCalls(State(), 0);
      counterRunning := false;
      hwCounterTimer := NEVER;
      HwmFindNextTimer();
    }

    method HwCounterSetTarget(target: u64)
      modifies this
      ensures State() == Apply(old(State()), CounterTarget(target))
    {
      counterTarget := target;
    }

    // ----- irq_ctrl.c

    method HwIrqCtrlGetCurPrio() returns (prio: int)
      ensures prio == State().irq.cur
    {
      prio := currentlyRunningPrio;
    }

    method HwIrqCtrlGetPrio(irq: nat) returns (prio: nat)
      requires irq < irqPrio.Length
      ensures irq < |State().irq.prio| && prio == State().irq.prio[irq]
    {
      prio := irqPrio[irq];
    }

    method HwIrqCtrlGetCurrentLock() returns (locked: bool)
      ensures locked == State().irq.locked
    {
      locked := irqsLocked;
    }

    method HwIrqCtrlGetIrqStatus() returns (status: Word)
      ensures status == State().irq.status
    {
      status := irqStatus;
    }

    method HwIrqCtrlSetCurPrio(prio: int)
      modifies this`currentlyRunningPrio
      ensures State() == Apply(old(State()), CurPrio(prio))
    {
      currentlyRunningPrio := prio;
    }

    /** The first step of hw_irq_ctrl_change_lock. */
    method SetLock(newLock: bool) returns (previousLock: bool)
      modifies this`irqsLocked
      ensures State() == Apply(old(State()), Lock(newLock))
      ensures previousLock == old(State()).irq.locked
    {
      previousLock := irqsLocked;
      irqsLocked := newLock;
    }

    /** hw_irq_ctrl_enable_irq up to running the handler, for which it answers whether the line is pending. */
    method EnableLatch(irq: nat) returns (pending: bool)
      requires Valid() && irq < N_IRQS
      modifies this`irqMask, this`irqStatus, this`irqPremask, this`lockIgnore
      ensures Valid() && State() == Apply(old(State()), EnableLine(irq))
      ensures pending <==> irq in old(State()).irq.premask
    {
      assert irq in irqPremask <==> irq in irqPremask * One(irq);
      irqMask := irqMask + One(irq);
      pending := irqPremask * One(irq) != {};
      if pending {
        HwIrqCtrlIrqRaisePrefix(irq);
      }
    }

    /** The pending line of the highest priority that beats the running routine, or -1. */
    method HwIrqCtrlGetHighestPrioIrq() returns (winner: int)
      requires Valid() && Latched(State().irq)
      ensures IsWinner(State().irq, winner)
    {
      if irqsLocked {
        return -1;
      }
      ghost var c := Controller();
      ghost var seen: set<nat> := {};
      var status: Word := irqStatus;
      var winnerPrio: int := 256;
      winner := -1;
      while status != {}
        invariant Scan(c, seen, status, winner, winnerPrio)
        decreases |status|
      {
        var irqNbr := FindLsbSet(status) - 1;
        var prio := irqPrio[irqNbr];
        assert prio == c.prio[irqNbr] && currentlyRunningPrio == c.cur;
        ghost var rest, w, p := status, winner, winnerPrio;
        status := status - One(irqNbr);
        if winnerPrio > prio && currentlyRunningPrio > prio {
          winner := irqNbr;
          winnerPrio := prio;
        }
        ScanNext(c, seen, rest, w, p, irqNbr, winner, winnerPrio);
        seen := seen + {irqNbr};
      }
      ScanEnds(c, seen, winner, winnerPrio);
    }

    method HwIrqCtrlClearAllEnabledIrqs()
      modifies this
      ensures State() == Apply(old(State()), ClearEnabled)
    {
      irqStatus := {};
      irqPremask := irqPremask - irqMask;
    }

    method HwIrqCtrlClearAllIrqs()
      modifies this
      ensures State() == Apply(old(State()), ClearEverything)
    {
      irqStatus := {};
      irqPremask := {};
    }

    method HwIrqCtrlDisableIrq(irq: nat)
      requires irq < N_IRQS
      modifies this
      ensures State() == Apply(old(State()), DisableLine(irq))
    {
      irqMask := irqMask - One(irq);
    }

    method HwIrqCtrlClearIrq(irq: nat, ghost taken: bool)
      requires irq < N_IRQS
      modifies this
      ensures State() == Apply(old(State()), ClearLine(irq, taken))
    {
      irqStatus := irqStatus - One(irq);
      irqPremask := irqPremask - One(irq);
    }

    method HwIrqCtrlPrioSet(irq: nat, prio: nat)
      requires Valid() && irq < N_IRQS
      modifies irqPrio
      ensures State() == Apply(old(State()), Prio(irq, prio))
    {
      irqPrio[irq] := prio % 256;
    }

    method HwIrqCtrlIrqRaisePrefix(irq: nat)
      requires Valid()
      modifies this`irqStatus, this`irqPremask, this`lockIgnore
      ensures Valid() && State() == Apply(old(State()), Op.Raise(irq))
    {
      if irq < N_IRQS {
        irqPremask := irqPremask + One(irq);
        IntTestAgrees(irqMask, irq);
        if irqMask * IntOne(irq) != {} {
          irqStatus := irqStatus + One(irq);
        }
      } else if irq == PHONY_HARD_IRQ {
        lockIgnore := true;
      }
    }

    method HwIrqCtrlSetIrq(irq: nat)
      requires Valid()
      modifies this
      ensures Valid() && State() == Apply(old(State()), SetPending(irq))
    {
      HwIrqCtrlIrqRaisePrefix(irq);
      if !irqsLocked || lockIgnore {
        irqCtrlTimer := simuTime;
        HwmFindNextTimer();
      }
    }

    method IrqRaisingFromHwNow() returns (woke: bool)
      modifies this`lockIgnore
      ensures State() == old(State()).(irq := RaisedNow(old(Controller())))
      ensures woke <==> Wakes(old(Controller()))
    {
      woke := !irqsLocked || lockIgnore;
      if woke {
        lockIgnore := false;
      }
    }

    method HwIrqCtrlRaiseIm(irq: nat) returns (woke: bool)
      requires Valid()
      modifies this
      ensures State() == Apply(old(State()), RaiseNow(irq))
      ensures woke <==> Wakes(RaisePrefix(old(Controller()), irq))
    {
      HwIrqCtrlIrqRaisePrefix(irq);
      woke := IrqRaisingFromHwNow();
    }

    method HwIrqCtrlTimerTriggered() returns (woke: bool)
      modifies this
      ensures State() == old(State()).(irq := RaisedNow(old(Controller()).(timer := NEVER)))
      ensures woke <==> Wakes(old(Controller()))
    {
      irqCtrlTimer := NEVER;
      woke := IrqRaisingFromHwNow();
    }

    // ----- any of the calls software makes

    method Call(op: Op)
      requires Valid() && Allowed(State(), op) && !op.Head? && !op.Tail?
      modifies this, irqPrio
      ensures State() == Apply(old(State()), op)
    {
      hide FindNext, RaisePrefix, Wakes, UpdateTimer, Enable;
      match op {
        case Raise(irq) => HwIrqCtrlIrqRaisePrefix(irq);
        case SetPending(irq) => HwIrqCtrlSetIrq(irq);
        case RaiseNow(irq) => var _ := HwIrqCtrlRaiseIm(irq);
        case EnableLine(irq) => var _ := EnableLatch(irq);
        case DisableLine(irq) => HwIrqCtrlDisableIrq(irq);
        case ClearLine(irq, taken) => HwIrqCtrlClearIrq(irq, taken);
        case ClearEverything => HwIrqCtrlClearAllIrqs();
        case ClearEnabled => HwIrqCtrlClearAllEnabledIrqs();
        case Lock(on) => var _ := SetLock(on);
        case Prio(irq, prio) => HwIrqCtrlPrioSet(irq, prio);
        case CurPrio(cur) => HwIrqCtrlSetCurPrio(cur);
        case Tick(period) => HwtimerEnable(period);
        case Silence(n) => HwtimerSetSilentTicks(n);
        case WakeAt(time) => HwtimerWakeInTime(time);
        case CounterStarts => HwCounterStart();
        case CounterStops => HwCounterStop();
        case CounterPeriod(per) => HwCounterSetPeriod(per);
        case CounterTarget(target) => HwCounterSetTarget(target);
      }
    }
  }
}
