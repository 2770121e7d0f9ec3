/** What the invariant of the CPU means for interrupts, in every state software can be in. */
module Interrupts {
  import opened Sequences
  import opened IrqCtrl
  import opened HwModels
  import opened HwRuns
  import opened HwLedger
  import opened HwMasks
  import opened Nesting

  // ----- nesting

  lemma {:induction false} PrioBelow(frames: seq<Frame>, prio: int, irq: int, i: nat)
    requires Stacked(frames, prio, irq) && i < |frames|
    ensures frames[i].prio <= 255 - i
  {
    if i > 0 {
      PrioBelow(frames, prio, irq, i - 1);
    }
  }

  /** Nested routines have strictly decreasing priority numbers, so that at most 256 are ever nested. */
  lemma NestingDepth(s: CpuState, extra: nat)
    requires Good(s, extra)
    ensures forall i, j :: 0 <= i < j < |s.history.frames| ==> s.history.frames[j].prio < s.history.frames[i].prio
    ensures |s.history.frames| <= 256
  {
    if |s.history.frames| > 256 {
      PrioBelow(s.history.frames, s.hw.irq.cur, s.currentIrq, 256);
    }
  }

  function LinesOf(frames: seq<Frame>): set<nat> {
    if frames == [] then {} else LinesOf(Front(frames)) + {Last(frames).irq}
  }

  lemma {:induction false} LineAt(frames: seq<Frame>, l: nat) returns (i: nat)
    requires l in LinesOf(frames)
    ensures i < |frames| && frames[i].irq == l
  {
    if l == Last(frames).irq {
      i := |frames| - 1;
    } else {
      i := LineAt(Front(frames), l);
    }
  }

  lemma {:induction false} LinesOfDistinct(frames: seq<Frame>)
    requires forall i, j :: 0 <= i < j < |frames| ==> frames[i].irq != frames[j].irq
    ensures |LinesOf(frames)| == |frames|
  {
    if frames != [] {
      LinesOfDistinct(Front(frames));
      if Last(frames).irq in LinesOf(Front(frames)) {
        var i := LineAt(Front(frames), Last(frames).irq);
      }
    }
  }

  lemma {:induction false} RangeSize(lo: nat, hi: nat)
    requires lo <= hi
    ensures |Range(lo, hi)| == hi - lo
    decreases hi - lo
  {
    if lo < hi {
      RangeSize(lo + 1, hi);
      assert Range(lo, hi) == {lo} + Range(lo + 1, hi);
    }
  }

  lemma SubsetSize(a: set<nat>, b: set<nat>)
    requires a <= b
    ensures |a| <= |b|
  {
    assert b == a + (b - a);
  }

  lemma AtMostOneEach(frames: seq<Frame>, n: nat)
    requires forall i, j :: 0 <= i < j < |frames| ==> frames[i].irq != frames[j].irq
    requires forall i :: 0 <= i < |frames| ==> frames[i].irq < n
    ensures |frames| <= n
  {
    LinesOfDistinct(frames);
    RangeSize(0, n);
    forall l | l in LinesOf(frames) ensures l in Range(0, n) {
      var i := LineAt(frames, l);
    }
    SubsetSize(LinesOf(frames), Range(0, n));
  }

  lemma RunningLines(frames: seq<Frame>, c: Irq, irq: int)
    requires Stacked(frames, c.cur, irq) && PriosHeld(frames, c.prio)
    ensures forall i, j :: 0 <= i < j < |frames| ==> frames[i].irq != frames[j].irq
    ensures forall i :: 0 <= i < |frames| ==> frames[i].irq < N_IRQS && !IsWinner(c, frames[i].irq)
  {
  }

  lemma GoodStack(s: CpuState, extra: nat)
    requires Good(s, extra)
    ensures Stacked(s.history.frames, s.hw.irq.cur, s.currentIrq)
    ensures !s.history.prioChanged ==> PriosHeld(s.history.frames, s.hw.irq.prio)
  {
  }

  /** As long as no priority is changed while routines run, no routine is ever entered again before it is
      done, the line chosen next is not one of those running, and at most 32 routines are nested. */
  lemma NoReentry(s: CpuState, extra: nat)
    requires Good(s, extra) && !s.history.prioChanged
    ensures forall i, j :: 0 <= i < j < |s.history.frames| ==> s.history.frames[i].irq != s.history.frames[j].irq
    ensures forall i :: 0 <= i < |s.history.frames| ==> !IsWinner(s.hw.irq, s.history.frames[i].irq)
    ensures |s.history.frames| <= N_IRQS
  {
    hide Good, Stacked, PriosHeld, IsWinner;
    var frames := s.history.frames;
    GoodStack(s, extra);
    RunningLines(frames, s.hw.irq, s.currentIrq);
    AtMostOneEach(frames, N_IRQS);
  }

  // ----- no lost interrupt

  /** No interrupt is lost: in every state that software leaves with no routine running, interrupts unlocked and one
      pending, the hardware by itself wakes the CPU before any time goes by, and within five events. */
  lemma NoLostInterrupt(s: CpuState, events: seq<Op>)
    requires Steady(s) && s.history.frames == [] && !s.hw.irq.locked && s.hw.irq.status != {}
    requires IsRun(s.hw, events) && EventsOnly(events) && (events != [] ==> Asleep(s.hw, Front(events)))
    ensures Run(s.hw, events).now == s.hw.now && Heads(events) <= 5
    ensures Asleep(s.hw, events) && !Run(s.hw, events).inEvent ==> Run(s.hw, events).nextTime == s.hw.now
  {
    hide Recorded, WithinHorizon, Asleep, IsRun, Run, WakeComing;
    SteadyHw(s);
    WakeIsDue(s);
    WokenByEvents(s.hw, s.hw.now, events);
    RunInv(s.hw, events);
    EventsNeverRearm(s.hw, events);
    EventsPerInstant(s.hw, events);
    if Asleep(s.hw, events) && !Run(s.hw, events).inEvent {
      ComingIsNext(Run(s.hw, events), s.hw.now);
    }
  }

  lemma SteadyHw(s: CpuState)
    requires Steady(s)
    ensures Inv(s.hw) && PositivePeriods(s.hw) && s.hw.now < NEVER
  {
    hide HoldTime, Takings, SoftwareSteps, StepsOf;
  }

  lemma ComingIsNext(h: Hw, T: u64)
    requires Inv(h) && WakeComing(h, T) && h.now == T && !h.inEvent
    ensures h.nextTime == T
  {
  }

  // ----- disabled lines

  /** A disabled line is not served: between any two states of the CPU, the routine of a line that at first was neither
      able to interrupt nor enabled is not run unless a call enabled the line, however often it was raised. */
  lemma DisabledIsNotServed(s0: CpuState, s1: CpuState, extra0: nat, extra1: nat, l: nat)
    requires Good(s0, extra0) && Good(s1, extra1) && Follows(s0, s1) && l < N_IRQS
    requires l !in s0.hw.irq.status && l !in s0.hw.irq.mask
    requires forall k :: |s0.history.calls| <= k < |s1.history.calls| ==> s1.history.calls[k] != Enable(l)
    ensures l !in s1.hw.irq.status && l !in s1.hw.irq.mask
    ensures forall k :: |s0.history.served| <= k < |s1.history.served| ==> s1.history.served[k].irq != l
  {
    hide Inv, Takings, TakesPending, SoftwareSteps, StepsOf, IsRun, Run, StepOf;
    var h0, h1 := s0.history, s1.history;
    GoodRecorded(s0, extra0);
    GoodRecorded(s1, extra1);
    if EnableLine(l) in h1.log[|h0.log|..] {
      SoftwareSince(h0.log, h1.log, EnableLine(l));
      StepsGrow(h0.calls, h1.calls);
      var k := StepOfCall(h0.calls, h1.calls, EnableLine(l));
      EnableIs(h1.calls[k], l);
      assert false;
    }
    DisabledNotTaken(s0.boot, h0.log, h1.log, l);
    ServedLinesAre(h0.served);
    ServedLinesAre(h1.served);
    forall k | |h0.served| <= k < |h1.served| ensures h1.served[k].irq != l {
      assert ServedLines(h1.served)[k] in ServedLines(h1.served)[|h0.served|..];
    }
  }

  lemma EnableIs(a: Action, l: nat)
    requires StepOf(a) == [EnableLine(l)]
    ensures a == Enable(l)
  {
  }

  /** A call of software since `before` is among its steps since. */
  lemma {:induction false} SoftwareSince(before: seq<Op>, log: seq<Op>, op: Op)
    requires before <= log && op in log[|before|..] && SoftwareOp(op)
    ensures SoftwareSteps(before) <= SoftwareSteps(log) && op in SoftwareSteps(log)[|SoftwareSteps(before)|..]
  {
    SoftwareGrows(before, log);
    var front := Front(log);
    assert before <= front && log[|before|..] == front[|before|..] + [Last(log)];
    SoftwareGrows(before, front);
    var n := |SoftwareSteps(before)|;
    assert SoftwareSteps(log)[n..]
        == SoftwareSteps(front)[n..] + (if SoftwareOp(Last(log)) then [Last(log)] else []);
    if op in front[|before|..] {
      SoftwareSince(before, front, op);
    }
  }

  // ----- conservation

  lemma {:induction false} ServedAre(served: seq<Served>, l: nat)
    ensures Occurrences(ServedLines(served), l) == TimesServed(served, l)
  {
    if served != [] {
      ServedAre(Front(served), l);
      assert Front(ServedLines(served)) == ServedLines(Front(served));
    }
  }

  /** How often the routine of line l was run. */
  function TimesServed(served: seq<Served>, l: nat): nat {
    if served == [] then 0 else TimesServed(Front(served), l) + (if Last(served).irq == l then 1 else 0)
  }

  /** The only clearing steps are those of the calls Clear(l). */
  lemma {:induction false} ClearCalls(calls: seq<Action>, l: nat)
    ensures multiset(StepsOf(calls))[ClearLine(l, false)] == multiset(calls)[Clear(l)]
    ensures forall op :: op in StepsOf(calls) ==> !op.ClearEverything? && !op.ClearEnabled?
  {
    hide StepOf;
    if calls != [] {
      var front, last := Front(calls), Last(calls);
      ClearCalls(front, l);
      assert calls == front + [last];
      ClearCall(last, l);
      if StepOf(last) == [] {
        assert StepsOf(calls) == StepsOf(front);
      } else {
        assert StepsOf(calls) == StepsOf(front) + [StepOf(last)[0]];
      }
    }
  }

  lemma ClearCall(a: Action, l: nat)
    ensures StepOf(a) == [] || StepOf(a) == [StepOf(a)[0]]
    ensures a == Clear(l) <==> StepOf(a) == [ClearLine(l, false)]
    ensures StepOf(a) != [] ==> !StepOf(a)[0].ClearEverything? && !StepOf(a)[0].ClearEnabled?
  {
  }

  lemma {:induction false} NoOthersInLog(log: seq<Op>)
    requires forall op :: op in SoftwareSteps(log) ==> !op.ClearEverything? && !op.ClearEnabled?
    ensures forall op :: op in log ==> !op.ClearEverything? && !op.ClearEnabled?
  {
    if log != [] {
      var front := Front(log);
      assert forall op :: op in SoftwareSteps(front) ==> op in SoftwareSteps(log);
      NoOthersInLog(front);
      assert log == front + [Last(log)];
      if SoftwareOp(Last(log)) {
        assert SoftwareSteps(log)[|SoftwareSteps(front)|] == Last(log);
      }
    }
  }

  /** Every raise since boot is accounted for: merged with one still pending, served by a routine, cleared by one of the
      calls Clear(l), or pending now; a call to clear either cleared a pending request or found none. */
  lemma EveryRaiseAccountedFor(s: CpuState, extra: nat, l: nat)
    requires Good(s, extra) && l < N_IRQS
    ensures var b := Book(s.boot, s.history.log, l);
      && Pending(s.boot, l) + b.raised - b.coalesced
           == TimesServed(s.history.served, l) + b.cleared + Pending(s.hw, l)
      && b.cleared + IdleClears(s.boot, s.history.log, l) == multiset(s.history.calls)[Clear(l)]
  {
    hide Inv, Book, Takings, SoftwareSteps, StepsOf, ServedLines, IdleClears, Pending;
    GoodRecorded(s, extra);
    Conservation(s.boot, s.history.log, l);
    TakenCounted(s.boot, s.history.log, l);
    ServedAre(s.history.served, l);
    ClearCalls(s.history.calls, l);
    NoOthersInLog(s.history.log);
    ClearedCounted(s.boot, s.history.log, l);
  }

  // ----- events

  /** What the CPU does between two states is a run of the hardware, so that as long as its software does not
      ask for events at the present instant, at most six events happen for each microsecond that goes by, and
      five more. */
  lemma EventsBounded(s0: CpuState, s1: CpuState, extra0: nat, extra1: nat)
    requires Good(s0, extra0) && Good(s1, extra1) && Follows(s0, s1)
    requires NeverRearms(s0.hw, s1.history.log[|s0.history.log|..])
    ensures Heads(s1.history.log[|s0.history.log|..]) + Due(s1.hw) <= Due(s0.hw) + 6 * (s1.hw.now - s0.hw.now)
  {
    hide Inv, PositivePeriods, Due, NeverRearms, Heads, Run, IsRun, Takings, SoftwareSteps, StepsOf, ServedLines,
      HoldTime, SupplyOk, Stacked, PriosHeld, SwapsOk, SwapAsked, ServedOk;
    var before, more := s0.history.log, s1.history.log[|s0.history.log|..];
    assert s1.history.log == before + more;
    RunConcat(s0.boot, before, more);
    EventsOverTime(s0.hw, more);
  }
}
