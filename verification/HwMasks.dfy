/** What becomes of a line's bits in the status and the mask over whole runs: only an enabled line interrupts. */
module HwMasks {
  import opened Sequences
  import opened IrqCtrl
  import opened HwModels
  import opened HwRuns
  import opened HwClocks
  import opened HwLedger

  // ----- the mask

  /** Line l is enabled after the run exactly if its last enabling or disabling call enabled it; with neither, if it was
      enabled before. */
  function LastSetting(ops: seq<Op>, l: nat, before: bool): bool {
    if ops == [] then before
    else if Last(ops) == EnableLine(l) then true
    else if Last(ops) == DisableLine(l) then false
    else LastSetting(Front(ops), l, before)
  }

  lemma MaskStep(h: Hw, op: Op, l: nat)
    requires Inv(h) && Allowed(h, op)
    ensures l in Apply(h, op).irq.mask <==> op == EnableLine(l) || (l in h.irq.mask && op != DisableLine(l))
  {
    if op.Head? {
      EventKeepsMask(h);
    }
  }

  lemma EventKeepsMask(h: Hw)
    ensures Event(h).irq.mask == h.irq.mask
  {
  }

  /** Nothing but the calls for a line changes whether it is enabled. */
  lemma {:induction false} MaskIsLastSetting(h: Hw, ops: seq<Op>, l: nat)
    requires Inv(h) && IsRun(h, ops)
    ensures l in Run(h, ops).irq.mask <==> LastSetting(ops, l, l in h.irq.mask)
  {
    hide Inv, Apply, Allowed;
    if ops != [] {
      MaskIsLastSetting(h, Front(ops), l);
      RunInv(h, Front(ops));
      MaskStep(Run(h, Front(ops)), Last(ops), l);
    }
  }

  // ----- the status

  /** The step makes line l able to interrupt: raised while it is enabled, or enabled while it is pending. */
  predicate EntersBy(h: Hw, op: Op, l: nat) {
    (Raises(h, op, l) && l in h.irq.mask) || (op == EnableLine(l) && l in h.irq.premask)
  }

  /** The step takes line l, or clears it. */
  predicate LeavesBy(op: Op, l: nat) {
    (op.ClearLine? && op.irq == l) || op.ClearEverything? || op.ClearEnabled?
  }

  lemma StatusStepExact(h: Hw, op: Op, l: nat)
    requires Inv(h) && Allowed(h, op) && l < N_IRQS
    ensures l in Apply(h, op).irq.status <==> EntersBy(h, op, l) || (l in h.irq.status && !LeavesBy(op, l))
  {
    if op.Head? {
      EventStatus(h, l);
    } else {
      hide Inv, Event, FindNext;
    }
  }

  lemma EventStatus(h: Hw, l: nat)
    requires Inv(h) && Allowed(h, Head) && l < N_IRQS
    ensures l in Event(h).irq.status <==> (Raises(h, Head, l) && l in h.irq.mask) || l in h.irq.status
  {
    if h.nextIndex == HWTIMER {
      TimerStatus(Sleep(h).(inEvent := true), l);
    }
  }

  predicate TickEnters(g: Hw, l: nat) {
    l == TIMER_TICK_IRQ && g.tmr.tick == g.now && Loud(g) && l in g.irq.mask
  }

  /** The awake timer raises no line, and the tick raises its line unless it is silent. */
  lemma TimerStatus(g: Hw, l: nat)
    requires Sound(g) && g.tmr.next == g.now && l < N_IRQS
    ensures l in TimerReached(g).irq.status <==> l in g.irq.status || TickEnters(g, l)
  {
    var b := if g.tmr.awake == g.now then AwakeReached(g) else g;
    assert b.tmr.tick == g.tmr.tick && b.tmr.silent == g.tmr.silent && b.irq.status == g.irq.status;
    assert b.irq.mask == g.irq.mask;
  }

  /** The line can interrupt exactly if, since it last could not, it was raised while enabled or enabled while
      pending, and it has been neither taken nor cleared since. */
  function CanInterrupt(h: Hw, ops: seq<Op>, l: nat): bool {
    if ops == [] then l in h.irq.status
    else
      var g, op := Run(h, Front(ops)), Last(ops);
      EntersBy(g, op, l) || (CanInterrupt(h, Front(ops), l) && !LeavesBy(op, l))
  }

  lemma {:induction false} StatusIsHistory(h: Hw, ops: seq<Op>, l: nat)
    requires Inv(h) && IsRun(h, ops) && l < N_IRQS
    ensures l in Run(h, ops).irq.status <==> CanInterrupt(h, ops, l)
  {
    hide Inv, Apply, Allowed, EntersBy, LeavesBy;
    if ops != [] {
      StatusIsHistory(h, Front(ops), l);
      RunInv(h, Front(ops));
      StatusStepExact(Run(h, Front(ops)), Last(ops), l);
    }
  }

  /** A line that has come to interrupt was, at some step (after the first n of the run), raised while it was enabled or
      enabled while it was pending. */
  lemma {:induction false} StatusOrigin(h: Hw, ops: seq<Op>, l: nat) returns (n: nat)
    requires Inv(h) && IsRun(h, ops) && l < N_IRQS && l !in h.irq.status && l in Run(h, ops).irq.status
    ensures n < |ops| && EntersBy(Run(h, ops[..n]), ops[n], l)
  {
    hide Inv, Apply, Allowed, EntersBy, LeavesBy;
    var front := Front(ops);
    RunInv(h, front);
    StatusStepExact(Run(h, front), Last(ops), l);
    if l in Run(h, front).irq.status {
      n := StatusOrigin(h, front, l);
      assert ops[..n] == front[..n];
    } else {
      n := |ops| - 1;
      assert ops[..n] == front;
    }
  }

  /** A disabled line never interrupts: one neither pending behind the mask nor enabled stays so until it is enabled,
      however often it is raised. */
  lemma {:induction false} DisabledStaysOut(h: Hw, ops: seq<Op>, l: nat)
    requires Inv(h) && IsRun(h, ops) && l < N_IRQS && l !in h.irq.status && l !in h.irq.mask
    requires EnableLine(l) !in ops
    ensures l !in Run(h, ops).irq.status && l !in Run(h, ops).irq.mask
  {
    hide Inv, Apply, Allowed;
    if ops != [] {
      var front := Front(ops);
      assert Last(ops) in ops && forall op :: op in front ==> op in ops;
      DisabledStaysOut(h, front, l);
      RunInv(h, front);
      StatusStepExact(Run(h, front), Last(ops), l);
      MaskStep(Run(h, front), Last(ops), l);
    }
  }

  /** After either call that clears many lines nothing can interrupt; the one for enabled lines leaves the others
      pending. */
  lemma ClearingSettles(h: Hw)
    requires Inv(h)
    ensures var g := Apply(h, ClearEverything); g.irq.status == {} && g.irq.premask == {}
    ensures var g := Apply(h, ClearEnabled);
      g.irq.status == {} && forall l :: l in g.irq.premask <==> l in h.irq.premask && l !in h.irq.mask
  {
  }

  // ----- lines taken were able to interrupt

  /** Every line taken was pending behind the mask. */
  predicate TakesPending(h: Hw, ops: seq<Op>) {
    ops == [] || (TakesPending(h, Front(ops)) && TakesOk(Run(h, Front(ops)), Last(ops)))
  }

  predicate TakesOk(h: Hw, op: Op) {
    op.ClearLine? && op.taken ==> op.irq in h.irq.status
  }

  lemma TakesAppend(h: Hw, ops: seq<Op>, op: Op)
    ensures TakesPending(h, ops + [op]) <==> TakesPending(h, ops) && TakesOk(Run(h, ops), op)
  {
    assert Front(ops + [op]) == ops;
  }

  /** As long as a disabled line is not enabled, it is not taken. */
  lemma {:induction false} DisabledNotTaken(h: Hw, before: seq<Op>, ops: seq<Op>, l: nat)
    requires Inv(h) && IsRun(h, ops) && TakesPending(h, ops) && before <= ops && l < N_IRQS
    requires l !in Run(h, before).irq.status && l !in Run(h, before).irq.mask
    requires EnableLine(l) !in ops[|before|..]
    ensures l !in Run(h, ops).irq.status && l !in Run(h, ops).irq.mask
    ensures Takings(h, before) <= Takings(h, ops) && l !in Takings(h, ops)[|Takings(h, before)|..]
  {
    hide Inv, Apply, Allowed, TakesOk, TakenBy;
    TakingsGrow(h, before, ops);
    if |before| < |ops| {
      var front, op, b := Front(ops), Last(ops), |Takings(h, before)|;
      assert ops == front + [op] && |before| <= |front|;
      assert ops[|before|..] == front[|before|..] + [op];
      DisabledNotTaken(h, before, front, l);
      RunInv(h, front);
      StaysOut(Run(h, front), op, l);
      assert Takings(h, ops)[b..] == Takings(h, front)[b..] + TakenBy(Run(h, front), op);
    } else {
      assert before == ops;
    }
  }

  lemma StaysOut(g: Hw, op: Op, l: nat)
    requires Inv(g) && Allowed(g, op) && TakesOk(g, op) && l < N_IRQS && op != EnableLine(l)
    requires l !in g.irq.status && l !in g.irq.mask
    ensures l !in Apply(g, op).irq.status && l !in Apply(g, op).irq.mask && l !in TakenBy(g, op)
  {
    hide Inv, Apply, Allowed;
    StatusStepExact(g, op, l);
    MaskStep(g, op, l);
  }

  // ----- from boot

  /** No line interrupts in any run from boot before it is enabled. */
  lemma BootLinesDisabled(endOfTime: u64, ops: seq<Op>, l: nat)
    requires IsRun(Boot(endOfTime), ops) && l < N_IRQS && EnableLine(l) !in ops
    ensures l !in Run(Boot(endOfTime), ops).irq.status && l !in Run(Boot(endOfTime), ops).irq.mask
  {
    BootInv(endOfTime);
    DisabledStaysOut(Boot(endOfTime), ops, l);
  }

  /** Every tick of a run from boot raises its interrupt, until silent ticks are asked for. */
  lemma BootTicksLoud(endOfTime: u64, ops: seq<Op>)
    requires IsRun(Boot(endOfTime), ops) && forall op :: op in ops ==> !op.Silence?
    ensures forall k :: 0 <= k < |TickIrqs(Boot(endOfTime), ops)| ==> TickIrqs(Boot(endOfTime), ops)[k]
  {
    BootInv(endOfTime);
    assert Apply(Boot(endOfTime), Silence(0)) == Boot(endOfTime);
    SilentTicks(Boot(endOfTime), 0, ops);
  }
}
