/** Conservation of interrupts: every raise of a line is accounted for. */
module HwLedger {
  import opened Sequences
  import opened IrqCtrl
  import opened HwModels
  import opened HwRuns
  import opened HwClocks

  /** What has happened to one line. */
  datatype Ledger = Ledger(raised: nat, coalesced: nat, taken: nat, cleared: nat)

  /** The step raises line l. */
  predicate Raises(h: Hw, op: Op, l: nat) {
    match op
    case Raise(irq) => irq == l
    case SetPending(irq) => irq == l
    case RaiseNow(irq) => irq == l
    case Head =>
      || (l == TIMER_TICK_IRQ && Ticks(h, op) && Loud(h))
      || (l == COUNTER_EVENT_IRQ && Counts(h, op) && Add64(h.cnt.value, 1) == h.cnt.target)
    case _ => false
  }

  /** The step takes a pending line l away because its routine is about to run. */
  predicate Takes(h: Hw, op: Op, l: nat) {
    op.ClearLine? && op.irq == l && op.taken && l in h.irq.premask
  }

  /** The step clears a pending line l for any other reason. */
  predicate Drops(h: Hw, op: Op, l: nat) {
    match op
    case ClearLine(irq, taken) => irq == l && !taken && l in h.irq.premask
    case ClearEverything => l in h.irq.premask
    case ClearEnabled => l in h.irq.premask && l in h.irq.mask
    case _ => false
  }

  /** The ledger of line l over a run. */
  function Book(h: Hw, ops: seq<Op>, l: nat): Ledger {
    if ops == [] then Ledger(0, 0, 0, 0)
    else
      var b := Book(h, Front(ops), l);
      var g := Run(h, Front(ops));
      var op := Last(ops);
      Ledger(
        b.raised + (if Raises(g, op, l) then 1 else 0),
        b.coalesced + (if Raises(g, op, l) && l in g.irq.premask then 1 else 0),
        b.taken + (if Takes(g, op, l) then 1 else 0),
        b.cleared + (if Drops(g, op, l) then 1 else 0))
  }

  function Pending(h: Hw, l: nat): nat {
    if l in h.irq.premask then 1 else 0
  }

  lemma PendingStep(h: Hw, op: Op, l: nat)
    requires Inv(h) && Allowed(h, op) && l < N_IRQS
    ensures Pending(Apply(h, op), l) ==
            if Raises(h, op, l) then 1 else if Takes(h, op, l) || Drops(h, op, l) then 0 else Pending(h, l)
  {
    if op.Head? {
      PendingEvent(h, l);
    } else {
      hide Inv, Event;
    }
  }

  lemma PendingEvent(h: Hw, l: nat)
    requires Inv(h) && Allowed(h, Head) && l < N_IRQS
    ensures Pending(Event(h), l) == if Raises(h, Head, l) then 1 else Pending(h, l)
  {
    if h.nextIndex == HWTIMER {
      TimerReachedTicks(Sleep(h).(inEvent := true));
    }
  }

  /** Conservation: for every line and every run, the raises that were not merged with one still pending
      equal the routines taken, plus the requests cleared, plus what is now pending; enabling a pending
      line adds nothing. */
  lemma {:induction false} Conservation(h: Hw, ops: seq<Op>, l: nat)
    requires Inv(h) && IsRun(h, ops) && l < N_IRQS
    ensures var b := Book(h, ops, l);
      Pending(h, l) + b.raised - b.coalesced == b.taken + b.cleared + Pending(Run(h, ops), l)
  {
    if ops != [] {
      Conservation(h, Front(ops), l);
      RunInv(h, Front(ops));
      PendingStep(Run(h, Front(ops)), Last(ops), l);
    }
  }

  // ----- the lines taken, in order

  /** The lines whose routines were about to run, in order. */
  function Takings(h: Hw, ops: seq<Op>): seq<nat> {
    if ops == [] then []
    else Takings(h, Front(ops)) + TakenBy(Run(h, Front(ops)), Last(ops))
  }

  function TakenBy(h: Hw, op: Op): seq<nat> {
    if op.ClearLine? && op.taken && op.irq in h.irq.premask then [op.irq] else []
  }

  lemma TakingsAppend(h: Hw, ops: seq<Op>, op: Op)
    ensures Takings(h, ops + [op]) == Takings(h, ops) + TakenBy(Run(h, ops), op)
  {
    assert Front(ops + [op]) == ops;
  }

  function Occurrences(s: seq<nat>, l: nat): nat {
    if s == [] then 0 else Occurrences(Front(s), l) + (if Last(s) == l then 1 else 0)
  }

  lemma {:induction false} TakenCounted(h: Hw, ops: seq<Op>, l: nat)
    ensures Book(h, ops, l).taken == Occurrences(Takings(h, ops), l)
  {
    if ops != [] {
      TakenCounted(h, Front(ops), l);
      var t := TakenBy(Run(h, Front(ops)), Last(ops));
      if t != [] {
        assert Front(Takings(h, Front(ops)) + t) == Takings(h, Front(ops));
      } else {
        assert Takings(h, Front(ops)) + t == Takings(h, Front(ops));
      }
    }
  }

  /** The lines taken since the run was `before`. */
  lemma {:induction false} TakingsGrow(h: Hw, before: seq<Op>, ops: seq<Op>)
    requires before <= ops
    ensures Takings(h, before) <= Takings(h, ops)
  {
    if |before| < |ops| {
      TakingsGrow(h, before, Front(ops));
    } else {
      assert before == ops;
    }
  }

  // ----- the calls of software, in order

  /** Steps that software asks for, and not the hardware, the handler or a wait. */
  predicate SoftwareOp(op: Op) {
    !op.Head? && !op.Tail? && !op.WakeAt? && !op.CurPrio? && !(op.ClearLine? && op.taken)
  }

  function SoftwareSteps(ops: seq<Op>): seq<Op> {
    if ops == [] then []
    else SoftwareSteps(Front(ops)) + (if SoftwareOp(Last(ops)) then [Last(ops)] else [])
  }

  lemma SoftwareAppend(ops: seq<Op>, op: Op)
    ensures SoftwareSteps(ops + [op]) == SoftwareSteps(ops) + (if SoftwareOp(op) then [op] else [])
  {
    assert Front(ops + [op]) == ops;
  }

  lemma {:induction false} SoftwareGrows(before: seq<Op>, ops: seq<Op>)
    requires before <= ops
    ensures SoftwareSteps(before) <= SoftwareSteps(ops)
  {
    if |before| < |ops| {
      SoftwareGrows(before, Front(ops));
    } else {
      assert before == ops;
    }
  }

  /** A call that takes line l off the pending lines. */
  predicate ClearsLine(op: Op, l: nat) {
    op == ClearLine(l, false) || op.ClearEverything? || op.ClearEnabled?
  }

  /** Nothing but a taking or a clearing call makes a pending line no longer pending. */
  lemma StatusStep(h: Hw, op: Op, l: nat)
    requires Inv(h) && Allowed(h, op) && l in h.irq.status
    ensures l in Apply(h, op).irq.status || TakenBy(h, op) == [l] || ClearsLine(op, l)
  {
    if op.Head? {
      EventKeepsStatus(h, l);
    }
  }

  lemma EventKeepsStatus(h: Hw, l: nat)
    requires l in h.irq.status
    ensures l in Event(h).irq.status
  {
  }

  /** A line pending then and not now was taken, or cleared by a call, since. */
  lemma {:induction false} TakenOrCleared(h: Hw, before: seq<Op>, ops: seq<Op>, l: nat)
    requires Inv(h) && IsRun(h, ops) && before <= ops
    requires l in Run(h, before).irq.status && l !in Run(h, ops).irq.status
    ensures Takings(h, before) <= Takings(h, ops) && SoftwareSteps(before) <= SoftwareSteps(ops)
    ensures l in Takings(h, ops)[|Takings(h, before)|..]
         || (exists op :: op in SoftwareSteps(ops)[|SoftwareSteps(before)|..] && ClearsLine(op, l))
  {
    hide Inv, Apply, Allowed;
    TakingsGrow(h, before, ops);
    SoftwareGrows(before, ops);
    assert before != ops;
    var front, op := Front(ops), Last(ops);
    assert before <= front;
    TakingsGrow(h, before, front);
    SoftwareGrows(before, front);
    var b, s := |Takings(h, before)|, |SoftwareSteps(before)|;
    assert Takings(h, ops)[b..] == Takings(h, front)[b..] + TakenBy(Run(h, front), op);
    assert SoftwareSteps(ops)[s..] == SoftwareSteps(front)[s..] + (if SoftwareOp(op) then [op] else []);
    if l in Run(h, front).irq.status {
      RunInv(h, front);
      StatusStep(Run(h, front), op, l);
      if TakenBy(Run(h, front), op) != [l] {
        assert op in SoftwareSteps(ops)[s..];
      }
    } else {
      TakenOrCleared(h, before, front, l);
    }
  }

  // ----- clearing calls that find nothing pending

  /** How many of the calls that clear line l found it not pending. */
  function IdleClears(h: Hw, ops: seq<Op>, l: nat): nat {
    if ops == [] then 0
    else
      IdleClears(h, Front(ops), l)
      + (if Last(ops) == ClearLine(l, false) && l !in Run(h, Front(ops)).irq.premask then 1 else 0)
  }

  /** With no call that clears many lines, each clearing call either cleared a pending request or none. */
  lemma {:induction false} ClearedCounted(h: Hw, ops: seq<Op>, l: nat)
    requires forall op :: op in ops ==> !op.ClearEverything? && !op.ClearEnabled?
    ensures Book(h, ops, l).cleared + IdleClears(h, ops, l) == multiset(SoftwareSteps(ops))[ClearLine(l, false)]
  {
    hide Apply, Run, Raises, Takes;
    if ops != [] {
      assert forall op :: op in Front(ops) ==> op in ops;
      ClearedCounted(h, Front(ops), l);
      assert Last(ops) in ops;
      if SoftwareOp(Last(ops)) {
        assert SoftwareSteps(ops) == SoftwareSteps(Front(ops)) + [Last(ops)];
      } else {
        assert SoftwareSteps(ops) == SoftwareSteps(Front(ops));
      }
    }
  }
}
