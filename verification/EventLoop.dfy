/** posix_exec_for (main.c): the event loop, with software that may make any calls whenever an event wakes the CPU,
    and halts again before the search for the next event. */
module EventLoop {
  import opened Sequences
  import opened IrqCtrl
  import opened HwModels
  import opened HwRuns
  import B = Board

  // ----- software

  /** Periods are positive, and at most P for the tick and Q for the counter. */
  predicate Bounded(h: Hw, P: nat, Q: nat) {
    h.tmr.period <= P && (h.cnt.running ==> h.cnt.period <= Q) && PositivePeriods(h)
  }

  /** The tick or the counter is armed, and comes round within R. */
  predicate Repeats(h: Hw, R: nat) {
    || (h.tmr.tick != NEVER && h.tmr.period <= R)
    || (h.cnt.running && h.cnt.period <= R && h.cnt.timer <= h.now + R)
  }

  /** There always is a next event within R, or the process ends by time E. */
  predicate GoesOn(h: Hw, R: nat, E: int) {
    Repeats(h, R) || h.endOfTime <= E
  }

  function Later(a: int, b: int): int {
    if a < b then b else a
  }

  predicate CallsOnly(calls: seq<Op>) {
    forall op :: op in calls ==> !op.Head? && !op.Tail?
  }

  /** Calls software may make in state h: allowed where they are made, none asking for an event at the present
      instant, and periods within bounds and an event to come when it halts again. */
  predicate Acceptable(h: Hw, calls: seq<Op>, P: nat, Q: nat, R: nat, E: int) {
    && IsRun(h, calls) && CallsOnly(calls) && NeverRearms(h, calls)
    && Bounded(Run(h, calls), P, Q) && GoesOn(Run(h, calls), R, E)
  }

  /** Software is any function from the number of the event that woke it, and what it finds then, to the calls it
      makes before it halts again. */
  ghost predicate WellBehaved(software: (nat, Hw) -> seq<Op>, P: nat, Q: nat, R: nat, E: int, limit: int) {
    forall k: nat, h: Hw :: Inv(h) && h.inEvent && Bounded(h, P, Q) && GoesOn(h, R, E) && h.now <= limit ==>
      Acceptable(h, software(k, h), P, Q, R, E)
  }

  /** Software takes no time. */
  lemma {:induction false} CallsTakeNoTime(h: Hw, calls: seq<Op>)
    requires Inv(h) && IsRun(h, calls) && CallsOnly(calls)
    ensures Inv(Run(h, calls)) && Run(h, calls).now == h.now && Run(h, calls).inEvent == h.inEvent
    ensures Heads(calls) == 0
  {
    hide Inv, Allowed;
    if calls != [] {
      assert Last(calls) in calls && forall op :: op in Front(calls) ==> op in calls;
      CallsTakeNoTime(h, Front(calls));
      SoftwareStepInv(Run(h, Front(calls)), Last(calls));
      CallInEvent(Run(h, Front(calls)), Last(calls));
    }
  }

  lemma CallInEvent(h: Hw, op: Op)
    requires !op.Head? && !op.Tail?
    ensures Apply(h, op).inEvent == h.inEvent
  {
    hide RaisePrefix, Wakes;
  }

  // ----- one turn of the loop

  /** The next event, unless the process ends before, may happen: no sum of times wraps. */
  lemma HeadAllowed(h: Hw, P: nat, Q: nat, R: nat, E: int)
    requires Inv(h) && !h.inEvent && Bounded(h, P, Q) && GoesOn(h, R, E) && h.nextTime <= h.endOfTime
    requires Later(h.now + R, E) + P < NEVER && Later(h.now + R, E) + Q < NEVER
    ensures Allowed(h, Head) && h.now <= Event(h).now == h.nextTime <= Later(h.now + R, E)
    ensures Inv(Event(h)) && Event(h).inEvent && Bounded(Event(h), P, Q) && GoesOn(Event(h), R, E)
    ensures h.now < Event(h).now || Due(Event(h)) < Due(h)
  {
    hide Due, Event, Latched;
    EventSound(h);
    StepInv(h, Head);
    EventProgress(h);
    HeadSetup(h);
    if h.cnt.running && h.cnt.period <= R && h.cnt.timer <= h.now + R {
      CounterComesRound(h, R);
    }
  }

  /** An event leaves the counter due within its period. */
  lemma CounterComesRound(h: Hw, R: nat)
    requires Inv(h) && Allowed(h, Head) && h.cnt.running && h.cnt.period <= R && h.cnt.timer <= h.now + R
    ensures Event(h).cnt.timer <= Event(h).now + R
  {
    hide RaisePrefix, Wakes, Latched;
    EventSound(h);
  }

  /** The steps of one event: the event itself, what software does if it wakes the CPU, and the search. */
  function Turn(calls: seq<Op>): seq<Op> {
    [Head] + calls + [Tail]
  }

  lemma TurnRuns(h: Hw, calls: seq<Op>, P: nat, Q: nat, R: nat, E: int)
    requires Inv(h) && !h.inEvent && Bounded(h, P, Q) && GoesOn(h, R, E) && h.nextTime <= h.endOfTime
    requires Later(h.now + R, E) + P < NEVER && Later(h.now + R, E) + Q < NEVER
    requires Acceptable(Event(h), calls, P, Q, R, E)
    ensures var g := Run(Event(h), calls);
      && Run(h, Turn(calls)) == Apply(g, Tail) && IsRun(h, Turn(calls)) && NeverRearms(h, Turn(calls))
    ensures var g := Run(h, Turn(calls));
      && Inv(g) && !g.inEvent && Bounded(g, P, Q) && GoesOn(g, R, E) && h.now <= g.now <= Later(h.now + R, E)
      && (h.now < g.now || Due(g) < Due(h))
  {
    hide Inv, Bounded, GoesOn, Due, Event, Rearms, Allowed;
    HeadAllowed(h, P, Q, R, E);
    var g := Run(Event(h), calls);
    RunAppend(h, [], Head);
    OneHead(h);
    RunConcat(h, [Head], calls);
    RunAppend(h, [Head] + calls, Tail);
    FrontLast([Head] + calls, Tail);
    CallsTakeNoTime(Event(h), calls);
    BoundedPositive(Event(h), P, Q);
    EventsOverTime(Event(h), calls);
    TailAllowed(g);
    SoftwareStepInv(g, Tail);
    TailKeeps(g, P, Q, R, E);
  }

  lemma TailAllowed(g: Hw)
    requires g.inEvent
    ensures Allowed(g, Tail)
  {
  }

  lemma OneHead(h: Hw)
    requires Allowed(h, Head)
    ensures Run(h, [Head]) == Event(h) && IsRun(h, [Head]) && NeverRearms(h, [Head])
  {
    assert Front([Head]) == [];
  }

  lemma BoundedPositive(h: Hw, P: nat, Q: nat)
    requires Bounded(h, P, Q)
    ensures PositivePeriods(h)
  {
  }

  lemma TailKeeps(g: Hw, P: nat, Q: nat, R: nat, E: int)
    ensures !Rearms(g, Tail) && Due(Apply(g, Tail)) == Due(g) && Apply(g, Tail).now == g.now && !Apply(g, Tail).inEvent
    ensures Bounded(Apply(g, Tail), P, Q) == Bounded(g, P, Q) && GoesOn(Apply(g, Tail), R, E) == GoesOn(g, R, E)
  {
  }

  // ----- the loop

  /** No event of the run so far, but perhaps the last, reached `end`. */
  ghost predicate NotReached(h: Hw, ops: seq<Op>, end: int) {
    forall i :: 0 < i < |ops| && ops[i - 1].Tail? ==> Run(h, ops[..i]).now < end
  }

  /** The run ends with the first event at or after `end`. */
  ghost predicate FirstReaching(h: Hw, ops: seq<Op>, end: int) {
    Run(h, ops).now >= end && NotReached(h, ops, end)
  }

  lemma NotReachedNext(h: Hw, ops: seq<Op>, calls: seq<Op>, end: int)
    requires NotReached(h, ops, end) && CallsOnly(calls) && (ops != [] ==> Run(h, ops).now < end)
    ensures NotReached(h, ops + Turn(calls), end)
  {
    hide Run;
    var all, n := ops + Turn(calls), |ops|;
    NoTailWithin(calls);
    forall k | n <= k < |all| - 1 ensures !all[k].Tail? {
      assert all[k] == Turn(calls)[k - n];
    }
    forall i | 0 < i <= n && all[i - 1].Tail? ensures Run(h, all[..i]).now < end {
      assert all[i - 1] == ops[i - 1] && all[..i] == ops[..i] && ops[..n] == ops;
    }
  }

  lemma NoTailWithin(calls: seq<Op>)
    requires CallsOnly(calls)
    ensures forall k :: 0 <= k < |Turn(calls)| - 1 ==> !Turn(calls)[k].Tail?
  {
    forall k | 0 <= k < |Turn(calls)| - 1 ensures !Turn(calls)[k].Tail? {
      assert k > 0 ==> Turn(calls)[k] == calls[k - 1] && calls[k - 1] in calls;
    }
  }

  /** Software's calls, in order. */
  method Perform(board: B.Board, calls: seq<Op>)
    requires board.irqPrio.Length == N_IRQS && Inv(board.State()) && IsRun(board.State(), calls) && CallsOnly(calls)
    modifies board, board.irqPrio
    ensures board.State() == Run(old(board.State()), calls)
  {
    hide B.Board.State, Inv, Apply, Allowed, Latched, Run, IsRun;
    ghost var h := board.State();
    EmptyRun(h);
    for i := 0 to |calls|
      invariant board.State() == Run(h, calls[..i]) && Inv(board.State())
    {
      NextCall(h, calls, i);
      InvLatched(board.State());
      board.LatchedIsValid();
      StepInv(board.State(), calls[i]);
      board.Call(calls[i]);
    }
    assert calls[..|calls|] == calls;
  }

  lemma NextCall(h: Hw, calls: seq<Op>, i: nat)
    requires IsRun(h, calls) && i < |calls|
    ensures Allowed(Run(h, calls[..i]), calls[i])
    ensures Run(h, calls[..i + 1]) == Apply(Run(h, calls[..i]), calls[i])
  {
    hide Run, IsRun, Apply, Allowed;
    assert calls == calls[..i + 1] + calls[i + 1..] && calls[..i + 1] == calls[..i] + [calls[i]];
    RunConcat(h, calls[..i + 1], calls[i + 1..]);
    RunAppend(h, calls[..i], calls[i]);
  }

  /** posix_exec_for ends, whatever software does short of asking for events at the present instant: with the first
      event at or after start + us, which is at most R later while the tick or the counter comes round within R, or else
      by the end of time E; and after at most six events for each microsecond that went by, and five more.  `stopped`
      when the process ends before. */
  method PosixExecFor(board: B.Board, us: nat, software: (nat, Hw) -> seq<Op>,
                      ghost P: nat, ghost Q: nat, ghost R: nat, ghost E: int)
    returns (stopped: bool, ghost ops: seq<Op>)
    requires board.irqPrio.Length == N_IRQS && Inv(board.State()) && !board.State().inEvent
    requires Bounded(board.State(), P, Q) && GoesOn(board.State(), R, E)
    requires var limit := Later(board.State().now + us + R, E);
      limit + P < NEVER && limit + Q < NEVER && WellBehaved(software, P, Q, R, E, limit)
    modifies board, board.irqPrio
    ensures stopped ==> board.State().now > board.State().endOfTime
    ensures !stopped ==>
      var h := old(board.State());
      && IsRun(h, ops) && NeverRearms(h, ops) && board.State() == Run(h, ops)
      && Inv(board.State()) && !board.State().inEvent && Bounded(board.State(), P, Q) && GoesOn(board.State(), R, E)
    ensures !stopped ==>
      var h := old(board.State());
      && ops != [] && FirstReaching(h, ops, h.now + us) && board.State().now <= Later(h.now + us + R, E)
      && Heads(ops) <= Due(h) + 6 * (board.State().now - h.now)
  {
    hide B.Board.State, Inv, Apply, Allowed, Latched, Bounded, GoesOn, Due, Event, EventWakes, Sleep, Rearms, Run,
      IsRun, NeverRearms;
    ghost var h := board.State();
    ghost var limit := Later(h.now + us + R, E);
    var start := board.HwmGetTime();
    var now := start;
    var events := 0;
    stopped, ops := false, [];
    EmptyRun(h);
    while events == 0 || now < start + us
      invariant Inv(board.State()) && !board.State().inEvent
      invariant Bounded(board.State(), P, Q) && GoesOn(board.State(), R, E)
      invariant now == board.State().now && start <= now <= limit && (events == 0 ==> now == start)
      invariant IsRun(h, ops) && NeverRearms(h, ops) && board.State() == Run(h, ops)
      invariant NotReached(h, ops, start + us) && (ops == [] <==> events == 0)
      decreases events == 0, start + us - now, Due(board.State())
    {
      ghost var g := board.State();
      InvLatched(g);
      board.LatchedIsValid();
      SleepsUntilNext(g);
      var stop, woke := board.HwmOneEvent();
      if stop {
        stopped := true;
        return;
      }
      HeadAllowed(g, P, Q, R, E);
      var calls := [];
      HeadIs(g);
      NoCalls(Event(g), P, Q, R, E);
      if woke {
        calls := software(events, board.State());
        assert Acceptable(Event(g), calls, P, Q, R, E);
        Perform(board, calls);
      }
      TurnRuns(g, calls, P, Q, R, E);
      assert board.State() == Run(Event(g), calls);
      CallsTakeNoTime(Event(g), calls);
      board.HwmOneEventTail();
      assert board.State() == Run(g, Turn(calls));
      NotReachedNext(h, ops, calls, start + us);
      RunConcat(h, ops, Turn(calls));
      ops := ops + Turn(calls);
      events := events + 1;
      now := board.HwmGetTime();
    }
    BoundedPositive(h, P, Q);
    EventsOverTime(h, ops);
  }

  lemma EmptyRun(h: Hw)
    ensures Run(h, []) == h && IsRun(h, []) && NeverRearms(h, [])
  {
  }

  lemma NoCalls(h: Hw, P: nat, Q: nat, R: nat, E: int)
    requires Bounded(h, P, Q) && GoesOn(h, R, E)
    ensures Acceptable(h, [], P, Q, R, E) && Run(h, []) == h
  {
  }

  lemma HeadIs(g: Hw)
    ensures Apply(g, Head) == Event(g)
  {
  }

  /** The clock moves to the next event. */
  lemma SleepsUntilNext(g: Hw)
    requires Inv(g) && !g.inEvent
    ensures Sleep(g).now == g.nextTime && Sleep(g).endOfTime == g.endOfTime && g.nextIndex <= HW_COUNTER
  {
  }
}
