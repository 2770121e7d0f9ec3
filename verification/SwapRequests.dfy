/** Requests for a thread swap that are lost because `*may_swap |= f()` may read *may_swap before it calls f
    (irq_handler.c): when that happens, and in which configurations it can. */
module SwapRequests {
  import opened Sequences
  import opened IrqCtrl
  import opened HwModels
  import opened HwRuns
  import opened Nesting

  // ----- when requests are lost

  /** Routine j is direct, and ran around routine i. */
  predicate Around(requests: seq<Request>, i: nat, j: nat) {
    i < j < |requests| && requests[j].direct && requests[j].start <= i
  }

  predicate Asked(requests: seq<Request>) {
    exists i :: 0 <= i < |requests| && requests[i].ask
  }

  /** Around every routine that asked a direct one ran. */
  ghost predicate AllUndone(requests: seq<Request>) {
    forall i :: 0 <= i < |requests| && requests[i].ask ==> exists j :: Around(requests, i, j)
  }

  /** When requests for a swap are lost: exactly if the compiler reads *may_swap before it calls a direct
      routine, and around every routine that asked a direct one ran, which wrote back what it had read. */
  lemma RequestsLostIff(s: CpuState, extra: nat)
    requires Good(s, extra) && s.nested > 0 && Asked(s.history.requests)
    ensures !s.maySwap <==> s.readsFirst && AllUndone(s.history.requests)
  {
    hide Recorded, Stacked, PriosHeld, SwapsOk, ServedOk, WithinHorizon, HoldTime, SupplyOk;
    var requests := s.history.requests;
    forall i: nat | i < |requests| ensures Survives(requests, i) <==> !exists j :: Around(requests, i, j) {
      if !Survives(requests, i) {
        var j :| i < j < |requests| && requests[j].direct && !(i < requests[j].start);
        assert Around(requests, i, j);
      }
    }
  }

  /** A routine that asked and was not nested in a direct one is heard in either order. */
  lemma NotNestedIsHeard(s: CpuState, extra: nat, i: nat)
    requires Good(s, extra) && s.nested > 0 && i < |s.history.requests| && s.history.requests[i].ask
    requires forall j :: 0 <= j < |s.history.requests| ==> !Around(s.history.requests, i, j)
    ensures s.maySwap
  {
    assert Asked(s.history.requests);
    RequestsLostIff(s, extra);
  }

  // ----- in which configurations they can be

  /** Some direct routine can be interrupted by another routine. */
  ghost predicate CanNest(table: seq<Vector>, prio: seq<nat>) {
    exists a: nat, b: nat :: Interruptible(table, prio, a, b)
  }

  /** The routine of line a is direct, and that of line b can interrupt it. */
  predicate Interruptible(table: seq<Vector>, prio: seq<nat>, a: nat, b: nat) {
    && a < |table| == |prio| && b < |table|
    && table[a] == Direct && table[b] != Unset && prio[b] < prio[a]
  }

  /** As long as no priority is changed while routines run, no request is lost unless the compiler reads first
      and a direct routine can be interrupted. */
  lemma LossNeedsNesting(s: CpuState, extra: nat)
    requires Good(s, extra) && s.nested > 0 && !s.history.prioChanged && Asked(s.history.requests) && !s.maySwap
    ensures s.readsFirst && CanNest(s.table, s.hw.irq.prio)
  {
    hide Recorded, Stacked, PriosHeld, SwapsOk, ServedOk, WithinHorizon, HoldTime, SupplyOk, SwapAsked;
    var requests := s.history.requests;
    RequestsLostIff(s, extra);
    GoodFacts(s, extra);
    var i: nat :| i < |requests| && requests[i].ask;
    var j: nat :| Around(requests, i, j);
    assert Interruptible(s.table, s.hw.irq.prio, requests[j].irq, requests[i].irq);
  }

  // ----- a run in which one is lost

  /** The handler, called in state s, has served line irq and nothing else, whose routine left state t. */
  function Handled(s: CpuState, irq: nat, t: CpuState, direct: bool, answer: bool): CpuState
    requires irq < |s.hw.irq.prio| && t.nested > 0
  {
    var h := HandlerEntered(s);
    HandlerLeft(Left(h, Requested(Entered(h, irq), t, direct, answer)))
  }

  /** The handler has nothing more to choose. */
  lemma HandledDrained(s: CpuState, irq: nat, t: CpuState, direct: bool, answer: bool)
    requires Good(s, 0) && IsWinner(s.hw.irq, irq) && irq < N_IRQS == |s.hw.irq.prio| && RoutineOf(s.table, irq, direct)
    requires Steady(t) && RoutineMade(Entered(HandlerEntered(s), irq), t) && t.hw.irq.status == {}
    ensures var h := HandlerEntered(s); var u := Requested(Entered(h, irq), t, direct, answer);
      Good(u, 0) && Serving(s, Left(h, u), -1, irq)
  {
    hide Good, Steady, Kept, Resumed, RequestsKept, RoutineMade, IsWinner, RoutineRan, Serving, Calm, Apply;
    var h := HandlerEntered(s);
    var e := Entered(h, irq);
    var u := Requested(e, t, direct, answer);
    HandlerEntry(s);
    EnterStep(h, irq);
    RoutineOver(e, t, direct, answer);
    LeaveStep(h, irq, u);
    LeftStatus(h, u);
    NothingPending(Left(h, u).hw.irq);
    ServingStarts(s, h, irq);
    ServingGoesOn(s, h, Left(h, u), irq, -1, irq);
  }

  lemma LeftStatus(s: CpuState, t: CpuState)
    ensures Left(s, t).hw.irq.status == t.hw.irq.status
  {
  }

  /** That state is what the handler promises. */
  lemma HandledIsPromised(s: CpuState, irq: nat, t: CpuState, direct: bool, answer: bool)
    requires Good(s, 0) && IsWinner(s.hw.irq, irq) && irq < N_IRQS == |s.hw.irq.prio| && RoutineOf(s.table, irq, direct)
    requires Steady(t) && RoutineMade(Entered(HandlerEntered(s), irq), t) && t.hw.irq.status == {} && t.nested > 0
    ensures Good(Requested(Entered(HandlerEntered(s), irq), t, direct, answer), 0)
    ensures var v := Handled(s, irq, t, direct, answer);
      && Steady(v) && Kept(s, v, 0, multiset{}) && Drained(v.hw.irq) && SwapDecided(s, v)
      && FirstServed(s, v) && Dispatched(s, v)
  {
    hide Good, Steady, Kept, RoutineMade, IsWinner, SwapDecided, FirstServed, Dispatched, Serving, Calm, Drained,
      HandlerLeft, Requested, Entered;
    var h := HandlerEntered(s);
    var left := Left(h, Requested(Entered(h, irq), t, direct, answer));
    HandledDrained(s, irq, t, direct, answer);
    ServingFacts(s, left, -1, irq);
    WinnerUnlocked(s.hw.irq, irq);
    ServingEnds(s, left, irq);
  }

  lemma WinnerUnlocked(c: Irq, w: nat)
    requires IsWinner(c, w)
    ensures !c.locked
  {
  }

  /** A thread is interrupted by line a, whose direct routine raises line b and asks for nothing; b's routine
      interrupts it and asks for a swap, unless it is direct and answers otherwise.  After it no execution is
      left. */
  predicate Set(s: CpuState, a: nat, b: nat) {
    && s.history.frames == [] && !s.hw.irq.locked && s.hw.irq.status == {a} && s.otherReady
    && Interruptible(s.table, s.hw.irq.prio, a, b) && a < N_IRQS && b < N_IRQS && b in s.hw.irq.mask
    && s.supply == [Isr([Action.Raise(b)], false), Isr([], true)]
  }

  /** A routine that makes no calls. */
  lemma NoCallsMade(e: CpuState)
    requires Steady(e) && e.supply != [] && e.supply[0].body == []
    ensures Steady(e.(supply := e.supply[1..])) && RoutineMade(e, e.(supply := e.supply[1..]))
  {
    hide Steady, Kept;
    SupplyStep(e);
    KeptRefl(e.(supply := e.supply[1..]));
    assert multiset(e.supply[0].body) == multiset{};
  }

  /** Only line w is pending, and it can interrupt. */
  lemma OnlyWinner(c: Irq, w: nat)
    requires !c.locked && c.status == {w} && w < |c.prio| && c.prio[w] < c.cur
    ensures IsWinner(c, w)
  {
    assert Beats(c, w);
  }

  /** Nothing but the hardware's progress and the routines run sets t apart from s. */
  predicate SameSetting(s: CpuState, t: CpuState) {
    && t.boot == s.boot && t.table == s.table && t.readsFirst == s.readsFirst && t.otherReady == s.otherReady
    && t.hw.irq.prio == s.hw.irq.prio && t.history.prioChanged == s.history.prioChanged
    && t.nested == s.nested && t.history.swaps == s.history.swaps
  }

  /** The inner routine: b interrupts what runs, asks for a swap, and everything is as before. */
  lemma InnerHandled(s: CpuState, b: nat, direct: bool) returns (v: CpuState)
    requires Good(s, 0) && !s.hw.irq.locked && s.hw.irq.status == {b} && b < N_IRQS == |s.hw.irq.prio|
    requires s.hw.irq.prio[b] < s.hw.irq.cur && RoutineOf(s.table, b, direct)
    requires s.nested > 0 && s.supply == [Isr([], true)] && s.hw.irq.cur < NO_PRIO
    ensures Steady(v) && Kept(s, v, 0, multiset{}) && v.hw.irq.status == {} && SameSetting(s, v)
    ensures v.history.requests
         == s.history.requests + [Request(true, direct, |s.history.requests|, b, s.hw.irq.prio[b])]
    ensures v.maySwap && v.history.calls == s.history.calls && v.supply == []
    ensures v.history.served == s.history.served + [Served(b, s.hw)]
  {
    hide Good, Steady, Kept, RoutineMade, IsWinner, SwapDecided, FirstServed, Dispatched, Drained;
    var e := Entered(HandlerEntered(s), b);
    OnlyWinner(s.hw.irq, b);
    GoodFacts(s, 0);
    HandlerEntry(s);
    EnterStep(HandlerEntered(s), b);
    NoCallsMade(e);
    assert e.supply[1..] == [];
    var t := e.(supply := []);
    HandledIsPromised(s, b, t, direct, true);
    v := Handled(s, b, t, direct, true);
  }

  /** The outer routine, up to the end of its call. */
  lemma OuterMade(e: CpuState, b: nat, direct: bool) returns (t: CpuState)
    requires Steady(e) && !e.hw.irq.locked && e.hw.irq.status == {} && b < N_IRQS == |e.hw.irq.prio|
    requires e.hw.irq.prio[b] < e.hw.irq.cur && RoutineOf(e.table, b, direct) && b in e.hw.irq.mask
    requires e.nested > 0 && e.hw.irq.cur < NO_PRIO
    requires e.supply == [Isr([Action.Raise(b)], false), Isr([], true)]
    ensures Steady(t) && RoutineMade(e, t) && t.hw.irq.status == {} && SameSetting(e, t)
    ensures t.history.requests
         == e.history.requests + [Request(true, direct, |e.history.requests|, b, e.hw.irq.prio[b])]
    ensures t.maySwap && t.history.calls == e.history.calls + [Action.Raise(b)]
    ensures t.history.served != [] && Front(t.history.served) == e.history.served && Last(t.history.served).irq == b
  {
    hide Good, Steady, Kept;
    var body := [Action.Raise(b)];
    var s := e.(supply := e.supply[1..]);
    SupplyStep(e);
    SteadyFacts(s);
    CallStep(s, Action.Raise(b), 0);
    var c := CallMade(s, Action.Raise(b));
    t := InnerHandled(c, b, direct);
    KeptThen(s, c, t, 0, 0, multiset{Action.Raise(b)});
    assert multiset(body) == multiset{Action.Raise(b)} && HoldsOf(body) == 0;
    assert Front(body) == [] && Performed([], e.history.calls, e.history.calls);
    assert e.history.calls + [Last(body)] <= t.history.calls;
  }

  lemma PrioBounds(s: CpuState, a: nat)
    requires Good(s, 0) && a < N_IRQS
    ensures |s.hw.irq.prio| == N_IRQS && s.hw.irq.prio[a] < NO_PRIO
  {
    GoodFacts(s, 0);
  }

  lemma ServedTwo(before: seq<Served>, first: Served, after: seq<Served>, b: nat)
    requires after != [] && Front(after) == before + [first] && Last(after).irq == b
    ensures ServedLines(after) == ServedLines(before) + [first.irq, b]
  {
    var a := first.irq;
    FrontLast(before, first);
    assert ServedLines(after) == ServedLines(before) + [a] + [b];
  }

  /** A lost request, in a run of the CPU.  From any such state the handler serves the direct routine of line a,
      which the routine of line b interrupts.  With the routine of a just over (t), b's request is still there
      if the call is made first, and lost if *may_swap is read first; and so, when the handler returns (v),
      another thread is swapped in or is not. */
  lemma RequestIsLost(s: CpuState, a: nat, b: nat) returns (t: CpuState, v: CpuState)
    requires Steady(s) && Set(s, a, b)
    ensures Good(t, 0) && t.nested > 0 && Asked(t.history.requests) && t.maySwap == !s.readsFirst
    ensures t.boot == s.boot && t.table == s.table && t.hw.irq.prio == s.hw.irq.prio && t.readsFirst == s.readsFirst
    ensures !t.history.prioChanged
    ensures Steady(v) && Kept(s, v, 0, multiset{}) && Drained(v.hw.irq) && SwapDecided(s, v)
    ensures FirstServed(s, v) && Dispatched(s, v)
    ensures v.history.calls == s.history.calls + [Action.Raise(b)]
    ensures ServedLines(v.history.served) == ServedLines(s.history.served) + [a, b]
    ensures v.otherReady && Asked(v.history.requests)
    ensures v.history.swaps == s.history.swaps + if s.readsFirst then [] else [Swap(0, v.history.requests)]
  {
    hide Good, Steady, Kept, RoutineMade, IsWinner, SwapDecided, FirstServed, Dispatched, Drained;
    SteadyFacts(s);
    GoodFacts(s, 0);
    AtThreadLevel(s);
    PrioBounds(s, a);
    OnlyWinner(s.hw.irq, a);
    var h := HandlerEntered(s);
    HandlerEntry(s);
    EnterStep(h, a);
    var e := Entered(h, a);
    var u := OuterMade(e, b, s.table[b] == Direct);
    HandledIsPromised(s, a, u, true, false);
    t := Requested(e, u, true, false);
    v := Handled(s, a, u, true, false);
    assert t.history.requests[0].ask;
    ServedTwo(s.history.served, Served(a, s.hw), v.history.served, b);
  }

  // ----- that run from boot

  /** The calls that give the first n lines their priorities. */
  function SetPrios(prio: seq<nat>, n: nat): seq<Action>
    requires n <= |prio|
  {
    if n == 0 then [] else SetPrios(prio, n - 1) + [SetPrio(n - 1, prio[n - 1])]
  }

  /** The first n lines have their priorities, and nothing else has changed. */
  predicate PriosDone(s: CpuState, t: CpuState, prio: seq<nat>, n: nat) {
    && n <= |prio| == |s.hw.irq.prio|
    && t.hw == s.hw.(irq := s.hw.irq.(prio := prio[..n] + s.hw.irq.prio[n..]))
    && t == s.(hw := t.hw, history := s.history.(log := t.history.log, calls := s.history.calls + SetPrios(prio, n)))
  }

  lemma {:induction false} PriosSet(s: CpuState, prio: seq<nat>, n: nat) returns (t: CpuState)
    requires Steady(s) && s.history.frames == [] && n <= |prio| == |s.hw.irq.prio| == N_IRQS
    requires forall i :: 0 <= i < |prio| ==> prio[i] < 256
    ensures Steady(t) && PriosDone(s, t, prio, n)
  {
    hide Good, Steady, Kept, Apply;
    if n == 0 {
      t := s;
      assert prio[..0] + s.hw.irq.prio[0..] == s.hw.irq.prio;
      assert s.history.calls + [] == s.history.calls;
    } else {
      var u := PriosSet(s, prio, n - 1);
      PrioStep(u, n - 1, prio[n - 1]);
      PrioIs(u.hw, n - 1, prio[n - 1]);
      t := PrioSet(u, n - 1, prio[n - 1]);
      NextPrio(prio, s.hw.irq.prio, n);
      assert s.history.calls + SetPrios(prio, n - 1) + [SetPrio(n - 1, prio[n - 1])]
          == s.history.calls + SetPrios(prio, n);
    }
  }

  lemma PrioIs(h: Hw, irq: nat, p: nat)
    requires irq < |h.irq.prio| && p < 256
    ensures Apply(h, Prio(irq, p)) == h.(irq := h.irq.(prio := h.irq.prio[irq := p]))
  {
  }

  lemma NextPrio(prio: seq<nat>, before: seq<nat>, n: nat)
    requires 0 < n <= |prio| == |before|
    ensures (prio[..n - 1] + before[n - 1..])[n - 1 := prio[n - 1]] == prio[..n] + before[n..]
  {
  }

  /** The state after boot, with the set-up of the run: nothing is pending yet. */
  function AfterBoot(table: seq<Vector>, readsFirst: bool, b: nat): CpuState {
    var boot := Boot(NEVER);
    var history :=
      History([] + [CounterPeriod(NEVER)], [] + [ConfigureCounter(NEVER)], [], [], [], [], false);
    CpuState(Apply(boot, CounterPeriod(NEVER)), boot, table, -1, 0, false, readsFirst, false,
             [Isr([Action.Raise(b)], false), Isr([], true)], history, 0)
  }

  lemma BootIsSteady(table: seq<Vector>, readsFirst: bool, b: nat)
    requires |table| == N_IRQS
    ensures var s := AfterBoot(table, readsFirst, b);
      && Steady(s) && s.hw.irq == Irq({}, {}, {}, false, false, seq(N_IRQS, _ => 255), NO_PRIO, NEVER)
      && s.history.frames == []
  {
    hide Steady, Boot, Apply;
    var s := AfterBoot(table, readsFirst, b);
    SupplyHolds(b);
    BootIrq();
    Booted(s, NEVER, NEVER);
  }

  lemma SupplyHolds(b: nat)
    ensures HoldTime([Isr([Action.Raise(b)], false), Isr([], true)]) == 0
  {
    var supply := [Isr([Action.Raise(b)], false), Isr([], true)];
    assert supply[1..] == [Isr([], true)] && HoldTime([Isr([], true)]) == 0;
    assert HoldsOf([Action.Raise(b)]) == 0;
  }

  lemma BootIrq()
    ensures Apply(Boot(NEVER), CounterPeriod(NEVER)).irq
         == Irq({}, {}, {}, false, false, seq(N_IRQS, _ => 255), NO_PRIO, NEVER)
  {
  }

  /** A line is enabled that is not pending. */
  lemma Enabled(s: CpuState, l: nat)
    requires Steady(s) && l < N_IRQS && l !in s.hw.irq.premask
    ensures Steady(CallMade(s, Enable(l)))
    ensures CallMade(s, Enable(l)).hw == s.hw.(irq := s.hw.irq.(mask := s.hw.irq.mask + {l}))
  {
    hide Good, Kept, NothingLost;
    EnableAllowed(s.hw, l);
    CallStep(s, Enable(l), 0);
    EnableUnpending(s, l);
  }

  /** An enabled line is raised. */
  lemma Pended(s: CpuState, l: nat)
    requires Steady(s) && l < N_IRQS && l in s.hw.irq.mask && !s.hw.irq.locked
    ensures Steady(CallMade(s, Action.SetPending(l)))
    ensures CallMade(s, Action.SetPending(l)).hw.irq
         == s.hw.irq.(premask := s.hw.irq.premask + {l}, status := s.hw.irq.status + {l}, timer := s.hw.now)
  {
    hide Good, NothingLost, Kept;
    SteadyFacts(s);
    QuietCall(s, Action.SetPending(l));
    QuietStep(s, Action.SetPending(l));
  }

  /** Both lines are enabled, another thread becomes ready, and line a is raised. */
  lemma RaisedOnce(s: CpuState, a: nat, b: nat) returns (t: CpuState)
    requires Steady(s) && a < N_IRQS && b < N_IRQS && s.hw.irq.premask == {} && !s.hw.irq.locked
    ensures Steady(t) && t.hw.irq.status == s.hw.irq.status + {a} && t.hw.irq.prio == s.hw.irq.prio
    ensures !t.hw.irq.locked && b in t.hw.irq.mask && t.otherReady
    ensures t == s.(hw := t.hw, otherReady := true, history := s.history.(log := t.history.log,
                    calls := s.history.calls + [Enable(a), Enable(b), MakeReady(true), Action.SetPending(a)]))
  {
    hide Good, Steady, Kept, Apply;
    Enabled(s, a);
    var s2 := CallMade(s, Enable(a));
    Enabled(s2, b);
    var s3 := CallMade(s2, Enable(b));
    ReadyStep(s3, true);
    var s4 := ReadyMade(s3, true);
    Pended(s4, a);
    t := CallMade(s4, Action.SetPending(a));
    assert s.history.calls + [Enable(a)] + [Enable(b)] + [MakeReady(true)] + [Action.SetPending(a)]
        == s.history.calls + [Enable(a), Enable(b), MakeReady(true), Action.SetPending(a)];
  }

  /** A run from boot comes to a state in which line a is pending. */
  lemma SetFromBoot(table: seq<Vector>, prio: seq<nat>, readsFirst: bool, a: nat, b: nat) returns (s: CpuState)
    requires |table| == N_IRQS && Interruptible(table, prio, a, b) && forall i :: 0 <= i < |prio| ==> prio[i] < 256
    ensures Steady(s) && Set(s, a, b) && s.table == table && s.readsFirst == readsFirst && s.hw.irq.prio == prio
    ensures s.boot == Boot(NEVER)
    ensures s.history.calls == [ConfigureCounter(NEVER)] + SetPrios(prio, N_IRQS)
                               + [Enable(a), Enable(b), MakeReady(true), Action.SetPending(a)]
  {
    hide Steady, Boot, SetPrios, Apply;
    var s0 := AfterBoot(table, readsFirst, b);
    BootIsSteady(table, readsFirst, b);
    var s1 := PriosSet(s0, prio, N_IRQS);
    assert prio[..N_IRQS] + s0.hw.irq.prio[N_IRQS..] == prio;
    s := RaisedOnce(s1, a, b);
  }

  /** A state of a run from boot in which a routine has asked for a swap, and the request is lost. */
  ghost predicate Loses(s: CpuState, table: seq<Vector>, prio: seq<nat>, readsFirst: bool) {
    && Good(s, 0) && s.boot == Boot(NEVER) && s.nested > 0 && !s.history.prioChanged
    && s.table == table && s.hw.irq.prio == prio && s.readsFirst == readsFirst
    && Asked(s.history.requests) && !s.maySwap
  }

  /** In which configurations a request can be lost, while priorities are held: exactly if the compiler reads *may_swap
      before the call, and the vector table holds a direct routine and any other of higher priority. */
  lemma LossPossibleIff(table: seq<Vector>, prio: seq<nat>, readsFirst: bool)
    requires |table| == N_IRQS == |prio| && forall i :: 0 <= i < |prio| ==> prio[i] < 256
    ensures (exists s :: Loses(s, table, prio, readsFirst)) <==> readsFirst && CanNest(table, prio)
  {
    hide Good, Set, Interruptible;
    if s :| Loses(s, table, prio, readsFirst) {
      LossNeedsNesting(s, 0);
    }
    if readsFirst && CanNest(table, prio) {
      var a: nat, b: nat :| Interruptible(table, prio, a, b);
      var s := SetFromBoot(table, prio, readsFirst, a, b);
      var t, v := RequestIsLost(s, a, b);
      assert Loses(t, table, prio, readsFirst);
    }
  }
}
