/** The CPU side of interrupts (irq_handler.c, cpu_wait.c): what a nest of interrupt service routines is,
    and what any completed piece of software leaves as it found it. */
module Nesting {
  import opened Sequences
  import opened IrqCtrl
  import opened HwModels
  import opened HwRuns
  import opened HwLedger
  import opened HwMasks

  // ----- what routines do

  /** One call a routine or a thread can make. */
  datatype Action =
    | Raise(irq: nat)               // posix_sw_set_pending_IRQ
    | SetPending(irq: nat)          // hw_irq_ctrl_set_irq
    | Enable(irq: nat)
    | Disable(irq: nat)
    | Clear(irq: nat)
    | ChangeLock(on: bool)
    | SetPrio(irq: nat, prio: nat)
    | Hold(us: nat)                 // posix_cpu_hold
    | MakeReady(other: bool)        // another thread becomes, or stops being, the next to run
    | SilentTicks(n: int)
    | StartCounter
    | StopCounter
    | SetTarget(target: u64)
    | ConfigureTick(period: u64)    // hwtimer_enable, before any routine runs
    | ConfigureCounter(per: u64)    // hw_counter_set_period, likewise

  /** One execution of a service routine; `swap` is what a direct routine returns. */
  datatype Isr = Isr(body: seq<Action>, swap: bool)

  /** An entry of irq_vector_table. */
  datatype Vector = Unset | Normal | Direct

  /** Why the process ends. */
  datatype Why = NoHandler(irq: nat) | EndOfTime

  datatype Outcome = Running | Exited(why: Why) {
    predicate IsFailure() { Exited? }
    function PropagateFailure(): Outcome
      requires Exited?
    {
      this
    }
  }

  // ----- the state

  datatype Frame = Frame(irq: nat, prio: nat)

  /** A routine chosen to run, with the hardware it was chosen from. */
  datatype Served = Served(irq: nat, from: Hw)

  /** What a finished routine asked: a swap or not.  A direct routine's answer is or-ed into the request made so far,
      any other sets it.  `start` is how many routines had finished when it began; its line and priority follow. */
  datatype Request = Request(ask: bool, direct: bool, start: nat, irq: int, prio: int)

  /** A thread swap: the handler's nesting count and the requests made since its outermost entry. */
  datatype Swap = Swap(nested: nat, requests: seq<Request>)

  /** What has happened so far. */
  datatype History = History(
    log: seq<Op>,            // every hardware step since boot
    calls: seq<Action>,      // every call of software since boot
    frames: seq<Frame>,      // the routines running, the outermost first
    requests: seq<Request>,  // of the routines finished since the outermost handler entry
    swaps: seq<Swap>,
    served: seq<Served>,
    prioChanged: bool)       // a priority was changed while routines ran

  datatype CpuState = CpuState(
    hw: Hw,
    boot: Hw,
    table: seq<Vector>,
    currentIrq: int,         // currently_running_irq
    nested: nat,             // _kernel.cpus[0].nested
    maySwap: bool,
    readsFirst: bool,        // `*may_swap |= f()` reads *may_swap before it calls f
    otherReady: bool,        // the ready queue's next thread is not the current one
    supply: seq<Isr>,        // the routine executions still to come, in order
    history: History,
    horizon: int)            // no time in the run is later

  /** The hardware step a call makes first, if it makes one. */
  function StepOf(a: Action): seq<Op> {
    match a
    case Raise(irq) => [Op.Raise(irq)]
    case SetPending(irq) => [Op.SetPending(irq)]
    case Enable(irq) => [EnableLine(irq)]
    case Disable(irq) => [DisableLine(irq)]
    case Clear(irq) => [ClearLine(irq, false)]
    case ChangeLock(on) => [Lock(on)]
    case SetPrio(irq, prio) => [Prio(irq, prio)]
    case Hold(_) => []
    case MakeReady(_) => []
    case SilentTicks(n) => [Silence(n)]
    case StartCounter => [CounterStarts]
    case StopCounter => [CounterStops]
    case SetTarget(target) => [CounterTarget(target)]
    case ConfigureTick(period) => [Tick(period)]
    case ConfigureCounter(per) => [CounterPeriod(per)]
  }

  function StepsOf(calls: seq<Action>): seq<Op> {
    if calls == [] then [] else StepsOf(Front(calls)) + StepOf(Last(calls))
  }

  lemma StepsAppend(calls: seq<Action>, a: Action)
    ensures StepsOf(calls + [a]) == StepsOf(calls) + StepOf(a)
  {
    FrontLast(calls, a);
  }

  /** Between the calls c0 and c1 those of a body were made, in order, with those of other routines in between. */
  ghost predicate Performed(body: seq<Action>, c0: seq<Action>, c1: seq<Action>) {
    if body == [] then c0 <= c1
    else exists m: seq<Action> :: Performed(Front(body), c0, m) && m + [Last(body)] <= c1
  }

  lemma PerformNext(body: seq<Action>, i: nat, c0: seq<Action>, m: seq<Action>, c1: seq<Action>)
    requires i < |body| && Performed(body[..i], c0, m) && m + [body[i]] <= c1
    ensures Performed(body[..i + 1], c0, c1)
  {
    assert Front(body[..i + 1]) == body[..i];
  }

  /** All the calls of the routine executions still to come. */
  function CallsIn(supply: seq<Isr>): multiset<Action> {
    if supply == [] then multiset{} else multiset(supply[0].body) + CallsIn(supply[1..])
  }

  /** What is left of the supply after n more routines have begun; with none left, routines do nothing. */
  function Rest(supply: seq<Isr>, n: nat): seq<Isr> {
    if n <= |supply| then supply[n..] else []
  }

  lemma RestRest(supply: seq<Isr>, m: nat, n: nat)
    ensures Rest(Rest(supply, m), n) == Rest(supply, m + n)
    ensures Rest(supply, 0) == supply && |Rest(supply, n)| <= |supply|
  {
  }

  // ----- simulated time routines will spend

  function HoldOf(a: Action): nat {
    if a.Hold? then a.us else 0
  }

  function HoldsOf(body: seq<Action>): nat {
    if body == [] then 0 else HoldOf(body[0]) + HoldsOf(body[1..])
  }

  function HoldTime(supply: seq<Isr>): nat {
    if supply == [] then 0 else HoldsOf(supply[0].body) + HoldTime(supply[1..])
  }

  // ----- what callers must see to

  /** Line numbers are in range, and a counter is configured before it is started. */
  predicate ActionOk(a: Action, counterPeriod: int, horizon: int) {
    match a
    case Enable(irq) => irq < N_IRQS
    case Disable(irq) => irq < N_IRQS
    case Clear(irq) => irq < N_IRQS
    case SetPrio(irq, _) => irq < N_IRQS
    case StartCounter => 0 < counterPeriod && horizon + counterPeriod < NEVER
    case ConfigureTick(_) => false
    case ConfigureCounter(_) => false
    case _ => true
  }

  predicate BodyOk(body: seq<Action>, counterPeriod: int, horizon: int) {
    forall a :: a in body ==> ActionOk(a, counterPeriod, horizon)
  }

  predicate SupplyOk(supply: seq<Isr>, counterPeriod: int, horizon: int) {
    forall i :: i in supply ==> BodyOk(i.body, counterPeriod, horizon)
  }

  // ----- the invariant

  /** Running routines have strictly decreasing priority numbers, and the innermost one is what the
      controller and the handler take to be running. */
  predicate Stacked(frames: seq<Frame>, prio: int, irq: int) {
    && (forall i :: 0 <= i < |frames| ==> frames[i].irq < N_IRQS && frames[i].prio < 256)
    && (forall i, j :: 0 <= i < j < |frames| ==> frames[j].prio < frames[i].prio)
    && prio == (if frames == [] then NO_PRIO else frames[|frames| - 1].prio)
    && irq == (if frames == [] then -1 else frames[|frames| - 1].irq)
  }

  /** Each running routine still has the priority it was started with. */
  predicate PriosHeld(frames: seq<Frame>, prio: seq<nat>) {
    forall i :: 0 <= i < |frames| ==> frames[i].irq < |prio| && prio[frames[i].irq] == frames[i].prio
  }

  /** The hardware is where the log of its steps leads. */
  ghost predicate Logged(boot: Hw, log: seq<Op>, hw: Hw) {
    Inv(boot) && IsRun(boot, log) && hw == Run(boot, log) && Inv(hw)
  }

  /** No sum of times passes the largest uint64_t. */
  predicate WithinHorizon(hw: Hw, holds: nat, horizon: int) {
    && hw.now + holds <= horizon
    && horizon + hw.tmr.period < NEVER
    && (hw.cnt.running ==> horizon + hw.cnt.period < NEVER)
    && PositivePeriods(hw)
  }

  /** No direct routine that began before routine i had finished, and ended after it, wrote back what it had read. */
  predicate Survives(requests: seq<Request>, i: nat) {
    forall j :: i < j < |requests| && requests[j].direct ==> i < requests[j].start
  }

  /** A swap is asked for by some routine; if the compiler reads *may_swap before the call, by one whose request was not
      undone by a direct routine around it. */
  predicate SwapAsked(requests: seq<Request>, readsFirst: bool) {
    exists i :: 0 <= i < |requests| && requests[i].ask && (readsFirst ==> Survives(requests, i))
  }

  /** A swap happens only in the outermost handler frame, and because a routine asked for it. */
  predicate SwapsOk(swaps: seq<Swap>, readsFirst: bool) {
    forall s :: s in swaps ==> s.nested == 0 && SwapAsked(s.requests, readsFirst)
  }

  /** Line irq has a routine, direct or not. */
  predicate RoutineOf(table: seq<Vector>, irq: int, direct: bool) {
    0 <= irq < |table| && table[irq] != Unset && (direct <==> table[irq] == Direct)
  }

  /** The requests are of routines in the table, at their lines' priorities; those finished inside another were
      of higher priority. */
  predicate RequestsOk(requests: seq<Request>, table: seq<Vector>, prio: seq<nat>, prioChanged: bool) {
    && (forall i :: 0 <= i < |requests| ==> RoutineOf(table, requests[i].irq, requests[i].direct))
    && (!prioChanged ==>
          forall i :: 0 <= i < |requests| ==> requests[i].irq < |prio| && prio[requests[i].irq] == requests[i].prio)
    && (forall i, j :: 0 <= i < j < |requests| && requests[j].start <= i ==> requests[i].prio < requests[j].prio)
  }

  /** Every routine run was the winner when it was chosen. */
  ghost predicate ServedOk(served: seq<Served>) {
    forall s :: s in served ==> IsWinner(s.from.irq, s.irq)
  }

  /** The lines of the routines run. */
  function ServedLines(served: seq<Served>): seq<nat> {
    if served == [] then [] else ServedLines(Front(served)) + [Last(served).irq]
  }

  /** The history tells the run: the hardware is where the log leads, the lines taken are those of the routines run, and
      the software's steps are those of its calls, all of them in order; and every line taken could interrupt. */
  ghost predicate Recorded(s: CpuState) {
    && Logged(s.boot, s.history.log, s.hw)
    && Takings(s.boot, s.history.log) == ServedLines(s.history.served)
    && SoftwareSteps(s.history.log) == StepsOf(s.history.calls)
    && TakesPending(s.boot, s.history.log)
  }

  /** The invariant, with `extra` handler frames entered beyond the routines running: 0 while a thread or a
      routine runs, 1 while the handler itself chooses. */
  ghost predicate Good(s: CpuState, extra: nat) {
    && Recorded(s)
    && |s.table| == N_IRQS
    && s.nested == |s.history.frames| + extra
    && Stacked(s.history.frames, s.hw.irq.cur, s.currentIrq)
    && (!s.history.prioChanged ==> PriosHeld(s.history.frames, s.hw.irq.prio))
    && WithinHorizon(s.hw, HoldTime(s.supply), s.horizon)
    && SupplyOk(s.supply, s.hw.cnt.period, s.horizon)
    && (s.nested > 0 ==> (s.maySwap <==> SwapAsked(s.history.requests, s.readsFirst)))
    && (s.nested > 0 ==> RequestsOk(s.history.requests, s.table, s.hw.irq.prio, s.history.prioChanged))
    && SwapsOk(s.history.swaps, s.readsFirst)
    && ServedOk(s.history.served)
  }

  /** No lost interrupt: while interrupts are unlocked and a pending line beats what is running, a wake is
      scheduled for the present instant.  (A routine that changes a priority gives up the claim until it
      and those it interrupted are done.) */
  ghost predicate NothingLost(s: CpuState) {
    (s.history.frames == [] || !s.history.prioChanged) && !Drained(s.hw.irq) ==> s.hw.irq.timer == s.hw.now
  }

  /** The invariant wherever software runs. */
  ghost predicate Steady(s: CpuState) {
    Good(s, 0) && NothingLost(s)
  }

  // ----- what a completed piece of software keeps

  /** The routines running, and with them the current priority, the current line and the nesting count, are
      as they were; time has gone on by exactly `cost` and what the routines run in between held; the supply is used up
      by one execution for each routine begun, `begun` of them before; and the calls made are exactly those of the
      executions used up and `own`. */
  ghost predicate Resumed(s0: CpuState, s1: CpuState, cost: int, own: multiset<Action>, begun: nat) {
    && s1.history.frames == s0.history.frames && s1.nested == s0.nested && s1.currentIrq == s0.currentIrq
    && s1.hw.irq.cur == s0.hw.irq.cur
    && s1.table == s0.table && s1.horizon == s0.horizon && s1.boot == s0.boot && s1.readsFirst == s0.readsFirst
    && SameSetup(s0.hw, s1.hw) && (s0.hw.inEvent ==> s1.hw.inEvent)
    && s0.history.log <= s1.history.log && s0.history.calls <= s1.history.calls
    && s0.history.served <= s1.history.served && s0.history.swaps <= s1.history.swaps
    && s1.supply == Rest(s0.supply, |s1.history.served| - |s0.history.served| + begun)
    && s0.hw.now <= s1.hw.now
    && s1.hw.now + HoldTime(s1.supply) == s0.hw.now + HoldTime(s0.supply) + cost
    && multiset(s1.history.calls) + CallsIn(s1.supply) == multiset(s0.history.calls) + CallsIn(s0.supply) + own
  }

  /** No swap happened, every swap request made before is still there, and one was added for each routine
      chosen in between, plus `done` more, all of routines begun since; those in between were of higher priority than
      what runs, and the `done` more of no lower. */
  predicate RequestsKept(s0: CpuState, s1: CpuState, done: nat) {
    var r0, r1 := s0.history.requests, s1.history.requests;
    && s1.history.swaps == s0.history.swaps && r0 <= r1
    && |r1| - |r0| == |s1.history.served| - |s0.history.served| + done
    && (forall j :: |r0| <= j < |r1| ==> |r0| <= r1[j].start && r1[j].prio < s0.hw.irq.cur + done)
    && (s0.history.prioChanged ==> s1.history.prioChanged)
  }

  ghost predicate Kept(s0: CpuState, s1: CpuState, cost: int, own: multiset<Action>) {
    Resumed(s0, s1, cost, own, 0) && (s0.history.frames != [] ==> RequestsKept(s0, s1, 0))
  }

  lemma ResumedTrans(s0: CpuState, s1: CpuState, s2: CpuState, c: int, d: int, p: multiset<Action>, q: multiset<Action>)
    requires Resumed(s0, s1, c, p, 0) && Resumed(s1, s2, d, q, 0)
    ensures Resumed(s0, s2, c + d, p + q, 0)
  {
    hide HoldTime, CallsIn, Rest;
    RestRest(s0.supply, |s1.history.served| - |s0.history.served|, |s2.history.served| - |s1.history.served|);
    AddUp(multiset(s0.history.calls) + CallsIn(s0.supply), multiset(s1.history.calls) + CallsIn(s1.supply),
          multiset(s2.history.calls) + CallsIn(s2.supply), p, q);
  }

  lemma AddUp<T>(a: multiset<T>, b: multiset<T>, c: multiset<T>, p: multiset<T>, q: multiset<T>)
    requires b == a + p && c == b + q
    ensures c == a + (p + q)
  {
  }

  lemma KeptTrans(s0: CpuState, s1: CpuState, s2: CpuState, c: int, d: int, p: multiset<Action>, q: multiset<Action>)
    requires Kept(s0, s1, c, p) && Kept(s1, s2, d, q)
    ensures Kept(s0, s2, c + d, p + q)
  {
    hide Resumed, Rest;
    KeptParts(s0, s1, c, p);
    KeptParts(s1, s2, d, q);
    ResumedTrans(s0, s1, s2, c, d, p, q);
  }

  lemma KeptParts(s0: CpuState, s1: CpuState, cost: int, own: multiset<Action>)
    requires Kept(s0, s1, cost, own)
    ensures Resumed(s0, s1, cost, own, 0) && s1.history.frames == s0.history.frames
    ensures s0.history.frames != [] ==> RequestsKept(s0, s1, 0)
  {
  }

  /** Something that made no calls of its own follows. */
  lemma KeptThen(s0: CpuState, s1: CpuState, s2: CpuState, c: int, d: int, own: multiset<Action>)
    requires Kept(s0, s1, c, own) && Kept(s1, s2, d, multiset{})
    ensures Kept(s0, s2, c + d, own)
  {
    hide Kept;
    KeptTrans(s0, s1, s2, c, d, own, multiset{});
    assert own + multiset{} == own;
  }

  lemma KeptFacts(s0: CpuState, s1: CpuState, cost: int, own: multiset<Action>)
    requires Kept(s0, s1, cost, own)
    ensures s1.hw.now + HoldTime(s1.supply) == s0.hw.now + HoldTime(s0.supply) + cost && s0.hw.now <= s1.hw.now
    ensures s1.hw.cnt.period == s0.hw.cnt.period && s1.horizon == s0.horizon
    ensures |s1.supply| < |s0.supply| || s1.supply == s0.supply
    ensures s1.readsFirst == s0.readsFirst && s1.table == s0.table
    ensures s0.history.log <= s1.history.log && s0.history.calls <= s1.history.calls
    ensures s0.history.served <= s1.history.served && s0.history.frames == s1.history.frames
    ensures s0.hw.inEvent ==> s1.hw.inEvent
  {
  }

  lemma KeptRefl(s: CpuState)
    ensures Kept(s, s, 0, multiset{}) && Calm(s, s) && Resumed(s, s, 0, multiset{}, 0) && RequestsKept(s, s, 0)
  {
  }

  /** If no routine was run, nothing was armed and no time went by. */
  predicate Calm(s0: CpuState, s1: CpuState) {
    s1.supply == s0.supply ==>
      s1.hw.tmr == s0.hw.tmr && s1.hw.cnt == s0.hw.cnt && s1.hw.irq.timer == s0.hw.irq.timer && s1.hw.now == s0.hw.now
  }

  // ----- single steps

  /** Steps of the hardware that are neither events nor part of the handler. */
  predicate Plain(op: Op) {
    || (LatchOp(op) && !op.CurPrio? && !op.Prio? && !(op.ClearLine? && op.taken))
    || op.SetPending? || op.Silence? || op.WakeAt? || op.CounterStarts? || op.CounterStops? || op.CounterTarget?
  }

  function Stepped(s: CpuState, op: Op): CpuState {
    s.(hw := Apply(s.hw, op), history := s.history.(log := s.history.log + [op]))
  }

  /** The call is made, up to its own step of the hardware, if it has one. */
  function CallMade(s: CpuState, a: Action): CpuState {
    var noted := s.(history := s.history.(calls := s.history.calls + [a]));
    if StepOf(a) == [] then noted else Stepped(noted, StepOf(a)[0])
  }

  lemma LoggedStep(boot: Hw, log: seq<Op>, hw: Hw, op: Op)
    requires Logged(boot, log, hw) && Allowed(hw, op)
    ensures Logged(boot, log + [op], Apply(hw, op))
    ensures Takings(boot, log + [op]) == Takings(boot, log) + TakenBy(hw, op)
    ensures SoftwareSteps(log + [op]) == SoftwareSteps(log) + (if SoftwareOp(op) then [op] else [])
    ensures TakesPending(boot, log + [op]) <==> TakesPending(boot, log) && TakesOk(hw, op)
  {
    TakesAppend(boot, log, op);
    TakingsAppend(boot, log, op);
    SoftwareAppend(log, op);
    RunAppend(boot, log, op);
    StepInv(hw, op);
  }

  lemma PlainHw(h: Hw, op: Op)
    requires Inv(h) && Allowed(h, op) && Plain(op)
    ensures var g := Apply(h, op);
      && g.now == h.now && g.irq.cur == h.irq.cur && g.irq.prio == h.irq.prio && SameSetup(h, g)
      && (g.cnt.running ==> op.CounterStarts? || h.cnt.running)
      && g.tmr.tick == h.tmr.tick && g.inEvent == h.inEvent
  {
    if LatchOp(op) {
      LatchStep(h, op);
    }
  }

  /** Only the hardware has changed, with its history. */
  predicate OnlyHw(s: CpuState, t: CpuState) {
    && t == s.(hw := t.hw, history := s.history.(log := t.history.log, calls := t.history.calls))
    && t.hw.irq.cur == s.hw.irq.cur
  }

  lemma StaysGood(s: CpuState, t: CpuState, extra: nat)
    requires Good(s, extra) && OnlyHw(s, t) && Recorded(t) && t.hw.cnt.period == s.hw.cnt.period
    requires t.hw.irq.prio == s.hw.irq.prio
    requires WithinHorizon(t.hw, HoldTime(s.supply), s.horizon)
    ensures Good(t, extra)
  {
    hide Recorded, HoldTime, WithinHorizon, SupplyOk, Stacked, PriosHeld, ServedOk, SwapsOk, SwapAsked, RequestsOk;
  }

  lemma StaysKept(s: CpuState, t: CpuState, own: multiset<Action>)
    requires OnlyHw(s, t) && SameSetup(s.hw, t.hw) && (s.hw.inEvent ==> t.hw.inEvent) && s.hw.now <= t.hw.now
    requires s.history.log <= t.history.log && s.history.calls <= t.history.calls
    requires multiset(t.history.calls) == multiset(s.history.calls) + own
    ensures Kept(s, t, t.hw.now - s.hw.now, own)
  {
    hide HoldTime, CallsIn, SameSetup;
    RestRest(s.supply, 0, 0);
    Commute(multiset(s.history.calls), own, CallsIn(s.supply));
  }

  lemma Commute<T>(a: multiset<T>, b: multiset<T>, c: multiset<T>)
    ensures a + b + c == a + c + b
  {
  }

  lemma CallRecorded(s: CpuState, a: Action)
    requires Recorded(s) && StepOf(a) != [] && Allowed(s.hw, StepOf(a)[0])
    ensures Recorded(CallMade(s, a))
  {
    hide Logged, Takings, TakesPending, SoftwareSteps, StepsOf, Apply, Allowed;
    LoggedStep(s.boot, s.history.log, s.hw, StepOf(a)[0]);
    StepsAppend(s.history.calls, a);
  }

  lemma OwnCall(calls: seq<Action>, a: Action)
    ensures multiset(calls + [a]) == multiset(calls) + multiset{a}
  {
  }

  /** A call that makes a step of the hardware, and starts no routine. */
  lemma CallStep(s: CpuState, a: Action, extra: nat)
    requires Good(s, extra) && StepOf(a) != [] && Allowed(s.hw, StepOf(a)[0]) && Plain(StepOf(a)[0])
    requires a.StartCounter? ==> 0 < s.hw.cnt.period && s.horizon + s.hw.cnt.period < NEVER
    ensures Good(CallMade(s, a), extra) && Kept(s, CallMade(s, a), 0, multiset{a})
  {
    hide Good, Kept, Recorded, HoldTime, Inv, Apply, Plain, Allowed, PositivePeriods, StepOf;
    var t := CallMade(s, a);
    GoodRecorded(s, extra);
    RecordedInv(s);
    CallRecorded(s, a);
    PlainHw(s.hw, StepOf(a)[0]);
    CallSetup(s, a);
    StaysGood(s, t, extra);
    OwnCall(s.history.calls, a);
    StaysKept(s, t, multiset{a});
  }

  lemma GoodRecorded(s: CpuState, extra: nat)
    requires Good(s, extra)
    ensures Recorded(s) && WithinHorizon(s.hw, HoldTime(s.supply), s.horizon) && s.hw.now <= s.horizon
  {
    hide HoldTime;
  }

  lemma RecordedInv(s: CpuState)
    requires Recorded(s)
    ensures Inv(s.hw) && Logged(s.boot, s.history.log, s.hw)
  {
  }

  /** No call changes a period or arms the tick. */
  lemma CallSetup(s: CpuState, a: Action)
    requires StepOf(a) != [] && Plain(StepOf(a)[0]) && Allowed(s.hw, StepOf(a)[0]) && Inv(s.hw)
    ensures Apply(s.hw, StepOf(a)[0]).cnt.running ==> a.StartCounter? || s.hw.cnt.running
    ensures PositivePeriods(s.hw) && (a.StartCounter? ==> 0 < s.hw.cnt.period) ==>
      PositivePeriods(Apply(s.hw, StepOf(a)[0]))
  {
    PlainHw(s.hw, StepOf(a)[0]);
  }

  /** A call without a step of its own. */
  lemma CallNoted(s: CpuState, a: Action)
    requires Steady(s) && StepOf(a) == []
    ensures Steady(CallMade(s, a)) && Kept(s, CallMade(s, a), 0, multiset{a})
  {
    hide Good, Kept, HoldTime, Inv, IsRun, Run, StepOf, WithinHorizon;
    var t := CallMade(s, a);
    GoodRecorded(s, 0);
    StepsAppend(s.history.calls, a);
    StaysGood(s, t, 0);
    OwnCall(s.history.calls, a);
    StaysKept(s, t, multiset{a});
  }

  /** Steps after which nothing pending has become able to interrupt without a wake being scheduled. */
  predicate Quiet(h: Hw, op: Op) {
    || op.DisableLine? || (op.ClearLine? && !op.taken) || op.SetPending? || op.Silence? || op.WakeAt?
    || op.CounterStarts? || op.CounterStops? || op.CounterTarget?
    || (op.Lock? && (op.on || !h.irq.locked || h.irq.status == {}))
  }

  lemma QuietStep(s: CpuState, a: Action)
    requires Steady(s) && StepOf(a) != [] && Allowed(s.hw, StepOf(a)[0]) && Quiet(s.hw, StepOf(a)[0])
    requires a.StartCounter? ==> 0 < s.hw.cnt.period && s.horizon + s.hw.cnt.period < NEVER
    ensures Steady(CallMade(s, a)) && Kept(s, CallMade(s, a), 0, multiset{a})
  {
    hide Good, Kept, Inv, Apply, Allowed, Drained, StepOf;
    GoodRecorded(s, 0);
    RecordedInv(s);
    CallStep(s, a, 0);
    QuietLosesNothing(s.hw, StepOf(a)[0]);
  }

  /** hwtimer_wake_in_time, in the course of a wait. */
  lemma WakeStep(s: CpuState, time: u64)
    requires Steady(s) && s.hw.now <= time
    ensures Steady(Stepped(s, WakeAt(time))) && Kept(s, Stepped(s, WakeAt(time)), 0, multiset{})
  {
    hide Good, Kept, HoldTime, Inv, Apply, PositivePeriods;
    var t := Stepped(s, WakeAt(time));
    GoodRecorded(s, 0);
    StepRecorded(s, WakeAt(time));
    RecordedInv(s);
    PlainHw(s.hw, WakeAt(time));
    WakePeriods(s.hw, time);
    StaysGood(s, t, 0);
    StaysKept(s, t, multiset{});
    QuietLosesNothing(s.hw, WakeAt(time));
  }

  lemma WakePeriods(h: Hw, time: u64)
    ensures PositivePeriods(Apply(h, WakeAt(time))) == PositivePeriods(h)
  {
  }

  /** A step that is no call of software, nor takes an interrupt. */
  lemma StepRecorded(s: CpuState, op: Op)
    requires Recorded(s) && Allowed(s.hw, op) && !SoftwareOp(op) && TakenBy(s.hw, op) == [] && TakesOk(s.hw, op)
    ensures Recorded(Stepped(s, op))
  {
    hide Logged, Takings, TakesPending, SoftwareSteps, StepsOf, Apply, Allowed;
    LoggedStep(s.boot, s.history.log, s.hw, op);
  }

  lemma QuietLosesNothing(h: Hw, op: Op)
    requires Inv(h) && Allowed(h, op) && Quiet(h, op)
    ensures Drained(h.irq) || h.irq.timer == h.now ==>
      Drained(Apply(h, op).irq) || Apply(h, op).irq.timer == Apply(h, op).now
  {
    if op.SetPending? {
      SetPendingLosesNothing(h, op.irq);
    } else if LatchOp(op) {
      LatchStep(h, op);
      LatchQuietly(h, op);
    }
  }

  lemma LatchQuietly(h: Hw, op: Op)
    requires Latched(h.irq) && Allowed(h, op) && Quiet(h, op) && LatchOp(op)
    ensures Drained(h.irq) ==> Drained(Apply(h, op).irq)
  {
    assert Apply(h, op).irq.status <= h.irq.status;
  }

  lemma DisableKeepsDrained(h: Hw, irq: nat)
    requires Drained(h.irq)
    ensures Drained(Apply(h, DisableLine(irq)).irq) && irq !in Apply(h, DisableLine(irq)).irq.mask
  {
    assert Apply(h, DisableLine(irq)).irq.status == h.irq.status;
  }

  lemma SetPendingLosesNothing(h: Hw, irq: nat)
    requires Inv(h)
    ensures var g := SetIrq(h, irq); Drained(h.irq) || h.irq.timer == h.now ==> Drained(g.irq) || g.irq.timer == g.now
  {
  }

  lemma LockFacts(h: Hw, on: bool)
    ensures Apply(h, Lock(on)).irq.status == h.irq.status && Apply(h, Lock(on)).irq.locked == on
  {
  }

  lemma DrainedLosesNothing(s: CpuState)
    requires Drained(s.hw.irq)
    ensures NothingLost(s)
  {
  }

  /** Enabling a line that is not pending. */
  lemma EnableUnpending(s: CpuState, irq: nat)
    requires Steady(s) && irq < N_IRQS && irq !in s.hw.irq.premask
    ensures NothingLost(CallMade(s, Enable(irq)))
  {
    assert Drained(s.hw.irq) ==> Drained(Apply(s.hw, EnableLine(irq)).irq);
  }

  predicate IsQuiet(a: Action) {
    a.SetPending? || a.Disable? || a.Clear? || a.SilentTicks? || a.StartCounter? || a.StopCounter? || a.SetTarget?
  }

  /** The step of a call that only touches the hardware. */
  lemma QuietCall(s: CpuState, a: Action)
    requires Good(s, 0) && IsQuiet(a) && ActionOk(a, s.hw.cnt.period, s.horizon)
    ensures StepOf(a) != [] && Allowed(s.hw, StepOf(a)[0]) && Quiet(s.hw, StepOf(a)[0])
    ensures a.StartCounter? ==> 0 < s.hw.cnt.period && s.horizon + s.hw.cnt.period < NEVER
  {
    StartAllowed(s);
  }

  lemma StartAllowed(s: CpuState)
    requires Good(s, 0)
    ensures 0 < s.hw.cnt.period && s.horizon + s.hw.cnt.period < NEVER ==> Allowed(s.hw, CounterStarts)
  {
  }

  /** A change of priority; one made while routines run is remembered. */
  function PrioSet(s: CpuState, irq: nat, p: nat): CpuState {
    var t := CallMade(s, SetPrio(irq, p));
    t.(history := t.history.(prioChanged := s.history.prioChanged || s.history.frames != []))
  }

  lemma PrioStep(s: CpuState, irq: nat, p: nat)
    requires Steady(s) && irq < N_IRQS
    ensures Steady(PrioSet(s, irq, p)) && Kept(s, PrioSet(s, irq, p), 0, multiset{SetPrio(irq, p)})
  {
    hide Good, Kept, Inv, Apply, Latched;
    GoodRecorded(s, 0);
    RecordedInv(s);
    PrioHw(s.hw, irq, p);
    CallRecorded(s, SetPrio(irq, p));
    PrioGood(s, irq, p);
    PrioKept(s, irq, p);
    if s.history.frames == [] {
      AtThreadLevel(s);
      DrainedAtThreadLevel2(s.hw.irq, Apply(s.hw, Prio(irq, p)).irq);
    }
  }

  lemma PrioGood(s: CpuState, irq: nat, p: nat)
    requires Good(s, 0) && Recorded(CallMade(s, SetPrio(irq, p)))
    requires var g := Apply(s.hw, Prio(irq, p)); g == s.hw.(irq := s.hw.irq.(prio := g.irq.prio))
    ensures Good(PrioSet(s, irq, p), 0)
  {
    hide Recorded, HoldTime, SupplyOk, Stacked, ServedOk, SwapsOk, SwapAsked, Apply;
    RecordedSame(CallMade(s, SetPrio(irq, p)), PrioSet(s, irq, p));
  }

  lemma PrioKept(s: CpuState, irq: nat, p: nat)
    requires var g := Apply(s.hw, Prio(irq, p)); g == s.hw.(irq := s.hw.irq.(prio := g.irq.prio))
    ensures Kept(s, PrioSet(s, irq, p), 0, multiset{SetPrio(irq, p)})
  {
    hide Kept, Apply;
    OwnCall(s.history.calls, SetPrio(irq, p));
    StaysKept(s, CallMade(s, SetPrio(irq, p)), multiset{SetPrio(irq, p)});
    PrioNoted(s, CallMade(s, SetPrio(irq, p)), multiset{SetPrio(irq, p)});
  }

  lemma PrioNoted(s: CpuState, t: CpuState, own: multiset<Action>)
    requires Kept(s, t, 0, own)
    requires s.history.prioChanged ==> t.history.prioChanged
    ensures Kept(s, t.(history := t.history.(prioChanged := s.history.prioChanged || s.history.frames != [])), 0, own)
  {
    hide HoldTime, CallsIn, SameSetup, Rest;
  }

  lemma AtThreadLevel(s: CpuState)
    requires Good(s, 0) && s.history.frames == []
    ensures s.hw.irq.cur == NO_PRIO
  {
  }

  lemma PrioHw(h: Hw, irq: nat, p: nat)
    requires Inv(h) && irq < N_IRQS
    ensures Allowed(h, Prio(irq, p)) && Latched(h.irq)
    ensures var g := Apply(h, Prio(irq, p)); g == h.(irq := h.irq.(prio := g.irq.prio)) && Latched(g.irq)
  {
  }

  lemma RecordedSame(s: CpuState, t: CpuState)
    requires Recorded(s) && t.boot == s.boot && t.hw == s.hw
    requires t.history.log == s.history.log && t.history.calls == s.history.calls
    requires t.history.served == s.history.served
    ensures Recorded(t)
  {
  }

  lemma DrainedAtThreadLevel2(c: Irq, d: Irq)
    requires Latched(c) && Latched(d) && c.cur == NO_PRIO == d.cur && c.locked == d.locked && c.status == d.status
    ensures Drained(c) <==> Drained(d)
  {
    if !c.locked {
      DrainedAtThreadLevel(c);
      DrainedAtThreadLevel(d);
    }
  }

  /** Another thread becomes, or stops being, ready. */
  function ReadyMade(s: CpuState, other: bool): CpuState {
    CallMade(s, MakeReady(other)).(otherReady := other)
  }

  lemma ReadyStep(s: CpuState, other: bool)
    requires Steady(s)
    ensures Steady(ReadyMade(s, other)) && Kept(s, ReadyMade(s, other), 0, multiset{MakeReady(other)})
  {
    hide Kept;
    CallNoted(s, MakeReady(other));
    ReadySame(CallMade(s, MakeReady(other)), other);
    KeptReady(s, CallMade(s, MakeReady(other)), other, multiset{MakeReady(other)});
  }

  lemma ReadySame(s: CpuState, other: bool)
    requires Steady(s)
    ensures Steady(s.(otherReady := other))
  {
    hide Logged, Takings, TakesPending, SoftwareSteps, StepsOf, HoldTime, SupplyOk, Stacked, PriosHeld, ServedOk,
      SwapsOk, SwapAsked,
      Drained, WithinHorizon;
  }

  lemma KeptReady(s: CpuState, t: CpuState, other: bool, own: multiset<Action>)
    requires Kept(s, t, 0, own)
    ensures Kept(s, t.(otherReady := other), 0, own)
  {
    hide HoldTime, CallsIn, SameSetup, Rest;
  }

  lemma TickEnabled(s: CpuState, period: u64)
    requires Steady(s) && 0 < period && s.horizon + period < NEVER
    ensures Steady(CallMade(s, ConfigureTick(period)))
  {
    hide Good, Recorded, HoldTime, Inv, Apply, Allowed;
    GoodRecorded(s, 0);
    RecordedInv(s);
    TickHw(s, period);
    CallRecorded(s, ConfigureTick(period));
    StaysGood(s, CallMade(s, ConfigureTick(period)), 0);
  }

  lemma TickHw(s: CpuState, period: u64)
    requires Inv(s.hw) && s.hw.now <= s.horizon && 0 < period && s.horizon + period < NEVER
    ensures Allowed(s.hw, Tick(period))
    ensures var g := Apply(s.hw, Tick(period));
      g.irq == s.hw.irq && g.now == s.hw.now && g.cnt == s.hw.cnt && g.tmr.period == period
  {
  }

  /** The state after boot. */
  lemma Booted(s: CpuState, endOfTime: u64, counterPeriod: u64)
    requires s.boot == Boot(endOfTime) && s.hw == Apply(Boot(endOfTime), CounterPeriod(counterPeriod))
    requires s.history
          == History([] + [CounterPeriod(counterPeriod)], [] + [ConfigureCounter(counterPeriod)], [], [], [], [], false)
    requires |s.table| == N_IRQS && s.currentIrq == -1 && s.nested == 0
    requires HoldTime(s.supply) <= s.horizon < NEVER && SupplyOk(s.supply, counterPeriod, s.horizon)
    ensures Steady(s)
  {
    hide Recorded, HoldTime, SupplyOk, Boot;
    BootRecorded(s, endOfTime, counterPeriod);
    BootHw(endOfTime, counterPeriod);
    NothingPending(s.hw.irq);
  }

  lemma BootRecorded(s: CpuState, endOfTime: u64, counterPeriod: u64)
    requires s.boot == Boot(endOfTime) && s.hw == Apply(Boot(endOfTime), CounterPeriod(counterPeriod))
    requires s.history
          == History([] + [CounterPeriod(counterPeriod)], [] + [ConfigureCounter(counterPeriod)], [], [], [], [], false)
    ensures Recorded(s)
  {
    hide Boot, Inv, Apply;
    BootInv(endOfTime);
    LoggedStep(Boot(endOfTime), [], Boot(endOfTime), CounterPeriod(counterPeriod));
    StepsAppend([], ConfigureCounter(counterPeriod));
  }

  lemma BootHw(endOfTime: u64, counterPeriod: u64)
    ensures var h := Apply(Boot(endOfTime), CounterPeriod(counterPeriod));
      && h.now == 0 && h.tmr.period == 0 && h.tmr.tick == NEVER && !h.cnt.running && h.cnt.period == counterPeriod
      && h.irq.status == {} && h.irq.cur == NO_PRIO
  {
  }

  // ----- entering and leaving the handler and a routine

  /** posix_irq_handler's first steps: the outermost entry forgets earlier requests. */
  function HandlerEntered(s: CpuState): CpuState {
    if s.nested == 0 then
      s.(nested := 1, maySwap := false, history := s.history.(requests := [], prioChanged := false))
    else
      s.(nested := s.nested + 1)
  }

  lemma HandlerEntry(s: CpuState)
    requires Good(s, 0)
    ensures Good(HandlerEntered(s), 1)
  {
    hide Recorded, WithinHorizon, HoldTime, SupplyOk, SwapsOk, ServedOk, Stacked;
    GoodRecorded(s, 0);
    RecordedSame(s, HandlerEntered(s));
    if s.nested == 0 {
      NoneRunning(s);
    }
  }

  lemma NoneRunning(s: CpuState)
    requires Good(s, 0) && s.nested == 0
    ensures PriosHeld(s.history.frames, s.hw.irq.prio)
  {
    hide Recorded, WithinHorizon, HoldTime, SupplyOk, SwapsOk, ServedOk;
  }

  /** The handler has chosen line irq and made it the running one. */
  function Entered(s: CpuState, irq: nat): CpuState
    requires irq < |s.hw.irq.prio|
  {
    var p := s.hw.irq.prio[irq];
    s.(hw := Apply(Apply(s.hw, CurPrio(p)), ClearLine(irq, true)),
       currentIrq := irq,
       history := s.history.(
         log := s.history.log + [CurPrio(p)] + [ClearLine(irq, true)],
         frames := s.history.frames + [Frame(irq, p)],
         served := s.history.served + [Served(irq, s.hw)]))
  }

  lemma Push(frames: seq<Frame>, cur: int, current: int, f: Frame)
    requires Stacked(frames, cur, current) && f.irq < N_IRQS && f.prio < cur
    ensures Stacked(frames + [f], f.prio, f.irq)
  {
  }

  lemma TakeHw(h: Hw, irq: nat)
    requires Inv(h) && IsWinner(h.irq, irq)
    ensures irq < N_IRQS && h.irq.prio[irq] < 256 && h.irq.prio[irq] < h.irq.cur
    ensures var g := Apply(Apply(h, CurPrio(h.irq.prio[irq])), ClearLine(irq, true));
      && g == h.(irq := g.irq) && g.irq.prio == h.irq.prio && g.irq.timer == h.irq.timer
      && g.irq.cur == h.irq.prio[irq] && Drained(g.irq) && |g.irq.status| < |h.irq.status|
  {
    var g := Apply(Apply(h, CurPrio(h.irq.prio[irq])), ClearLine(irq, true));
    assert g.irq.status == h.irq.status - {irq} && irq in h.irq.status;
    assert forall i :: i in g.irq.status ==> !Beats(g.irq, i);
  }

  lemma EnterStep(s: CpuState, irq: nat)
    requires Good(s, 1) && IsWinner(s.hw.irq, irq)
    ensures irq < N_IRQS && Steady(Entered(s, irq))
    ensures |Entered(s, irq).hw.irq.status| < |s.hw.irq.status|
  {
    hide Recorded, HoldTime, SupplyOk, SwapsOk, SwapAsked, Apply, IsWinner, Inv, PositivePeriods;
    RecordedInv(s);
    InvLatched(s.hw);
    TakeHw(s.hw, irq);
    var p := s.hw.irq.prio[irq];
    EnterRecorded(s, irq);
    Push(s.history.frames, s.hw.irq.cur, s.currentIrq, Frame(irq, p));
    EnterLogs(s, irq);
    SamePositive(s.hw, Entered(s, irq).hw);
    DrainedLosesNothing(Entered(s, irq));
  }

  lemma SamePositive(h: Hw, g: Hw)
    requires g == h.(irq := g.irq)
    ensures PositivePeriods(g) == PositivePeriods(h)
  {
  }

  lemma EnterRecorded(s: CpuState, irq: nat)
    requires Recorded(s) && IsWinner(s.hw.irq, irq) && irq < |s.hw.irq.prio| && irq < N_IRQS
    ensures Recorded(Entered(s, irq))
  {
    hide Recorded, Logged, Takings, Apply, Inv, IsWinner;
    var p := s.hw.irq.prio[irq];
    RecordedInv(s);
    WinnerPending(s.hw, p, irq);
    StepRecorded(s, CurPrio(p));
    TakeRecorded(Stepped(s, CurPrio(p)), irq, s.hw);
    RecordedSame(Taken(Stepped(s, CurPrio(p)), irq, s.hw), Entered(s, irq));
  }

  /** The line is taken, to be served. */
  function Taken(s: CpuState, irq: nat, from: Hw): CpuState {
    var t := Stepped(s, ClearLine(irq, true));
    t.(history := t.history.(served := t.history.served + [Served(irq, from)]))
  }

  lemma TakeRecorded(s: CpuState, irq: nat, from: Hw)
    requires Recorded(s) && irq < N_IRQS && TakenBy(s.hw, ClearLine(irq, true)) == [irq] && irq in s.hw.irq.status
    ensures Recorded(Taken(s, irq, from))
  {
    hide Logged, Takings, TakesPending, SoftwareSteps, StepsOf, Apply;
    LoggedStep(s.boot, s.history.log, s.hw, ClearLine(irq, true));
    FrontLast(s.history.served, Served(irq, from));
  }

  /** The chosen line is there to be taken. */
  lemma WinnerPending(h: Hw, p: nat, irq: nat)
    requires Inv(h) && IsWinner(h.irq, irq)
    ensures TakenBy(Apply(h, CurPrio(p)), ClearLine(irq, true)) == [irq] && irq in Apply(h, CurPrio(p)).irq.status
  {
  }

  lemma EnterLogs(s: CpuState, irq: nat)
    requires IsWinner(s.hw.irq, irq) && irq < |s.hw.irq.prio|
    requires ServedOk(s.history.served)
    ensures ServedOk(Entered(s, irq).history.served)
    ensures PriosHeld(s.history.frames, s.hw.irq.prio) ==> PriosHeld(Entered(s, irq).history.frames, s.hw.irq.prio)
  {
  }

  /** The routine is over: s is the state the handler chose in, t the one the routine left. */
  function Left(s: CpuState, t: CpuState): CpuState {
    t.(hw := Apply(t.hw, CurPrio(s.hw.irq.cur)),
       currentIrq := s.currentIrq,
       history := t.history.(log := t.history.log + [CurPrio(s.hw.irq.cur)], frames := s.history.frames))
  }

  lemma LeaveStep(s: CpuState, irq: nat, t: CpuState)
    requires Good(s, 1) && IsWinner(s.hw.irq, irq) && irq < |s.hw.irq.prio|
    requires Good(t, 0) && RoutineRan(Entered(s, irq), t)
    ensures Good(Left(s, t), 1) && Resumed(s, Left(s, t), 0, multiset{}, 0) && RequestsKept(s, Left(s, t), 0)
    ensures Calm(s, Left(s, t)) && s.history.served + [Served(irq, s.hw)] <= Left(s, t).history.served
    ensures |Left(s, t).supply| < |s.supply| || |Left(s, t).hw.irq.status| < |s.hw.irq.status|
    ensures |Left(s, t).supply| <= |s.supply|
  {
    hide Run, IsRun, Takings, TakesPending, SoftwareSteps, StepsOf, ServedLines, HoldTime, CallsIn, SupplyOk,
      SwapsOk, SwapAsked,
      ServedOk, Inv, IsWinner;
    LoggedStep(t.boot, t.history.log, t.hw, CurPrio(s.hw.irq.cur));
    assert t.history.frames[..|s.history.frames|] == s.history.frames;
    TakeHw(s.hw, irq);
  }

  lemma LoopTrans(s0: CpuState, s1: CpuState, s2: CpuState)
    requires Resumed(s0, s1, 0, multiset{}, 0) && RequestsKept(s0, s1, 0) && Calm(s0, s1)
    requires Resumed(s1, s2, 0, multiset{}, 0) && RequestsKept(s1, s2, 0) && Calm(s1, s2)
    ensures Resumed(s0, s2, 0, multiset{}, 0) && RequestsKept(s0, s2, 0) && Calm(s0, s2)
  {
    hide HoldTime, CallsIn;
    var none: multiset<Action> := multiset{};
    ResumedTrans(s0, s1, s2, 0, 0, none, none);
    assert none + none == none;
  }

  /** A routine has run from s to t: one execution was used, if one was left; otherwise it did nothing. */
  ghost predicate RoutineRan(s: CpuState, t: CpuState) {
    && Resumed(s, t, 0, multiset{}, 1) && RequestsKept(s, t, 1)
    && (|t.supply| < |s.supply| || (t.supply == s.supply && t.hw == s.hw))
  }

  /** The routine on top of the stack begins: its execution is the next of the supply. */
  lemma SupplyStep(s: CpuState)
    requires Steady(s) && s.supply != []
    ensures var t := s.(supply := s.supply[1..]);
      && Steady(t)
      && BodyOk(s.supply[0].body, s.hw.cnt.period, s.horizon)
      && t.hw.now + HoldsOf(s.supply[0].body) + HoldTime(t.supply) <= s.horizon
  {
  }

  /** The routine that began in state s is done in state t and its request is recorded. */
  function Requested(s: CpuState, t: CpuState, direct: bool, answer: bool): CpuState {
    var before := if t.readsFirst then s.maySwap else t.maySwap;
    var request := Request(!direct || answer, direct, |s.history.requests|, s.currentIrq, s.hw.irq.cur);
    t.(maySwap := !direct || before || answer,
       history := t.history.(requests := t.history.requests + [request]))
  }

  /** What *may_swap says after one more routine. */
  lemma SwapAskedNext(r0: seq<Request>, r1: seq<Request>, last: Request, readsFirst: bool)
    requires r0 <= r1 && forall j :: |r0| <= j < |r1| ==> |r0| <= r1[j].start
    requires last.start == |r0| && (!last.direct ==> last.ask)
    ensures SwapAsked(r1 + [last], readsFirst)
       <==> last.ask || SwapAsked(if readsFirst then r0 else r1, readsFirst)
  {
    var r2 := r1 + [last];
    if last.ask {
      assert r2[|r1|].ask && Survives(r2, |r1|);
    } else if readsFirst {
      if i :| 0 <= i < |r0| && r0[i].ask && Survives(r0, i) {
        assert r2[i] == r0[i] && Survives(r2, i);
      }
      if i :| 0 <= i < |r2| && r2[i].ask && Survives(r2, i) {
        assert r2[|r1|].direct && i < |r0|;
        assert forall j :: 0 <= j < |r0| ==> r0[j] == r2[j];
        assert Survives(r0, i);
      }
    } else {
      if i :| 0 <= i < |r1| && r1[i].ask {
        assert r2[i].ask;
      }
    }
  }

  /** The request of the routine that ran in the innermost frame. */
  lemma RequestRecorded(s: CpuState, t: CpuState, direct: bool, answer: bool)
    requires Good(s, 0) && Good(t, 0) && t.history.frames == s.history.frames != [] && t.table == s.table
    requires RequestsKept(s, t, 0) && RoutineOf(s.table, s.currentIrq, direct)
    ensures var u := Requested(s, t, direct, answer);
      RequestsOk(u.history.requests, u.table, u.hw.irq.prio, u.history.prioChanged)
  {
    hide Recorded, WithinHorizon, HoldTime, SupplyOk, ServedOk, SwapsOk, SwapAsked;
  }

  lemma RequestStep(s: CpuState, t: CpuState, direct: bool, answer: bool)
    requires Good(s, 0) && Good(t, 0) && t.history.frames == s.history.frames != [] && t.readsFirst == s.readsFirst
    requires RequestsKept(s, t, 0) && t.table == s.table && RoutineOf(s.table, s.currentIrq, direct)
    ensures Good(Requested(s, t, direct, answer), 0) && RequestsKept(s, Requested(s, t, direct, answer), 1)
  {
    hide Recorded, HoldTime, SupplyOk, Stacked, PriosHeld, ServedOk, SwapsOk, SwapAsked, RequestsOk, RoutineOf,
      WithinHorizon;
    var u := Requested(s, t, direct, answer);
    RequestRecorded(s, t, direct, answer);
    SwapAskedNext(s.history.requests, t.history.requests, Last(u.history.requests), t.readsFirst);
    FrontLast(t.history.requests, Last(u.history.requests));
    RecordedSame(t, u);
  }

  lemma RoutineDone(s: CpuState, t: CpuState, direct: bool, answer: bool)
    requires Good(s, 0) && s.supply != [] && s.history.frames != [] && Good(t, 0)
    requires RoutineOf(s.table, s.currentIrq, direct)
    requires Kept(s.(supply := s.supply[1..]), t, HoldsOf(s.supply[0].body), multiset(s.supply[0].body))
    ensures Good(Requested(s, t, direct, answer), 0) && RoutineRan(s, Requested(s, t, direct, answer))
  {
    hide Good, RequestsKept, Resumed, HoldsOf, Kept, Requested;
    var u := s.(supply := s.supply[1..]);
    KeptParts(u, t, HoldsOf(s.supply[0].body), multiset(s.supply[0].body));
    KeptFacts(u, t, HoldsOf(s.supply[0].body), multiset(s.supply[0].body));
    RequestsFrom(u, s, t);
    RequestStep(s, t, direct, answer);
    ExecutionUsed(s, t);
    RequestedResumed(s, t, direct, answer);
  }

  lemma RequestedResumed(s: CpuState, t: CpuState, direct: bool, answer: bool)
    requires Resumed(s, t, 0, multiset{}, 1)
    ensures Resumed(s, Requested(s, t, direct, answer), 0, multiset{}, 1)
    ensures Requested(s, t, direct, answer).supply == t.supply
  {
    hide CallsIn, Rest, HoldTime, SameSetup;
  }

  lemma RequestsFrom(u: CpuState, s: CpuState, t: CpuState)
    requires RequestsKept(u, t, 0) && u.history == s.history && u.hw == s.hw
    ensures RequestsKept(s, t, 0)
  {
  }

  /** The execution the routine used is accounted for: its time and its calls. */
  lemma ExecutionUsed(s: CpuState, t: CpuState)
    requires s.supply != []
    requires Resumed(s.(supply := s.supply[1..]), t, HoldsOf(s.supply[0].body), multiset(s.supply[0].body), 0)
    ensures Resumed(s, t, 0, multiset{}, 1) && |t.supply| < |s.supply|
  {
    hide Rest, SameSetup;
    var body, none: multiset<Action> := multiset(s.supply[0].body), multiset{};
    RestRest(s.supply, 1, |t.history.served| - |s.history.served|);
    ShorterRest(s.supply, 1 + |t.history.served| - |s.history.served|);
    assert s.supply[1..] == Rest(s.supply, 1);
    Commute(multiset(s.history.calls), CallsIn(s.supply[1..]), body);
    Regroup(multiset(s.history.calls), body, CallsIn(s.supply[1..]), none);
  }

  lemma ShorterRest(supply: seq<Isr>, n: nat)
    requires supply != [] && n > 0
    ensures |Rest(supply, n)| < |supply| && Rest(supply, 1) == supply[1..]
  {
  }

  lemma Regroup<T>(a: multiset<T>, b: multiset<T>, c: multiset<T>, none: multiset<T>)
    requires none == multiset{}
    ensures a + b + c == a + (b + c) + none
  {
  }

  lemma EmptyRoutineDone(s: CpuState, direct: bool, answer: bool)
    requires Good(s, 0) && s.supply == [] && s.history.frames != [] && RoutineOf(s.table, s.currentIrq, direct)
    ensures Good(Requested(s, s, direct, answer), 0) && RoutineRan(s, Requested(s, s, direct, answer))
  {
    KeptRefl(s);
    RequestStep(s, s, direct, answer);
  }

  /** The body of the routine that began in state s has been executed: the next of the supply, or nothing. */
  ghost predicate RoutineMade(s: CpuState, t: CpuState) {
    if s.supply == [] then t == s
    else
      && Kept(s.(supply := s.supply[1..]), t, HoldsOf(s.supply[0].body), multiset(s.supply[0].body))
      && Performed(s.supply[0].body, s.history.calls, t.history.calls)
  }

  lemma RoutineOver(s: CpuState, t: CpuState, direct: bool, answer: bool)
    requires Steady(s) && Steady(t) && RoutineMade(s, t) && s.history.frames != []
    requires RoutineOf(s.table, s.currentIrq, direct)
    ensures var u := Requested(s, t, direct, answer);
      && Good(u, 0) && RoutineRan(s, u)
      && (s.supply != [] ==> Performed(s.supply[0].body, s.history.calls, u.history.calls))
  {
    hide Good, Kept, RoutineRan, Performed;
    SteadyFacts(s);
    SteadyFacts(t);
    if s.supply == [] {
      EmptyRoutineDone(s, direct, answer);
    } else {
      RoutineDone(s, t, direct, answer);
    }
  }

  /** posix_irq_handler's last steps. */
  function HandlerLeft(t: CpuState): CpuState
    requires t.nested > 0
  {
    var swap :=
      if t.maySwap && t.hw.irq.cur == 256 && t.otherReady then [Swap(t.nested - 1, t.history.requests)] else [];
    t.(nested := t.nested - 1, history := t.history.(swaps := t.history.swaps + swap))
  }

  lemma HandlerExit(s: CpuState, t: CpuState)
    requires Good(s, 0) && !s.hw.irq.locked && Good(t, 1)
    requires Resumed(HandlerEntered(s), t, 0, multiset{}, 0) && RequestsKept(HandlerEntered(s), t, 0)
    requires Calm(HandlerEntered(s), t)
    ensures t.nested > 0 && Good(HandlerLeft(t), 0)
    ensures Kept(s, HandlerLeft(t), 0, multiset{}) && Calm(s, HandlerLeft(t)) && SwapDecided(s, HandlerLeft(t))
  {
    LeftGood(t);
    LeftKept(s, t);
    LeftDecides(s, t);
  }

  lemma LeftGood(t: CpuState)
    requires Good(t, 1)
    ensures Good(HandlerLeft(t), 0)
  {
    hide Recorded, HoldTime, SupplyOk, PriosHeld, ServedOk, SwapAsked, WithinHorizon;
    RecordedSame(t, HandlerLeft(t));
  }

  lemma LeftKept(s: CpuState, t: CpuState)
    requires Stacked(t.history.frames, t.hw.irq.cur, t.currentIrq) && s.nested == |s.history.frames| && t.nested > 0
    requires Resumed(HandlerEntered(s), t, 0, multiset{}, 0) && RequestsKept(HandlerEntered(s), t, 0)
    requires Calm(HandlerEntered(s), t)
    ensures Kept(s, HandlerLeft(t), 0, multiset{}) && Calm(s, HandlerLeft(t))
  {
    hide HoldTime, CallsIn, Rest, SameSetup, SwapAsked;
  }

  lemma LeftDecides(s: CpuState, t: CpuState)
    requires Good(s, 0) && !s.hw.irq.locked && Good(t, 1)
    requires Resumed(HandlerEntered(s), t, 0, multiset{}, 0) && RequestsKept(HandlerEntered(s), t, 0)
    ensures SwapDecided(s, HandlerLeft(t))
  {
    hide Recorded, HoldTime, CallsIn, SupplyOk, PriosHeld, ServedOk, SwapAsked, SwapsOk, Rest, WithinHorizon, SameSetup;
  }

  /** What the methods of the CPU need of the invariant. */
  lemma GoodFacts(s: CpuState, extra: nat)
    requires Good(s, extra)
    ensures Latched(s.hw.irq) && Lines(s.hw.irq.mask) && Inv(s.hw)
    ensures s.nested == |s.history.frames| + extra && |s.hw.irq.prio| == N_IRQS && |s.table| == N_IRQS
  {
  }

  lemma SteadyFacts(s: CpuState)
    requires Steady(s)
    ensures Good(s, 0) && NothingLost(s)
  {
  }

  // ----- waiting for a wake

  /** Nothing but time, the event times and the pending interrupts have changed while the CPU waits. */
  ghost predicate Waiting(h0: Hw, h: Hw, D: u64) {
    && Inv(h) && h0.now <= h.now <= D && SameSetup(h0, h) && PositivePeriods(h)
    && h.irq.cur == h0.irq.cur && h.irq.prio == h0.irq.prio && h.irq.locked == h0.irq.locked
    && h.cnt.running == h0.cnt.running
    && (h0.now < h.now || Due(h) <= Due(h0))
  }

  lemma WaitTail(h0: Hw, h: Hw, D: u64)
    requires Waiting(h0, h, D) && h.inEvent && WakeComing(h, D) && D < NEVER
    ensures Waiting(h0, Apply(h, Tail), D) && WakeComing(Apply(h, Tail), D) && Due(Apply(h, Tail)) == Due(h)
  {
    SoftwareStepInv(h, Tail);
  }

  lemma WaitHead(h0: Hw, h: Hw, D: u64)
    requires Waiting(h0, h, D) && !h.inEvent && WakeComing(h, D)
    requires D + h.tmr.period < NEVER && (h.cnt.running ==> D + h.cnt.period < NEVER) && D < NEVER
    ensures Allowed(h, Head)
    ensures Waiting(h0, Event(h), D) && h.now <= Event(h).now && (h.now < Event(h).now || Due(Event(h)) < Due(h))
    ensures EventWakes(h) || WakeComing(Event(h), D)
  {
    StepInv(h, Head);
    WakeComingStep(h, Head, D);
    EventProgress(h);
    HeadSetup(h);
  }

  /** Only steps of the hardware have happened. */
  predicate SameButLog(h0: History, h1: History) {
    h1 == h0.(log := h1.log)
  }

  /** The last step was an event that woke the CPU. */
  predicate JustWoken(s: CpuState) {
    s.history.log != [] && Last(s.history.log).Head? && EventWakes(Run(s.boot, Front(s.history.log)))
  }

  /** The CPU has been waiting from s to t. */
  ghost predicate Waits(s: CpuState, t: CpuState, D: u64) {
    && Good(s, 0) && D + HoldTime(s.supply) <= s.horizon
    && Logged(s.boot, t.history.log, t.hw) && s.history.log <= t.history.log
    && Takings(s.boot, t.history.log) == Takings(s.boot, s.history.log)
    && SoftwareSteps(t.history.log) == SoftwareSteps(s.history.log) && TakesPending(s.boot, t.history.log)
    && Waiting(s.hw, t.hw, D)
  }

  lemma WaitStart(s: CpuState, D: u64)
    requires Good(s, 0) && WakeComing(s.hw, D) && D + HoldTime(s.supply) <= s.horizon
    ensures Waits(s, s, D)
  {
  }

  lemma WaitTailStep(s: CpuState, t: CpuState, D: u64)
    requires Waits(s, t, D) && t.hw.inEvent && WakeComing(t.hw, D)
    ensures Waits(s, Stepped(t, Tail), D) && WakeComing(Stepped(t, Tail).hw, D)
    ensures Due(Stepped(t, Tail).hw) == Due(t.hw) && Stepped(t, Tail).hw.now == t.hw.now && !Stepped(t, Tail).hw.inEvent
  {
    LoggedStep(s.boot, t.history.log, t.hw, Tail);
    WaitTail(s.hw, t.hw, D);
  }

  lemma HorizonOf(s: CpuState, h: Hw, D: u64)
    requires Good(s, 0) && D + HoldTime(s.supply) <= s.horizon && Waiting(s.hw, h, D)
    ensures D < NEVER && D + h.tmr.period < NEVER && (h.cnt.running ==> D + h.cnt.period < NEVER)
  {
  }

  lemma WaitingBound(h0: Hw, h: Hw, D: u64)
    requires Waiting(h0, h, D)
    ensures h.now <= D && (h0.now < h.now || Due(h) <= Due(h0))
  {
  }

  lemma LatchedOf(h: Hw)
    requires Inv(h)
    ensures Latched(h.irq) && (!h.inEvent ==> h.nextIndex <= HW_COUNTER)
  {
  }

  lemma HeadInEvent(h: Hw)
    ensures Event(h).inEvent
  {
  }

  lemma WaitHeadStep(s: CpuState, t: CpuState, D: u64)
    requires Waits(s, t, D) && !t.hw.inEvent && WakeComing(t.hw, D) && t.boot == s.boot
    ensures Latched(t.hw.irq) && t.hw.nextIndex <= HW_COUNTER
    ensures Waits(s, Stepped(t, Head), D) && Stepped(t, Head).hw.inEvent
    ensures EventWakes(t.hw) ==> JustWoken(Stepped(t, Head))
    ensures EventWakes(t.hw) || WakeComing(Stepped(t, Head).hw, D)
    ensures t.hw.now < Stepped(t, Head).hw.now <= D
         || (Due(Stepped(t, Head).hw) < Due(t.hw) && Stepped(t, Head).hw.now == t.hw.now)
    ensures s.hw.now < Stepped(t, Head).hw.now || Due(Stepped(t, Head).hw) < Due(s.hw)
  {
    hide Good, Inv, PositivePeriods, Due, WakeComing, Run, IsRun, EventWakes, Event, Takings,
      ServedLines, HoldTime, SameSetup;
    HorizonOf(s, t.hw, D);
    WaitHead(s.hw, t.hw, D);
    LoggedStep(s.boot, t.history.log, t.hw, Head);
    WaitingBound(s.hw, t.hw, D);
    WaitingBound(s.hw, Event(t.hw), D);
    LatchedOf(t.hw);
    HeadInEvent(t.hw);
    assert Front(t.history.log + [Head]) == t.history.log;
  }

  lemma WaitEnd(s: CpuState, t: CpuState, D: u64)
    requires Waits(s, t, D) && t == s.(hw := t.hw, history := t.history) && SameButLog(s.history, t.history)
    requires t.hw.inEvent
    ensures Good(t, 0) && Kept(s, t, t.hw.now - s.hw.now, multiset{}) && t.hw.now <= D
  {
    hide Good, Kept, Logged, Inv, HoldTime, PositivePeriods, Due;
    GoodRecorded(s, 0);
    StaysGood(s, t, 0);
    StaysKept(s, t, multiset{});
  }

  lemma WakeAtSets(h: Hw, time: u64)
    requires Inv(h) && h.now < time
    ensures WakeComing(Apply(h, WakeAt(time)), time) && Due(Apply(h, WakeAt(time))) <= Due(h)
    ensures Apply(h, WakeAt(time)).now == h.now
  {
    hide Latched, CacheExact;
  }

  /** One turn of a waiting loop: ask to be woken (s to t), halt (t to u), run the handler (u to v).  It
      waited; or a routine was run; or an event due at the present instant was used up. */
  lemma WaitTurn(s: CpuState, t: CpuState, u: CpuState, v: CpuState)
    requires Kept(s, t, 0, multiset{}) && Kept(t, u, u.hw.now - t.hw.now, multiset{}) && Kept(u, v, 0, multiset{})
    requires t.supply == s.supply && u.supply == t.supply && t.hw.now == s.hw.now && Due(t.hw) <= Due(s.hw)
    requires t.hw.now < u.hw.now || Due(u.hw) < Due(t.hw)
    requires Calm(u, v)
    ensures Waited(s, v, u.hw.now - s.hw.now)
  {
    hide Kept, Due;
    if v.supply == u.supply {
      CalmDue(u, v);
    }
    KeptFacts(u, v, 0, multiset{});
    KeptFacts(t, u, u.hw.now - t.hw.now, multiset{});
    KeptThen(s, t, u, 0, u.hw.now - t.hw.now, multiset{});
    KeptThen(s, u, v, u.hw.now - t.hw.now, 0, multiset{});
  }

  /** A turn of a waiting loop has gone from s to v, and waited w microseconds itself. */
  ghost predicate Waited(s: CpuState, v: CpuState, w: int) {
    && Kept(s, v, w, multiset{}) && 0 <= w <= v.hw.now - s.hw.now && |v.supply| <= |s.supply|
    && (0 < w || |v.supply| < |s.supply| || Due(v.hw) < Due(s.hw))
  }

  lemma WaitedOn(s0: CpuState, s: CpuState, v: CpuState, c: int, w: int, own: multiset<Action>)
    requires Kept(s0, s, c, own) && Waited(s, v, w)
    ensures Kept(s0, v, c + w, own) && 0 <= w && s.hw.now + w <= v.hw.now && |v.supply| <= |s.supply|
    ensures 0 < w || |v.supply| < |s.supply| || Due(v.hw) < Due(s.hw)
  {
    hide Kept, Due;
    KeptThen(s0, s, v, c, w, own);
  }

  lemma HorizonFacts(s: CpuState)
    requires Good(s, 0)
    ensures s.horizon < NEVER && s.hw.now + HoldTime(s.supply) <= s.horizon
  {
  }

  /** An event that does not wake the CPU loses no interrupt. */
  lemma HeadLosesNothing(h: Hw)
    requires Inv(h) && Allowed(h, Head) && !EventWakes(h) && (Drained(h.irq) || h.irq.timer == h.now)
    ensures Drained(Event(h).irq) || Event(h).irq.timer == Event(h).now
  {
  }

  /** One event of the event loop, while no routine runs. */
  lemma EventTurn(s: CpuState)
    requires Steady(s) && s.history.frames == [] && !s.hw.inEvent
    requires s.hw.nextTime + HoldTime(s.supply) <= s.horizon
    ensures var t := Stepped(s, Head);
      && Good(t, 0) && Kept(s, t, t.hw.now - s.hw.now, multiset{}) && t.hw.inEvent && t.hw.now == s.hw.nextTime
      && (!EventWakes(s.hw) ==> NothingLost(t))
  {
    hide Good, Kept, Recorded, HoldTime, Inv, Event, EventWakes;
    var h, t := s.hw, Stepped(s, Head);
    GoodRecorded(s, 0);
    RecordedInv(s);
    EventWithin(h);
    EventFacts(s);
    StepRecorded(s, Head);
    StaysGood(s, t, 0);
    StaysKept(s, t, multiset{});
  }

  lemma EventFacts(s: CpuState)
    requires Inv(s.hw) && Allowed(s.hw, Head) && s.hw.nextTime + s.hw.tmr.period < NEVER && PositivePeriods(s.hw)
    ensures var g := Event(s.hw);
      && SameSetup(s.hw, g) && PositivePeriods(g) && g.irq.cur == s.hw.irq.cur && g.irq.prio == s.hw.irq.prio
      && g.cnt.running == s.hw.cnt.running
    ensures NothingLost(s) && !EventWakes(s.hw) ==> NothingLost(Stepped(s, Head))
  {
    hide Event, Inv, EventWakes;
    HeadSetup(s.hw);
    EventProgress(s.hw);
    if !EventWakes(s.hw) && (Drained(s.hw.irq) || s.hw.irq.timer == s.hw.now) {
      HeadLosesNothing(s.hw);
    }
  }

  lemma EventWithin(h: Hw)
    requires Inv(h) && !h.inEvent && h.nextTime + h.tmr.period < NEVER
    requires h.cnt.running ==> h.nextTime + h.cnt.period < NEVER
    ensures Allowed(h, Head) && Event(h).now == h.nextTime && h.now <= h.nextTime && Event(h).inEvent
  {
    EventSound(h);
  }

  lemma NextIsKnown(h: Hw)
    requires Inv(h) && !h.inEvent
    ensures Latched(h.irq) && h.nextIndex <= HW_COUNTER && Sleep(h).now == h.nextTime
  {
  }

  lemma CalmDue(t: CpuState, u: CpuState)
    requires Calm(t, u) && u.supply == t.supply
    ensures Due(u.hw) == Due(t.hw) && u.hw.now == t.hw.now
  {
  }

  /** The search that ends an event. */
  lemma TailStep(s0: CpuState, u: CpuState, c: int, own: multiset<Action>)
    requires Kept(s0, u, c, own) && Steady(u) && u.hw.inEvent && !s0.hw.inEvent
    ensures var v := Stepped(u, Tail);
      Steady(v) && Kept(s0, v, c, own) && !v.hw.inEvent && v.hw.now == u.hw.now
  {
    hide Good, Kept, Recorded, HoldTime, Inv, Apply, Due, Drained;
    var v := Stepped(u, Tail);
    GoodRecorded(u, 0);
    StepRecorded(u, Tail);
    TailHw(u.hw);
    StaysGood(u, v, 0);
    KeptTail(s0, u, c, own);
  }

  lemma KeptTail(s0: CpuState, u: CpuState, c: int, own: multiset<Action>)
    requires Kept(s0, u, c, own) && !s0.hw.inEvent
    ensures Kept(s0, Stepped(u, Tail), c, own)
  {
    hide HoldTime, CallsIn, Rest, Apply;
    TailHw(u.hw);
  }

  lemma TailHw(h: Hw)
    ensures var g := Apply(h, Tail);
      && g == h.(nextTime := g.nextTime, nextIndex := g.nextIndex, inEvent := false) && Due(g) == Due(h)
  {
  }

  // ----- no lost interrupt

  /** A thread that halts, unlocked and with interrupts pending, is woken at once. */
  lemma WakeIsDue(s: CpuState)
    requires Steady(s) && s.history.frames == [] && !s.hw.irq.locked && s.hw.irq.status != {}
    ensures WakeComing(s.hw, s.hw.now)
  {
    hide Recorded;
    GoodRecorded(s, 0);
    RecordedInv(s);
    InvLatched(s.hw);
    AtThreadLevel(s);
    DrainedAtThreadLevel(s.hw.irq);
  }

  lemma NextEventIsDue(s: CpuState)
    requires Steady(s) && s.history.frames == [] && !s.hw.inEvent
    ensures !s.hw.irq.locked && s.hw.irq.status != {} ==> s.hw.nextTime == s.hw.now
  {
    hide Recorded;
    GoodRecorded(s, 0);
    RecordedInv(s);
    InvLatched(s.hw);
    AtThreadLevel(s);
    if !s.hw.irq.locked {
      DrainedAtThreadLevel(s.hw.irq);
    }
    CachedNext(s.hw);
  }

  lemma CachedNext(h: Hw)
    requires Inv(h) && !h.inEvent
    ensures h.now <= h.nextTime <= h.irq.timer
  {
  }

  lemma AllDispatched(s0: CpuState, s1: CpuState)
    requires Good(s0, 0) && s0.history.frames == [] && Dispatched(s0, s1)
    ensures forall l :: l in s0.hw.irq.status ==> LineDispatched(s0, s1, l)
  {
    hide Recorded, LineDispatched;
    GoodRecorded(s0, 0);
    RecordedInv(s0);
    InvLatched(s0.hw);
    AtThreadLevel(s0);
  }

  /** What was served first stays first. */
  lemma FirstStays(t: CpuState, u: CpuState, v: CpuState)
    requires FirstServed(t, u) && u.history.served <= v.history.served
    ensures FirstServed(t, v)
  {
  }

  /** Time for a loop of events of at most a period each, and the thread's calls after each. */
  function LoopTime(thread: seq<seq<Action>>, period: nat): nat {
    if thread == [] then 0 else period + HoldsOf(thread[0]) + LoopTime(thread[1..], period)
  }

  /** No sum of times in the loop passes the horizon: the tick is armed and there is room for as many periods; or there
      is room after the end of time. */
  predicate LoopOk(s: CpuState, thread: seq<seq<Action>>) {
    || (s.hw.tmr.tick != NEVER && s.hw.now + LoopTime(thread, s.hw.tmr.period) + HoldTime(s.supply) <= s.horizon)
    || s.hw.endOfTime + LoopTime(thread, 0) + HoldTime(s.supply) <= s.horizon
  }

  /** The next event ends the process, or there is room for it and what the thread does after it. */
  predicate TurnOk(s: CpuState, body: seq<Action>) {
    s.hw.nextTime > s.hw.endOfTime || s.hw.nextTime + HoldsOf(body) + HoldTime(s.supply) <= s.horizon
  }

  lemma LoopTurnOk(s: CpuState, thread: seq<seq<Action>>)
    requires Steady(s) && !s.hw.inEvent && thread != [] && LoopOk(s, thread)
    ensures TurnOk(s, thread[0]) && (s.hw.tmr.tick != NEVER ==> s.hw.nextTime <= s.hw.now + s.hw.tmr.period)
  {
    hide Good, HoldTime, HoldsOf;
    GoodRecorded(s, 0);
    RecordedInv(s);
  }

  /** One turn of the event loop has gone from s to v. */
  ghost predicate TurnMade(s: CpuState, v: CpuState, body: seq<Action>) {
    var e := s.hw.nextTime - s.hw.now;
    Kept(s, v, e + HoldsOf(body), multiset(body)) || Kept(s, v, e, multiset{})
  }

  lemma LoopTurn(s: CpuState, v: CpuState, thread: seq<seq<Action>>)
    requires thread != [] && LoopOk(s, thread) && TurnMade(s, v, thread[0])
    requires s.hw.tmr.tick != NEVER ==> s.hw.nextTime <= s.hw.now + s.hw.tmr.period
    ensures LoopOk(v, thread[1..]) && v.history.frames == s.history.frames
    ensures v.hw.tmr.period == s.hw.tmr.period && v.hw.cnt.period == s.hw.cnt.period && v.hw.endOfTime == s.hw.endOfTime
    ensures s.hw.tmr.tick != NEVER ==>
      && v.hw.tmr.tick != NEVER
      && v.hw.now + HoldTime(v.supply) + LoopTime(thread[1..], s.hw.tmr.period)
           <= s.hw.now + HoldTime(s.supply) + LoopTime(thread, s.hw.tmr.period)
  {
    hide HoldTime, HoldsOf, CallsIn, Rest;
    RestHolds(s.supply, |v.history.served| - |s.history.served|);
  }

  lemma {:induction false} RestHolds(supply: seq<Isr>, n: nat)
    ensures HoldTime(Rest(supply, n)) <= HoldTime(supply)
  {
    if n > 0 && supply != [] {
      RestHolds(supply[1..], n - 1);
      RestRest(supply, 1, n - 1);
      assert Rest(supply, 1) == supply[1..];
    }
  }

  // ----- the swap decision

  /** A handler call with interrupts locked does nothing.  An outermost one decides on a swap once no routine
      runs: it swaps exactly if another thread is ready and a routine run since it began, however deeply
      nested, asked for it. */
  predicate SwapDecided(s0: CpuState, s1: CpuState) {
    if s0.hw.irq.locked then
      s1 == s0
    else
      s0.history.frames == [] ==>
        && |s1.history.requests| == |s1.history.served| - |s0.history.served|
        && s1.history.swaps
             == s0.history.swaps
                + (if SwapAsked(s1.history.requests, s1.readsFirst) && s1.otherReady
                   then [Swap(0, s1.history.requests)] else [])
  }

  lemma LockedDecides(s: CpuState)
    requires s.hw.irq.locked
    ensures SwapDecided(s, s)
  {
  }

  // ----- nothing pending is thrown away

  /** Line l was served, or cleared by a call of software, since; or it is still pending, with interrupts locked
      again or its priority changed. */
  predicate LineDispatched(s0: CpuState, s1: CpuState, l: nat) {
    || (exists k :: |s0.history.served| <= k < |s1.history.served| && s1.history.served[k].irq == l)
    || (exists k :: |s0.history.calls| <= k < |s1.history.calls| && s1.history.calls[k] == Clear(l))
    || (l in s1.hw.irq.status
        && (s1.hw.irq.locked || (l < |s0.hw.irq.prio| == |s1.hw.irq.prio| && s1.hw.irq.prio[l] != s0.hw.irq.prio[l])))
  }

  /** Every line that could have interrupted in state s0, had interrupts been unlocked, is dispatched by s1. */
  ghost predicate Dispatched(s0: CpuState, s1: CpuState) {
    forall l :: Beats(s0.hw.irq, l) ==> LineDispatched(s0, s1, l)
  }

  /** The routine of the line of the highest priority that can interrupt in state s0, if any, is the first run since. */
  ghost predicate FirstServed(s0: CpuState, s1: CpuState) {
    forall w: nat :: IsWinner(s0.hw.irq, w) ==> s0.history.served + [Served(w, s0.hw)] <= s1.history.served
  }

  lemma {:induction false} ServedLinesAre(served: seq<Served>)
    ensures |ServedLines(served)| == |served|
    ensures forall k :: 0 <= k < |served| ==> ServedLines(served)[k] == served[k].irq
  {
    if served != [] {
      ServedLinesAre(Front(served));
    }
  }

  /** A step of software since c0 is the step of a call made since. */
  lemma {:induction false} StepOfCall(c0: seq<Action>, c1: seq<Action>, op: Op) returns (k: nat)
    requires c0 <= c1 && StepsOf(c0) <= StepsOf(c1) && op in StepsOf(c1)[|StepsOf(c0)|..]
    ensures |c0| <= k < |c1| && StepOf(c1[k]) == [op]
  {
    hide StepOf;
    assert c0 != c1;
    var front, last := Front(c1), Last(c1);
    assert c1 == front + [last] && c0 <= front;
    StepsAppend(front, last);
    StepsGrow(c0, front);
    OneStep(last);
    assert StepsOf(c1)[|StepsOf(c0)|..] == StepsOf(front)[|StepsOf(c0)|..] + StepOf(last);
    if op in StepOf(last) {
      k := |c1| - 1;
    } else {
      k := StepOfCall(c0, front, op);
    }
  }

  lemma OneStep(a: Action)
    ensures |StepOf(a)| <= 1
  {
  }

  lemma {:induction false} StepsGrow(c0: seq<Action>, c1: seq<Action>)
    requires c0 <= c1
    ensures StepsOf(c0) <= StepsOf(c1)
  {
    if |c0| < |c1| {
      StepsGrow(c0, Front(c1));
    } else {
      assert c0 == c1;
    }
  }

  /** Only Clear(l) clears line l. */
  lemma ClearsLineIs(a: Action, op: Op, l: nat)
    requires StepOf(a) == [op] && ClearsLine(op, l)
    ensures a == Clear(l)
  {
  }

  /** A pending line no longer pending was served, or cleared by a call. */
  lemma PendingLeaves(s0: CpuState, s1: CpuState, l: nat)
    requires Recorded(s0) && Recorded(s1) && s1.boot == s0.boot && s0.history.log <= s1.history.log
    requires s0.history.calls <= s1.history.calls && s0.history.served <= s1.history.served
    requires l in s0.hw.irq.status && l !in s1.hw.irq.status
    ensures LineDispatched(s0, s1, l)
  {
    hide Inv, Takings, TakesPending, SoftwareSteps, StepsOf, IsRun, Run, ClearsLine, StepOf;
    var h0, h1 := s0.history, s1.history;
    TakenOrCleared(s0.boot, h0.log, h1.log, l);
    ServedLinesAre(h0.served);
    ServedLinesAre(h1.served);
    if l in Takings(s0.boot, h1.log)[|h0.served|..] {
      var k :| |h0.served| <= k < |h1.served| && ServedLines(h1.served)[k] == l;
      assert h1.served[k].irq == l;
    } else {
      var op :| op in SoftwareSteps(h1.log)[|SoftwareSteps(h0.log)|..] && ClearsLine(op, l);
      StepsGrow(h0.calls, h1.calls);
      var k := StepOfCall(h0.calls, h1.calls, op);
      ClearsLineIs(h1.calls[k], op, l);
    }
  }

  /** Once drained, nothing that could interrupt has been thrown away. */
  lemma DispatchedWhenDrained(s0: CpuState, s1: CpuState, cost: int, own: multiset<Action>)
    requires Good(s0, 0) && Good(s1, 0) && Kept(s0, s1, cost, own) && Drained(s1.hw.irq)
    ensures Dispatched(s0, s1)
  {
    hide Recorded, HoldTime, CallsIn, SupplyOk, Stacked, PriosHeld, ServedOk, SwapsOk, SwapAsked, LineDispatched, Rest;
    forall l | Beats(s0.hw.irq, l) ensures LineDispatched(s0, s1, l) {
      if l in s1.hw.irq.status {
        RecordedInv(s1);
        RecordedInv(s0);
        StillPending(s0, s1, l);
      } else {
        PendingLeaves(s0, s1, l);
      }
    }
  }

  /** A state from which nothing can interrupt is steady, and nothing was thrown away on the way to it. */
  lemma Settled(s0: CpuState, s1: CpuState, cost: int, own: multiset<Action>)
    requires Good(s0, 0) && Good(s1, 0) && Kept(s0, s1, cost, own) && Drained(s1.hw.irq)
    ensures Steady(s1) && Dispatched(s0, s1)
  {
    hide Good, Kept, Dispatched;
    DrainedLosesNothing(s1);
    DispatchedWhenDrained(s0, s1, cost, own);
  }

  /** The history of s1 goes on from that of s0. */
  predicate Follows(s0: CpuState, s1: CpuState) {
    && s0.boot == s1.boot && s0.history.log <= s1.history.log
    && s0.history.calls <= s1.history.calls && s0.history.served <= s1.history.served
  }

  /** A call was made (s to t), and the handler ran (t to u). */
  lemma Continued(s: CpuState, t: CpuState, u: CpuState, a: Action)
    requires Kept(s, t, 0, multiset{a}) && Kept(t, u, 0, multiset{})
    requires Good(s, 0) && Good(u, 0) && Drained(u.hw.irq)
    ensures Kept(s, u, 0, multiset{a}) && Follows(t, u) && Dispatched(s, u)
  {
    hide Good, Kept, Dispatched;
    KeptThen(s, t, u, 0, 0, multiset{a});
    KeptFollows(t, u, 0, multiset{});
    DispatchedWhenDrained(s, u, 0, multiset{a});
  }

  lemma KeptFollows(s: CpuState, t: CpuState, cost: int, own: multiset<Action>)
    requires Kept(s, t, cost, own)
    ensures Follows(s, t) && s.hw.irq.cur == t.hw.irq.cur
  {
  }

  lemma EnableAllowed(h: Hw, irq: nat)
    requires irq < N_IRQS
    ensures Allowed(h, EnableLine(irq))
  {
  }

  lemma MadeSteady(t: CpuState)
    requires Good(t, 0) && NothingLost(t)
    ensures Steady(t) && Follows(t, t)
  {
  }

  /** A line pending in x, between s and v, whose priority could interrupt in s, is dispatched once v is drained. */
  lemma DispatchedSince(s: CpuState, x: CpuState, v: CpuState, l: nat)
    requires Recorded(x) && Recorded(v) && Follows(s, x) && Follows(x, v) && l in x.hw.irq.status
    requires Latched(s.hw.irq) && l < N_IRQS && s.hw.irq.prio[l] < s.hw.irq.cur
    requires v.hw.irq.cur == s.hw.irq.cur && Drained(v.hw.irq)
    ensures LineDispatched(s, v, l)
  {
    hide Logged, Takings, TakesPending, SoftwareSteps, StepsOf, ServedLines, Inv;
    RecordedInv(v);
    if l in v.hw.irq.status {
      InvLatched(v.hw);
    } else {
      PendingLeaves(x, v, l);
    }
  }

  function OffloadCalls(): multiset<Action> {
    multiset{Enable(OFFLOAD_SW_IRQ), Action.Raise(OFFLOAD_SW_IRQ), Disable(OFFLOAD_SW_IRQ)}
  }

  /** The offload line is enabled (s to t), raised (t to u) and disabled again (u to v). */
  lemma Offloaded(s: CpuState, t: CpuState, u: CpuState, v: CpuState)
    requires Good(s, 0) && Good(t, 0) && Good(v, 0) && v == CallMade(u, Disable(OFFLOAD_SW_IRQ))
    requires Kept(s, t, 0, multiset{Enable(OFFLOAD_SW_IRQ)}) && Follows(CallMade(s, Enable(OFFLOAD_SW_IRQ)), t)
    requires OFFLOAD_SW_IRQ !in s.hw.irq.premask ==> t == CallMade(s, Enable(OFFLOAD_SW_IRQ))
    requires Kept(t, u, 0, multiset{Action.Raise(OFFLOAD_SW_IRQ)})
    requires Follows(CallMade(t, Action.Raise(OFFLOAD_SW_IRQ)), u)
    requires Kept(u, v, 0, multiset{Disable(OFFLOAD_SW_IRQ)}) && Drained(v.hw.irq)
    ensures Kept(s, v, 0, OffloadCalls())
    ensures OFFLOAD_SW_IRQ < |s.hw.irq.prio| && s.hw.irq.prio[OFFLOAD_SW_IRQ] < s.hw.irq.cur ==>
      LineDispatched(s, v, OFFLOAD_SW_IRQ)
  {
    hide Good, Kept, Drained, CallMade, LineDispatched;
    OffloadKept(s, t, u, v);
    KeptFollows(u, v, 0, multiset{Disable(OFFLOAD_SW_IRQ)});
    KeptFollows(s, v, 0, OffloadCalls());
    OffloadDispatched(s, t, u, v);
  }

  lemma OffloadKept(s: CpuState, t: CpuState, u: CpuState, v: CpuState)
    requires Kept(s, t, 0, multiset{Enable(OFFLOAD_SW_IRQ)})
    requires Kept(t, u, 0, multiset{Action.Raise(OFFLOAD_SW_IRQ)})
    requires Kept(u, v, 0, multiset{Disable(OFFLOAD_SW_IRQ)})
    ensures Kept(s, v, 0, OffloadCalls())
  {
    hide Kept;
    var l := OFFLOAD_SW_IRQ;
    KeptTrans(s, t, u, 0, 0, multiset{Enable(l)}, multiset{Action.Raise(l)});
    KeptTrans(s, u, v, 0, 0, multiset{Enable(l)} + multiset{Action.Raise(l)}, multiset{Disable(l)});
    assert multiset{Enable(l)} + multiset{Action.Raise(l)} + multiset{Disable(l)} == OffloadCalls();
  }

  lemma OffloadDispatched(s: CpuState, t: CpuState, u: CpuState, v: CpuState)
    requires Good(s, 0) && Good(t, 0) && Good(v, 0) && Follows(u, v) && v.hw.irq.cur == s.hw.irq.cur
    requires Follows(CallMade(s, Enable(OFFLOAD_SW_IRQ)), t)
    requires OFFLOAD_SW_IRQ !in s.hw.irq.premask ==> t == CallMade(s, Enable(OFFLOAD_SW_IRQ))
    requires Follows(CallMade(t, Action.Raise(OFFLOAD_SW_IRQ)), u) && Drained(v.hw.irq)
    ensures OFFLOAD_SW_IRQ < |s.hw.irq.prio| && s.hw.irq.prio[OFFLOAD_SW_IRQ] < s.hw.irq.cur ==>
      LineDispatched(s, v, OFFLOAD_SW_IRQ)
  {
    hide Good, Recorded, Drained, Inv, CallMade, LineDispatched;
    var l := OFFLOAD_SW_IRQ;
    GoodRecorded(s, 0);
    GoodRecorded(t, 0);
    GoodRecorded(v, 0);
    RecordedInv(s);
    InvLatched(s.hw);
    MadeRecorded(s, Enable(l));
    MadeRecorded(t, Action.Raise(l));
    if l < |s.hw.irq.prio| && s.hw.irq.prio[l] < s.hw.irq.cur {
      if l in s.hw.irq.premask {
        PendingEnabled(s, l);
        DispatchedSince(s, CallMade(s, Enable(l)), v, l);
      } else {
        EnabledRaised(s, l);
        DispatchedSince(s, CallMade(t, Action.Raise(l)), v, l);
      }
    }
  }

  lemma MadeRecorded(s: CpuState, a: Action)
    requires Recorded(s) && (a == Enable(OFFLOAD_SW_IRQ) || a == Action.Raise(OFFLOAD_SW_IRQ))
    ensures Recorded(CallMade(s, a)) && Follows(s, CallMade(s, a))
  {
    hide Recorded;
    EnableAllowed(s.hw, OFFLOAD_SW_IRQ);
    CallRecorded(s, a);
  }

  lemma PendingEnabled(s: CpuState, l: nat)
    requires l in s.hw.irq.premask && l < N_IRQS
    ensures l in CallMade(s, Enable(l)).hw.irq.status
  {
  }

  lemma EnabledRaised(s: CpuState, l: nat)
    requires l < N_IRQS
    ensures l in CallMade(CallMade(s, Enable(l)), Action.Raise(l)).hw.irq.status
  {
  }

  lemma NoneServed(s0: CpuState, s1: CpuState)
    requires Drained(s0.hw.irq)
    ensures FirstServed(s0, s1)
  {
  }

  lemma WinnerServed(s0: CpuState, s1: CpuState, winner: int)
    requires Latched(s0.hw.irq) && IsWinner(s0.hw.irq, winner)
    requires winner >= 0 ==> s0.history.served + [Served(winner, s0.hw)] <= s1.history.served
    ensures FirstServed(s0, s1)
  {
    forall w: nat | IsWinner(s0.hw.irq, w) ensures s0.history.served + [Served(w, s0.hw)] <= s1.history.served {
      WinnerIsUnique(s0.hw.irq, w, winner);
    }
  }

  lemma ServedGrows(s: CpuState, t: CpuState)
    requires Resumed(s, t, 0, multiset{}, 0)
    ensures s.history.served <= t.history.served
  {
  }

  lemma StillPending(s0: CpuState, s1: CpuState, l: nat)
    requires Inv(s0.hw) && Inv(s1.hw) && Beats(s0.hw.irq, l) && Drained(s1.hw.irq) && l in s1.hw.irq.status
    requires s1.hw.irq.cur == s0.hw.irq.cur
    ensures LineDispatched(s0, s1, l)
  {
  }

  // ----- what the loops of the CPU keep

  /** The handler entered in state s0 has got to t and chosen irq next; `winner` was its first choice. */
  ghost predicate Serving(s0: CpuState, t: CpuState, irq: int, winner: int) {
    && Good(t, 1) && IsWinner(t.hw.irq, irq)
    && Resumed(HandlerEntered(s0), t, 0, multiset{}, 0) && RequestsKept(HandlerEntered(s0), t, 0)
    && Calm(HandlerEntered(s0), t)
    && ((irq == winner && t == HandlerEntered(s0))
        || (winner >= 0 && s0.history.served + [Served(winner, s0.hw)] <= t.history.served))
  }

  lemma ServingStarts(s0: CpuState, t: CpuState, winner: int)
    requires Good(t, 1) && t == HandlerEntered(s0) && IsWinner(t.hw.irq, winner)
    ensures Serving(s0, t, winner, winner)
  {
    hide Good;
    KeptRefl(t);
  }

  lemma ServingFacts(s0: CpuState, t: CpuState, irq: int, winner: int)
    requires Serving(s0, t, irq, winner)
    ensures Good(t, 1) && IsWinner(t.hw.irq, irq) && (irq != -1 ==> 0 <= irq < N_IRQS) && t.nested > 0
    ensures |t.supply| <= |s0.supply|
  {
    hide IsWinner, RequestsKept, Calm;
    GoodFacts(t, 1);
    RestRest(s0.supply, |t.history.served| - |s0.history.served|, 0);
    if irq != -1 {
      WinnerIsLine(t.hw.irq, irq);
    }
  }

  lemma ServingGoesOn(s0: CpuState, s: CpuState, t: CpuState, irq: nat, next: int, winner: int)
    requires Serving(s0, s, irq, winner) && Good(t, 1) && IsWinner(t.hw.irq, next)
    requires Resumed(s, t, 0, multiset{}, 0) && RequestsKept(s, t, 0) && Calm(s, t)
    requires s.history.served + [Served(irq, s.hw)] <= t.history.served
    ensures Serving(s0, t, next, winner)
  {
    hide Good, IsWinner, Resumed, RequestsKept, Calm;
    LoopTrans(HandlerEntered(s0), s, t);
    ServedGrows(s, t);
  }

  lemma ServingEnds(s0: CpuState, t: CpuState, winner: int)
    requires Good(s0, 0) && !s0.hw.irq.locked && Serving(s0, t, -1, winner) && t.nested > 0
    requires IsWinner(s0.hw.irq, winner)
    ensures var v := HandlerLeft(t);
      && Steady(v) && Kept(s0, v, 0, multiset{}) && Drained(v.hw.irq) && Calm(s0, v) && SwapDecided(s0, v)
      && FirstServed(s0, v) && Dispatched(s0, v)
  {
    hide Good, IsWinner, Resumed, RequestsKept, Calm, Kept, SwapDecided, Steady, FirstServed, Dispatched;
    GoodFacts(s0, 0);
    HandlerExit(s0, t);
    Settled(s0, HandlerLeft(t), 0, multiset{});
    WinnerServed(s0, HandlerLeft(t), winner);
  }

  /** Of a body begun in state s0 the first i calls have been made. */
  ghost predicate Made(s0: CpuState, s: CpuState, body: seq<Action>, i: nat) {
    && i <= |body|
    && Kept(s0, s, HoldsOf(body) - HoldsOf(body[i..]), multiset(body[..i]))
    && Performed(body[..i], s0.history.calls, s.history.calls)
  }

  lemma MadeNone(s: CpuState, body: seq<Action>)
    ensures Made(s, s, body, 0)
  {
    hide Kept;
    KeptRefl(s);
    assert body[0..] == body;
  }

  lemma MadeFacts(s0: CpuState, s: CpuState, body: seq<Action>, i: nat)
    requires Made(s0, s, body, i) && i < |body| && BodyOk(body, s0.hw.cnt.period, s0.horizon)
    requires s0.hw.now + HoldsOf(body) + HoldTime(s0.supply) <= s0.horizon
    ensures ActionOk(body[i], s.hw.cnt.period, s.horizon) && |s.supply| <= |s0.supply|
    ensures s.hw.now + HoldOf(body[i]) + HoldTime(s.supply) <= s.horizon
  {
    hide Made, Kept, HoldsOf, HoldTime, HoldOf, ActionOk;
    HoldsFrom(body, i);
    MadeKept(s0, s, body, i);
    KeptFacts(s0, s, HoldsOf(body) - HoldsOf(body[i..]), multiset(body[..i]));
    assert body[i] in body;
  }

  lemma MadeKept(s0: CpuState, s: CpuState, body: seq<Action>, i: nat)
    requires Made(s0, s, body, i) && i <= |body|
    ensures Kept(s0, s, HoldsOf(body) - HoldsOf(body[i..]), multiset(body[..i]))
  {
    hide Kept, HoldsOf, Performed;
  }

  lemma HoldsFrom(body: seq<Action>, i: nat)
    requires i < |body|
    ensures HoldsOf(body[i..]) == HoldOf(body[i]) + HoldsOf(body[i + 1..])
  {
    assert body[i..][0] == body[i] && body[i..][1..] == body[i + 1..];
  }

  lemma MadeNext(s0: CpuState, s: CpuState, t: CpuState, body: seq<Action>, i: nat)
    requires Made(s0, s, body, i) && i < |body|
    requires Kept(s, t, HoldOf(body[i]), multiset{body[i]}) && Follows(CallMade(s, body[i]), t)
    ensures Made(s0, t, body, i + 1) && |t.supply| <= |s.supply|
  {
    hide Kept, HoldTime, HoldOf, Performed;
    KeptFacts(s, t, HoldOf(body[i]), multiset{body[i]});
    HoldsFrom(body, i);
    assert body[..i + 1] == body[..i] + [body[i]];
    KeptTrans(s0, s, t, HoldsOf(body) - HoldsOf(body[i..]), HoldOf(body[i]), multiset(body[..i]), multiset{body[i]});
    PerformNext(body, i, s0.history.calls, s.history.calls, t.history.calls);
  }

  lemma MadeAll(s0: CpuState, s: CpuState, body: seq<Action>)
    requires Made(s0, s, body, |body|)
    ensures Kept(s0, s, HoldsOf(body), multiset(body)) && Performed(body, s0.history.calls, s.history.calls)
  {
    hide Kept, Performed;
    assert body[|body|..] == [] && body[..|body|] == body;
  }

  /** Of a hold of `us` microseconds asked for in state s0, toWait are left. */
  ghost predicate Holding(s0: CpuState, s: CpuState, us: nat, toWait: nat) {
    && Kept(s0, s, us - toWait, multiset{Hold(us)}) && Follows(CallMade(s0, Hold(us)), s)
  }

  lemma HoldingStarts(s: CpuState, us: nat)
    requires Steady(s)
    ensures Steady(CallMade(s, Hold(us))) && Holding(s, CallMade(s, Hold(us)), us, us)
  {
    hide Steady, Kept, CallMade;
    CallNoted(s, Hold(us));
  }

  lemma HoldingFacts(s0: CpuState, s: CpuState, us: nat, toWait: nat)
    requires Holding(s0, s, us, toWait) && Steady(s) && s0.hw.now + us + HoldTime(s0.supply) <= s0.horizon
    ensures s.horizon < NEVER && s.hw.now + toWait + HoldTime(s.supply) <= s.horizon && |s.supply| <= |s0.supply|
  {
    hide Kept, Good, HoldTime, CallMade;
    KeptFacts(s0, s, us - toWait, multiset{Hold(us)});
    HorizonFacts(s);
  }

  lemma HoldingTurn(s0: CpuState, s: CpuState, v: CpuState, us: nat, toWait: nat, w: int)
    requires Holding(s0, s, us, toWait) && Waited(s, v, w) && w <= toWait
    ensures Holding(s0, v, us, toWait - w) && 0 <= w && |v.supply| <= |s.supply|
    ensures 0 < w || |v.supply| < |s.supply| || Due(v.hw) < Due(s.hw)
  {
    hide Kept, Due, CallMade;
    WaitedOn(s0, s, v, us - toWait, w, multiset{Hold(us)});
    KeptFollows(s, v, w, multiset{});
  }

  lemma HoldingEnds(s0: CpuState, s: CpuState, us: nat)
    requires Holding(s0, s, us, 0)
    ensures Kept(s0, s, us, multiset{Hold(us)}) && Follows(CallMade(s0, Hold(us)), s)
  {
  }
}
