/** The interrupt controller (irq_ctrl.c) as a state and the transition each of its functions makes.
    A mask word is the set of the positions of its 1 bits: `a | b` is a + b, `a & b` is a * b,
    `a & ~b` is a - b. */
module IrqCtrl {

  const NEVER: int := 0xFFFF_FFFF_FFFF_FFFF
  const N_IRQS: nat := 32
  const TIMER_TICK_IRQ: nat := 0
  const OFFLOAD_SW_IRQ: nat := 1
  const COUNTER_EVENT_IRQ: nat := 2
  const PHONY_HARD_IRQ: nat := 0xFFFF
  /** The current priority when no interrupt service routine is running. */
  const NO_PRIO: int := 256

  type u64 = x: int | 0 <= x <= NEVER witness 0
  type Word = s: set<nat> | forall i :: i in s ==> i < 64 witness {}

  /** a + b in uint64_t. */
  function Add64(a: u64, b: u64): u64 {
    (a + b) % (NEVER + 1)
  }

  /** (uint64_t)1 << n */
  function One(n: nat): Word
    requires n < 64
  {
    {n}
  }

  /** `1 << n` computed in a 32-bit int and then widened to 64 bits: for n == 31 the sign bit extends. */
  function IntOne(n: nat): Word
    requires n < 32
  {
    if n == 31 then Range(31, 64) else {n}
  }

  function Range(lo: nat, hi: nat): (r: set<nat>)
    ensures forall i :: i in r <==> lo <= i < hi
    decreases hi - lo
  {
    if lo >= hi then {} else {lo} + Range(lo + 1, hi)
  }

  /** The 32-bit test `irq_mask & (1 << irq)` of the raising function answers the same as the 64-bit
      `irq_mask & ((uint64_t)1 << irq)` exactly when it is not line 31, or line 31 is in the mask,
      or nothing above it is. */
  lemma IntTestAgrees(mask: Word, irq: nat)
    requires irq < N_IRQS
    ensures (mask * IntOne(irq) != {} <==> mask * One(irq) != {})
       <==> irq != 31 || 31 in mask || (forall i :: i in mask ==> i < N_IRQS)
    ensures mask * One(irq) != {} <==> irq in mask
  {
    MeetIff(mask, One(irq));
    MeetIff(mask, IntOne(irq));
    assert irq in One(irq) && irq in IntOne(irq);
    if irq == 31 {
      assert forall i :: i in mask ==> (i in IntOne(31) <==> i >= 31);
    } else {
      assert IntOne(irq) == One(irq);
    }
  }

  lemma MeetIff(a: set<nat>, b: set<nat>)
    ensures a * b != {} <==> exists i :: i in a && i in b
  {
    if i :| i in a && i in b {
      assert i in a * b;
    }
    if a * b != {} {
      var i :| i in a * b;
      assert i in a && i in b;
    }
  }

  /** A 32-line mask word: what every mask of this controller is. */
  predicate Lines(s: set<nat>) {
    forall i :: i in s ==> i < N_IRQS
  }

  // ----- find_lsb_set

  function LowestFrom(w: Word, i: nat): (r: nat)
    requires exists j :: j in w && i <= j
    ensures r in w && i <= r
    ensures forall j :: j in w && i <= j ==> r <= j
    decreases 64 - i
  {
    if i in w then i else LowestFrom(w, i + 1)
  }

  /** find_lsb_set(w): one more than the position of the lowest 1 bit. */
  function FindLsbSet(w: Word): (r: nat)
    requires w != {}
    ensures 1 <= r && r - 1 in w
    ensures forall j :: j in w ==> r - 1 <= j
  {
    var j :| j in w;
    LowestFrom(w, 0) + 1
  }

  // ----- the state

  datatype Irq = Irq(
    status: set<nat>,     // pending interrupts that are enabled, or were when they were raised
    premask: set<nat>,    // pending interrupts before the mask
    mask: set<nat>,       // enabled lines
    locked: bool,
    lockIgnore: bool,     // the next wake ignores the lock
    prio: seq<nat>,       // 0 is the highest priority
    cur: int,             // priority of the running routine, NO_PRIO when none runs
    timer: u64)           // when the controller wakes the CPU

  /** Latch agreement: a status bit is a premask bit, and a premask bit of an enabled line is a status bit. */
  ghost predicate Latched(c: Irq) {
    && Lines(c.premask) && Lines(c.mask)
    && c.status <= c.premask
    && c.premask * c.mask <= c.status
    && |c.prio| == N_IRQS
    && (forall i :: 0 <= i < N_IRQS ==> c.prio[i] < 256)
  }

  // ----- the functions of irq_ctrl.c

  function RaisePrefix(c: Irq, irq: nat): Irq {
    if irq < N_IRQS then
      c.(premask := c.premask + {irq}, status := if irq in c.mask then c.status + {irq} else c.status)
    else if irq == PHONY_HARD_IRQ then
      c.(lockIgnore := true)
    else
      c
  }

  function Enable(c: Irq, irq: nat): Irq {
    var e := c.(mask := c.mask + {irq});
    if irq in c.premask then RaisePrefix(e, irq) else e
  }

  function Disable(c: Irq, irq: nat): Irq {
    c.(mask := c.mask - {irq})
  }

  function Clear(c: Irq, irq: nat): Irq {
    c.(status := c.status - {irq}, premask := c.premask - {irq})
  }

  function ClearAll(c: Irq): Irq {
    c.(status := {}, premask := {})
  }

  function ClearAllEnabled(c: Irq): Irq {
    c.(status := {}, premask := c.premask - c.mask)
  }

  /** The priority is stored in a uint8_t. */
  function SetPrio(c: Irq, irq: nat, p: nat): Irq {
    if irq < |c.prio| then c.(prio := c.prio[irq := p % 256]) else c
  }

  /** Whether a raise wakes the CPU. */
  predicate Wakes(c: Irq) {
    !c.locked || c.lockIgnore
  }

  /** irq_raising_from_hw_now: a wake uses up the "ignore the lock" flag. */
  function RaisedNow(c: Irq): Irq {
    if Wakes(c) then c.(lockIgnore := false) else c
  }

  // ----- choosing the interrupt to run

  /** Line i is pending and may interrupt the running routine. */
  predicate Beats(c: Irq, i: nat) {
    i in c.status && i < |c.prio| && c.prio[i] < c.cur
  }

  /** What hw_irq_ctrl_get_highest_prio_irq promises of its result w: -1 exactly when interrupts are
      locked or nothing pending beats the running routine; otherwise the pending line of the smallest
      priority number, and of those the lowest line. */
  ghost predicate IsWinner(c: Irq, w: int) {
    if c.locked || (forall i :: i in c.status ==> !Beats(c, i)) then
      w == -1
    else
      && 0 <= w && Beats(c, w)
      && (forall i :: i in c.status && i < |c.prio| ==> c.prio[w] < c.prio[i] || (c.prio[w] == c.prio[i] && w <= i))
  }

  /** w, of priority p, is the best of the pending lines seen so far; -1 and 256 when none of them beats
      the running routine. */
  ghost predicate BestSeen(c: Irq, seen: set<nat>, w: int, p: int) {
    if w == -1 then
      p == 256 && forall i :: i in seen ==> !Beats(c, i)
    else
      && w in seen && Beats(c, w) && p == c.prio[w]
      && (forall i :: i in seen && i < |c.prio| ==> p < c.prio[i] || (p == c.prio[i] && w <= i))
  }

  /** A scan of the pending lines from the lowest up: those seen, those to come, the best so far. */
  ghost predicate Scan(c: Irq, seen: set<nat>, rest: set<nat>, w: int, p: int) {
    && seen + rest == c.status
    && (forall i, j :: i in rest && j in seen ==> j < i)
    && BestSeen(c, seen, w, p)
  }

  /** Only a strictly better line replaces the best so far. */
  lemma ScanNext(c: Irq, seen: set<nat>, rest: set<nat>, w: int, p: int, n: nat, w': int, p': int)
    requires Latched(c) && Scan(c, seen, rest, w, p) && n in rest && (forall i :: i in rest ==> n <= i)
    requires n < |c.prio|
    requires if p > c.prio[n] && c.cur > c.prio[n] then w' == n && p' == c.prio[n] else w' == w && p' == p
    ensures Scan(c, seen + {n}, rest - {n}, w', p')
  {
  }

  lemma ScanEnds(c: Irq, seen: set<nat>, w: int, p: int)
    requires Latched(c) && !c.locked && Scan(c, seen, {}, w, p)
    ensures IsWinner(c, w)
  {
    assert seen == c.status;
  }

  lemma WinnerIsUnique(c: Irq, w: int, v: int)
    requires Latched(c) && IsWinner(c, w) && IsWinner(c, v)
    ensures w == v
  {
  }

  /** Interrupts are locked, or nothing pending beats the running routine. */
  ghost predicate Drained(c: Irq) {
    IsWinner(c, -1)
  }

  lemma WinnerIsLine(c: Irq, w: int)
    requires Latched(c) && IsWinner(c, w) && w != -1
    ensures 0 <= w < N_IRQS == |c.prio|
  {
  }

  lemma NothingPending(c: Irq)
    ensures c.status == {} ==> Drained(c)
  {
  }

  lemma LockedIsDrained(c: Irq)
    requires c.locked
    ensures Drained(c)
  {
  }

  lemma DrainedAtThreadLevel(c: Irq)
    requires Latched(c) && c.cur == NO_PRIO && !c.locked
    ensures Drained(c) <==> c.status == {}
  {
    if c.status != {} {
      var i :| i in c.status;
      assert Beats(c, i);
    }
  }
}
