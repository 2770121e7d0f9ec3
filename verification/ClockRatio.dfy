/** The adjustable speed of the simulated clock (timer_model.c), with `double` taken as the reals it
    approximates and the times in uint64_t and int64_t.  The clock is read and adjusted while the hardware runs. */
module ClockRatio {
  import opened Sequences
  import opened IrqCtrl
  import opened HwModels
  import opened HwRuns
  import B = Board

  const MAX_INT64: int := 0x7FFF_FFFF_FFFF_FFFF

  /** clock_ratio, last_radj_rtime and last_radj_stime. */
  datatype Clock = Clock(ratio: real, rtime: int, stime: u64)

  /** a - b in uint64_t. */
  function Sub64(a: u64, b: u64): (r: u64)
    ensures r == a - b <==> b <= a
  {
    (a - b) % (NEVER + 1)
  }

  /** A uint64_t read as an int64_t. */
  function Int64(x: u64): int {
    if x <= MAX_INT64 then x else x - (NEVER + 1)
  }

  /** The real time of simulated time st, before it is cut to whole microseconds. */
  function RealTime(c: Clock, st: int): real
    requires c.ratio != 0.0
  {
    (st - c.stime) as real / c.ratio + c.rtime as real
  }

  /** The real time the handler of a tick at simulated time st expects, as it computes it. */
  function ExpectedRt(c: Clock, st: u64): int
    requires c.ratio != 0.0
  {
    (Sub64(st, c.stime) as real / c.ratio + c.rtime as real).Floor
  }

  /** hwtimer_adjust_rt_ratio at simulated time `now`. */
  function Adjust(c: Clock, now: u64, correction: real): Clock
    requires c.ratio != 0.0
  {
    var sDiff := Int64(Sub64(now, c.stime));
    Clock(c.ratio * correction, (c.rtime as real + sDiff as real / c.ratio).Floor, now)
  }

  class RealTimeClock {
    const board: B.Board
    var clockRatio: real
    var lastRadjRtime: int
    var lastRadjStime: u64

    function State(): Clock
      reads this
    {
      Clock(clockRatio, lastRadjRtime, lastRadjStime)
    }

    constructor (board: B.Board, bootTime: int, ratio: real)
      ensures State() == Clock(ratio, bootTime, 0) && this.board == board
    {
      this.board := board;
      clockRatio, lastRadjRtime, lastRadjStime := ratio, bootTime, 0;
    }

    method HwtimerAdjustRtRatio(ratioCorrection: real)
      requires clockRatio != 0.0
      modifies this
      ensures State() == Adjust(old(State()), board.State().now, ratioCorrection)
    {
      var currentStime := board.HwmGetTime();
      var sDiff := Int64(Sub64(currentStime, lastRadjStime));
      lastRadjRtime := (lastRadjRtime as real + sDiff as real / clockRatio).Floor;
      lastRadjStime := currentStime;
      clockRatio := clockRatio * ratioCorrection;
    }
  }

  // ----- runs of the hardware with adjustments

  datatype Step = Hardware(op: Op) | AdjustRatio(correction: real)

  function HwOps(steps: seq<Step>): seq<Op> {
    if steps == [] then []
    else HwOps(Front(steps)) + (if Last(steps).Hardware? then [Last(steps).op] else [])
  }

  /** No adjustment stops the clock or turns it back. */
  predicate PositiveCorrections(steps: seq<Step>) {
    steps == [] || ((Last(steps).AdjustRatio? ==> Last(steps).correction > 0.0) && PositiveCorrections(Front(steps)))
  }

  function Time(h: Hw, steps: seq<Step>): u64 {
    Run(h, HwOps(steps)).now
  }

  function ClockAfter(c: Clock, h: Hw, steps: seq<Step>): (r: Clock)
    requires c.ratio > 0.0 && PositiveCorrections(steps)
    ensures r.ratio > 0.0
  {
    if steps == [] then c
    else
      var b := ClockAfter(c, h, Front(steps));
      match Last(steps)
      case Hardware(_) => b
      case AdjustRatio(correction) =>
        Positive(b.ratio, correction);
        Adjust(b, Time(h, Front(steps)), correction)
  }

  lemma Positive(x: real, y: real)
    requires x > 0.0 && y > 0.0
    ensures x * y > 0.0
  {
  }

  /** The hardware runs from h, where the clock's last adjustment is not in the future. */
  ghost predicate ClockRun(c: Clock, h: Hw, steps: seq<Step>) {
    && Inv(h) && IsRun(h, HwOps(steps)) && c.ratio > 0.0 && c.stime <= h.now
    && PositiveCorrections(steps)
  }

  /** One step of such a run: time does not go back. */
  lemma LastStep(c: Clock, h: Hw, steps: seq<Step>)
    requires ClockRun(c, h, steps) && steps != []
    ensures ClockRun(c, h, Front(steps)) && Time(h, Front(steps)) <= Time(h, steps)
    ensures Last(steps).AdjustRatio? ==> Time(h, Front(steps)) == Time(h, steps)
  {
    hide Inv, Allowed, Apply;
    var ops := HwOps(Front(steps));
    match Last(steps) {
      case Hardware(op) =>
        RunAppend(h, ops, op);
        RunInv(h, ops);
        StepInv(Run(h, ops), op);
      case AdjustRatio(_) =>
        assert ops + [] == ops;
    }
  }

  /** No subtraction of times ever wraps: whenever the clock is read or adjusted in a run, its last adjustment
      is not in the future, so that the tick's distance from it is exact; and so is the int64_t time since then,
      exactly while that is less than 2^63 microseconds. */
  lemma {:induction false} NeverWraps(c: Clock, h: Hw, steps: seq<Step>)
    requires ClockRun(c, h, steps)
    ensures var g, r := Run(h, HwOps(steps)), ClockAfter(c, h, steps);
      && r.stime <= g.now <= g.tmr.tick
      && Sub64(g.tmr.tick, r.stime) == g.tmr.tick - r.stime
      && (Int64(Sub64(g.now, r.stime)) == g.now - r.stime <==> g.now - r.stime <= MAX_INT64)
  {
    RunInv(h, HwOps(steps));
    if steps != [] {
      LastStep(c, h, steps);
      NeverWraps(c, h, Front(steps));
    }
  }

  /** What is expected of the present instant is the exact real time, cut to whole microseconds. */
  lemma ExpectedIsExact(c: Clock, st: u64)
    requires c.ratio > 0.0 && c.stime <= st
    ensures ExpectedRt(c, st) == RealTime(c, st).Floor
  {
  }

  // ----- drift

  function Adjustments(steps: seq<Step>): nat {
    if steps == [] then 0 else Adjustments(Front(steps)) + (if Last(steps).AdjustRatio? then 1 else 0)
  }

  /** The real time of the last adjustment on the exact piecewise-linear clock, never cut to microseconds. */
  function ExactAnchor(c: Clock, h: Hw, steps: seq<Step>): real
    requires c.ratio > 0.0 && PositiveCorrections(steps)
  {
    if steps == [] then c.rtime as real
    else
      var b := ClockAfter(c, h, Front(steps));
      match Last(steps)
      case Hardware(_) => ExactAnchor(c, h, Front(steps))
      case AdjustRatio(_) =>
        ExactAnchor(c, h, Front(steps)) + (Time(h, Front(steps)) - b.stime) as real / b.ratio
  }

  /** Drift bound: after n adjustments, made whenever the hardware's run allows, the stored anchor is at most the exact
      one, and less than n microseconds below it (and equal to it before the first). */
  lemma {:induction false} DriftBound(c: Clock, h: Hw, steps: seq<Step>)
    requires ClockRun(c, h, steps) && Time(h, steps) <= MAX_INT64
    ensures var drift := ExactAnchor(c, h, steps) - ClockAfter(c, h, steps).rtime as real; var n := Adjustments(steps);
      0.0 <= drift && (if n == 0 then drift == 0.0 else drift < n as real)
  {
    hide ClockRun, Time, Adjust, Run, IsRun;
    if steps != [] {
      var front := Front(steps);
      LastStep(c, h, steps);
      DriftBound(c, h, front);
      RunPositive(c, h, steps);
      var b := ClockAfter(c, h, front);
      if Last(steps).AdjustRatio? {
        var x := (Time(h, front) - b.stime) as real / b.ratio;
        AdjustedAnchor(c, h, front, Last(steps).correction);
        CutOnce(ExactAnchor(c, h, front), b.rtime, x, Adjustments(front));
      }
    }
  }

  lemma RunPositive(c: Clock, h: Hw, steps: seq<Step>)
    requires ClockRun(c, h, steps)
    ensures c.ratio > 0.0 && PositiveCorrections(steps)
  {
  }

  /** The anchor an adjustment stores. */
  lemma AdjustedAnchor(c: Clock, h: Hw, steps: seq<Step>, correction: real)
    requires ClockRun(c, h, steps) && Time(h, steps) <= MAX_INT64
    requires c.ratio > 0.0 && PositiveCorrections(steps)
    ensures var b, t := ClockAfter(c, h, steps), Time(h, steps);
      Adjust(b, t, correction).rtime == (b.rtime as real + (t - b.stime) as real / b.ratio).Floor
  {
    NeverWraps(c, h, steps);
  }

  /** Cutting once more to whole microseconds loses less than one. */
  lemma CutOnce(exact: real, stored: int, x: real, n: nat)
    requires 0.0 <= exact - stored as real
    requires if n == 0 then exact == stored as real else exact - stored as real < n as real
    ensures 0.0 <= exact + x - (stored as real + x).Floor as real < (n + 1) as real
  {
  }

  /** The map from simulated to real time is strictly increasing exactly while the ratio is positive. */
  lemma StrictlyIncreasing(c: Clock, st: int, later: int)
    requires c.ratio != 0.0 && st < later
    ensures RealTime(c, st) < RealTime(c, later) <==> c.ratio > 0.0
  {
    var x, y := (st - c.stime) as real, (later - c.stime) as real;
    var q := (y - x) / c.ratio;
    assert y / c.ratio == x / c.ratio + q;
    assert q > 0.0 <==> c.ratio > 0.0;
  }

  /** Adjusting the speed does not move the present instant: both clocks expect it at the same microsecond. */
  lemma AdjustmentIsContinuous(c: Clock, now: u64, correction: real)
    requires c.ratio > 0.0 && c.stime <= now <= MAX_INT64 && correction > 0.0
    ensures Adjust(c, now, correction).ratio > 0.0
    ensures ExpectedRt(Adjust(c, now, correction), now) == ExpectedRt(c, now)
  {
    Positive(c.ratio, correction);
    var d := Adjust(c, now, correction);
    assert Sub64(now, now) as real / d.ratio == 0.0;
    assert ExpectedRt(d, now) == (0.0 + d.rtime as real).Floor == d.rtime;
  }

  /** An adjustment changes the speed: a stretch of simulated time takes the real time it took before, divided by the
      correction. */
  lemma AdjustmentScales(c: Clock, now: u64, correction: real, d: int)
    requires c.ratio > 0.0 && correction > 0.0
    ensures Adjust(c, now, correction).ratio > 0.0
    ensures var a := Adjust(c, now, correction);
      RealTime(a, now + d) - RealTime(a, now) == (RealTime(c, now + d) - RealTime(c, now)) / correction
  {
    Positive(c.ratio, correction);
    var a := Adjust(c, now, correction);
    Stretch(a, now, d);
    Stretch(c, now, d);
    DividedTwice(d as real, c.ratio, correction);
  }

  /** d microseconds of simulated time. */
  lemma Stretch(c: Clock, st: int, d: int)
    requires c.ratio != 0.0
    ensures RealTime(c, st + d) - RealTime(c, st) == d as real / c.ratio
  {
    var x, y := (st - c.stime) as real, (st + d - c.stime) as real;
    assert y == x + d as real;
    assert y / c.ratio == x / c.ratio + d as real / c.ratio;
  }

  lemma DividedTwice(d: real, ratio: real, correction: real)
    requires ratio > 0.0 && correction > 0.0 && ratio * correction > 0.0
    ensures d / (ratio * correction) == d / ratio / correction
  {
    var q := d / ratio / correction;
    assert q * correction == d / ratio;
    assert q * (ratio * correction) == d;
  }

  function Product(steps: seq<Step>): real {
    if steps == [] then 1.0
    else Product(Front(steps)) * (if Last(steps).AdjustRatio? then Last(steps).correction else 1.0)
  }

  /** After any run the speed is the first one times all the corrections. */
  lemma {:induction false} RatioIsProduct(c: Clock, h: Hw, steps: seq<Step>)
    requires c.ratio > 0.0 && PositiveCorrections(steps)
    ensures ClockAfter(c, h, steps).ratio == c.ratio * Product(steps)
  {
    hide Adjust, Time;
    if steps != [] {
      RatioIsProduct(c, h, Front(steps));
      if Last(steps).AdjustRatio? {
        AdjustedRatio(ClockAfter(c, h, Front(steps)), Time(h, Front(steps)), Last(steps).correction);
        Associative(c.ratio, Product(Front(steps)), Last(steps).correction);
      }
    }
  }

  lemma AdjustedRatio(c: Clock, now: u64, correction: real)
    requires c.ratio != 0.0
    ensures Adjust(c, now, correction).ratio == c.ratio * correction
  {
  }

  lemma Associative(x: real, y: real, z: real)
    ensures x * y * z == x * (y * z)
  {
  }

  /** Whatever happens in a run, the real time expected of the present instant never goes back. */
  lemma {:induction false} ExpectedNeverGoesBack(c: Clock, h: Hw, steps: seq<Step>)
    requires ClockRun(c, h, steps) && Time(h, steps) <= MAX_INT64
    ensures ExpectedRt(c, h.now) <= ExpectedRt(ClockAfter(c, h, steps), Time(h, steps))
  {
    if steps != [] {
      var front := Front(steps);
      LastStep(c, h, steps);
      ExpectedNeverGoesBack(c, h, front);
      NeverWraps(c, h, front);
      var b, t, u := ClockAfter(c, h, front), Time(h, front), Time(h, steps);
      match Last(steps) {
        case Hardware(_) =>
          ExpectedIsExact(b, t);
          ExpectedIsExact(b, u);
          if t < u {
            StrictlyIncreasing(b, t, u);
          }
        case AdjustRatio(correction) =>
          AdjustmentIsContinuous(b, t, correction);
      }
    }
  }

  /** The documented formula back from real to simulated time. */
  function SimulatedTime(c: Clock, rt: real): real {
    (rt - c.rtime as real) * c.ratio + c.stime as real
  }

  /** The two documented formulas undo each other. */
  lemma FormulasInverse(c: Clock, st: int)
    requires c.ratio > 0.0
    ensures SimulatedTime(c, RealTime(c, st)) == st as real
  {
    var d := (st - c.stime) as real;
    assert d / c.ratio * c.ratio == d;
  }
}
