/** Fade and Gradient over whole executions: what they write does not depend on when the
    controller ticks, only on the colour captured and on the time since. */
module Timed {
  import opened Clock
  import opened Oklab
  import opened Instructions
  import opened Nearest

  // ----- Independence of tick timing -------------------------------------------------------

  predicate IsTimed(c: Code) {
    c.bound && (c.op.Fade? || c.op.Gradient?)
  }

  /** Value of a Fade `elapsed` after it captured `from`. */
  function FadeValue(from: uint8, percent: uint16, duration: uint16, elapsed: nat): uint8 {
    var to := FadeTarget(from, percent);
    if elapsed >= duration then to else InterpolateValue(from, to, elapsed, duration)
  }

  /** The colour an instruction shows `elapsed` after it captured `captured`: no tick, no clock
      and no intermediate colour enters. */
  function Sample(op: Op, captured: Rgb, elapsed: nat): Rgb
    requires op.Fade? || op.Gradient?
  {
    match op
    case Fade(percent, duration, _) => ScaleRgb(captured, FadeValue(Value(captured), percent, duration, elapsed))
    case Gradient(color, duration, _) =>
      if elapsed >= duration then color
      else FromOklab(Interpolate(ToOklab(captured), ToOklab(color), elapsed, duration))
  }

  /** The wait after a call at `t`: Fade updates on multiples of the period on the clock, Gradient
      on multiples of the period since it began, and both at their end. */
  function Pause(op: Op, period: Period, t: uint32, elapsed: nat): nat
    requires (op.Fade? || op.Gradient?) && elapsed < op.duration
  {
    DelayToGrid(if op.Fade? then t else elapsed, op.duration - elapsed, period)
  }

  /** A positive wait `d` leads to the next multiple of the period, or to the end before it. */
  ghost predicate NextUpdate(at: nat, remaining: nat, period: Period, d: nat) {
    && 0 < d <= remaining
    && (d == remaining || OnGrid(at, d, period))
    && forall x: nat :: 0 < x < d ==> !OnGrid(at, x, period)
  }

  predicate OnGrid(at: nat, x: nat, period: Period) {
    (at + x) % period == 0
  }

  lemma {:induction false} GridStep(at: nat, x: nat, period: Period)
    requires 0 < x && at % period + x < period
    ensures (at + x) % period == at % period + x
  {
    ModuloIs(at + x, period, at / period, at % period + x);
  }

  lemma {:induction false} ModuloIs(n: nat, d: nat, q: nat, r: nat)
    requires 0 < d && r < d && n == d * q + r
    ensures n % d == r
  {
    QuotientIs(n, d, q, r);
    assert n == d * (n / d) + n % d;
  }

  /** The computed wait is exactly the way to the next update. */
  lemma {:induction false} DelayIsNext(at: nat, remaining: nat, period: Period)
    requires remaining > 0
    ensures NextUpdate(at, remaining, period, DelayToGrid(at, remaining, period))
  {
    var phase, d := at % period, DelayToGrid(at, remaining, period);
    forall x: nat | 0 < x < d ensures !OnGrid(at, x, period) {
      GridStep(at, x, period);
    }
    var grid := if phase == 0 then period else period - phase;
    assert period * (at / period + 1) == period * (at / period) + period;
    assert at == period * (at / period) + phase;
    ModuloIs(at + grid, period, at / period + 1, 0);
  }

  /** One later call: the time and the strip as other instructions left it. */
  datatype Call = Call(time: uint32, strip: seq<Rgb>)

  /** The last of a series of calls after the capture. */
  function LastEffect(c: Code, mem: Mem, calls: seq<Call>, period: Period): Effect
    requires calls != []
    decreases |calls|
  {
    var x := Execute(c, mem, calls[0].time, calls[0].strip, period);
    if |calls| == 1 then x else LastEffect(c, x.mem, calls[1..], period)
  }

  /** What the capture stores. */
  ghost predicate Captured(c: Code, mem: Mem, t: uint32, color: Rgb)
    requires IsTimed(c)
  {
    match c.op
    case Fade(percent, _, _) => mem == Fading(t, color, Value(color), FadeTarget(Value(color), percent))
    case Gradient(target, duration, _) => duration > 0 && mem == Blending(t, ToOklab(color), ToOklab(target))
    case _ => false
  }

  /** One call after the capture: it writes the sample and nothing else, keeps what was
      captured, and asks for another call exactly while time remains. */
  lemma {:induction false} CallWrites(c: Code, mem: Mem, t: uint32, captured: Rgb, call: Call, period: Period)
    requires IsTimed(c) && c.op.index < |call.strip| && Captured(c, mem, t, captured)
    ensures
      var x, e := Execute(c, mem, call.time, call.strip, period), Since(call.time, t);
      && x.mem == mem && x.show
      && x.strip == call.strip[c.op.index := Sample(c.op, captured, e)]
      && (e >= c.op.duration <==> x.delay == 0)
      && (e < c.op.duration ==> 1 <= x.delay <= c.op.duration - e && x.delay == Pause(c.op, period, call.time, e))
  {
    hide ToOklab, FromOklab, Interpolate, ScaleRgb, FadeTarget, InterpolateValue, DelayToGrid, Since;
  }

  /** The first call captures the colour; without a duration it writes the end colour at once,
      otherwise it writes nothing and asks to be called within the duration. */
  lemma {:induction false} StartCaptures(c: Code, mem: Mem, t: uint32, strip: seq<Rgb>, period: Period)
    requires IsTimed(c) && c.op.index < |strip| && mem == Idle
    ensures
      var x, d := Execute(c, mem, t, strip, period), c.op.duration;
      && (d == 0 ==> x.delay == 0 && x.show && x.strip == strip[c.op.index := Sample(c.op, strip[c.op.index], 0)])
      && (d > 0 ==>
            && Captured(c, x.mem, t, strip[c.op.index]) && x.strip == strip && !x.show
            && 1 <= x.delay <= d && x.delay == Pause(c.op, period, t, 0))
  {
    hide ToOklab, FromOklab, Interpolate, ScaleRgb, FadeTarget, InterpolateValue, DelayToGrid;
  }

  /** Independence of tick timing: after any calls at any times, on strips left in any state,
      the last call shows the sample for the colour captured and the time since then. */
  lemma {:induction false} TimingDoesNotMatter(c: Code, mem: Mem, t: uint32, captured: Rgb, calls: seq<Call>, period: Period)
    requires IsTimed(c) && Captured(c, mem, t, captured) && calls != []
    requires forall i :: 0 <= i < |calls| ==> c.op.index < |calls[i].strip|
    ensures
      var last := calls[|calls| - 1];
      LastEffect(c, mem, calls, period).strip == last.strip[c.op.index := Sample(c.op, captured, Since(last.time, t))]
    decreases |calls|
  {
    hide Execute, Captured, Sample, Since;
    CallWrites(c, mem, t, captured, calls[0], period);
    if |calls| > 1 {
      TimingDoesNotMatter(c, mem, t, captured, calls[1..], period);
    }
  }

  /** A first call waits exactly when the instruction is bound, its LED exists and its duration
      is positive; the configured duration alone, which is what the preflight looks at, does
      not make it wait. */
  lemma {:induction false} WaitsIff(c: Code, t: uint32, strip: seq<Rgb>, period: Period)
    ensures Execute(c, Idle, t, strip, period).delay > 0
            <==> c.bound && HasPositiveBoundary(c.op) && c.op.index < |strip|
  {
    hide ToOklab, FromOklab, Interpolate, ScaleRgb, FadeTarget, InterpolateValue;
  }

  /** The next call comes exactly when the instruction asks for it. */
  lemma {:induction false} NextCall(c: Code, mem: Mem, start: uint32, captured: Rgb, call: Call, period: Period)
    requires IsTimed(c) && c.op.index < |call.strip| && Captured(c, mem, start, captured)
    ensures var x, e := Execute(c, mem, call.time, call.strip, period), Since(call.time, start);
      && x.mem == mem && |x.strip| == |call.strip| && (x.delay == 0 <==> e >= c.op.duration)
      && (x.delay > 0 ==> Since(Plus(call.time, x.delay), start) == e + x.delay <= c.op.duration)
  {
    hide Execute, Sample;
    CallWrites(c, mem, start, captured, call, period);
    var x := Execute(c, mem, call.time, call.strip, period);
    if x.delay > 0 { ElapsedGrows(call.time, start, x.delay); }
  }

  /** Time of the last call of an instruction that is called from `t` on whenever it asks. */
  ghost function LastCall(c: Code, mem: Mem, start: uint32, captured: Rgb, t: uint32, strip: seq<Rgb>, period: Period): (last: uint32)
    requires IsTimed(c) && c.op.index < |strip| && Captured(c, mem, start, captured)
    decreases if Since(t, start) < c.op.duration then c.op.duration - Since(t, start) else 0
  {
    NextCall(c, mem, start, captured, Call(t, strip), period);
    var x := Execute(c, mem, t, strip, period);
    if x.delay == 0 then t else LastCall(c, mem, start, captured, Plus(t, x.delay), x.strip, period)
  }

  /** Called whenever it asks, an instruction makes its last call exactly at its duration, and
      so shows the endpoint. */
  lemma {:induction false} FinishesOnTime(c: Code, mem: Mem, start: uint32, captured: Rgb, t: uint32, strip: seq<Rgb>, period: Period)
    requires IsTimed(c) && c.op.index < |strip| && Captured(c, mem, start, captured) && Since(t, start) <= c.op.duration
    ensures Since(LastCall(c, mem, start, captured, t, strip, period), start) == c.op.duration
    decreases c.op.duration - Since(t, start)
  {
    hide Execute, Captured, Since, Plus;
    NextCall(c, mem, start, captured, Call(t, strip), period);
    var x := Execute(c, mem, t, strip, period);
    if x.delay > 0 {
      FinishesOnTime(c, mem, start, captured, Plus(t, x.delay), x.strip, period);
    }
  }

  // ----- Fade ------------------------------------------------------------------------------

  lemma {:induction false} FullChannel(value: uint8, from: uint8)
    requires 0 < from
    ensures ScaleChannel(from, value, from) == value
  {
    QuotientIs(from * value + from / 2, from, value, from / 2);
  }

  /** Rescaling reaches the wanted Value exactly, unless the colour is black. */
  lemma {:induction false} ScaledValue(c: Rgb, value: uint8)
    ensures Value(ScaleRgb(c, value)) == if Value(c) == 0 then 0 else value
  {
    hide ScaleChannel;
    if Value(c) > 0 { FullChannel(value, Value(c)); }
  }

  lemma {:induction false} BlackStaysBlack(percent: uint16, duration: uint16, elapsed: nat)
    ensures FadeTarget(0, percent) == 0 && FadeValue(0, percent, duration, elapsed) == 0
  {
  }

  /** `r` is `channel` rescaled from Value `from` to `to`, rounded to nearest. */
  predicate Rescaled(r: int, channel: int, from: int, to: int) {
    -from <= 2 * (r * from - channel * to) <= from
  }

  lemma {:induction false} ChannelIsNearest(channel: uint8, value: uint8, from: uint8)
    requires channel <= from && 0 < from
    ensures Rescaled(ScaleChannel(channel, value, from), channel, from, value)
  {
    var n := channel * value + from / 2;
    assert n == from * (n / from) + n % from;
  }

  /** Each channel keeps its own proportion, up to rounding to nearest; black stays black. */
  lemma {:induction false} ScaledChannels(c: Rgb, value: uint8)
    ensures var r, from := ScaleRgb(c, value), Value(c);
      if from == 0 then r == Rgb(0, 0, 0)
      else Rescaled(r.red, c.red, from, value) && Rescaled(r.green, c.green, from, value) && Rescaled(r.blue, c.blue, from, value)
  {
    hide ScaleChannel, Rescaled;
    var from := Value(c);
    if from > 0 {
      ChannelIsNearest(c.red, value, from);
      ChannelIsNearest(c.green, value, from);
      ChannelIsNearest(c.blue, value, from);
    }
  }

  /** A Fade shows exactly its interpolated Value, for every colour, and each channel in its own
      proportion to it. */
  lemma {:induction false} FadeShowsValue(percent: uint16, duration: uint16, index: uint8, captured: Rgb, elapsed: nat)
    ensures var shown, from, value :=
        Sample(Fade(percent, duration, index), captured, elapsed), Value(captured),
        FadeValue(Value(captured), percent, duration, elapsed);
      && Value(shown) == value
      && (from > 0 ==>
            && Rescaled(shown.red, captured.red, from, value)
            && Rescaled(shown.green, captured.green, from, value)
            && Rescaled(shown.blue, captured.blue, from, value))
  {
    hide ScaleRgb, FadeTarget, InterpolateValue, Rescaled;
    ScaledValue(captured, FadeValue(Value(captured), percent, duration, elapsed));
    ScaledChannels(captured, FadeValue(Value(captured), percent, duration, elapsed));
    BlackStaysBlack(percent, duration, elapsed);
  }

  /** The target is the percentage of the captured Value, rounded to nearest and saturated. */
  lemma {:induction false} TargetIsNearest(from: uint8, percent: uint16)
    ensures if from * percent >= 25550 then FadeTarget(from, percent) == 255
            else -100 <= 2 * (100 * FadeTarget(from, percent) - from * percent) <= 100
  {
    var n := from * percent;
    assert (n + 50) / 100 * 100 + (n + 50) % 100 == n + 50;
  }

  /** The last colour of a Fade, in terms of the colour it captured and its percentage alone. */
  lemma {:induction false} FadeEnds(percent: uint16, duration: uint16, index: uint8, captured: Rgb, elapsed: nat)
    requires elapsed >= duration
    ensures var shown, from := Sample(Fade(percent, duration, index), captured, elapsed), Value(captured);
      && (if from * percent >= 25550 then Value(shown) == 255
          else -100 <= 2 * (100 * Value(shown) - from * percent) <= 100)
      && (from > 0 ==>
            && Rescaled(shown.red, captured.red, from, Value(shown))
            && Rescaled(shown.green, captured.green, from, Value(shown))
            && Rescaled(shown.blue, captured.blue, from, Value(shown)))
  {
    hide Sample, FadeTarget, Rescaled, Value;
    FadeShowsValue(percent, duration, index, captured, elapsed);
    TargetIsNearest(Value(captured), percent);
  }

  lemma {:induction false} ChangeMonotone(difference: nat, e1: nat, e2: nat, duration: nat)
    requires e1 <= e2 && 0 < duration
    ensures Change(difference, e1, duration) <= Change(difference, e2, duration)
  {
    assert difference * e1 <= difference * e2 by {
      assert difference * e2 - difference * e1 == difference * (e2 - e1);
    }
    QuotientMonotone(difference * e1 + duration / 2, difference * e2 + duration / 2, duration);
  }

  /** The Value moves monotonically from the captured one to the saturated target. */
  lemma {:induction false} FadeIsMonotone(from: uint8, percent: uint16, duration: uint16, e1: nat, e2: nat)
    requires e1 <= e2
    ensures
      var to, a, b := FadeTarget(from, percent), FadeValue(from, percent, duration, e1), FadeValue(from, percent, duration, e2);
      && (from <= a <= b <= to || to <= b <= a <= from)
      && (e2 >= duration ==> b == to)
  {
    hide FadeTarget, Change;
    var to := FadeTarget(from, percent);
    if e2 < duration {
      ChangeMonotone(if to >= from then to - from else from - to, e1, e2, duration);
    }
  }

  /** The step from the captured Value is the exact quotient rounded to nearest. */
  lemma {:induction false} FadeStepIsNearest(from: uint8, to: uint8, elapsed: nat, duration: nat)
    requires elapsed < duration
    ensures
      var step := InterpolateValue(from, to, elapsed, duration) - from;
      0 - duration <= 2 * (step * duration - (to - from) * elapsed) <= duration
  {
    var difference: nat := if to >= from then to - from else from - to;
    var n := difference * elapsed + duration / 2;
    var q := n / duration;
    assert n == duration * q + n % duration;
    assert q == Change(difference, elapsed, duration);
    if to >= from {
      assert q * duration == duration * q;
    } else {
      assert (-q) * duration == -(duration * q);
      assert (to - from) * elapsed == -(difference * elapsed);
    }
  }

  lemma {:induction false} ChannelOrder(a: uint8, b: uint8, value: uint8, from: uint8)
    requires a <= b <= from && 0 < from
    ensures ScaleChannel(a, value, from) <= ScaleChannel(b, value, from)
  {
    ProductMonotone(a, value, b, value);
    QuotientMonotone(a * value + from / 2, b * value + from / 2, from);
  }

  /** The `k`-th channel: red, green, blue. */
  function Channel(c: Rgb, k: nat): uint8
    requires k < 3
  {
    if k == 0 then c.red else if k == 1 then c.green else c.blue
  }

  /** A channel of the captured colour never overtakes a larger one. */
  lemma {:induction false} ScaleKeepsOrder(c: Rgb, value: uint8, i: nat, j: nat)
    requires i < 3 && j < 3 && Channel(c, i) <= Channel(c, j)
    ensures Channel(ScaleRgb(c, value), i) <= Channel(ScaleRgb(c, value), j)
  {
    hide ScaleChannel;
    if Value(c) > 0 { ChannelOrder(Channel(c, i), Channel(c, j), value, Value(c)); }
  }

  // ----- The refresh grid ------------------------------------------------------------------

  /** Waits agree at two times for every remaining time exactly when the times have the same
      phase on the refresh grid. */
  lemma {:induction false} GridPhase(t: uint32, u: uint32, period: Period)
    ensures (forall remaining: nat :: DelayToGrid(t, remaining, period) == DelayToGrid(u, remaining, period))
            <==> t % period == u % period
  {
    if t % period != u % period {
      assert DelayToGrid(t, period, period) != DelayToGrid(u, period, period);
    }
  }

  /** Fade waits on an absolute grid, so moving its clock can change its waits. */
  lemma {:induction false} FadeGridIsAbsolute()
    ensures
      var c, strip := Code(0, 0, true, Fade(50, 100, 0)), [Rgb(200, 100, 0)];
      && Execute(c, Idle, 0, strip, 20).delay == 20
      && Execute(c, Idle, 1, strip, 20).delay == 19
  {
  }

  /** Gradient waits on a grid of its own: its waits depend only on the elapsed time. */
  lemma {:induction false} GradientGridIsRelative(c: Code, mem: Mem, strip: seq<Rgb>, period: Period, t: uint32, k: nat)
    requires c.op.Gradient? && mem.Blending? && c.op.index < |strip|
    ensures Execute(c, mem.(start := Plus(mem.start, k)), Plus(t, k), strip, period).delay
            == Execute(c, mem, t, strip, period).delay
  {
    hide Plus, Since, FromOklab, Interpolate;
    ShiftSince(t, mem.start, k);
  }
}
