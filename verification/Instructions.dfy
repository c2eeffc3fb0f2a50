/** Instruction configuration, transient state and execution. */
module Instructions {
  import opened Clock
  import opened Oklab

  type Period = x: nat | 0 < x < 0x8000_0000 witness 20

  const FOREVER: uint16 := 0xFFFF

  /** What an instruction does, as configured; HSV fills are held by the RGB
      colour they resolve to. */
  datatype Op =
    | SetMultiple(color: Rgb, start: uint8, end: uint8)
    | SetSingle(color: Rgb, index: uint8)
    | RunGroup(target: uint32, repeats: uint16)
    | Fade(percent: uint16, duration: uint16, index: uint8)
    | Gradient(color: Rgb, duration: uint16, index: uint8)

  /** Immutable configuration of one stored slot. `bound` says that a strip was
      bound when the instruction was added. */
  datatype Code = Code(mark: uint16, group: uint32, bound: bool, op: Op)

  /** Transient execution state of a slot; `Idle` is the state after a replay reset. */
  datatype Mem =
    | Idle
    | Fading(start: uint32, color: Rgb, from: uint8, to: uint8)
    | Blending(start: uint32, source: Lab, target: Lab)

  /** Result of one call of an instruction: its new state, the staged strip, the
      delay until the next call (0 when done) and whether a show was requested. */
  datatype Effect = Effect(mem: Mem, strip: seq<Rgb>, delay: uint32, show: bool)

  predicate HasPositiveBoundary(op: Op) {
    (op.Fade? || op.Gradient?) && op.duration > 0
  }

  function Max(a: nat, b: nat): nat {
    if a < b then b else a
  }

  // ----- Fade ------------------------------------------------------------------

  /** HSV Value of a colour. */
  function Value(c: Rgb): uint8 {
    Max(Max(c.red, c.green), c.blue)
  }

  function FadeTarget(from: uint8, percent: uint16): uint8 {
    var scaled := (from * percent + 50) / 100;
    if scaled > 255 then 255 else scaled
  }

  /** `from` moved part of the way to `to`, rounded to nearest. */
  function InterpolateValue(from: uint8, to: uint8, elapsed: nat, duration: nat): (r: uint8)
    requires elapsed < duration
    ensures from <= r <= to || to <= r <= from
  {
    var difference := if to >= from then to - from else from - to;
    ChangeIsBounded(difference, elapsed, duration);
    var change := Change(difference, elapsed, duration);
    if to >= from then from + change else from - change
  }

  /** `difference * elapsed / duration`, rounded to nearest. */
  function Change(difference: nat, elapsed: nat, duration: nat): nat
    requires duration > 0
  {
    (difference * elapsed + duration / 2) / duration
  }

  lemma {:induction false} ChangeIsBounded(difference: nat, elapsed: nat, duration: nat)
    requires elapsed <= duration && 0 < duration
    ensures Change(difference, elapsed, duration) <= difference
  {
    var n := difference * elapsed + duration / 2;
    assert difference * elapsed <= difference * duration by {
      assert difference * duration - difference * elapsed == difference * (duration - elapsed);
    }
    QuotientMonotone(n, difference * duration + duration / 2, duration);
    assert difference * duration == duration * difference;
    QuotientIs(difference * duration + duration / 2, duration, difference, duration / 2);
  }

  function ScaleChannel(channel: uint8, value: uint8, from: uint8): (r: uint8)
    requires channel <= from && 0 < from
    ensures r <= value
  {
    hide *;
    ScaleIsBounded(channel, value, from);
    (channel * value + from / 2) / from
  }

  lemma {:induction false} ScaleIsBounded(channel: nat, value: nat, from: nat)
    requires channel <= from && 0 < from
    ensures 0 <= (channel * value + from / 2) / from <= value
  {
    assert channel * value <= from * value by {
      assert from * value - channel * value == (from - channel) * value;
    }
    QuotientMonotone(channel * value + from / 2, from * value + from / 2, from);
    QuotientIs(from * value + from / 2, from, value, from / 2);
  }

  /** The captured colour rescaled so that its Value becomes `value`. */
  function ScaleRgb(c: Rgb, value: uint8): Rgb {
    var from := Value(c);
    if from == 0 then Rgb(0, 0, 0)
    else Rgb(ScaleChannel(c.red, value, from), ScaleChannel(c.green, value, from),
             ScaleChannel(c.blue, value, from))
  }

  /** Wait until the next multiple of the refresh period, or the remaining time. */
  function DelayToGrid(at: nat, remaining: nat, period: Period): (r: nat)
    ensures r <= remaining
    ensures remaining > 0 ==> r > 0
  {
    var phase := at % period;
    var untilGrid := if phase == 0 then period else period - phase;
    if remaining < untilGrid then remaining else untilGrid
  }

  function StartFade(percent: uint16, duration: uint16, index: uint8, t: uint32, strip: seq<Rgb>,
                     period: Period): Effect
    requires index < |strip|
  {
    var c := strip[index];
    var mem := Fading(t, c, Value(c), FadeTarget(Value(c), percent));
    if duration == 0 then Effect(mem, strip[index := ScaleRgb(c, mem.to)], 0, true)
    else Effect(mem, strip, DelayToGrid(t, duration, period), false)
  }

  function ResumeFade(mem: Mem, duration: uint16, index: uint8, t: uint32, strip: seq<Rgb>,
                      period: Period): Effect
    requires mem.Fading? && index < |strip|
  {
    var elapsed := Since(t, mem.start);
    if elapsed >= duration then Effect(mem, strip[index := ScaleRgb(mem.color, mem.to)], 0, true)
    else
      var value := InterpolateValue(mem.from, mem.to, elapsed, duration);
      Effect(mem, strip[index := ScaleRgb(mem.color, value)],
             DelayToGrid(t, duration - elapsed, period), true)
  }

  // ----- Gradient --------------------------------------------------------------

  function StartGradient(color: Rgb, duration: uint16, index: uint8, t: uint32, strip: seq<Rgb>,
                         period: Period): Effect
    requires index < |strip|
  {
    if duration == 0 then
      Effect(Blending(t, Lab(0, 0, 0), Lab(0, 0, 0)), strip[index := color], 0, true)
    else
      Effect(Blending(t, ToOklab(strip[index]), ToOklab(color)), strip, DelayToGrid(0, duration, period), false)
  }

  function ResumeGradient(mem: Mem, color: Rgb, duration: uint16, index: uint8, t: uint32, strip: seq<Rgb>,
                          period: Period): Effect
    requires mem.Blending? && index < |strip|
  {
    var elapsed := Since(t, mem.start);
    if elapsed >= duration then Effect(mem, strip[index := color], 0, true)
    else
      var sample := FromOklab(Interpolate(mem.source, mem.target, elapsed, duration));
      Effect(mem, strip[index := sample], DelayToGrid(elapsed, duration - elapsed, period), true)
  }

  // ----- Dispatch --------------------------------------------------------------

  function Fill(strip: seq<Rgb>, color: Rgb, start: nat, end: nat): (r: seq<Rgb>)
    ensures |r| == |strip|
    ensures forall i :: 0 <= i < |strip| ==> r[i] == if start <= i < end then color else strip[i]
    decreases end - start
  {
    if start >= end then strip
    else Fill(if start < |strip| then strip[start := color] else strip, color, start + 1, end)
  }

  /** One call of a stored instruction at `t`. A positive delay is below half the
      clock range, as the instruction contract demands. */
  function Execute(c: Code, mem: Mem, t: uint32, strip: seq<Rgb>, period: Period): (x: Effect)
    ensures x.delay < HALF_RANGE
    ensures |x.strip| == |strip|
  {
    if !c.bound then Effect(mem, strip, 0, false)
    else
      match c.op
      case SetMultiple(color, start, end) => Effect(mem, Fill(strip, color, start, end), 0, true)
      case SetSingle(color, index) =>
        Effect(mem, if index < |strip| then strip[index := color] else strip, 0, true)
      case RunGroup(_, _) => Effect(mem, strip, 0, false)
      case Fade(percent, duration, index) =>
        if index >= |strip| then Effect(mem, strip, 0, false)
        else if mem.Fading? then ResumeFade(mem, duration, index, t, strip, period)
        else StartFade(percent, duration, index, t, strip, period)
      case Gradient(color, duration, index) =>
        if index >= |strip| then Effect(mem, strip, 0, false)
        else if mem.Blending? then ResumeGradient(mem, color, duration, index, t, strip, period)
        else StartGradient(color, duration, index, t, strip, period)
  }
}
