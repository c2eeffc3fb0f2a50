/** Fade and Gradient as objects that capture state and write their LED in place. */
module TimedObjects {
  import opened Clock
  import opened Oklab
  import opened Instructions

  class FadeInstruction {
    const code: Code
    var started: bool
    var startTime: uint32
    var startColor: Rgb
    var startValue: uint8
    var targetValue: uint8

    ghost predicate Valid()
      reads this
    {
      code.op.Fade?
    }

    ghost function Memory(): Mem
      reads this
    {
      if started then Fading(startTime, startColor, startValue, targetValue) else Idle
    }

    constructor (c: Code)
      requires c.op.Fade?
      ensures Valid() && code == c && Memory() == Idle
    {
      code, started, startTime := c, false, 0;
      startColor, startValue, targetValue := Rgb(0, 0, 0), 0, 0;
    }

    /** One call does to the object and the strip what `Instructions.Execute` says. */
    method Execute(timestamp: uint32, leds: array<Rgb>, period: Period) returns (delay: uint32, show: bool)
      requires Valid()
      modifies this, leds
      ensures Valid()
      ensures Effect(Memory(), leds[..], delay, show)
              == Instructions.Execute(code, old(Memory()), timestamp, old(leds[..]), period)
    {
      hide ScaleRgb, FadeTarget, InterpolateValue, DelayToGrid;
      var op := code.op;
      if !code.bound || op.index >= leds.Length {
        return 0, false;
      }
      if !started {
        startColor := leds[op.index];
        startValue := startColor.red;
        if startColor.green > startValue {
          startValue := startColor.green;
        }
        if startColor.blue > startValue {
          startValue := startColor.blue;
        }
        targetValue := FadeTarget(startValue, op.percent);
        startTime, started := timestamp, true;
        if op.duration == 0 {
          leds[op.index] := ScaleRgb(startColor, targetValue);
          return 0, true;
        }
        return DelayToGrid(timestamp, op.duration, period), false;
      }
      var elapsed := Since(timestamp, startTime);
      var complete := elapsed >= op.duration;
      var value := if complete then targetValue else InterpolateValue(startValue, targetValue, elapsed, op.duration);
      leds[op.index] := ScaleRgb(startColor, value);
      if complete {
        return 0, true;
      }
      return DelayToGrid(timestamp, op.duration - elapsed, period), true;
    }

    method ResetForReplay()
      requires Valid()
      modifies this
      ensures Valid() && Memory() == Idle
    {
      started, startTime := false, 0;
      startColor, startValue, targetValue := Rgb(0, 0, 0), 0, 0;
    }
  }

  class GradientInstruction {
    const code: Code
    var started: bool
    var startTime: uint32
    var source: Lab
    var target: Lab

    /** The cached endpoints stay zero when nothing was converted. */
    ghost predicate Valid()
      reads this
    {
      && code.op.Gradient?
      && (!started || code.op.duration == 0 ==> source == Lab(0, 0, 0) && target == Lab(0, 0, 0))
    }

    ghost function Memory(): Mem
      reads this
    {
      if started then Blending(startTime, source, target) else Idle
    }

    constructor (c: Code)
      requires c.op.Gradient?
      ensures Valid() && code == c && Memory() == Idle
    {
      code, started, startTime := c, false, 0;
      source, target := Lab(0, 0, 0), Lab(0, 0, 0);
    }

    /** One call does to the object and the strip what `Instructions.Execute` says. */
    method Execute(timestamp: uint32, leds: array<Rgb>, period: Period) returns (delay: uint32, show: bool)
      requires Valid()
      modifies this, leds
      ensures Valid()
      ensures Effect(Memory(), leds[..], delay, show)
              == Instructions.Execute(code, old(Memory()), timestamp, old(leds[..]), period)
    {
      hide ToOklab, FromOklab, Interpolate, DelayToGrid;
      var op := code.op;
      if !code.bound || op.index >= leds.Length {
        return 0, false;
      }
      if !started {
        var seen := leds[op.index];
        startTime, started := timestamp, true;
        if op.duration == 0 {
          leds[op.index] := op.color;
          return 0, true;
        }
        source, target := ToOklab(seen), ToOklab(op.color);
        return DelayToGrid(0, op.duration, period), false;
      }
      var elapsed := Since(timestamp, startTime);
      var complete := elapsed >= op.duration;
      var sample := op.color;
      if !complete {
        sample := FromOklab(Interpolate(source, target, elapsed, op.duration));
      }
      leds[op.index] := sample;
      if complete {
        return 0, true;
      }
      return DelayToGrid(elapsed, op.duration - elapsed, period), true;
    }

    method ResetForReplay()
      requires Valid()
      modifies this
      ensures Valid() && Memory() == Idle
    {
      started, startTime := false, 0;
      source, target := Lab(0, 0, 0), Lab(0, 0, 0);
    }
  }
}
