/** The dim-and-restore cycle of the rainbow program: a Fade to 25% and then one to 400%. */
module Rainbow {
  import opened Clock
  import opened Oklab
  import opened Instructions
  import opened Timed

  const DIM: uint16 := 25
  const RESTORE: uint16 := 400

  /** The colour a Fade ends on. */
  function Faded(c: Rgb, percent: uint16): Rgb {
    ScaleRgb(c, FadeTarget(Value(c), percent))
  }

  /** A completed Fade leaves exactly `Faded`. */
  lemma {:induction false} FadedIsLastSample(c: Rgb, percent: uint16, duration: uint16, index: uint8, elapsed: nat)
    requires elapsed >= duration
    ensures Sample(Fade(percent, duration, index), c, elapsed) == Faded(c, percent)
  {
  }

  function Cycle(c: Rgb): Rgb {
    Faded(Faded(c, DIM), RESTORE)
  }

  predicate Restorable(v: uint8) {
    v % 4 == 0 || v == 255
  }

  /** Dimming to a quarter and fading by 400% restores the Value exactly for multiples of four
      and for 255, and for no other Value. */
  lemma {:induction false} RestoredIff(v: uint8)
    ensures FadeTarget(FadeTarget(v, DIM), RESTORE) == v <==> Restorable(v)
  {
  }

  /** A Value that the cycle does not restore: 2 is dimmed to 1 and comes back as 4. */
  lemma {:induction false} NotAlwaysRestored()
    ensures FadeTarget(2, DIM) == 1 && FadeTarget(1, RESTORE) == 4
  {
  }

  lemma {:induction false} FadedValue(c: Rgb, percent: uint16)
    ensures Value(Faded(c, percent)) == FadeTarget(Value(c), percent)
  {
    hide ScaleRgb;
    ScaledValue(c, FadeTarget(Value(c), percent));
  }

  lemma {:induction false} CycleValue(c: Rgb)
    ensures Value(Cycle(c)) == FadeTarget(FadeTarget(Value(c), DIM), RESTORE)
  {
    hide Faded, FadeTarget;
    FadedValue(c, DIM);
    FadedValue(Faded(c, DIM), RESTORE);
  }

  // ----- One channel -----------------------------------------------------------------------

  /** A channel through one cycle of a colour whose Value is `v`. */
  function CycleChannel(channel: uint8, v: uint8): uint8
    requires channel <= v && Restorable(v) && v > 0
  {
    var q := FadeTarget(v, DIM);
    ScaleChannel(ScaleChannel(channel, q, v), v, q)
  }

  lemma {:induction false} DimmedValue(v: uint8)
    requires Restorable(v) && v > 0
    ensures FadeTarget(v, DIM) == if v == 255 then 64 else v / 4
    ensures FadeTarget(FadeTarget(v, DIM), RESTORE) == v
  {
  }

  lemma {:induction false} Below(r: nat, q: nat)
    requires r < 4 && 0 < q
    ensures r * q < 4 * q
  {
  }

  lemma {:induction false} QuarterDown(channel: nat, q: nat)
    requires 0 < q
    ensures (channel * q + 2 * q) / (4 * q) == (channel + 2) / 4
  {
    var k, r := (channel + 2) / 4, (channel + 2) % 4;
    assert channel + 2 == 4 * k + r;
    assert channel * q + 2 * q == (channel + 2) * q;
    assert (4 * k + r) * q == 4 * q * k + r * q;
    Below(r, q);
    QuotientIs(channel * q + 2 * q, 4 * q, k, r * q);
  }

  lemma {:induction false} QuarterUp(k: nat, q: nat)
    requires 0 < q
    ensures (k * (4 * q) + q / 2) / q == 4 * k
  {
    assert k * (4 * q) == q * (4 * k);
    QuotientIs(k * (4 * q) + q / 2, q, 4 * k, q / 2);
  }

  lemma {:induction false} QuarterChannel(channel: uint8, q: uint8)
    requires 0 < q && channel <= 4 * q < 0x100
    ensures ScaleChannel(channel, q, 4 * q) == (channel + 2) / 4
    ensures (channel + 2) / 4 <= q && ScaleChannel((channel + 2) / 4, 4 * q, q) == 4 * ((channel + 2) / 4)
  {
    QuarterDown(channel, q);
    QuarterUp((channel + 2) / 4, q);
  }

  lemma {:induction false} WhiteChannel(channel: nat)
    requires channel <= 255
    ensures
      var k := (channel * 64 + 127) / 255;
      var back := (k * 255 + 32) / 64;
      k <= 64 && back <= 255 && (back * 64 + 127) / 255 == k
  {
  }

  lemma {:induction false} DownFromWhite(channel: uint8)
    ensures ScaleChannel(channel, 64, 255) == (channel * 64 + 127) / 255
  {
  }

  lemma {:induction false} UpToWhite(k: uint8)
    requires k <= 64
    ensures ScaleChannel(k, 255, 64) == (k * 255 + 32) / 64
  {
  }

  lemma {:induction false} WhiteSettles(channel: uint8)
    ensures CycleChannel(CycleChannel(channel, 255), 255) == CycleChannel(channel, 255)
  {
    hide ScaleChannel, FadeTarget;
    DimmedValue(255);
    WhiteChannel(channel);
    DownFromWhite(channel);
    var k := (channel * 64 + 127) / 255;
    UpToWhite(k);
    DownFromWhite((k * 255 + 32) / 64);
  }

  lemma {:induction false} QuarterSettles(channel: uint8, q: uint8)
    requires 0 < q && channel <= 4 * q < 0x100
    ensures CycleChannel(channel, 4 * q) <= 4 * q
    ensures CycleChannel(CycleChannel(channel, 4 * q), 4 * q) == CycleChannel(channel, 4 * q)
  {
    hide ScaleChannel, FadeTarget;
    DimmedValue(4 * q);
    QuarterChannel(channel, q);
    QuarterChannel(4 * ((channel + 2) / 4), q);
  }

  /** A second cycle does not move a channel. */
  lemma {:induction false} ChannelSettles(channel: uint8, v: uint8)
    requires channel <= v && Restorable(v) && v > 0
    ensures CycleChannel(channel, v) <= v
    ensures CycleChannel(CycleChannel(channel, v), v) == CycleChannel(channel, v)
  {
    hide CycleChannel;
    if v == 255 {
      WhiteSettles(channel);
    } else {
      QuarterSettles(channel, v / 4);
    }
  }

  // ----- The whole colour ------------------------------------------------------------------

  lemma {:induction false} CycleIsPerChannel(c: Rgb)
    requires Restorable(Value(c)) && Value(c) > 0
    ensures var v := Value(c);
      Cycle(c) == Rgb(CycleChannel(c.red, v), CycleChannel(c.green, v), CycleChannel(c.blue, v))
  {
    hide ScaleChannel, FadeTarget;
    DimmedValue(Value(c));
    FadedValue(c, DIM);
  }

  /** The cycle keeps the Value and after one pass has no further effect. */
  lemma {:induction false} CycleSettles(c: Rgb)
    requires Restorable(Value(c))
    ensures Value(Cycle(c)) == Value(c) && Cycle(Cycle(c)) == Cycle(c)
  {
    hide Faded, FadeTarget, CycleChannel, Cycle;
    var v := Value(c);
    RestoredIff(v);
    CycleValue(c);
    if v > 0 {
      CycleIsPerChannel(c);
      CycleIsPerChannel(Cycle(c));
      ChannelSettles(c.red, v);
      ChannelSettles(c.green, v);
      ChannelSettles(c.blue, v);
    } else {
      CycleValue(Cycle(c));
    }
  }

  /** One cycle always ends on a restorable Value. */
  lemma {:induction false} CycleIsRestorable(c: Rgb)
    ensures Restorable(Value(Cycle(c)))
  {
    hide Cycle;
    CycleValue(c);
  }

  function Cycles(c: Rgb, n: nat): Rgb {
    if n == 0 then c else Cycle(Cycles(c, n - 1))
  }

  /** However often the cycle repeats, no colour drifts: a restorable one stays what the first
      pass made of it, and every other one what the second pass made of it. */
  lemma {:induction false} NoDrift(c: Rgb, n: nat)
    requires n > 0
    ensures Restorable(Value(c)) ==> Cycles(c, n) == Cycle(c) && Value(Cycles(c, n)) == Value(c)
    ensures n > 1 ==> Cycles(c, n) == Cycle(Cycle(c))
  {
    hide Cycle, Restorable;
    if Restorable(Value(c)) { CycleSettles(c); }
    CycleIsRestorable(c);
    CycleSettles(Cycle(c));
    assert Cycles(c, 0) == c;
    if n > 1 {
      NoDrift(c, n - 1);
      assert n == 2 ==> Cycles(c, 1) == Cycle(c);
    }
  }

  /** What a completed Fade of `percent` and `duration` shows, `late` after its duration. */
  function Shown(c: Rgb, percent: uint16, duration: uint16, index: uint8, late: nat): Rgb {
    Sample(Fade(percent, duration, index), c, duration + late)
  }

  /** The colour after `n` passes of the program, its ticks `late` each time. */
  function ShownAfter(c: Rgb, duration: uint16, index: uint8, late: nat, n: nat): Rgb {
    if n == 0 then c
    else Shown(Shown(ShownAfter(c, duration, index, late, n - 1), DIM, duration, index, late), RESTORE, duration, index, late)
  }

  /** What the instructions show is the cycle, so the program does not drift either. */
  lemma {:induction false} ShownIsCycle(c: Rgb, duration: uint16, index: uint8, late: nat, n: nat)
    ensures ShownAfter(c, duration, index, late, n) == Cycles(c, n)
    ensures n > 1 ==> ShownAfter(c, duration, index, late, n) == ShownAfter(c, duration, index, late, 2)
    decreases n
  {
    hide Sample, Faded;
    if n > 0 {
      var before := ShownAfter(c, duration, index, late, n - 1);
      ShownIsCycle(c, duration, index, late, n - 1);
      FadedIsLastSample(before, DIM, duration, index, duration + late);
      FadedIsLastSample(Faded(before, DIM), RESTORE, duration, index, duration + late);
      NoDrift(c, n);
    }
    if n > 2 {
      ShownIsCycle(c, duration, index, late, 2);
      NoDrift(c, 2);
    }
  }
}
