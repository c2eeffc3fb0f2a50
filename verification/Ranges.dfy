/** The colour arithmetic in the machine's integer types: every intermediate value fits the
    type it is declared with, and the results are those of unbounded arithmetic. */
module Ranges {
  import opened Clock
  import opened Oklab
  import opened Instructions
  import opened Nearest

  type int32 = x: int | -0x8000_0000 <= x < 0x8000_0000

  /** A signed 32-bit intermediate; overflow is excluded, not wrapped. */
  function Signed(x: int): (r: int32)
    requires -0x8000_0000 <= x < 0x8000_0000
  {
    x
  }

  /** An unsigned 32-bit intermediate. */
  function Unsigned(x: int): (r: uint32)
    requires 0 <= x < 0x1_0000_0000
  {
    x
  }

  // ----- Products and quotients ------------------------------------------------------------

  lemma {:induction false} ProductBound(a: nat, b: nat, m: nat, n: nat)
    requires a <= m && b <= n
    ensures 0 <= a * b <= m * n
  {
    assert m * n - a * b == (m - a) * n + a * (n - b);
  }

  function MachineMultiplyQ16(lhs: uint16, rhs: uint16): (r: uint16)
    ensures r == MultiplyQ16(lhs, rhs)
  {
    ProductBound(lhs, rhs, 0xFFFF, 0xFFFF);
    var product := Unsigned(lhs * rhs);
    var half := Unsigned(product / 0x1_0000);
    var result := if product % 0x1_0000 >= 0x8000 then Unsigned(half + 1) else half;
    Saturate(result)
  }

  function MachineSum(c0: uint16, c1: uint16, c2: uint16, x: uint16, y: uint16, z: uint16): (r: uint16)
    ensures r == SumQ16Products(c0, c1, c2, x, y, z)
  {
    var sum := Unsigned(Unsigned(MachineMultiplyQ16(c0, x) + MachineMultiplyQ16(c1, y)) + MachineMultiplyQ16(c2, z));
    Saturate(sum)
  }

  function MachineRoundDivide(numerator: int32, denominator: int32): (r: int32)
    requires 0 < denominator <= Q13_ONE && -0x7000_0000 < numerator < 0x7000_0000
    ensures r == RoundDivideSigned(numerator, denominator)
  {
    if numerator >= 0 then Signed(Signed(numerator + denominator / 2) / denominator)
    else Signed(-Signed(Signed(Signed(-numerator) + denominator / 2) / denominator))
  }

  function Magnitude(x: int): nat {
    if x < 0 then -x else x
  }

  lemma {:induction false} TermBound(c: int, x: int, m: nat)
    requires Magnitude(x) <= m
    ensures Magnitude(c * x) <= Magnitude(c) * m
  {
    ProductBound(Magnitude(c), Magnitude(x), Magnitude(c), m);
    assert c * x == Magnitude(c) * Magnitude(x) || c * x == -(Magnitude(c) * Magnitude(x));
  }

  /** A matrix row applied to coordinates of at most `m`; each partial sum fits when the row's
      absolute sum does. */
  function MachineDot(c0: int16, c1: int16, c2: int16, x: int32, y: int32, z: int32, ghost m: nat): (r: int32)
    requires Magnitude(x) <= m && Magnitude(y) <= m && Magnitude(z) <= m
    requires (Magnitude(c0) + Magnitude(c1) + Magnitude(c2)) * m < 0x7000_0000
    ensures r == Dot3(c0, c1, c2, x, y, z) && Magnitude(r) <= (Magnitude(c0) + Magnitude(c1) + Magnitude(c2)) * m
  {
    TermBound(c0, x, m);
    TermBound(c1, y, m);
    TermBound(c2, z, m);
    assert (Magnitude(c0) + Magnitude(c1) + Magnitude(c2)) * m == Magnitude(c0) * m + Magnitude(c1) * m + Magnitude(c2) * m;
    Signed(Signed(Signed(c0 * x) + Signed(c1 * y)) + Signed(c2 * z))
  }

  function MachineCubeQ13(value: unit13): (r: unit13)
    ensures r == CubeQ13(value)
  {
    ProductBound(value, value, Q13_ONE, Q13_ONE);
    var square := Signed(Signed(Signed(value * value) + Q13_ONE / 2) / Q13_ONE);
    ProductBound(square, value, Q13_ONE, Q13_ONE);
    Signed(Signed(square * value) + Q13_ONE / 2) / Q13_ONE
  }

  // ----- Conversions -----------------------------------------------------------------------

  function MachineRow(c0: int16, c1: int16, c2: int16, x: int32, y: int32, z: int32, denominator: int32, ghost m: nat): (r: int32)
    requires Magnitude(x) <= m && Magnitude(y) <= m && Magnitude(z) <= m
    requires (Magnitude(c0) + Magnitude(c1) + Magnitude(c2)) * m < 0x7000_0000 && 0 < denominator <= Q13_ONE
    ensures r == RoundDivideSigned(Dot3(c0, c1, c2, x, y, z), denominator)
  {
    MachineRoundDivide(MachineDot(c0, c1, c2, x, y, z, m), denominator)
  }

  function MachineFromRoots(l: unit13, m: unit13, s: unit13): (r: Lab)
    ensures r == FromRoots(l, m, s)
  {
    Lab(MachineRow(1724, 6501, -33, l, m, s, Q13_ONE, Q13_ONE),
        MachineRow(16204, -19895, 3691, l, m, s, Q13_ONE, Q13_ONE),
        MachineRow(212, 6412, -6625, l, m, s, Q13_ONE, Q13_ONE))
  }

  function MachineCubeQ16(value: uint16): (r: uint16)
    ensures r == CubeQ16(value)
  {
    MachineMultiplyQ16(MachineMultiplyQ16(value, value), value)
  }

  /** The cube root's search, on unsigned 32-bit bounds. */
  function MachineSearchCube(value: uint16, low: uint32, high: uint32): (r: uint16)
    requires low <= high <= 0xFFFF
    ensures r == SearchCube(value, low, high)
    decreases high - low
  {
    if low >= high then low
    else
      var middle := Unsigned(low + Unsigned(high - low) / 2);
      if MachineCubeQ16(middle) < value then MachineSearchCube(value, Unsigned(middle + 1), high)
      else MachineSearchCube(value, low, middle)
  }

  /** The final choice: neither distance is negative. */
  function MachineNearerCube(value: uint16, low: uint16): (r: uint16)
    requires FirstReaching(value, low)
    ensures r == NearerCube(value, low)
  {
    var lower: uint16 := if low == 0 then 0 else low - 1;
    var upperCube, lowerCube := MachineCubeQ16(low), MachineCubeQ16(lower);
    ZeroCube();
    if upperCube < value then low
    else if Unsigned(Signed(value - lowerCube)) <= Unsigned(Signed(upperCube - value)) then lower
    else low
  }

  function MachineCubeRoot(value: uint16): (r: uint16)
    ensures r == CubeRootQ16(value)
  {
    SearchCubeFinds(value, 0, 0xFFFF);
    MachineNearerCube(value, MachineSearchCube(value, 0, 0xFFFF))
  }

  function MachineRoot(value: uint16): (r: unit13)
    ensures r == RootQ13(value)
  {
    Unsigned(MachineCubeRoot(value) + 4) / 8
  }

  /** The table search, on unsigned bounds. */
  function MachineSearchTable(table: seq<uint16>, target: uint32, low: uint32, high: uint32): (r: nat)
    requires low <= high <= |table| <= 0x100
    ensures r == SearchTable(table, target, low, high)
    decreases high - low
  {
    if low >= high then low
    else
      var middle := Unsigned(low + Unsigned(high - low) / 2);
      if table[middle] < target then MachineSearchTable(table, target, Unsigned(middle + 1), high)
      else MachineSearchTable(table, target, low, middle)
  }

  /** Channel encoding: the shifted target fits, and neither distance is negative. */
  function MachineEncode(linear: unit13): (r: uint8)
    ensures r == EncodeSrgbQ13(linear)
  {
    var target := Unsigned(linear * 8);
    SrgbTableIsStrict();
    SearchTableFinds(SRGB_TO_LINEAR, target, 0, 256);
    var low := MachineSearchTable(SRGB_TO_LINEAR, target, 0, 256);
    if low == 0 then 0
    else if low >= 256 then 255
    else if Unsigned(target - SRGB_TO_LINEAR[low - 1]) <= Unsigned(SRGB_TO_LINEAR[low] - target) then low - 1
    else low
  }

  /** sRGB to OKLab never leaves its declared types, for every colour. */
  function MachineToOklab(rgb: Rgb): (r: Lab)
    ensures r == ToOklab(rgb)
  {
    var r, g, b := SRGB_TO_LINEAR[rgb.red], SRGB_TO_LINEAR[rgb.green], SRGB_TO_LINEAR[rgb.blue];
    MachineFromRoots(MachineRoot(MachineSum(27015, 35149, 3372, r, g, b)),
                     MachineRoot(MachineSum(13887, 44610, 7038, r, g, b)),
                     MachineRoot(MachineSum(5787, 18463, 41286, r, g, b)))
  }

  function MachineFromCubes(l: unit13, m: unit13, s: unit13): (r: Rgb)
    ensures r == FromCubes(l, m, s)
  {
    Rgb(MachineEncode(ClampQ13(MachineRow(16698, -13548, 946, l, m, s, 4096, Q13_ONE))),
        MachineEncode(ClampQ13(MachineRow(-5196, 10690, -1398, l, m, s, 4096, Q13_ONE))),
        MachineEncode(ClampQ13(MachineRow(-17, -2881, 6994, l, m, s, 4096, Q13_ONE))))
  }

  /** OKLab to sRGB never leaves its declared types, even for coordinates no colour has. */
  function MachineFromOklab(lab: Lab): (r: Rgb)
    ensures r == FromOklab(lab)
  {
    MachineFromCubes(
      MachineCubeQ13(ClampQ13(MachineRow(8192, 3247, 1768, lab.l, lab.a, lab.b, Q13_ONE, 32768))),
      MachineCubeQ13(ClampQ13(MachineRow(8192, -865, -523, lab.l, lab.a, lab.b, Q13_ONE, 32768))),
      MachineCubeQ13(ClampQ13(MachineRow(8192, -733, -10580, lab.l, lab.a, lab.b, Q13_ONE, 32768))))
  }

  // ----- Interpolation ---------------------------------------------------------------------

  lemma {:induction false} QuotientBound(n: nat, d: nat)
    requires 0 < d
    ensures 0 <= n / d <= n && 0 <= n % d < d
  {
    var q := n / d;
    assert n == d * q + n % d;
    if q > 0 { ProductBound(1, q, d, q); }
  }

  lemma {:induction false} PartsFit(magnitude: uint16, elapsed: uint16, duration: uint16)
    requires elapsed < duration
    ensures
      var whole, remainder := magnitude / duration, magnitude % duration;
      var partial := remainder * elapsed;
      && 0 <= whole <= 0xFFFF && 0 <= remainder < duration
      && 0 <= whole * elapsed <= 0xFFFF * 0xFFFE
      && 0 <= partial <= 0xFFFE * 0xFFFE
      && 0 <= partial / duration <= 0xFFFF && 0 <= partial % duration < duration
  {
    QuotientBound(magnitude, duration);
    var whole, remainder := magnitude / duration, magnitude % duration;
    ProductBound(whole, elapsed, 0xFFFF, 0xFFFE);
    ProductBound(remainder, elapsed, 0xFFFE, 0xFFFE);
    var partial := remainder * elapsed;
    QuotientBound(partial, duration);
    ProductBound(remainder, elapsed, duration, elapsed);
    QuotientMonotone(partial, duration * elapsed, duration);
    QuotientIs(duration * elapsed, duration, elapsed, 0);
  }

  /** The split quotient stays inside 32 bits and equals exact rounding. */
  function MachineInterpolateMagnitude(magnitude: uint16, elapsed: uint16, duration: uint16): (r: uint32)
    requires elapsed < duration
    ensures r == RoundHalfUp(magnitude, elapsed, duration) <= magnitude
  {
    hide RoundHalfUp;
    SplitQuotientIsExact(magnitude, elapsed, duration);
    RoundHalfUpBounds(magnitude, elapsed, duration);
    PartsFit(magnitude, elapsed, duration);
    var whole, remainder := Unsigned(magnitude / duration), Unsigned(magnitude % duration);
    var partial := Unsigned(remainder * elapsed);
    var result := Unsigned(Unsigned(whole * elapsed) + partial / duration);
    if Unsigned(partial % duration * 2) >= duration then Unsigned(result + 1) else result
  }

  function MachineInterpolateComponent(source: int16, target: int16, elapsed: uint16, duration: uint16): (r: int16)
    ensures r == InterpolateComponent(source, target, elapsed, duration)
  {
    if duration == 0 || elapsed >= duration then target
    else if elapsed == 0 then source
    else
      var difference := Signed(target - source);
      var magnitude := Unsigned(if difference < 0 then Signed(-difference) else difference);
      SplitQuotientIsExact(magnitude, elapsed, duration);
      var change := Signed(MachineInterpolateMagnitude(magnitude, elapsed, duration));
      if difference < 0 then Signed(source - change) else Signed(source + change)
  }

  function MachineInterpolate(source: Lab, target: Lab, elapsed: uint16, duration: uint16): (r: Lab)
    ensures r == Interpolate(source, target, elapsed, duration)
  {
    if duration == 0 || elapsed >= duration then target
    else if elapsed == 0 then source
    else Lab(MachineInterpolateComponent(source.l, target.l, elapsed, duration),
             MachineInterpolateComponent(source.a, target.a, elapsed, duration),
             MachineInterpolateComponent(source.b, target.b, elapsed, duration))
  }

  /** Moving along the line is monotone in time and never leaves the endpoints. */
  lemma {:induction false} ComponentMonotone(source: int16, target: int16, e1: uint16, e2: uint16, duration: uint16)
    requires e1 <= e2
    ensures
      var a, b := InterpolateComponent(source, target, e1, duration), InterpolateComponent(source, target, e2, duration);
      source <= a <= b <= target || target <= b <= a <= source
  {
    if 0 < e1 <= e2 < duration {
      var m := Magnitude(target - source);
      SplitQuotientIsExact(m, e1, duration);
      SplitQuotientIsExact(m, e2, duration);
      RoundHalfUpMonotone(m, e1, e2, duration);
    }
  }

  /** The interpolated Value of a Fade in 32-bit unsigned arithmetic. */
  function MachineInterpolateValue(from: uint8, to: uint8, elapsed: uint32, duration: uint16): (r: uint8)
    requires elapsed < duration
    ensures r == InterpolateValue(from, to, elapsed, duration)
  {
    var difference := Unsigned(if to >= from then to - from else from - to);
    ProductBound(difference, elapsed, 0xFF, 0xFFFF);
    ChangeIsBounded(difference, elapsed, duration);
    var change := Unsigned(Unsigned(Unsigned(difference * elapsed) + duration / 2) / duration);
    if to >= from then Unsigned(from + change) else Unsigned(from - change)
  }

  function MachineFadeTarget(from: uint8, percent: uint16): (r: uint8)
    ensures r == FadeTarget(from, percent)
  {
    ProductBound(from, percent, 0xFF, 0xFFFF);
    var scaled := Unsigned(Unsigned(Unsigned(from * percent) + 50) / 100);
    if scaled > 255 then 255 else scaled
  }
}
