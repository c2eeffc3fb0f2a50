/** Fixed-point OKLab conversion and interpolation of sRGB bytes. */
module Oklab {
  import opened Clock

  datatype Rgb = Rgb(red: uint8, green: uint8, blue: uint8)

  /** Rectangular OKLab coordinates in signed Q2.13. */
  datatype Lab = Lab(l: int16, a: int16, b: int16)

  const Q13_ONE: nat := 8192

  // sRGB decode table, unsigned Q0.16, in rows of sixteen.
  const ROW0: seq<uint16> := [0, 20, 40, 60, 80, 99, 119, 139, 159, 179, 199, 219, 241, 264, 288, 313]
  const ROW1: seq<uint16> := [340, 367, 396, 427, 458, 491, 526, 562, 599, 637, 677, 718, 761, 805, 851, 898]
  const ROW2: seq<uint16> := [947, 997, 1048, 1101, 1156, 1212, 1270, 1330, 1391, 1453, 1517, 1583, 1651, 1720, 1790, 1863]
  const ROW3: seq<uint16> := [1937, 2013, 2090, 2170, 2250, 2333, 2418, 2504, 2592, 2681, 2773, 2866, 2961, 3058, 3157, 3258]
  const ROW4: seq<uint16> := [3360, 3464, 3570, 3678, 3788, 3900, 4014, 4129, 4247, 4366, 4488, 4611, 4736, 4864, 4993, 5124]
  const ROW5: seq<uint16> := [5257, 5392, 5530, 5669, 5810, 5953, 6099, 6246, 6395, 6547, 6700, 6856, 7014, 7174, 7335, 7500]
  const ROW6: seq<uint16> := [7666, 7834, 8004, 8177, 8352, 8528, 8708, 8889, 9072, 9258, 9445, 9635, 9828, 10022, 10219, 10417]
  const ROW7: seq<uint16> := [10619, 10822, 11028, 11235, 11446, 11658, 11873, 12090, 12309, 12530, 12754, 12980, 13209, 13440, 13673, 13909]
  const ROW8: seq<uint16> := [14146, 14387, 14629, 14874, 15122, 15371, 15623, 15878, 16135, 16394, 16656, 16920, 17187, 17456, 17727, 18001]
  const ROW9: seq<uint16> := [18277, 18556, 18837, 19121, 19407, 19696, 19987, 20281, 20577, 20876, 21177, 21481, 21787, 22096, 22407, 22721]
  const ROW10: seq<uint16> := [23038, 23357, 23678, 24002, 24329, 24658, 24990, 25325, 25662, 26001, 26344, 26688, 27036, 27386, 27739, 28094]
  const ROW11: seq<uint16> := [28452, 28813, 29176, 29542, 29911, 30282, 30656, 31033, 31412, 31794, 32179, 32567, 32957, 33350, 33745, 34143]
  const ROW12: seq<uint16> := [34544, 34948, 35355, 35764, 36176, 36591, 37008, 37429, 37852, 38278, 38706, 39138, 39572, 40009, 40449, 40891]
  const ROW13: seq<uint16> := [41337, 41785, 42236, 42690, 43147, 43606, 44069, 44534, 45002, 45473, 45947, 46423, 46903, 47385, 47871, 48359]
  const ROW14: seq<uint16> := [48850, 49344, 49841, 50341, 50844, 51349, 51858, 52369, 52884, 53401, 53921, 54445, 54971, 55500, 56032, 56567]
  const ROW15: seq<uint16> := [57105, 57646, 58190, 58737, 59287, 59840, 60396, 60955, 61517, 62082, 62650, 63221, 63795, 64372, 64952, 65535]

  const QUARTER0: seq<uint16> := ROW0 + ROW1 + ROW2 + ROW3
  const QUARTER1: seq<uint16> := ROW4 + ROW5 + ROW6 + ROW7
  const QUARTER2: seq<uint16> := ROW8 + ROW9 + ROW10 + ROW11
  const QUARTER3: seq<uint16> := ROW12 + ROW13 + ROW14 + ROW15

  /** sRGB decode table. */
  const SRGB_TO_LINEAR: seq<uint16> := QUARTER0 + QUARTER1 + QUARTER2 + QUARTER3

  function Saturate(x: nat): uint16 {
    if x > 0xFFFF then 0xFFFF else x
  }

  /** Unsigned Q0.16 product, rounded half up and saturated. */
  function MultiplyQ16(lhs: uint16, rhs: uint16): uint16 {
    var product := lhs * rhs;
    var result := product / 0x1_0000 + if product % 0x1_0000 >= 0x8000 then 1 else 0;
    Saturate(result)
  }

  function CubeQ16(value: uint16): uint16 {
    MultiplyQ16(MultiplyQ16(value, value), value)
  }

  function SumQ16Products(c0: uint16, c1: uint16, c2: uint16, x: uint16, y: uint16, z: uint16): uint16 {
    var sum := MultiplyQ16(c0, x) + MultiplyQ16(c1, y) + MultiplyQ16(c2, z);
    Saturate(sum)
  }

  function Middle(low: nat, high: nat): (m: nat)
    requires low < high
    ensures low <= m < high
  {
    low + (high - low) / 2
  }

  /** Binary search for the first value in `low..high` whose cube reaches `value`. */
  function SearchCube(value: uint16, low: uint16, high: uint16): (r: uint16)
    requires low <= high
    ensures low <= r <= high
    decreases high - low
  {
    if low == high then low
    else
      var middle := Middle(low, high);
      if CubeQ16(middle) < value then SearchCube(value, middle + 1, high)
      else SearchCube(value, low, middle)
  }

  /** The closer of the two candidates around the search result, ties to the lower. */
  function NearerCube(value: uint16, upper: uint16): uint16 {
    var lower := if upper == 0 then 0 else upper - 1;
    if CubeQ16(upper) < value then upper
    else if value - CubeQ16(lower) <= CubeQ16(upper) - value then lower
    else upper
  }

  function CubeRootQ16(value: uint16): uint16 {
    NearerCube(value, SearchCube(value, 0, 0xFFFF))
  }

  /** Signed division rounded to nearest, halves away from zero. */
  function RoundDivideSigned(numerator: int, denominator: nat): int
    requires denominator > 0
  {
    if numerator >= 0 then (numerator + denominator / 2) / denominator
    else -((-numerator + denominator / 2) / denominator)
  }

  function Dot3(c0: int, c1: int, c2: int, x: int, y: int, z: int): int {
    c0 * x + c1 * y + c2 * z
  }

  function CubeQ13(value: nat): nat {
    var square := (value * value + Q13_ONE / 2) / Q13_ONE;
    (square * value + Q13_ONE / 2) / Q13_ONE
  }

  /** A Q13 fraction of one. */
  type unit13 = x: nat | x <= 8192

  function ClampQ13(value: int): unit13 {
    if value < 0 then 0 else if value > Q13_ONE then Q13_ONE else value
  }

  /** Binary search for the first table entry in `low..high` that reaches `target`. */
  function SearchTable(table: seq<uint16>, target: nat, low: nat, high: nat): (r: nat)
    requires low <= high <= |table|
    ensures low <= r <= high
    decreases high - low
  {
    if low == high then low
    else
      var middle := Middle(low, high);
      if table[middle] < target then SearchTable(table, target, middle + 1, high)
      else SearchTable(table, target, low, middle)
  }

  /** The closer of the two entries around the search result, ties to the lower index. */
  function NearerEntry(table: seq<uint16>, target: nat, low: nat): (r: nat)
    requires 0 < |table| && low <= |table|
    ensures r < |table|
  {
    if low == 0 then 0
    else if low >= |table| then |table| - 1
    else if target - table[low - 1] <= table[low] - target then low - 1
    else low
  }

  /** Index of the entry chosen for `target` in a decode table. */
  function EncodeIn(table: seq<uint16>, target: nat): (r: nat)
    requires 0 < |table|
    ensures r < |table|
  {
    NearerEntry(table, target, SearchTable(table, target, 0, |table|))
  }

  function EncodeSrgbQ13(linear: unit13): uint8 {
    EncodeIn(SRGB_TO_LINEAR, linear * 8)
  }

  function RootQ13(value: uint16): unit13 {
    (CubeRootQ16(value) + 4) / 8
  }

  function FromRoots(l: unit13, m: unit13, s: unit13): Lab {
    Lab(RoundDivideSigned(Dot3(1724, 6501, -33, l, m, s), Q13_ONE),
        RoundDivideSigned(Dot3(16204, -19895, 3691, l, m, s), Q13_ONE),
        RoundDivideSigned(Dot3(212, 6412, -6625, l, m, s), Q13_ONE))
  }

  // LMS responses of a colour.

  function MixL(rgb: Rgb): uint16 {
    SumQ16Products(27015, 35149, 3372, SRGB_TO_LINEAR[rgb.red], SRGB_TO_LINEAR[rgb.green], SRGB_TO_LINEAR[rgb.blue])
  }

  function MixM(rgb: Rgb): uint16 {
    SumQ16Products(13887, 44610, 7038, SRGB_TO_LINEAR[rgb.red], SRGB_TO_LINEAR[rgb.green], SRGB_TO_LINEAR[rgb.blue])
  }

  function MixS(rgb: Rgb): uint16 {
    SumQ16Products(5787, 18463, 41286, SRGB_TO_LINEAR[rgb.red], SRGB_TO_LINEAR[rgb.green], SRGB_TO_LINEAR[rgb.blue])
  }

  function ToOklab(rgb: Rgb): Lab {
    FromRoots(RootQ13(MixL(rgb)), RootQ13(MixM(rgb)), RootQ13(MixS(rgb)))
  }

  // Linear channels of an LMS triple, before clamping.

  function LinearRed(l: nat, m: nat, s: nat): int {
    RoundDivideSigned(Dot3(16698, -13548, 946, l, m, s), 4096)
  }

  function LinearGreen(l: nat, m: nat, s: nat): int {
    RoundDivideSigned(Dot3(-5196, 10690, -1398, l, m, s), 4096)
  }

  function LinearBlue(l: nat, m: nat, s: nat): int {
    RoundDivideSigned(Dot3(-17, -2881, 6994, l, m, s), 4096)
  }

  function FromCubes(l: nat, m: nat, s: nat): Rgb {
    Rgb(EncodeSrgbQ13(ClampQ13(LinearRed(l, m, s))),
        EncodeSrgbQ13(ClampQ13(LinearGreen(l, m, s))),
        EncodeSrgbQ13(ClampQ13(LinearBlue(l, m, s))))
  }

  // LMS roots of an OKLab colour, clamped.

  function RootL(lab: Lab): unit13 {
    ClampQ13(RoundDivideSigned(Dot3(8192, 3247, 1768, lab.l, lab.a, lab.b), Q13_ONE))
  }

  function RootM(lab: Lab): unit13 {
    ClampQ13(RoundDivideSigned(Dot3(8192, -865, -523, lab.l, lab.a, lab.b), Q13_ONE))
  }

  function RootS(lab: Lab): unit13 {
    ClampQ13(RoundDivideSigned(Dot3(8192, -733, -10580, lab.l, lab.a, lab.b), Q13_ONE))
  }

  function FromOklab(lab: Lab): Rgb {
    FromCubes(CubeQ13(RootL(lab)), CubeQ13(RootM(lab)), CubeQ13(RootS(lab)))
  }

  // ----- Interpolation --------------------------------------------------------

  /** Exact rational `magnitude * elapsed / duration`, rounded half up. */
  function RoundHalfUp(magnitude: nat, elapsed: nat, duration: nat): nat
    requires duration > 0
  {
    (2 * magnitude * elapsed + duration) / (2 * duration)
  }

  /** The split quotient used to stay inside 32 bits. */
  function InterpolateMagnitude(magnitude: nat, elapsed: nat, duration: nat): nat
    requires duration > 0
  {
    var whole, remainder := magnitude / duration, magnitude % duration;
    var partial := remainder * elapsed;
    var result := whole * elapsed + partial / duration;
    if partial % duration * 2 >= duration then result + 1 else result
  }

  lemma {:induction false} DivideByTwice(q: nat, f: nat, d: nat)
    requires d > 0 && f < d
    ensures (2 * d * q + 2 * f + d) / (2 * d) == q + if 2 * f >= d then 1 else 0
  {
    var n := 2 * d * q + 2 * f + d;
    var k := q + if 2 * f >= d then 1 else 0;
    QuotientIs(n, 2 * d, k, if 2 * f >= d then 2 * f - d else 2 * f + d);
  }

  lemma {:induction false} MultipleIsLarge(d: int, x: int)
    requires d > 0 && x >= 1
    ensures d * x >= d
  {
    assert d * x == d + d * (x - 1);
  }

  lemma {:induction false} SmallMultipleIsZero(d: int, x: int)
    requires d > 0 && -d < d * x < d
    ensures x == 0
  {
    if x >= 1 {
      MultipleIsLarge(d, x);
    } else if x <= -1 {
      MultipleIsLarge(d, -x);
    }
  }

  lemma {:induction false} QuotientIs(n: nat, d: nat, q: nat, r: nat)
    requires d > 0 && r < d && n == d * q + r
    ensures n / d == q
  {
    var k := n / d;
    assert n == d * k + n % d;
    assert d * (q - k) == d * q - d * k;
    SmallMultipleIsZero(d, q - k);
  }

  lemma {:induction false} SplitProduct(w: nat, r: nat, d: nat, e: nat, q: nat, f: nat)
    requires r * e == q * d + f
    ensures 2 * (w * d + r) * e == 2 * d * (w * e + q) + 2 * f
  {
    assert (w * d + r) * e == w * d * e + r * e;
    assert w * d * e == d * (w * e);
    assert d * (w * e + q) == d * (w * e) + q * d;
    assert 2 * d * (w * e + q) == 2 * (d * (w * e + q));
    assert 2 * (w * d + r) * e == 2 * ((w * d + r) * e);
  }

  /** The split quotient is exact rounding, for every magnitude and time. */
  lemma {:induction false} SplitQuotientIsExact(magnitude: nat, elapsed: nat, duration: nat)
    requires duration > 0
    ensures InterpolateMagnitude(magnitude, elapsed, duration) == RoundHalfUp(magnitude, elapsed, duration)
  {
    var whole, remainder := magnitude / duration, magnitude % duration;
    var partial := remainder * elapsed;
    var q, f := partial / duration, partial % duration;
    assert magnitude == whole * duration + remainder;
    assert partial == q * duration + f;
    SplitProduct(whole, remainder, duration, elapsed, q, f);
    DivideByTwice(whole * elapsed + q, f, duration);
  }

  lemma {:induction false} RoundHalfUpBounds(magnitude: nat, elapsed: nat, duration: nat)
    requires elapsed <= duration && 0 < duration
    ensures RoundHalfUp(magnitude, elapsed, duration) <= magnitude
  {
    RoundHalfUpMonotone(magnitude, elapsed, duration, duration);
    assert 2 * magnitude * duration == 2 * duration * magnitude;
    QuotientIs(2 * magnitude * duration + duration, 2 * duration, magnitude, duration);
  }

  lemma {:induction false} RoundHalfUpMonotone(magnitude: nat, e1: nat, e2: nat, duration: nat)
    requires e1 <= e2 && 0 < duration
    ensures RoundHalfUp(magnitude, e1, duration) <= RoundHalfUp(magnitude, e2, duration)
  {
    assert 2 * magnitude * e1 <= 2 * magnitude * e2 by {
      assert 2 * magnitude * e2 - 2 * magnitude * e1 == 2 * magnitude * (e2 - e1);
    }
    QuotientMonotone(2 * magnitude * e1 + duration, 2 * magnitude * e2 + duration, 2 * duration);
  }

  lemma {:induction false} QuotientMonotone(m: nat, n: nat, d: nat)
    requires m <= n && 0 < d
    ensures 0 <= m / d <= n / d
  {
    var a, b := m / d, n / d;
    assert m == d * a + m % d && n == d * b + n % d;
    assert d * (a - b) == d * a - d * b;
    if a > b {
      MultipleIsLarge(d, a - b);
    }
  }

  /** One coordinate part of the way from `source` to `target`. */
  function InterpolateComponent(source: int16, target: int16, elapsed: uint16, duration: uint16): (r: int16)
    ensures source <= r <= target || target <= r <= source
  {
    if duration == 0 || elapsed >= duration then target
    else if elapsed == 0 then source
    else
      var difference := target - source;
      var magnitude := if difference < 0 then -difference else difference;
      SplitQuotientIsExact(magnitude, elapsed, duration);
      RoundHalfUpBounds(magnitude, elapsed, duration);
      var change := InterpolateMagnitude(magnitude, elapsed, duration);
      if difference < 0 then source - change else source + change
  }

  function Interpolate(source: Lab, target: Lab, elapsed: uint16, duration: uint16): Lab {
    if duration == 0 || elapsed >= duration then target
    else if elapsed == 0 then source
    else Lab(InterpolateComponent(source.l, target.l, elapsed, duration),
             InterpolateComponent(source.a, target.a, elapsed, duration),
             InterpolateComponent(source.b, target.b, elapsed, duration))
  }
}
