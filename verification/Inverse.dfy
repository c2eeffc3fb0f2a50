/** The two colour conversions undo each other, up to stated distances. */
module Inverse {
  import opened Clock
  import opened Oklab
  import opened Instructions
  import opened Nearest
  import opened Timed

  // ----- Rounded operations are nearest ----------------------------------------------------

  lemma {:induction false} DivideIsNearest(n: int, d: nat)
    requires d > 0
    ensures -(d as int) <= 2 * (d * RoundDivideSigned(n, d) - n) <= d
  {
    var m: nat := if n >= 0 then n else -n;
    var q := (m + d / 2) / d;
    assert m + d / 2 == d * q + (m + d / 2) % d;
    assert d * (-q) == -(d * q);
  }

  lemma {:induction false} MultiplyIsNearest(a: uint16, b: uint16)
    ensures -0x1_0000 <= 2 * (0x1_0000 * MultiplyQ16(a, b) - a * b) <= 0x1_0000
  {
    ProductMonotone(a, b, 0xFFFF, 0xFFFF);
  }

  /** Clamping never moves a value away from one inside the range. */
  lemma {:induction false} ClampIsNearer(x: int, y: int)
    requires 0 <= y <= Q13_ONE
    ensures Distance(ClampQ13(x), y) <= Distance(x, y)
  {
  }

  // ----- Matrices --------------------------------------------------------------------------

  /** `q` is `n / d` rounded to nearest. */
  predicate Near(q: int, n: int, d: int) {
    -d <= 2 * (d * q - n) <= d
  }

  lemma {:induction false} RowL(l: unit13, m: unit13, s: unit13, L: int, A: int, B: int, x: int)
    requires Near(L, 1724 * l + 6501 * m - 33 * s, 8192) && Near(A, 16204 * l - 19895 * m + 3691 * s, 8192)
    requires Near(B, 212 * l + 6412 * m - 6625 * s, 8192) && Near(x, 8192 * L + 3247 * A + 1768 * B, 8192)
    ensures -2 <= x - l <= 2
  {
  }

  lemma {:induction false} RowM(l: unit13, m: unit13, s: unit13, L: int, A: int, B: int, x: int)
    requires Near(L, 1724 * l + 6501 * m - 33 * s, 8192) && Near(A, 16204 * l - 19895 * m + 3691 * s, 8192)
    requires Near(B, 212 * l + 6412 * m - 6625 * s, 8192) && Near(x, 8192 * L - 865 * A - 523 * B, 8192)
    ensures -1 <= x - m <= 1
  {
  }

  lemma {:induction false} RowS(l: unit13, m: unit13, s: unit13, L: int, A: int, B: int, x: int)
    requires Near(L, 1724 * l + 6501 * m - 33 * s, 8192) && Near(A, 16204 * l - 19895 * m + 3691 * s, 8192)
    requires Near(B, 212 * l + 6412 * m - 6625 * s, 8192) && Near(x, 8192 * L - 733 * A - 10580 * B, 8192)
    ensures -2 <= x - s <= 2
  {
  }

  lemma {:induction false} LabIsNear(l: unit13, m: unit13, s: unit13)
    ensures var lab := FromRoots(l, m, s);
      && Near(lab.l, 1724 * l + 6501 * m - 33 * s, 8192)
      && Near(lab.a, 16204 * l - 19895 * m + 3691 * s, 8192)
      && Near(lab.b, 212 * l + 6412 * m - 6625 * s, 8192)
  {
    hide RoundDivideSigned;
    DivideIsNearest(Dot3(1724, 6501, -33, l, m, s), 8192);
    DivideIsNearest(Dot3(16204, -19895, 3691, l, m, s), 8192);
    DivideIsNearest(Dot3(212, 6412, -6625, l, m, s), 8192);
  }

  /** The roots of an OKLab colour are its exact rows, rounded and clamped. */
  lemma {:induction false} RootsAreNear(lab: Lab, l: unit13, m: unit13, s: unit13) returns (x: int, y: int, z: int)
    ensures Near(x, 8192 * lab.l + 3247 * lab.a + 1768 * lab.b, 8192) && Distance(RootL(lab), l) <= Distance(x, l)
    ensures Near(y, 8192 * lab.l - 865 * lab.a - 523 * lab.b, 8192) && Distance(RootM(lab), m) <= Distance(y, m)
    ensures Near(z, 8192 * lab.l - 733 * lab.a - 10580 * lab.b, 8192) && Distance(RootS(lab), s) <= Distance(z, s)
  {
    hide RoundDivideSigned;
    x := RoundDivideSigned(Dot3(8192, 3247, 1768, lab.l, lab.a, lab.b), 8192);
    y := RoundDivideSigned(Dot3(8192, -865, -523, lab.l, lab.a, lab.b), 8192);
    z := RoundDivideSigned(Dot3(8192, -733, -10580, lab.l, lab.a, lab.b), 8192);
    DivideIsNearest(Dot3(8192, 3247, 1768, lab.l, lab.a, lab.b), 8192);
    DivideIsNearest(Dot3(8192, -865, -523, lab.l, lab.a, lab.b), 8192);
    DivideIsNearest(Dot3(8192, -733, -10580, lab.l, lab.a, lab.b), 8192);
  }

  /** The inverse root rows bring back the roots within 2, 1 and 2 parts in 8192. */
  lemma {:induction false} RootsComeBack(l: unit13, m: unit13, s: unit13)
    ensures var lab := FromRoots(l, m, s);
      Distance(RootL(lab), l) <= 2 && Distance(RootM(lab), m) <= 1 && Distance(RootS(lab), s) <= 2
  {
    hide FromRoots, RootL, RootM, RootS, Near;
    var lab := FromRoots(l, m, s);
    LabIsNear(l, m, s);
    var x, y, z := RootsAreNear(lab, l, m, s);
    RowL(l, m, s, lab.l, lab.a, lab.b, x);
    RowM(l, m, s, lab.l, lab.a, lab.b, y);
    RowS(l, m, s, lab.l, lab.a, lab.b, z);
  }

  /** The linear channels of an LMS triple are its exact rows, rounded to nearest. */
  lemma {:induction false} LinearIsNear(l: nat, m: nat, s: nat)
    ensures Near(LinearRed(l, m, s), 16698 * l - 13548 * m + 946 * s, 4096)
    ensures Near(LinearGreen(l, m, s), -5196 * l + 10690 * m - 1398 * s, 4096)
    ensures Near(LinearBlue(l, m, s), -17 * l - 2881 * m + 6994 * s, 4096)
  {
    hide RoundDivideSigned;
    DivideIsNearest(Dot3(16698, -13548, 946, l, m, s), 4096);
    DivideIsNearest(Dot3(-5196, 10690, -1398, l, m, s), 4096);
    DivideIsNearest(Dot3(-17, -2881, 6994, l, m, s), 4096);
  }

  /** A mixed response is within one and a half units of the exact weighted sum. */
  lemma {:induction false} MixIsNear(c0: uint16, c1: uint16, c2: uint16, x: uint16, y: uint16, z: uint16)
    requires c0 + c1 + c2 <= 0x1_0000
    ensures -0x3_0000 <= 2 * (0x1_0000 * SumQ16Products(c0, c1, c2, x, y, z) - (c0 * x + c1 * y + c2 * z)) <= 0x3_0000
  {
    hide MultiplyQ16;
    MultiplyIsNearest(c0, x);
    MultiplyIsNearest(c1, y);
    MultiplyIsNearest(c2, z);
    ProductMonotone(c0, x, c0, 0xFFFF);
    ProductMonotone(c1, y, c1, 0xFFFF);
    ProductMonotone(c2, z, c2, 0xFFFF);
  }

  /** `q` is `n / 65536` within one and a half. */
  predicate Mixed(q: int, n: int) {
    -0x3_0000 <= 2 * (0x1_0000 * q - n) <= 0x3_0000
  }

  lemma {:induction false} RowRed(r: uint16, g: uint16, b: uint16, l: int, m: int, s: int, x: int)
    requires Mixed(l, 27015 * r + 35149 * g + 3372 * b) && Mixed(m, 13887 * r + 44610 * g + 7038 * b)
    requires Mixed(s, 5787 * r + 18463 * g + 41286 * b) && Near(x, 16698 * l - 13548 * m + 946 * s, 4096)
    ensures -16 <= x - r <= 16
  {
  }

  lemma {:induction false} RowGreen(r: uint16, g: uint16, b: uint16, l: int, m: int, s: int, x: int)
    requires Mixed(l, 27015 * r + 35149 * g + 3372 * b) && Mixed(m, 13887 * r + 44610 * g + 7038 * b)
    requires Mixed(s, 5787 * r + 18463 * g + 41286 * b) && Near(x, -5196 * l + 10690 * m - 1398 * s, 4096)
    ensures -9 <= x - g <= 9
  {
  }

  lemma {:induction false} RowBlue(r: uint16, g: uint16, b: uint16, l: int, m: int, s: int, x: int)
    requires Mixed(l, 27015 * r + 35149 * g + 3372 * b) && Mixed(m, 13887 * r + 44610 * g + 7038 * b)
    requires Mixed(s, 5787 * r + 18463 * g + 41286 * b) && Near(x, -17 * l - 2881 * m + 6994 * s, 4096)
    ensures -8 <= x - b <= 8
  {
  }

  /** The linear rows undo the mix, within 16, 9 and 8 parts in 65536. */
  lemma {:induction false} MixComesBack(r: uint16, g: uint16, b: uint16)
    ensures
      var l, m, s := SumQ16Products(27015, 35149, 3372, r, g, b), SumQ16Products(13887, 44610, 7038, r, g, b),
                     SumQ16Products(5787, 18463, 41286, r, g, b);
      Distance(LinearRed(l, m, s), r) <= 16 && Distance(LinearGreen(l, m, s), g) <= 9 && Distance(LinearBlue(l, m, s), b) <= 8
  {
    hide SumQ16Products, Near, LinearRed, LinearGreen, LinearBlue;
    var l, m, s := SumQ16Products(27015, 35149, 3372, r, g, b), SumQ16Products(13887, 44610, 7038, r, g, b),
                   SumQ16Products(5787, 18463, 41286, r, g, b);
    MixIsNear(27015, 35149, 3372, r, g, b);
    MixIsNear(13887, 44610, 7038, r, g, b);
    MixIsNear(5787, 18463, 41286, r, g, b);
    LinearIsNear(l, m, s);
    RowRed(r, g, b, l, m, s, LinearRed(l, m, s));
    RowGreen(r, g, b, l, m, s, LinearGreen(l, m, s));
    RowBlue(r, g, b, l, m, s, LinearBlue(l, m, s));
  }

  // ----- Cubes and roots -------------------------------------------------------------------

  lemma {:induction false} ScaledError(e: int, x: nat, m: nat, n: nat)
    requires -(m as int) <= e <= m && x <= n
    ensures -(m * n) <= e * x <= m * n
  {
    ProductMonotone(if e < 0 then -e else e, x, m, n);
    assert (-e) * x == -(e * x);
  }

  function Cubed(x: int): int {
    x * x * x
  }

  /** A Q13 cube is within one unit of the exact one. */
  lemma {:induction false} CubeQ13IsNear(x: unit13)
    ensures -0x400_0000 <= 0x400_0000 * CubeQ13(x) - Cubed(x) <= 0x400_0000
  {
    var square := (x * x + 4096) / 8192;
    var e1 := 8192 * square - x * x;
    var e2 := 8192 * CubeQ13(x) - square * x;
    assert -4096 <= e1 <= 4096 && -4096 <= e2 <= 4096;
    ScaledError(e1, x, 4096, 8192);
    assert 8192 * square * x == Cubed(x) + e1 * x by {
      assert 8192 * square == x * x + e1;
      assert (x * x + e1) * x == x * x * x + e1 * x;
    }
    assert 8192 * (square * x) == 8192 * square * x;
    assert 0x400_0000 * CubeQ13(x) == 8192 * (square * x + e2);
  }

  /** A Q16 cube is within one unit of the exact one. */
  lemma {:induction false} CubeQ16IsNear(x: uint16)
    ensures -0x1_0000_0000 <= 0x1_0000_0000 * CubeQ16(x) - Cubed(x) <= 0x1_0000_0000
  {
    hide MultiplyQ16;
    var square := MultiplyQ16(x, x);
    MultiplyIsNearest(x, x);
    MultiplyIsNearest(square, x);
    var e1 := 0x1_0000 * square - x * x;
    var e2 := 0x1_0000 * CubeQ16(x) - square * x;
    ScaledError(e1, x, 0x8000, 0x1_0000);
    assert 0x1_0000 * square * x == Cubed(x) + e1 * x by {
      assert 0x1_0000 * square == x * x + e1;
      assert (x * x + e1) * x == x * x * x + e1 * x;
    }
    assert 0x1_0000 * (square * x) == 0x1_0000 * square * x;
    assert 0x1_0000_0000 * CubeQ16(x) == 0x1_0000 * (square * x + e2);
  }

  lemma {:induction false} CubeDifference(x: nat, y: nat)
    ensures Cubed(y) - Cubed(x) == (y - x) * (y * y + x * y + x * x)
  {
    var a, b, c := y * y, x * y, x * x;
    assert (y - x) * (a + b + c) == y * a + y * b + y * c - (x * a + x * b + x * c);
    assert y * b == x * a && y * c == x * b;
  }

  /** Cubes of values at most `k` apart. */
  lemma {:induction false} CubesAreClose(x: nat, y: nat, k: nat)
    requires x <= y <= 0x1_0000 && y - x <= k
    ensures 0 <= Cubed(y) - Cubed(x) <= k * 0x3_0000_0000
  {
    hide Cubed;
    var sum := y * y + x * y + x * x;
    ProductMonotone(y, y, 0x1_0000, 0x1_0000);
    ProductMonotone(x, y, 0x1_0000, 0x1_0000);
    ProductMonotone(x, x, 0x1_0000, 0x1_0000);
    CubeDifference(x, y);
    ProductMonotone(0, 0, y - x, sum);
    ProductMonotone(y - x, sum, k, 0x3_0000_0000);
  }

  /** Neighbouring cubes differ by at most five. */
  lemma {:induction false} CubeSteps(x: uint16)
    requires x < 0xFFFF
    ensures CubeQ16(x + 1) - CubeQ16(x) <= 5
  {
    hide CubeQ16;
    CubeQ16IsNear(x);
    CubeQ16IsNear(x + 1);
    CubesAreClose(x, x + 1, 1);
  }

  lemma {:induction false} TopCube()
    ensures CubeQ16(0xFFFF) == 0xFFFD
  {
    CubeIs(0xFFFF, 0xFFFE, 0xFFFD);
  }

  /** The cube of the root is within two units of its input. */
  lemma {:induction false} RootIsClose(value: uint16)
    ensures Distance(CubeQ16(CubeRootQ16(value)), value) <= 2
  {
    hide CubeQ16, SearchCube;
    SearchCubeFinds(value, 0, 0xFFFF);
    var p := SearchCube(value, 0, 0xFFFF);
    ZeroCube();
    TopCube();
    if p > 0 { CubeSteps(p - 1); }
  }

  /** Cubing a Q13 root that came back within `k` gives the response back within `24k + 23`. */
  lemma {:induction false} ResponseComesBack(value: uint16, x: unit13, k: nat)
    requires Distance(x, RootQ13(value)) <= k <= 2
    ensures Distance(8 * CubeQ13(x), value) <= 24 * k + 23
  {
    hide CubeQ16, CubeQ13, CubeRootQ16;
    var root, wide := CubeRootQ16(value), 8 * x;
    RootIsClose(value);
    CubeQ13IsNear(x);
    CubeQ16IsNear(root);
    assert Cubed(wide) == 512 * Cubed(x) by {
      assert (8 * x) * (8 * x) == 64 * (x * x);
      assert 64 * (x * x) * (8 * x) == 512 * (x * x * x);
    }
    if wide <= root { CubesAreClose(wide, root, 8 * k + 4); } else { CubesAreClose(root, wide, 8 * k + 4); }
  }

  // ----- There and back --------------------------------------------------------------------

  /** Responses `8x`, `8y` and `8z` that came back near those of the linear colour. */
  predicate Back(r: int, g: int, b: int, l: int, m: int, s: int, x: int, y: int, z: int) {
    && Mixed(l, 27015 * r + 35149 * g + 3372 * b) && Mixed(m, 13887 * r + 44610 * g + 7038 * b)
    && Mixed(s, 5787 * r + 18463 * g + 41286 * b)
    && -71 <= 8 * x - l <= 71 && -47 <= 8 * y - m <= 47 && -71 <= 8 * z - s <= 71
  }

  lemma {:induction false} BackRed(r: uint16, g: uint16, b: uint16, l: int, m: int, s: int, x: int, y: int, z: int, q: int)
    requires Back(r, g, b, l, m, s, x, y, z) && Near(q, 16698 * x - 13548 * y + 946 * z, 4096)
    ensures -482 <= 8 * q - r <= 482
  {
  }

  lemma {:induction false} BackGreen(r: uint16, g: uint16, b: uint16, l: int, m: int, s: int, x: int, y: int, z: int, q: int)
    requires Back(r, g, b, l, m, s, x, y, z) && Near(q, -5196 * x + 10690 * y - 1398 * z, 4096)
    ensures -251 <= 8 * q - g <= 251
  {
  }

  lemma {:induction false} BackBlue(r: uint16, g: uint16, b: uint16, l: int, m: int, s: int, x: int, y: int, z: int, q: int)
    requires Back(r, g, b, l, m, s, x, y, z) && Near(q, -17 * x - 2881 * y + 6994 * z, 4096)
    ensures -168 <= 8 * q - b <= 168
  {
  }

  /** The responses of a colour come back through OKLab. */
  lemma {:induction false} ResponsesComeBack(c: Rgb)
    ensures var lab := ToOklab(c);
      Back(SRGB_TO_LINEAR[c.red], SRGB_TO_LINEAR[c.green], SRGB_TO_LINEAR[c.blue], MixL(c), MixM(c), MixS(c),
           CubeQ13(RootL(lab)), CubeQ13(RootM(lab)), CubeQ13(RootS(lab)))
  {
    hide CubeQ13, RootL, RootM, RootS, RootQ13, FromRoots, SumQ16Products;
    var r, g, b := SRGB_TO_LINEAR[c.red], SRGB_TO_LINEAR[c.green], SRGB_TO_LINEAR[c.blue];
    var lab := ToOklab(c);
    MixIsNear(27015, 35149, 3372, r, g, b);
    MixIsNear(13887, 44610, 7038, r, g, b);
    MixIsNear(5787, 18463, 41286, r, g, b);
    RootsComeBack(RootQ13(MixL(c)), RootQ13(MixM(c)), RootQ13(MixS(c)));
    ResponseComesBack(MixL(c), RootL(lab), 2);
    ResponseComesBack(MixM(c), RootM(lab), 1);
    ResponseComesBack(MixS(c), RootS(lab), 2);
  }

  /** Encoding a channel that came back within `k` picks an entry within `2k`. */
  lemma {:induction false} ChannelComesBack(channel: uint8, q: int, k: nat)
    requires -(k as int) <= 8 * q - SRGB_TO_LINEAR[channel] <= k
    ensures Distance(SRGB_TO_LINEAR[EncodeSrgbQ13(ClampQ13(q))], SRGB_TO_LINEAR[channel]) <= 2 * k
  {
    hide EncodeSrgbQ13;
    SrgbEncodeIsNearest(ClampQ13(q));
  }

  /** For every colour: converted to OKLab and back, no decoded channel moves by more than 964,
      502 and 336 parts in 65535. */
  lemma {:induction false} ColourComesBack(c: Rgb)
    ensures var d := FromOklab(ToOklab(c));
      && Distance(SRGB_TO_LINEAR[d.red], SRGB_TO_LINEAR[c.red]) <= 964
      && Distance(SRGB_TO_LINEAR[d.green], SRGB_TO_LINEAR[c.green]) <= 502
      && Distance(SRGB_TO_LINEAR[d.blue], SRGB_TO_LINEAR[c.blue]) <= 336
  {
    hide Back, Near, ToOklab, CubeQ13, RootL, RootM, RootS, LinearRed, LinearGreen, LinearBlue, EncodeSrgbQ13;
    var lab := ToOklab(c);
    var r, g, b := SRGB_TO_LINEAR[c.red], SRGB_TO_LINEAR[c.green], SRGB_TO_LINEAR[c.blue];
    var x, y, z := CubeQ13(RootL(lab)), CubeQ13(RootM(lab)), CubeQ13(RootS(lab));
    ResponsesComeBack(c);
    LinearIsNear(x, y, z);
    BackRed(r, g, b, MixL(c), MixM(c), MixS(c), x, y, z, LinearRed(x, y, z));
    BackGreen(r, g, b, MixL(c), MixM(c), MixS(c), x, y, z, LinearGreen(x, y, z));
    BackBlue(r, g, b, MixL(c), MixM(c), MixS(c), x, y, z, LinearBlue(x, y, z));
    ChannelComesBack(c.red, LinearRed(x, y, z), 482);
    ChannelComesBack(c.green, LinearGreen(x, y, z), 251);
    ChannelComesBack(c.blue, LinearBlue(x, y, z), 168);
  }

  // ----- Interpolation ---------------------------------------------------------------------

  /** One coordinate on the straight line, rounded to nearest. */
  predicate OnLine(r: int, source: int, target: int, elapsed: int, duration: int) {
    if elapsed >= duration then r == target
    else -duration <= 2 * ((r - source) * duration - (target - source) * elapsed) <= duration
  }

  lemma {:induction false} HalfUpIsNear(m: nat, elapsed: nat, duration: nat)
    requires duration > 0
    ensures Near(RoundHalfUp(m, elapsed, duration), m * elapsed, duration)
  {
    var q, n := RoundHalfUp(m, elapsed, duration), 2 * m * elapsed + duration;
    assert n == 2 * duration * q + n % (2 * duration);
    assert 2 * (duration * q) == 2 * duration * q && 2 * (m * elapsed) == 2 * m * elapsed;
  }

  lemma {:induction false} LineStep(source: int, target: int, q: int, elapsed: int, duration: int, m: int)
    requires elapsed < duration && Near(q, m * elapsed, duration)
    ensures target - source == m ==> OnLine(source + q, source, target, elapsed, duration)
    ensures target - source == -m ==> OnLine(source - q, source, target, elapsed, duration)
  {
    assert duration * q == q * duration;
    assert (-q) * duration == -(q * duration) && (-m) * elapsed == -(m * elapsed);
  }

  lemma {:induction false} ComponentOnLine(source: int16, target: int16, elapsed: uint16, duration: uint16)
    ensures OnLine(InterpolateComponent(source, target, elapsed, duration), source, target, elapsed, duration)
  {
    hide InterpolateMagnitude, RoundHalfUp, OnLine, Near;
    var m: nat := if target < source then source - target else target - source;
    if 0 < elapsed < duration {
      SplitQuotientIsExact(m, elapsed, duration);
      HalfUpIsNear(m, elapsed, duration);
      LineStep(source, target, RoundHalfUp(m, elapsed, duration), elapsed, duration, m);
    } else {
      LineEnds(source, target, elapsed, duration);
    }
  }

  lemma {:induction false} LineEnds(source: int, target: int, elapsed: nat, duration: nat)
    ensures elapsed >= duration ==> OnLine(target, source, target, elapsed, duration)
    ensures elapsed == 0 < duration ==> OnLine(source, source, target, elapsed, duration)
  {
  }

  /** Each coordinate of an interpolated colour lies on its own line between the endpoints. */
  lemma {:induction false} InterpolateOnLine(source: Lab, target: Lab, elapsed: uint16, duration: uint16)
    ensures var r := Interpolate(source, target, elapsed, duration);
      && OnLine(r.l, source.l, target.l, elapsed, duration)
      && OnLine(r.a, source.a, target.a, elapsed, duration)
      && OnLine(r.b, source.b, target.b, elapsed, duration)
  {
    hide InterpolateComponent;
    ComponentOnLine(source.l, target.l, elapsed, duration);
    ComponentOnLine(source.a, target.a, elapsed, duration);
    ComponentOnLine(source.b, target.b, elapsed, duration);
  }

  /** A Gradient under way shows a colour whose coordinates lie on the lines from the captured
      colour to the target. */
  lemma {:induction false} GradientOnLine(color: Rgb, duration: uint16, index: uint8, captured: Rgb, elapsed: uint16) returns (lab: Lab)
    requires elapsed < duration
    ensures Sample(Gradient(color, duration, index), captured, elapsed) == FromOklab(lab)
    ensures OnLine(lab.l, ToOklab(captured).l, ToOklab(color).l, elapsed, duration)
    ensures OnLine(lab.a, ToOklab(captured).a, ToOklab(color).a, elapsed, duration)
    ensures OnLine(lab.b, ToOklab(captured).b, ToOklab(color).b, elapsed, duration)
  {
    hide ToOklab, FromOklab, Interpolate;
    lab := Interpolate(ToOklab(captured), ToOklab(color), elapsed, duration);
    InterpolateOnLine(ToOklab(captured), ToOklab(color), elapsed, duration);
  }
}
