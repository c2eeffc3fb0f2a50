/** The corners of the colour cube come back from OKLab within one step per channel. */
module Corners {
  import opened Clock
  import opened Oklab
  import opened Nearest
  import opened Inverse

  // ----- Cube roots by their neighbours ----------------------------------------------------

  lemma {:induction false} CubeRootIs(value: uint16, p: uint16, below: uint16, at: uint16)
    requires 0 < p && CubeQ16(p - 1) == below < value <= at == CubeQ16(p)
    ensures CubeRootQ16(value) == if value - below <= at - value then p - 1 else p
  {
    hide CubeQ16, SearchCube;
    SearchCubeFinds(value, 0, 0xFFFF);
    var f := SearchCube(value, 0, 0xFFFF);
    if f < p { CubeMonotone(f, p - 1); }
  }

  /** A Q13 root from the squares and cubes of two neighbours. */
  lemma {:induction false} RootIs(value: uint16, p: uint16, square1: uint16, below: uint16, square2: uint16, at: uint16)
    requires 0 < p && below < value <= at
    requires MultiplyQ16(p - 1, p - 1) == square1 && MultiplyQ16(square1, p - 1) == below
    requires MultiplyQ16(p, p) == square2 && MultiplyQ16(square2, p) == at
    ensures RootQ13(value) == ((if value - below <= at - value then p - 1 else p) + 4) / 8
  {
    hide MultiplyQ16, CubeRootQ16;
    CubeIs(p - 1, square1, below);
    CubeIs(p, square2, at);
    CubeRootIs(value, p, below, at);
  }

  lemma {:induction false} ZeroRoot()
    ensures RootQ13(0) == 0
  {
    hide CubeQ16, SearchCube;
    ZeroCube();
    SearchCubeFinds(0, 0, 0xFFFF);
    var f := SearchCube(0, 0, 0xFFFF);
  }

  lemma {:induction false} TopRoot(value: uint16)
    requires value > 0xFFFD
    ensures RootQ13(value) == 8192
  {
    hide CubeQ16, SearchCube;
    TopCube();
    SearchCubeFinds(value, 0, 0xFFFF);
    var f := SearchCube(value, 0, 0xFFFF);
    if f < 0xFFFF { CubeMonotone(f, 0xFFFF); }
  }

  // ----- Exact results by their bounds -----------------------------------------------------

  lemma {:induction false} DivideIs(n: int, d: nat, q: int)
    requires -(d as int) < 2 * (d * q - n) < d
    ensures RoundDivideSigned(n, d) == q
  {
    hide RoundDivideSigned;
    DivideIsNearest(n, d);
    var k := RoundDivideSigned(n, d);
    assert d * (k - q) == d * k - d * q;
    SmallMultipleIsZero(d, k - q);
  }

  lemma {:induction false} CubeQ13Is(x: unit13, square: nat, cube: nat)
    requires 8192 * square <= x * x + 4096 < 8192 * square + 8192
    requires 8192 * cube <= square * x + 4096 < 8192 * cube + 8192
    ensures CubeQ13(x) == cube
  {
  }

  /** A coefficient times zero and times the largest value. */
  lemma {:induction false} TimesEnds(k: uint16)
    requires k > 0
    ensures MultiplyQ16(k, 0) == 0 && MultiplyQ16(k, 0xFFFF) == if k <= 0x8000 then k else k - 1
  {
    assert k * 0xFFFF == 0x1_0000 * (k - 1) + (0x1_0000 - k);
  }

  lemma {:induction false} MixEnds(c0: uint16, c1: uint16, c2: uint16)
    requires 0 < c0 && 0 < c1 && 0 < c2
    ensures MultiplyQ16(c0, 0) == 0 && MultiplyQ16(c1, 0) == 0 && MultiplyQ16(c2, 0) == 0
    ensures MultiplyQ16(c0, 0xFFFF) == if c0 <= 0x8000 then c0 else c0 - 1
    ensures MultiplyQ16(c1, 0xFFFF) == if c1 <= 0x8000 then c1 else c1 - 1
    ensures MultiplyQ16(c2, 0xFFFF) == if c2 <= 0x8000 then c2 else c2 - 1
  {
    TimesEnds(c0);
    TimesEnds(c1);
    TimesEnds(c2);
  }

  /** The rows of a forward and of an inverse conversion, from exact bounds. */
  lemma {:induction false} LabIs(x: unit13, y: unit13, z: unit13, l: int, a: int, b: int)
    requires -8192 < 2 * (8192 * l - (1724 * x + 6501 * y - 33 * z)) < 8192
    requires -8192 < 2 * (8192 * a - (16204 * x - 19895 * y + 3691 * z)) < 8192
    requires -8192 < 2 * (8192 * b - (212 * x + 6412 * y - 6625 * z)) < 8192
    ensures var lab := FromRoots(x, y, z); lab.l == l && lab.a == a && lab.b == b
  {
    hide RoundDivideSigned;
    DivideIs(Dot3(1724, 6501, -33, x, y, z), 8192, l);
    DivideIs(Dot3(16204, -19895, 3691, x, y, z), 8192, a);
    DivideIs(Dot3(212, 6412, -6625, x, y, z), 8192, b);
  }

  lemma {:induction false} RootsAre(lab: Lab, x: int, y: int, z: int)
    requires -8192 < 2 * (8192 * x - (8192 * lab.l + 3247 * lab.a + 1768 * lab.b)) < 8192
    requires -8192 < 2 * (8192 * y - (8192 * lab.l - 865 * lab.a - 523 * lab.b)) < 8192
    requires -8192 < 2 * (8192 * z - (8192 * lab.l - 733 * lab.a - 10580 * lab.b)) < 8192
    ensures RootL(lab) == ClampQ13(x) && RootM(lab) == ClampQ13(y) && RootS(lab) == ClampQ13(z)
  {
    hide RoundDivideSigned;
    DivideIs(Dot3(8192, 3247, 1768, lab.l, lab.a, lab.b), 8192, x);
    DivideIs(Dot3(8192, -865, -523, lab.l, lab.a, lab.b), 8192, y);
    DivideIs(Dot3(8192, -733, -10580, lab.l, lab.a, lab.b), 8192, z);
  }

  lemma {:induction false} LinearAre(l: nat, m: nat, s: nat, r: int, g: int, b: int)
    requires -4096 < 2 * (4096 * r - (16698 * l - 13548 * m + 946 * s)) < 4096
    requires -4096 < 2 * (4096 * g - (-5196 * l + 10690 * m - 1398 * s)) < 4096
    requires -4096 < 2 * (4096 * b - (-17 * l - 2881 * m + 6994 * s)) < 4096
    ensures LinearRed(l, m, s) == r && LinearGreen(l, m, s) == g && LinearBlue(l, m, s) == b
  {
    hide RoundDivideSigned;
    DivideIs(Dot3(16698, -13548, 946, l, m, s), 4096, r);
    DivideIs(Dot3(-5196, 10690, -1398, l, m, s), 4096, g);
    DivideIs(Dot3(-17, -2881, 6994, l, m, s), 4096, b);
  }

  // ----- Encoding near the ends of the table -----------------------------------------------

  lemma {:induction false} TableEnds()
    ensures SRGB_TO_LINEAR[0] == 0 && SRGB_TO_LINEAR[1] == 20 && SRGB_TO_LINEAR[2] == 40
    ensures SRGB_TO_LINEAR[254] == 64952 && SRGB_TO_LINEAR[255] == 65535
  {
    assert SRGB_TO_LINEAR[1] == ROW0[1] && SRGB_TO_LINEAR[2] == ROW0[2] && SRGB_TO_LINEAR[254] == ROW15[14];
    assert SRGB_TO_LINEAR[0] == ROW0[0] && SRGB_TO_LINEAR[255] == ROW15[15];
  }

  /** The darkest and the brightest linear values. */
  lemma {:induction false} EncodesEnds(linear: unit13)
    ensures linear <= 1 ==> EncodeSrgbQ13(linear) == 0
    ensures 2 <= linear <= 3 ==> EncodeSrgbQ13(linear) == 1
    ensures 8160 <= linear ==> EncodeSrgbQ13(linear) == 255
  {
    hide EncodeSrgbQ13, SRGB_TO_LINEAR;
    TableEnds();
    SrgbTableIsStrict();
    SrgbEncodeIsNearest(linear);
    var r := EncodeSrgbQ13(linear);
    assert r > 2 ==> SRGB_TO_LINEAR[2] < SRGB_TO_LINEAR[r];
    assert r < 254 ==> SRGB_TO_LINEAR[r] < SRGB_TO_LINEAR[254];
  }

  // ----- The corners -----------------------------------------------------------------------

  lemma {:induction false} BlackThere(c: Rgb)
    requires c.red == 0 && c.green == 0 && c.blue == 0
    ensures var lab := ToOklab(c); lab.l == 0 && lab.a == 0 && lab.b == 0
  {
    hide RootQ13, SRGB_TO_LINEAR, MultiplyQ16, FromRoots;
    TableEnds();
    MixEnds(27015, 35149, 3372);
    MixEnds(13887, 44610, 7038);
    MixEnds(5787, 18463, 41286);
    BlackRoots();
    LabIs(0, 0, 0, 0, 0, 0);
  }

  lemma {:induction false} BlackRoots()
    ensures RootQ13(0) == 0 && RootQ13(0) == 0 && RootQ13(0) == 0
  {
    hide RootQ13;
    ZeroRoot();
  }

  lemma {:induction false} BlackBack(lab: Lab)
    requires lab.l == 0 && lab.a == 0 && lab.b == 0
    ensures var d := FromOklab(lab); d.red == 0 && d.green == 0 && d.blue == 0
  {
    hide EncodeSrgbQ13, RootL, RootM, RootS, CubeQ13, LinearRed, LinearGreen, LinearBlue;
    RootsAre(lab, 0, 0, 0);
    CubeQ13Is(0, 0, 0);
    LinearAre(0, 0, 0, 0, 0, 0);
    EncodesEnds(0);
  }

  lemma {:induction false} BlueThere(c: Rgb)
    requires c.red == 0 && c.green == 0 && c.blue == 255
    ensures var lab := ToOklab(c); lab.l == 3703 && lab.a == -266 && lab.b == -2553
  {
    hide RootQ13, SRGB_TO_LINEAR, MultiplyQ16, FromRoots;
    TableEnds();
    MixEnds(27015, 35149, 3372);
    MixEnds(13887, 44610, 7038);
    MixEnds(5787, 18463, 41286);
    BlueRoots();
    LabIs(3047, 3894, 7023, 3703, -266, -2553);
  }

  lemma {:induction false} BlueRoots()
    ensures RootQ13(3372) == 3047 && RootQ13(7038) == 3894 && RootQ13(41285) == 7023
  {
    hide RootQ13;
    RootIs(3372, 24375, 9065, 3371, 9066, 3372);
    RootIs(7038, 31151, 14806, 7037, 14807, 7038);
    RootIs(41285, 56180, 48158, 41282, 48160, 41285);
  }

  lemma {:induction false} BlueBack(lab: Lab)
    requires lab.l == 3703 && lab.a == -266 && lab.b == -2553
    ensures var d := FromOklab(lab); d.red == 0 && d.green == 0 && d.blue == 255
  {
    hide EncodeSrgbQ13, RootL, RootM, RootS, CubeQ13, LinearRed, LinearGreen, LinearBlue;
    RootsAre(lab, 3047, 3894, 7024);
    CubeQ13Is(3047, 1133, 421);
    CubeQ13Is(3894, 1851, 880);
    CubeQ13Is(7024, 6023, 5164);
    LinearAre(421, 880, 5164, -2, 0, 8197);
    EncodesEnds(0);
    EncodesEnds(8192);
  }

  lemma {:induction false} GreenThere(c: Rgb)
    requires c.red == 0 && c.green == 255 && c.blue == 0
    ensures var lab := ToOklab(c); lab.l == 7098 && lab.a == -1915 && lab.b == 1470
  {
    hide RootQ13, SRGB_TO_LINEAR, MultiplyQ16, FromRoots;
    TableEnds();
    MixEnds(27015, 35149, 3372);
    MixEnds(13887, 44610, 7038);
    MixEnds(5787, 18463, 41286);
    GreenRoots();
    LabIs(6656, 7206, 5370, 7098, -1915, 1470);
  }

  lemma {:induction false} GreenRoots()
    ensures RootQ13(35148) == 6656 && RootQ13(44609) == 7206 && RootQ13(18463) == 5370
  {
    hide RootQ13;
    RootIs(35148, 53246, 43259, 35146, 43261, 35148);
    RootIs(44609, 57650, 50711, 44608, 50713, 44611);
    RootIs(18463, 42962, 28162, 18461, 28164, 18463);
  }

  lemma {:induction false} GreenBack(lab: Lab)
    requires lab.l == 7098 && lab.a == -1915 && lab.b == 1470
    ensures var d := FromOklab(lab); d.red == 1 && d.green == 255 && d.blue == 1
  {
    hide EncodeSrgbQ13, RootL, RootM, RootS, CubeQ13, LinearRed, LinearGreen, LinearBlue;
    RootsAre(lab, 6656, 7206, 5371);
    CubeQ13Is(6656, 5408, 4394);
    CubeQ13Is(7206, 6339, 5576);
    CubeQ13Is(5371, 3521, 2309);
    LinearAre(4394, 5576, 2309, 3, 8190, 2);
    EncodesEnds(3);
    EncodesEnds(8190);
    EncodesEnds(2);
  }

  lemma {:induction false} CyanThere(c: Rgb)
    requires c.red == 0 && c.green == 255 && c.blue == 255
    ensures var lab := ToOklab(c); lab.l == 7417 && lab.a == -1225 && lab.b == -323
  {
    hide RootQ13, SRGB_TO_LINEAR, MultiplyQ16, FromRoots;
    TableEnds();
    MixEnds(27015, 35149, 3372);
    MixEnds(13887, 44610, 7038);
    MixEnds(5787, 18463, 41286);
    CyanRoots();
    LabIs(6862, 7567, 7943, 7417, -1225, -323);
  }

  lemma {:induction false} CyanRoots()
    ensures RootQ13(38520) == 6862 && RootQ13(51647) == 7567 && RootQ13(59748) == 7943
  {
    hide RootQ13;
    RootIs(38520, 54897, 45983, 38517, 45985, 38520);
    RootIs(51647, 60535, 55914, 51646, 55916, 51649);
    RootIs(59748, 63547, 61616, 59745, 61618, 59748);
  }

  lemma {:induction false} CyanBack(lab: Lab)
    requires lab.l == 7417 && lab.a == -1225 && lab.b == -323
    ensures var d := FromOklab(lab); d.red == 0 && d.green == 255 && d.blue == 255
  {
    hide EncodeSrgbQ13, RootL, RootM, RootS, CubeQ13, LinearRed, LinearGreen, LinearBlue;
    RootsAre(lab, 6862, 7567, 7944);
    CubeQ13Is(6862, 5748, 4815);
    CubeQ13Is(7567, 6990, 6457);
    CubeQ13Is(7944, 7704, 7471);
    LinearAre(4815, 6457, 7471, -3, 8194, 8195);
    EncodesEnds(0);
    EncodesEnds(8192);
  }

  lemma {:induction false} RedThere(c: Rgb)
    requires c.red == 255 && c.green == 0 && c.blue == 0
    ensures var lab := ToOklab(c); lab.l == 5144 && lab.a == 1842 && lab.b == 1030
  {
    hide RootQ13, SRGB_TO_LINEAR, MultiplyQ16, FromRoots;
    TableEnds();
    MixEnds(27015, 35149, 3372);
    MixEnds(13887, 44610, 7038);
    MixEnds(5787, 18463, 41286);
    RedRoots();
    LabIs(6097, 4884, 3648, 5144, 1842, 1030);
  }

  lemma {:induction false} RedRoots()
    ensures RootQ13(27015) == 6097 && RootQ13(13887) == 4884 && RootQ13(5787) == 3648
  {
    hide RootQ13;
    RootIs(27015, 48774, 36298, 27014, 36299, 27015);
    RootIs(13887, 39071, 23292, 13886, 23293, 13887);
    RootIs(5787, 29183, 12994, 5786, 12995, 5787);
  }

  lemma {:induction false} RedBack(lab: Lab)
    requires lab.l == 5144 && lab.a == 1842 && lab.b == 1030
    ensures var d := FromOklab(lab); d.red == 255 && d.green == 1 && d.blue == 0
  {
    hide EncodeSrgbQ13, RootL, RootM, RootS, CubeQ13, LinearRed, LinearGreen, LinearBlue;
    RootsAre(lab, 6096, 4884, 3649);
    CubeQ13Is(6096, 4536, 3375);
    CubeQ13Is(4884, 2912, 1736);
    CubeQ13Is(3649, 1625, 724);
    LinearAre(3375, 1736, 724, 8184, 2, 1);
    EncodesEnds(8184);
    EncodesEnds(2);
    EncodesEnds(1);
  }

  lemma {:induction false} MagentaThere(c: Rgb)
    requires c.red == 255 && c.green == 0 && c.blue == 255
    ensures var lab := ToOklab(c); lab.l == 5748 && lab.a == 2250 && lab.b == -1386
  {
    hide RootQ13, SRGB_TO_LINEAR, MultiplyQ16, FromRoots;
    TableEnds();
    MixEnds(27015, 35149, 3372);
    MixEnds(13887, 44610, 7038);
    MixEnds(5787, 18463, 41286);
    MagentaRoots();
    LabIs(6341, 5599, 7336, 5748, 2250, -1386);
  }

  lemma {:induction false} MagentaRoots()
    ensures RootQ13(30387) == 6341 && RootQ13(20925) == 5599 && RootQ13(47072) == 7336
  {
    hide RootQ13;
    RootIs(30387, 50724, 39258, 30385, 39260, 30387);
    RootIs(20925, 44793, 30614, 20924, 30615, 20925);
    RootIs(47072, 58692, 52561, 47071, 52563, 47074);
  }

  lemma {:induction false} MagentaBack(lab: Lab)
    requires lab.l == 5748 && lab.a == 2250 && lab.b == -1386
    ensures var d := FromOklab(lab); d.red == 255 && d.green == 0 && d.blue == 255
  {
    hide EncodeSrgbQ13, RootL, RootM, RootS, CubeQ13, LinearRed, LinearGreen, LinearBlue;
    RootsAre(lab, 6341, 5599, 7337);
    CubeQ13Is(6341, 4908, 3799);
    CubeQ13Is(5599, 3827, 2616);
    CubeQ13Is(7337, 6571, 5885);
    LinearAre(3799, 2616, 5885, 8194, 0, 8193);
    EncodesEnds(8192);
    EncodesEnds(0);
  }

  lemma {:induction false} YellowThere(c: Rgb)
    requires c.red == 255 && c.green == 255 && c.blue == 0
    ensures var lab := ToOklab(c); lab.l == 7930 && lab.a == -586 && lab.b == 1626
  {
    hide RootQ13, SRGB_TO_LINEAR, MultiplyQ16, FromRoots;
    TableEnds();
    MixEnds(27015, 35149, 3372);
    MixEnds(13887, 44610, 7038);
    MixEnds(5787, 18463, 41286);
    YellowRoots();
    LabIs(8049, 7888, 5881, 7930, -586, 1626);
  }

  lemma {:induction false} YellowRoots()
    ensures RootQ13(62163) == 8049 && RootQ13(58496) == 7888 && RootQ13(24250) == 5881
  {
    hide RootQ13;
    RootIs(62163, 64392, 63266, 62161, 63268, 62164);
    RootIs(58496, 63100, 60753, 58494, 60755, 58497);
    RootIs(24250, 47050, 33777, 24249, 33778, 24250);
  }

  lemma {:induction false} YellowBack(lab: Lab)
    requires lab.l == 7930 && lab.a == -586 && lab.b == 1626
    ensures var d := FromOklab(lab); d.red == 255 && d.green == 255 && d.blue == 0
  {
    hide EncodeSrgbQ13, RootL, RootM, RootS, CubeQ13, LinearRed, LinearGreen, LinearBlue;
    RootsAre(lab, 8049, 7888, 5882);
    CubeQ13Is(8049, 7908, 7770);
    CubeQ13Is(7888, 7595, 7313);
    CubeQ13Is(5882, 4223, 3032);
    LinearAre(7770, 7313, 3032, 8187, 8194, 1);
    EncodesEnds(8187);
    EncodesEnds(8192);
    EncodesEnds(1);
  }

  lemma {:induction false} WhiteThere(c: Rgb)
    requires c.red == 255 && c.green == 255 && c.blue == 255
    ensures var lab := ToOklab(c); lab.l == 8192 && lab.a == 0 && lab.b == -1
  {
    hide RootQ13, SRGB_TO_LINEAR, MultiplyQ16, FromRoots;
    TableEnds();
    MixEnds(27015, 35149, 3372);
    MixEnds(13887, 44610, 7038);
    MixEnds(5787, 18463, 41286);
    WhiteRoots();
    LabIs(8192, 8192, 8192, 8192, 0, -1);
  }

  lemma {:induction false} WhiteRoots()
    ensures RootQ13(65535) == 8192 && RootQ13(65534) == 8192 && RootQ13(65535) == 8192
  {
    hide RootQ13;
    TopRoot(65535);
    TopRoot(65534);
  }

  lemma {:induction false} WhiteBack(lab: Lab)
    requires lab.l == 8192 && lab.a == 0 && lab.b == -1
    ensures var d := FromOklab(lab); d.red == 255 && d.green == 255 && d.blue == 255
  {
    hide EncodeSrgbQ13, RootL, RootM, RootS, CubeQ13, LinearRed, LinearGreen, LinearBlue;
    RootsAre(lab, 8192, 8192, 8193);
    CubeQ13Is(8192, 8192, 8192);
    LinearAre(8192, 8192, 8192, 8192, 8192, 8192);
    EncodesEnds(8192);
  }

  predicate IsCorner(c: Rgb) {
    (c.red == 0 || c.red == 255) && (c.green == 0 || c.green == 255) && (c.blue == 0 || c.blue == 255)
  }

  /** Every corner of the colour cube comes back within one step of every channel. */
  lemma {:induction false} CornersComeBack(c: Rgb)
    requires IsCorner(c)
    ensures var d := FromOklab(ToOklab(c));
      Distance(d.red, c.red) <= 1 && Distance(d.green, c.green) <= 1 && Distance(d.blue, c.blue) <= 1
  {
    hide ToOklab, FromOklab;
    if c.red == 0 && c.green == 0 && c.blue == 0 {
      BlackThere(c);
      BlackBack(ToOklab(c));
    } else if c.red == 0 && c.green == 0 && c.blue == 255 {
      BlueThere(c);
      BlueBack(ToOklab(c));
    } else if c.red == 0 && c.green == 255 && c.blue == 0 {
      GreenThere(c);
      GreenBack(ToOklab(c));
    } else if c.red == 0 && c.green == 255 && c.blue == 255 {
      CyanThere(c);
      CyanBack(ToOklab(c));
    } else if c.red == 255 && c.green == 0 && c.blue == 0 {
      RedThere(c);
      RedBack(ToOklab(c));
    } else if c.red == 255 && c.green == 0 && c.blue == 255 {
      MagentaThere(c);
      MagentaBack(ToOklab(c));
    } else if c.red == 255 && c.green == 255 && c.blue == 0 {
      YellowThere(c);
      YellowBack(ToOklab(c));
    } else if c.red == 255 && c.green == 255 && c.blue == 255 {
      WhiteThere(c);
      WhiteBack(ToOklab(c));
    }
  }
}
