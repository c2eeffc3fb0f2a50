/** The binary searches of the colour conversion return nearest entries. */
module Nearest {
  import opened Clock
  import opened Oklab

  function Distance(a: int, b: int): nat {
    if a < b then b - a else a - b
  }

  // ----- Cube root -------------------------------------------------------------------------

  lemma {:induction false} ProductMonotone(a: nat, b: nat, c: nat, d: nat)
    requires a <= c && b <= d
    ensures a * b <= c * d
  {
    assert c * d - a * b == (c - a) * d + a * (d - b);
  }

  /** Rounding and saturation keep the order of products. */
  lemma {:induction false} MultiplyMonotone(a: uint16, b: uint16, c: uint16, d: uint16)
    requires a <= c && b <= d
    ensures MultiplyQ16(a, b) <= MultiplyQ16(c, d)
  {
    ProductMonotone(a, b, c, d);
    var p, q := a * b, c * d;
    assert p / 0x1_0000 <= q / 0x1_0000;
  }

  lemma {:induction false} CubeMonotone(a: uint16, b: uint16)
    requires a <= b
    ensures CubeQ16(a) <= CubeQ16(b)
  {
    MultiplyMonotone(a, a, b, b);
    MultiplyMonotone(MultiplyQ16(a, a), a, MultiplyQ16(b, b), b);
  }

  /** `p` is the first value whose cube reaches `value`, or the last value of all. */
  ghost predicate FirstReaching(value: uint16, p: uint16) {
    && (forall s: uint16 :: s < p ==> CubeQ16(s) < value)
    && (p == 0xFFFF || CubeQ16(p) >= value)
  }

  lemma {:induction false} SearchCubeFinds(value: uint16, low: uint16, high: uint16)
    requires low <= high
    requires forall s: uint16 :: s < low ==> CubeQ16(s) < value
    requires high == 0xFFFF || CubeQ16(high) >= value
    ensures FirstReaching(value, SearchCube(value, low, high))
    decreases high - low
  {
    hide CubeQ16, Middle;
    if low < high {
      var middle := Middle(low, high);
      if CubeQ16(middle) < value {
        forall s: uint16 | s < middle + 1 ensures CubeQ16(s) < value {
          CubeMonotone(s, middle);
        }
        SearchCubeFinds(value, middle + 1, high);
      } else {
        SearchCubeFinds(value, low, middle);
      }
    }
  }

  /** The cube of `r` is nearest to `value`; of two equally near cubes it is the lower one. */
  ghost predicate NearestCube(value: uint16, r: uint16) {
    forall s: uint16 ::
      && Distance(CubeQ16(r), value) <= Distance(CubeQ16(s), value)
      && (Distance(CubeQ16(r), value) == Distance(CubeQ16(s), value) ==> CubeQ16(r) <= CubeQ16(s))
  }

  lemma {:induction false} ZeroCube()
    ensures CubeQ16(0) == 0
  {
  }

  lemma {:induction false} NearerIsNearest(value: uint16, p: uint16)
    requires FirstReaching(value, p)
    ensures NearestCube(value, NearerCube(value, p))
  {
    hide CubeQ16;
    var r := NearerCube(value, p);
    ZeroCube();
    forall s: uint16
      ensures Distance(CubeQ16(r), value) <= Distance(CubeQ16(s), value)
      ensures Distance(CubeQ16(r), value) == Distance(CubeQ16(s), value) ==> CubeQ16(r) <= CubeQ16(s)
    {
      if s < p {
        CubeMonotone(s, p - 1);
        CubeMonotone(s, p);
      } else {
        CubeMonotone(p, s);
      }
    }
  }

  /** The cube root minimises the distance of its cube to the input, over all 16-bit values. */
  lemma {:induction false} CubeRootIsNearest(value: uint16)
    ensures NearestCube(value, CubeRootQ16(value))
  {
    SearchCubeFinds(value, 0, 0xFFFF);
    NearerIsNearest(value, SearchCube(value, 0, 0xFFFF));
  }

  lemma {:induction false} SearchCubeStep(value: uint16, low: uint16, high: uint16)
    requires low <= high
    ensures SearchCube(value, low, high) ==
      if low == high then low
      else if CubeQ16(Middle(low, high)) < value then SearchCube(value, Middle(low, high) + 1, high)
      else SearchCube(value, low, Middle(low, high))
  {
  }

  /** The search loop. */
  method FindCubeRoot(value: uint16) returns (r: uint16)
    ensures r == CubeRootQ16(value) && NearestCube(value, r)
  {
    hide CubeQ16, NearestCube, SearchCube, Middle;
    var low, high := 0, 0xFFFF;
    while low < high
      invariant 0 <= low <= high <= 0xFFFF
      invariant SearchCube(value, low, high) == SearchCube(value, 0, 0xFFFF)
    {
      SearchCubeStep(value, low, high);
      var middle := Middle(low, high);
      if CubeQ16(middle) < value {
        low := middle + 1;
      } else {
        high := middle;
      }
    }
    SearchCubeStep(value, low, high);
    var upper := low;
    var lower := if low == 0 then 0 else low - 1;
    var upperCube, lowerCube := CubeQ16(upper), CubeQ16(lower);
    CubeRootIsNearest(value);
    if upperCube < value {
      return upper;
    }
    return if value - lowerCube <= upperCube - value then lower else upper;
  }

  /** Two neighbouring values share a cube, and `value` lies above it in the lower half of the
      step to the next cube. */
  ghost predicate SharedCube(value: uint16) {
    exists x: uint16 :: SharedAt(value, x)
  }

  predicate SharedAt(value: uint16, x: uint16) {
    x + 2 <= 0xFFFF && CubeQ16(x) == CubeQ16(x + 1) < value && value - CubeQ16(x + 1) <= CubeQ16(x + 2) - value
  }

  /** `r` is the lowest of all values whose cubes are equally near. */
  ghost predicate LowestIndex(value: uint16, r: uint16) {
    forall s: uint16 :: Distance(CubeQ16(s), value) == Distance(CubeQ16(r), value) ==> r <= s
  }

  lemma {:induction false} SharedIsNotLowest(value: uint16, x: uint16)
    requires SharedAt(value, x)
    ensures CubeRootQ16(value) == x + 1 && !LowestIndex(value, CubeRootQ16(value))
  {
    hide CubeQ16, SearchCube;
    SearchCubeFinds(value, 0, 0xFFFF);
    var p := SearchCube(value, 0, 0xFFFF);
    if p <= x + 1 { CubeMonotone(p, x + 1); }
    assert p == x + 2;
    assert Distance(CubeQ16(x), value) == Distance(CubeQ16(x + 1), value);
  }

  lemma {:induction false} TopStep()
    ensures CubeQ16(0xFFFE) < CubeQ16(0xFFFF)
  {
  }

  lemma {:induction false} NotLowestIsShared(value: uint16, s: uint16)
    requires var r := CubeRootQ16(value); s < r && Distance(CubeQ16(s), value) == Distance(CubeQ16(r), value)
    ensures SharedCube(value)
  {
    hide CubeQ16, SearchCube;
    SearchCubeFinds(value, 0, 0xFFFF);
    CubeRootIsNearest(value);
    var p, r := SearchCube(value, 0, 0xFFFF), CubeRootQ16(value);
    CubeMonotone(s, r - 1);
    CubeMonotone(r - 1, r);
    TopStep();
    assert CubeQ16(r - 1) == CubeQ16(r);
    assert r == p - 1;
    assert SharedAt(value, r - 1);
  }

  /** Ties go to the lowest value exactly when the cubes do not hide one behind another. */
  lemma {:induction false} LowestIndexIff(value: uint16)
    ensures LowestIndex(value, CubeRootQ16(value)) <==> !SharedCube(value)
  {
    hide CubeQ16, CubeRootQ16;
    if x: uint16 :| SharedAt(value, x) {
      SharedIsNotLowest(value, x);
    }
    var r := CubeRootQ16(value);
    if s: uint16 :| Distance(CubeQ16(s), value) == Distance(CubeQ16(r), value) && s < r {
      NotLowestIsShared(value, s);
    }
  }

  lemma {:induction false} CubeIs(value: uint16, square: uint16, cube: uint16)
    requires MultiplyQ16(value, value) == square && MultiplyQ16(square, value) == cube
    ensures CubeQ16(value) == cube
  {
  }

  /** An input whose cube root is not the lowest value with a nearest cube. */
  lemma {:induction false} NotAlwaysLowest()
    ensures CubeRootQ16(8830) == 33597
    ensures CubeQ16(33596) == CubeQ16(33597) == 8829 && !LowestIndex(8830, 33597)
  {
    hide CubeRootQ16, CubeQ16;
    CubeIs(33596, 17222, 8829);
    CubeIs(33597, 17223, 8829);
    CubeIs(33598, 17225, 8831);
    SharedIsNotLowest(8830, 33596);
  }

  // ----- sRGB encoding ---------------------------------------------------------------------

  ghost predicate Sorted(table: seq<uint16>) {
    forall i, j :: 0 <= i < j < |table| ==> table[i] <= table[j]
  }

  ghost predicate Strict(table: seq<uint16>) {
    forall i, j :: 0 <= i < j < |table| ==> table[i] < table[j]
  }

  lemma {:induction false} SearchTableFinds(table: seq<uint16>, target: nat, low: nat, high: nat)
    requires Sorted(table) && low <= high <= |table|
    requires forall i :: 0 <= i < low ==> table[i] < target
    requires forall i :: high <= i < |table| ==> table[i] >= target
    ensures var p := SearchTable(table, target, low, high);
      && (forall i :: 0 <= i < p ==> table[i] < target)
      && (forall i :: p <= i < |table| ==> table[i] >= target)
    decreases high - low
  {
    hide Middle;
    if low < high {
      var middle := Middle(low, high);
      if table[middle] < target {
        SearchTableFinds(table, target, middle + 1, high);
      } else {
        SearchTableFinds(table, target, low, middle);
      }
    }
  }

  /** Entry `r` is nearest to `target`; of two equally near values it holds the lower one. */
  ghost predicate NearestEntry(table: seq<uint16>, target: nat, r: nat)
    requires r < |table|
  {
    forall i :: 0 <= i < |table| ==>
      && Distance(table[r], target) <= Distance(table[i], target)
      && (Distance(table[r], target) == Distance(table[i], target) ==> table[r] <= table[i])
  }

  /** Over any sorted table the chosen entry is nearest, and the lowest index when the entries
      differ. */
  lemma {:induction false} EncodeIsNearest(table: seq<uint16>, target: nat)
    requires 0 < |table| && Sorted(table)
    ensures var r := EncodeIn(table, target);
      && NearestEntry(table, target, r)
      && (Strict(table) ==>
            forall i :: 0 <= i < |table| && Distance(table[i], target) == Distance(table[r], target) ==> r <= i)
  {
    SearchTableFinds(table, target, 0, |table|);
  }

  /** Encoding an entry of the table gives back its index. */
  lemma {:induction false} EncodeDecodes(table: seq<uint16>, i: nat)
    requires i < |table| && Strict(table)
    ensures EncodeIn(table, table[i]) == i
  {
    EncodeIsNearest(table, table[i]);
    var r := EncodeIn(table, table[i]);
    assert Distance(table[i], table[i]) == 0;
    assert table[r] == table[i];
  }

  /** The search loop over a decode table. */
  method FindEntry(table: seq<uint16>, target: nat) returns (r: nat)
    requires 0 < |table| && Sorted(table)
    ensures r == EncodeIn(table, target) && r < |table| && NearestEntry(table, target, r)
  {
    hide NearestEntry, Middle;
    EncodeIsNearest(table, target);
    SearchTableFinds(table, target, 0, |table|);
    var low, high := 0, |table|;
    while low < high
      invariant 0 <= low <= high <= |table|
      invariant SearchTable(table, target, low, high) == SearchTable(table, target, 0, |table|)
    {
      var middle := Middle(low, high);
      if table[middle] < target {
        low := middle + 1;
      } else {
        high := middle;
      }
    }
    if low == 0 {
      return 0;
    }
    if low >= |table| {
      return |table| - 1;
    }
    return if target - table[low - 1] <= table[low] - target then low - 1 else low;
  }

  lemma {:induction false} StrictJoin(a: seq<uint16>, b: seq<uint16>)
    requires Strict(a) && Strict(b) && 0 < |a| && 0 < |b| && a[|a| - 1] < b[0]
    ensures Strict(a + b)
  {
    forall i, j | 0 <= i < j < |a + b| ensures (a + b)[i] < (a + b)[j] {
      if i < |a| <= j {
        assert a[i] <= a[|a| - 1] && b[0] <= b[j - |a|];
      }
    }
  }

  lemma {:induction false} RowIsStrict(row: seq<uint16>)
    requires |row| == 16
    requires row[0] < row[1] < row[2] < row[3] < row[4] < row[5] < row[6] < row[7] < row[8]
    requires row[8] < row[9] < row[10] < row[11] < row[12] < row[13] < row[14] < row[15]
    ensures Strict(row)
  {
    hide Strict;
    StepsAreStrict(row);
  }

  lemma {:induction false} StepsAreStrict(s: seq<uint16>)
    requires forall i :: 0 < i < |s| ==> s[i - 1] < s[i]
    ensures Strict(s)
    decreases |s|
  {
    if |s| > 1 {
      var n := |s| - 1;
      StepsAreStrict(s[..n]);
      StrictJoin(s[..n], s[n..]);
      assert s == s[..n] + s[n..];
    }
  }

  lemma {:induction false} QuarterIsStrict(a: seq<uint16>, b: seq<uint16>, c: seq<uint16>, d: seq<uint16>)
    requires |a| > 0 && |b| > 0 && |c| > 0 && |d| > 0
    requires Strict(a) && Strict(b) && Strict(c) && Strict(d)
    requires a[|a| - 1] < b[0] && b[|b| - 1] < c[0] && c[|c| - 1] < d[0]
    ensures Strict(a + b + c + d)
  {
    hide Strict;
    StrictJoin(a, b);
    StrictJoin(a + b, c);
    StrictJoin(a + b + c, d);
  }

  lemma {:induction false} Quarter0IsStrict()
    ensures |QUARTER0| == 64 && QUARTER0[0] == 0 && QUARTER0[63] == 3258 && Strict(QUARTER0)
  {
    hide Strict;
    RowIsStrict(ROW0);
    RowIsStrict(ROW1);
    RowIsStrict(ROW2);
    RowIsStrict(ROW3);
    QuarterIsStrict(ROW0, ROW1, ROW2, ROW3);
  }

  lemma {:induction false} Quarter1IsStrict()
    ensures |QUARTER1| == 64 && QUARTER1[0] == 3360 && QUARTER1[63] == 13909 && Strict(QUARTER1)
  {
    hide Strict;
    RowIsStrict(ROW4);
    RowIsStrict(ROW5);
    RowIsStrict(ROW6);
    RowIsStrict(ROW7);
    QuarterIsStrict(ROW4, ROW5, ROW6, ROW7);
  }

  lemma {:induction false} Quarter2IsStrict()
    ensures |QUARTER2| == 64 && QUARTER2[0] == 14146 && QUARTER2[63] == 34143 && Strict(QUARTER2)
  {
    hide Strict;
    RowIsStrict(ROW8);
    RowIsStrict(ROW9);
    RowIsStrict(ROW10);
    RowIsStrict(ROW11);
    QuarterIsStrict(ROW8, ROW9, ROW10, ROW11);
  }

  lemma {:induction false} Quarter3IsStrict()
    ensures |QUARTER3| == 64 && QUARTER3[0] == 34544 && QUARTER3[63] == 65535 && Strict(QUARTER3)
  {
    hide Strict;
    RowIsStrict(ROW12);
    RowIsStrict(ROW13);
    RowIsStrict(ROW14);
    RowIsStrict(ROW15);
    QuarterIsStrict(ROW12, ROW13, ROW14, ROW15);
  }

  /** The decode table is strictly increasing, from black to white. */
  lemma {:induction false} SrgbTableIsStrict()
    ensures |SRGB_TO_LINEAR| == 256 && SRGB_TO_LINEAR[0] == 0 && SRGB_TO_LINEAR[255] == 0xFFFF
    ensures Strict(SRGB_TO_LINEAR)
  {
    hide Strict;
    Quarter0IsStrict();
    Quarter1IsStrict();
    Quarter2IsStrict();
    Quarter3IsStrict();
    QuarterIsStrict(QUARTER0, QUARTER1, QUARTER2, QUARTER3);
  }

  /** Channel encoding chooses the byte whose decoded value is nearest, the lower on a tie, and
      gives back every byte whose decoded value is representable in Q13. */
  lemma {:induction false} SrgbEncodeIsNearest(linear: unit13)
    ensures NearestEntry(SRGB_TO_LINEAR, linear * 8, EncodeSrgbQ13(linear))
    ensures forall i: uint8 ::
      Distance(SRGB_TO_LINEAR[i], linear * 8) == Distance(SRGB_TO_LINEAR[EncodeSrgbQ13(linear)], linear * 8)
      ==> EncodeSrgbQ13(linear) <= i
    ensures forall i: uint8 :: SRGB_TO_LINEAR[i] == linear * 8 ==> EncodeSrgbQ13(linear) == i
  {
    SrgbTableIsStrict();
    EncodeIsNearest(SRGB_TO_LINEAR, linear * 8);
    forall i: uint8 | SRGB_TO_LINEAR[i] == linear * 8 ensures EncodeSrgbQ13(linear) == i {
      EncodeDecodes(SRGB_TO_LINEAR, i);
    }
  }
}
