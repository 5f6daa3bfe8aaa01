/** Rounding helpers and the thermistor table of `ups_device.cpp`, over exact reals. */
module Numbers {
  import opened Bytes

  /** What `std::stod` can return. */
  datatype Number = NotANumber | Infinite(positive: bool) | Finite(value: real)

  function Scale(x: Number, factor: real): Number
    requires factor > 0.0
  {
    if x.Finite? then Finite(x.value * factor) else x
  }

  /** `std::lround`: nearest integer, halves away from zero. */
  function Lround(v: real): int {
    if v >= 0.0 then (v + 0.5).Floor else -(0.5 - v).Floor
  }

  function ClampU16(x: Number): U16 {
    match x
    case NotANumber => 0
    case Infinite(positive) => if positive then 65535 else 0
    case Finite(v) => if v <= 0.0 then 0 else if v >= 65535.0 then 65535 else Lround(v)
  }

  function ClampI16(x: Number): I16 {
    match x
    case NotANumber => 0
    case Infinite(positive) => if positive then 32767 else -32768
    case Finite(v) => if v <= -32768.0 then -32768 else if v >= 32767.0 then 32767 else Lround(v)
  }

  function PercentToU8(v: U16): Byte {
    if v < 100 then v else 100
  }

  /** Clamping is rounding followed by saturation at the ends of the type. */
  lemma ClampSaturates(v: real)
    ensures var r := Lround(v);
      ClampU16(Finite(v)) == (if r < 0 then 0 else if r > 65535 then 65535 else r)
    ensures var r := Lround(v);
      ClampI16(Finite(v)) == (if r < -32768 then -32768 else if r > 32767 then 32767 else r)
    ensures -0.5 <= Lround(v) as real - v <= 0.5
  {
  }

  const THERM_TABLE: seq<U16> := [
    0x31, 0x40, 0x53, 0x68, 0x82, 0xA0, 0xC3, 0xE9,
    0x113, 0x13F, 0x16E, 0x19F, 0x1CF, 0x200, 0x22F,
    0x25C, 0x286, 0x2AE, 0x2D3, 0x2F4, 0x312, 0x32D,
    0x345, 0x35A, 0x36D, 0x37E, 0x38C, 0x399, 0x3A5,
    0x3AF, 0x3B7, 0x3BF, 0x3C6, 0x3CC]

  const LAST := 33

  /** The height a fraction of the way from `lo` to `hi`, rounded and clamped. */
  function Blend(lo: U16, hi: U16, fraction: real): U16 {
    ClampU16(Finite(lo as real + fraction * (hi as int - lo as int) as real))
  }

  /** Linear interpolation in a table with one entry each 5 degrees, from -40 to 125 Celsius. */
  function Interpolate(table: seq<U16>, centiCelsius: I16): U16
    requires |table| == LAST + 1
  {
    var celsius := centiCelsius as real / 100.0;
    if celsius <= -40.0 then table[0]
    else if celsius >= 125.0 then table[LAST]
    else
      var pos := (celsius + 40.0) / 5.0;
      var idx := pos.Floor;
      if idx >= LAST then table[LAST] else
      var fraction := pos - idx as real;
      Blend(table[idx], table[idx + 1], fraction)
  }

  /** `openups_temperature_raw` */
  function TemperatureRaw(centiCelsius: I16): U16 {
    Interpolate(THERM_TABLE, centiCelsius)
  }

  predicate Rising(table: seq<U16>) {
    |table| == LAST + 1 && 0 < table[0] && table[LAST] < 65535 &&
    forall i, j | 0 <= i <= j <= LAST :: table[i] <= table[j]
  }

  /** A point of the curve between two neighbouring nodes, in 500ths of a count: `r` hundredths of a
      degree above a node of height `lo`, below one of height `hi`. */
  function Between(lo: int, hi: int, r: nat): int {
    (500 - r) * lo + r * hi
  }

  lemma BetweenBounds(lo: int, hi: int, r: nat, s: nat)
    requires lo <= hi && r <= s <= 500
    ensures 500 * lo <= Between(lo, hi, r) <= Between(lo, hi, s) <= 500 * hi
  {
    var d := hi - lo;
    assert 0 <= r * d <= s * d <= 500 * d;
    assert Between(lo, hi, r) == 500 * lo + r * d && Between(lo, hi, s) == 500 * lo + s * d;
  }

  /** The expression the code evaluates between two nodes is the curve, rounded to the nearest count. */
  lemma InterpolationRounds(lo: U16, hi: U16, r: nat, fraction: real)
    requires 0 < lo <= hi < 65535 && r < 500 && fraction == r as real / 500.0
    ensures Blend(lo, hi, fraction) == (Between(lo, hi, r) + 250) / 500
  {
    var d: int := hi - lo;
    BetweenBounds(lo, hi, r, 500);
    assert fraction * 500.0 == r as real;
    assert (fraction * d as real) * 500.0 == r as real * d as real == (r * d) as real;
    var v := lo as real + fraction * d as real;
    assert Between(lo, hi, r) == 500 * lo + r * d;
    assert v * 500.0 == Between(lo, hi, r) as real;
    FloorOfFraction(Between(lo, hi, r) + 250, v + 0.5);
  }

  lemma FloorOfFraction(n: int, x: real)
    requires x * 500.0 == n as real
    ensures x.Floor == n / 500
  {
  }

  lemma {:induction false} TableRisesTo(j: nat)
    requires j <= LAST
    ensures forall i | 0 <= i <= j :: THERM_TABLE[i] <= THERM_TABLE[j]
  {
    if j == 0 {
    } else {
      TableRisesTo(j - 1);
      TableStep(j - 1);
    }
  }

  lemma TableStep(i: nat)
    requires i < LAST
    ensures THERM_TABLE[i] < THERM_TABLE[i + 1]
  {
  }

  lemma TableRising()
    ensures Rising(THERM_TABLE)
  {
    forall i, j | 0 <= i <= j <= LAST ensures THERM_TABLE[i] <= THERM_TABLE[j] {
      TableRisesTo(j);
    }
  }

  /** The temperature `r` hundredths of a degree above node `k`. */
  function Centi(k: nat, r: nat): I16
    requires k <= LAST && r <= 500
  {
    500 * k + r - 4000
  }

  function CurveAt(table: seq<U16>, k: nat, r: nat): int
    requires |table| == LAST + 1 && k < LAST && r <= 500
  {
    Between(table[k], table[k + 1], r)
  }

  lemma Unfold(table: seq<U16>, k: nat, r: nat)
    requires |table| == LAST + 1 && k < LAST && r < 500 && (k > 0 || r > 0)
    ensures Interpolate(table, Centi(k, r)) == Blend(table[k], table[k + 1], r as real / 500.0)
  {
    var celsius := Centi(k, r) as real / 100.0;
    var pos := (celsius + 40.0) / 5.0;
    assert pos == k as real + r as real / 500.0;
    assert pos.Floor == k;
  }

  lemma AtBottom(table: seq<U16>)
    requires |table| == LAST + 1
    ensures Interpolate(table, Centi(0, 0)) == table[0] == (CurveAt(table, 0, 0) + 250) / 500
  {
  }

  /** Between nodes the result is the curve's height rounded to the nearest count. */
  lemma Rounds(table: seq<U16>, k: nat, r: nat)
    requires Rising(table) && k < LAST && r < 500
    ensures Interpolate(table, Centi(k, r)) == (CurveAt(table, k, r) + 250) / 500
  {
    var lo, hi, fraction := table[k], table[k + 1], r as real / 500.0;
    assert 0 < table[0] <= lo <= hi <= table[LAST];
    if k > 0 || r > 0 {
      var raw := Interpolate(table, Centi(k, r));
      assert raw == Blend(lo, hi, fraction) by { Unfold(table, k, r); }
      assert raw == (Between(lo, hi, r) + 250) / 500 by { InterpolationRounds(lo, hi, r, fraction); }
    } else {
      AtBottom(table);
    }
  }

  /** Every temperature is below the table, above it, or at an offset from one node. */
  lemma Locate(c: I16) returns (k: nat, r: nat)
    requires -4000 <= c < 12500
    ensures k < LAST && r < 500 && c == Centi(k, r)
  {
    k, r := (c + 4000) / 500, (c + 4000) % 500;
  }

  lemma NearCurve(table: seq<U16>, k: nat, r: nat)
    requires Rising(table) && k < LAST && r < 500
    ensures -250 <= 500 * Interpolate(table, Centi(k, r)) - CurveAt(table, k, r) <= 250
    ensures table[k] <= Interpolate(table, Centi(k, r)) <= table[k + 1]
  {
    Rounds(table, k, r);
    BetweenBounds(table[k], table[k + 1], r, r);
  }

  lemma AtNode(table: seq<U16>, k: nat)
    requires Rising(table) && k <= LAST
    ensures Interpolate(table, Centi(k, 0)) == table[k]
  {
    if k < LAST {
      Rounds(table, k, 0);
      BetweenBounds(table[k], table[k + 1], 0, 0);
    }
  }

  lemma InRange(table: seq<U16>, c: I16)
    requires Rising(table)
    ensures table[0] <= Interpolate(table, c) <= table[LAST]
  {
    if -4000 <= c < 12500 {
      var k, r := Locate(c);
      NearCurve(table, k, r);
    }
  }

  lemma Monotone(table: seq<U16>, c: I16, d: I16)
    requires Rising(table) && c <= d
    ensures Interpolate(table, c) <= Interpolate(table, d)
  {
    InRange(table, c);
    InRange(table, d);
    if -4000 <= c && d < 12500 {
      var k, r := Locate(c);
      var m, s := Locate(d);
      NearCurve(table, k, r);
      NearCurve(table, m, s);
      if k == m {
        Rounds(table, k, r);
        Rounds(table, k, s);
        BetweenBounds(table[k], table[k + 1], r, s);
      } else {
        assert table[k + 1] <= table[m];
      }
    }
  }

  /** Within half a count of the piecewise-linear curve, and exact at every 5-degree node. */
  lemma RawNearCurve(k: nat, r: nat)
    requires k < LAST && r < 500
    ensures -250 <= 500 * TemperatureRaw(Centi(k, r)) - CurveAt(THERM_TABLE, k, r) <= 250
  {
    TableRising();
    NearCurve(THERM_TABLE, k, r);
  }

  lemma RawAtNode(k: nat)
    requires k <= LAST
    ensures TemperatureRaw(Centi(k, 0)) == THERM_TABLE[k]
  {
    TableRising();
    AtNode(THERM_TABLE, k);
  }

  lemma RawInRange(c: I16)
    ensures 0x31 <= TemperatureRaw(c) <= 0x3CC
  {
    TableRising();
    InRange(THERM_TABLE, c);
  }

  /** Hotter never reads lower. */
  lemma RawMonotone(c: I16, d: I16)
    requires c <= d
    ensures TemperatureRaw(c) <= TemperatureRaw(d)
  {
    TableRising();
    Monotone(THERM_TABLE, c, d);
  }

  /** What is reported at -40, -35, -30 and so on up to 125 degrees. */
  lemma RawAtDegrees(k: nat)
    requires k <= 33
    ensures TemperatureRaw(500 * k - 4000) ==
        [49, 64, 83, 104, 130, 160, 195, 233, 275, 319, 366, 415,
         463, 512, 559, 604, 646, 686, 723, 756, 786, 813, 837, 858,
         877, 894, 908, 921, 933, 943, 951, 959, 966, 972][k]
  {
    RawAtNode(k);
    TableValues(k);
  }

  lemma TableValues(k: nat)
    requires k <= 33
    ensures THERM_TABLE[k] ==
        [49, 64, 83, 104, 130, 160, 195, 233, 275, 319, 366, 415,
         463, 512, 559, 604, 646, 686, 723, 756, 786, 813, 837, 858,
         877, 894, 908, 921, 933, 943, 951, 959, 966, 972][k]
  {
  }
}
