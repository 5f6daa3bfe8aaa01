/** Bit fields of a report: HID 1.11, section 8.4 (little endian, least significant bit first). */
module HidBits {
  import opened Bytes

  /** Bit `m` of a number. */
  function BitOf(x: nat, m: nat): nat {
    if m == 0 then x % 2 else BitOf(x / 2, m - 1)
  }

  /** Bit `j` of a report. */
  function BitAt(b: seq<Byte>, j: nat): nat
    requires j < 8 * |b|
  {
    BitOf(b[j / 8], j % 8)
  }

  /** An unsigned field of `size` bits at bit `offset`. */
  function ReadBits(b: seq<Byte>, offset: nat, size: nat): nat
    requires offset + size <= 8 * |b|
    decreases 8 * |b| - offset
  {
    if size == 0 then 0 else BitAt(b, offset) + 2 * ReadBits(b, offset + 1, size - 1)
  }

  /** The bits of a number from bit `m` on. */
  function Shift(x: nat, m: nat): nat
    decreases m
  {
    if m == 0 then x else Shift(x / 2, m - 1)
  }

  function Double(r: nat, k: nat): nat {
    if k == 0 then r else 2 * Double(r, k - 1)
  }

  lemma {:induction false} ShiftStep(x: nat, m: nat)
    ensures Shift(x, m) == BitOf(x, m) + 2 * Shift(x, m + 1)
  {
    if m == 0 {
    } else {
      ShiftStep(x / 2, m - 1);
    }
  }

  lemma {:induction false} ShiftOut(x: nat, m: nat)
    requires x < Double(1, m)
    ensures Shift(x, m) == 0
  {
    if m == 0 {
    } else {
      ShiftOut(x / 2, m - 1);
    }
  }

  lemma BitOfByte(b: seq<Byte>, i: nat, m: nat)
    requires i < |b| && m < 8
    ensures BitAt(b, 8 * i + m) == BitOf(b[i], m)
  {
  }

  /** A field that starts at bit `m` of a byte and runs `n` bits past it. */
  lemma {:induction false} FromBit(b: seq<Byte>, i: nat, m: nat, n: nat)
    requires m <= 8 && i < |b| && 8 * i + 8 + n <= 8 * |b|
    ensures ReadBits(b, 8 * i + m, 8 - m + n) == Shift(b[i], m) + Double(ReadBits(b, 8 * i + 8, n), 8 - m)
    decreases 8 - m
  {
    if m == 8 {
      Powers();
      ShiftOut(b[i], m);
    } else {
      BitOfByte(b, i, m);
      ShiftStep(b[i], m);
      FromBit(b, i, m + 1, n);
    }
  }

  lemma Powers()
    ensures Double(1, 8) == 256
  {
  }

  lemma {:induction false} DoubleScales(r: nat, k: nat)
    ensures Double(r, k) == r * Double(1, k)
  {
    if k == 0 {
    } else {
      DoubleScales(r, k - 1);
      Twice(r, Double(1, k - 1));
    }
  }

  lemma Twice(r: nat, d: nat)
    ensures 2 * (r * d) == r * (2 * d)
  {
  }

  /** A field starting on a byte boundary begins with that byte. */
  lemma ByteFirst(b: seq<Byte>, i: nat, n: nat)
    requires i < |b| && 8 * i + 8 + n <= 8 * |b|
    ensures ReadBits(b, 8 * i, 8 + n) == b[i] + 256 * ReadBits(b, 8 * i + 8, n)
  {
    var zero := 0;
    FromBit(b, i, zero, n);
    DoubleScales(ReadBits(b, 8 * i + 8, n), 8);
    Powers();
  }

  lemma WholeByte(b: seq<Byte>, i: nat)
    requires i < |b|
    ensures ReadBits(b, 8 * i, 8) == b[i]
  {
    var eight := 8;
    ByteAlone(b, i, eight);
  }

  lemma ByteAlone(b: seq<Byte>, i: nat, size: nat)
    requires i < |b| && size == 8
    ensures ReadBits(b, 8 * i, size) == b[i]
  {
    var none := size - 8;
    ByteFirst(b, i, none);
    NoBits(b, 8 * i + 8, none);
  }

  lemma NoBits(b: seq<Byte>, offset: nat, size: nat)
    requires offset <= 8 * |b| && size == 0
    ensures ReadBits(b, offset, size) == 0
  {
  }

  lemma Word(b: seq<Byte>, i: nat)
    requires i + 1 < |b|
    ensures ReadBits(b, 8 * i, 16) == LeAt16(b, i)
  {
    var j, eight := i + 1, 8;
    ByteFirst(b, i, eight);
    WholeByte(b, j);
    assert 8 * i + 8 == 8 * j;
  }

  lemma OneBit(b: seq<Byte>, offset: nat)
    requires offset < 8 * |b|
    ensures ReadBits(b, offset, 1) == BitAt(b, offset)
  {
  }

  /** The number with the given bits, the first of them lowest. */
  function Sum(t: seq<nat>): nat {
    if t == [] then 0 else t[0] + 2 * Sum(t[1..])
  }

  lemma {:induction false} BitOfSum(t: seq<nat>, m: nat)
    requires m < |t| && forall k | 0 <= k < |t| :: t[k] < 2
    ensures BitOf(Sum(t), m) == t[m]
    decreases m
  {
    var rest := t[1..];
    assert Sum(t) % 2 == t[0] && Sum(t) / 2 == Sum(rest);
    if m == 0 {
    } else {
      assert rest[m - 1] == t[m];
      assert forall k | 0 <= k < |rest| :: rest[k] == t[k + 1];
      BitOfSum(rest, m - 1);
    }
  }

  lemma SumOfEight(t: seq<nat>)
    requires |t| == 8
    ensures Sum(t) == t[0] + 2 * t[1] + 4 * t[2] + 8 * t[3] + 16 * t[4] + 32 * t[5] + 64 * t[6] + 128 * t[7]
  {
    var u := t[1..][1..];
    var v := u[1..][1..];
    var w := v[1..][1..];
    assert Sum(t) == t[0] + 2 * (t[1] + 2 * Sum(u));
    assert Sum(u) == t[2] + 2 * (t[3] + 2 * Sum(v));
    assert Sum(v) == t[4] + 2 * (t[5] + 2 * Sum(w));
    assert Sum(w) == t[6] + 2 * (t[7] + 2 * Sum(w[1..][1..]));
  }

  /** A field inside a zero byte reads zero. */
  lemma {:induction false} ZeroField(b: seq<Byte>, i: nat, m: nat, size: nat)
    requires i < |b| && b[i] == 0 && m + size <= 8
    ensures ReadBits(b, 8 * i + m, size) == 0
    decreases size
  {
    if size == 0 {
    } else {
      BitOfByte(b, i, m);
      ZeroBits(m);
      ZeroField(b, i, m + 1, size - 1);
    }
  }

  lemma {:induction false} ZeroBits(m: nat)
    ensures BitOf(0, m) == 0
  {
    if m == 0 {
    } else {
      ZeroBits(m - 1);
    }
  }

  /** Two bytes given by their bits. */
  lemma BitOfTwo(b: seq<Byte>, i: nat, low: seq<nat>, high: seq<nat>, k: nat)
    requires i + 1 < |b| && |low| == |high| == 8 && k < 16
    requires forall m | 0 <= m < 8 :: low[m] < 2 && high[m] < 2
    requires b[i] == Sum(low) && b[i + 1] == Sum(high)
    ensures BitAt(b, 8 * i + k) == (low + high)[k]
  {
    if k < 8 {
      BitOfByte(b, i, k);
      BitOfSum(low, k);
    } else {
      var j, m := i + 1, k - 8;
      BitOfByte(b, j, m);
      BitOfSum(high, m);
      assert 8 * i + k == 8 * j + m;
    }
  }
}
