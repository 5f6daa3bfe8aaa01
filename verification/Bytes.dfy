/** Fixed-width integers and the byte orders used on the USB/IP and USB wires. */
module Bytes {

  type Byte = x: int | 0 <= x < 0x100
  type U16 = x: int | 0 <= x < 0x1_0000
  type U32 = x: int | 0 <= x < 0x1_0000_0000
  type I16 = x: int | -0x8000 <= x < 0x8000

  datatype Option<+T> = None | Some(value: T)

  /** Always true. A definition quantified over it stays out of the solver's sight until it is mentioned. */
  predicate Seen(x: nat) {
    true
  }

  /** htons */
  function Be16(x: U16): seq<Byte> {
    [x / 0x100, x % 0x100]
  }

  /** htonl */
  function Be32(x: U32): seq<Byte> {
    [x / 0x100_0000, x / 0x1_0000 % 0x100, x / 0x100 % 0x100, x % 0x100]
  }

  /** ntohs of the two bytes at `off`. */
  function At16(b: seq<Byte>, off: nat): U16
    requires off + 2 <= |b|
  {
    var hi: int, lo: int := b[off], b[off + 1];
    hi * 0x100 + lo
  }

  /** ntohl of the four bytes at `off`. */
  function At32(b: seq<Byte>, off: nat): U32
    requires off + 4 <= |b|
  {
    var b3: int, b2: int, b1: int, b0: int := b[off], b[off + 1], b[off + 2], b[off + 3];
    b3 * 0x100_0000 + b2 * 0x1_0000 + b1 * 0x100 + b0
  }

  function LeAt16(b: seq<Byte>, off: nat): U16
    requires off + 2 <= |b|
  {
    var lo: int, hi: int := b[off], b[off + 1];
    lo + hi * 0x100
  }

  /** The 32-bit two's-complement pattern of a small signed number, as `htonl(-ECONNRESET)` stores it. */
  function Unsigned32(x: int): U32
    requires -0x8000_0000 <= x < 0x8000_0000
  {
    if x < 0 then x + 0x1_0000_0000 else x
  }

  function Signed32(x: U32): int {
    if x >= 0x8000_0000 then x - 0x1_0000_0000 else x
  }

  function Zeros(n: nat): (z: seq<Byte>)
    ensures |z| == n
  {
    seq(n, _ => 0)
  }

  /** Consecutive big-endian words. */
  function Words(ws: seq<U32>): (b: seq<Byte>)
    ensures |b| == 4 * |ws|
  {
    if ws == [] then [] else Be32(ws[0]) + Words(ws[1..])
  }

  lemma Be32At32(x: U32)
    ensures At32(Be32(x), 0) == x
  {
    Digits(x);
  }

  /** A number is the sum of its bytes. */
  lemma Digits(x: nat)
    ensures x / 0x100_0000 * 0x100_0000 + x / 0x1_0000 % 0x100 * 0x1_0000 + x / 0x100 % 0x100 * 0x100 + x % 0x100 == x
  {
    var a := x / 0x100;
    var b := a / 0x100;
    assert x == a * 0x100 + x % 0x100;
    assert a == b * 0x100 + a % 0x100;
    assert b == b / 0x100 * 0x100 + b % 0x100;
    assert b == x / 0x1_0000 && b / 0x100 == x / 0x100_0000;
  }

  /** Word `i` of a word list is found at byte `4*i`, whatever follows. */
  lemma {:induction false} WordsAt(ws: seq<U32>, rest: seq<Byte>, i: nat)
    requires i < |ws|
    ensures At32(Words(ws) + rest, 4 * i) == ws[i]
  {
    var tail := Words(ws[1..]);
    if i == 0 {
      Be32At32(ws[0]);
    } else {
      WordsAt(ws[1..], rest, i - 1);
      var b := Words(ws) + rest;
      assert b == Be32(ws[0]) + (tail + rest);
      assert forall k | 4 <= k < |b| :: b[k] == (tail + rest)[k - 4];
    }
  }
}
