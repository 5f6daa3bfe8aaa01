/** HID short items: HID 1.11, section 6.2.2.2. */
module HidItems {
  import opened Bytes

  datatype List<T> = Nil | Cons(head: T, tail: List<T>)

  function Append<T>(a: List<T>, b: List<T>): List<T> {
    match a
    case Nil => b
    case Cons(x, rest) => Cons(x, Append(rest, b))
  }

  /** A short item: its tag, its kind (main 0, global 1, local 2), and a number in `size` bytes. */
  datatype Item = Item(tag: nat, kind: nat, size: nat, data: nat)

  /** The prefix byte of a long item, which report descriptors do not use. */
  const LONG_ITEM := 0xFE

  predicate Short(i: Item) {
    && i.tag < 16 && i.kind < 4
    && (i.size <= 2 || i.size == 4)
    && i.data < Range(i.size)
    && Prefix(i) != LONG_ITEM
  }

  /** Numbers that fit in `size` bytes. */
  function Range(size: nat): nat {
    if size == 0 then 1 else if size == 1 then 0x100 else if size == 2 then 0x1_0000 else 0x1_0000_0000
  }

  function Prefix(i: Item): int {
    16 * i.tag + 4 * i.kind + if i.size == 4 then 3 else i.size
  }

  /** An item's bytes: its prefix and its data, little endian. */
  function ItemBytes(i: Item): (b: seq<Byte>)
    requires Short(i)
    ensures |b| == 1 + i.size && b[0] == Prefix(i)
  {
    if i.size == 0 then [Prefix(i)]
    else if i.size == 1 then [Prefix(i), i.data]
    else if i.size == 2 then [Prefix(i), i.data % 0x100, i.data / 0x100]
    else [Prefix(i), i.data % 0x100, i.data / 0x100 % 0x100, i.data / 0x1_0000 % 0x100, i.data / 0x100_0000]
  }

  function DataOf(b: seq<Byte>): nat
    requires |b| <= 2 || |b| == 4
  {
    if |b| == 0 then 0 else if |b| == 1 then b[0] else if |b| == 2 then LeAt16(b, 0)
    else
      var b0: int, b1: int, b2: int, b3: int := b[0], b[1], b[2], b[3];
      b0 + 0x100 * b1 + 0x1_0000 * b2 + 0x100_0000 * b3
  }

  lemma DataInverse(i: Item)
    requires Short(i)
    ensures DataOf(ItemBytes(i)[1..]) == i.data
  {
    var d := ItemBytes(i)[1..];
    if i.size == 4 {
      assert d == [i.data % 0x100, i.data / 0x100 % 0x100, i.data / 0x1_0000 % 0x100, i.data / 0x100_0000];
      SplitFour(i.data);
    } else if i.size == 2 {
      assert d == [i.data % 0x100, i.data / 0x100];
    }
  }

  lemma SplitFour(x: int)
    ensures x == x % 0x100 + 0x100 * (x / 0x100 % 0x100) +
      0x1_0000 * (x / 0x1_0000 % 0x100) + 0x100_0000 * (x / 0x100_0000)
  {
  }

  lemma FourBytes(b0: Byte, b1: Byte, b2: Byte, b3: Byte)
    ensures var x := b0 as int + 0x100 * b1 as int + 0x1_0000 * b2 as int + 0x100_0000 * b3 as int;
      && 0 <= x < 0x1_0000_0000 && x % 0x100 == b0
      && x / 0x100 % 0x100 == b1 && x / 0x1_0000 % 0x100 == b2 && x / 0x100_0000 == b3
  {
    var x := b0 as int + 0x100 * b1 as int + 0x1_0000 * b2 as int + 0x100_0000 * b3 as int;
    var z := b2 as int + 0x100 * b3 as int;
    var y := b1 as int + 0x100 * z;
    assert x == b0 + 0x100 * y && x / 0x100 == y;
    assert x / 0x1_0000 == z;
    assert x / 0x100_0000 == b3;
  }

  lemma BytesInverse(i: Item, b: seq<Byte>)
    requires |b| == 1 + i.size && b[0] == Prefix(i) && i.tag < 16 && i.kind < 4
    requires (i.size <= 2 || i.size == 4) && i.data == DataOf(b[1..]) && b[0] != LONG_ITEM
    ensures Short(i) && ItemBytes(i) == b
  {
    if i.size == 4 {
      FourBytes(b[1], b[2], b[3], b[4]);
    }
  }

  predicate AllShort(items: List<Item>) {
    match items
    case Nil => true
    case Cons(i, rest) => Short(i) && AllShort(rest)
  }

  function Print(items: List<Item>): seq<Byte>
    requires AllShort(items)
  {
    match items
    case Nil => []
    case Cons(i, rest) => ItemBytes(i) + Print(rest)
  }

  /** The items' bytes stand in `b` from `off` to its end. */
  predicate PrintedAt(items: List<Item>, b: seq<Byte>, off: nat)
    decreases items
  {
    match items
    case Nil => off == |b|
    case Cons(i, rest) =>
      var end := off + 1 + i.size;
      && Short(i) && end <= |b| && b[off] == Prefix(i)
      && (i.size >= 1 ==> b[off + 1] == i.data % 0x100)
      && (i.size >= 2 ==> b[off + 2] == i.data / 0x100 % 0x100)
      && (i.size >= 3 ==> b[off + 3] == i.data / 0x1_0000 % 0x100 && b[off + 4] == i.data / 0x100_0000)
      && PrintedAt(rest, b, end)
  }

  lemma {:induction false} PrintedAtPrints(items: List<Item>, b: seq<Byte>, off: nat)
    requires PrintedAt(items, b, off)
    ensures off <= |b| && AllShort(items) && Print(items) == b[off..]
  {
    match items
    case Nil =>
    case Cons(i, rest) =>
      var end := off + 1 + i.size;
      var head, tail := b[off..end], b[end..];
      assert head == ItemBytes(i);
      assert b[off..] == head + tail;
      PrintedAtPrints(rest, b, end);
  }

  /** Data bytes announced by a prefix. */
  function DataSize(prefix: Byte): nat {
    if prefix % 4 == 3 then 4 else prefix % 4
  }

  function Parse(b: seq<Byte>): Option<List<Item>> {
    if b == [] then Some(Nil)
    else
      var end := 1 + DataSize(b[0]);
      if b[0] == LONG_ITEM || |b| < end then None else
      match Parse(b[end..])
      case None => None
      case Some(rest) => Some(Cons(Item(b[0] / 16, b[0] / 4 % 4, end - 1, DataOf(b[1..end])), rest))
  }

  /** A prefix says exactly which item follows. */
  lemma PrefixDecodes(i: Item)
    requires Short(i)
    ensures var p: Byte := Prefix(i); p / 16 == i.tag && p / 4 % 4 == i.kind && DataSize(p) == i.size
  {
  }

  lemma {:induction false} ParsePrint(items: List<Item>)
    requires AllShort(items)
    ensures Parse(Print(items)) == Some(items)
  {
    match items
    case Nil =>
    case Cons(i, rest) =>
      ParsePrint(rest);
      PrefixDecodes(i);
      DataInverse(i);
      var b, end := Print(items), 1 + i.size;
      assert b[0] == Prefix(i) && b[1..end] == ItemBytes(i)[1..] && b[end..] == Print(rest);
  }

  lemma SplitPrefix(p: Byte)
    ensures p == 16 * (p / 16) + 4 * (p / 4 % 4) + p % 4
  {
  }

  lemma {:induction false} PrintParse(b: seq<Byte>)
    requires Parse(b).Some?
    ensures AllShort(Parse(b).value) && Print(Parse(b).value) == b
  {
    if b == [] {
    } else {
      var end := 1 + DataSize(b[0]);
      ParsedHead(b, end);
      PrintParse(b[end..]);
      PrintCons(Parse(b).value, b[..end], b[end..]);
      CutAndJoin(b, end);
    }
  }

  lemma CutAndJoin(b: seq<Byte>, end: nat)
    requires end <= |b|
    ensures b[..end] + b[end..] == b
  {
  }

  lemma PrintCons(items: List<Item>, head: seq<Byte>, tail: seq<Byte>)
    requires items.Cons? && Short(items.head) && ItemBytes(items.head) == head
    requires AllShort(items.tail) && Print(items.tail) == tail
    ensures AllShort(items) && Print(items) == head + tail
  {
  }

  /** The first item of a list that parsed stands at the front of the bytes. */
  lemma ParsedHead(b: seq<Byte>, end: nat)
    requires b != [] && Parse(b).Some? && end == 1 + DataSize(b[0])
    ensures end <= |b| && Parse(b[end..]).Some? && Parse(b).value.Cons? && Parse(b).value.tail == Parse(b[end..]).value
    ensures var i := Parse(b).value.head; Short(i) && ItemBytes(i) == b[..end]
  {
    var i := Parse(b).value.head;
    assert Prefix(i) == b[0] by { SplitPrefix(b[0]); }
    assert b[..end][1..] == b[1..end];
    BytesInverse(i, b[..end]);
  }

  lemma {:induction false} PrintAppend(a: List<Item>, b: List<Item>)
    requires AllShort(a) && AllShort(b)
    ensures AllShort(Append(a, b)) && Print(Append(a, b)) == Print(a) + Print(b)
  {
    match a
    case Nil =>
    case Cons(i, rest) => PrintAppend(rest, b);
  }

  /** Short items and their bytes are in one-to-one correspondence. */
  lemma ItemsBijective(items: List<Item>, b: seq<Byte>)
    ensures AllShort(items) && Print(items) == b <==> Parse(b) == Some(items)
  {
    if AllShort(items) {
      ParsePrint(items);
    }
    if Parse(b).Some? {
      PrintParse(b);
    }
  }

  /** Logical limits are two's complement in the size of their own data. */
  function Signed(i: Item): int {
    if 2 * i.data >= Range(i.size) && i.size > 0 then i.data - Range(i.size) else i.data
  }
}
