/** The feature-report layout a list of HID items declares: HID 1.11, sections 6.2.2.4 to 6.2.2.8.
    Push and Pop are not supported. */
module HidLayout {
  import opened Bytes
  import opened HidItems

  datatype Usage = Usage(page: nat, id: nat)

  /** The fields one Feature item declares: `count` fields of `size` bits each from bit `offset` of the
      report, inside the collections of `path`. */
  datatype Decl = Decl(
    report: nat, path: seq<Usage>, usages: seq<Usage>, stringIndex: nat,
    offset: nat, size: nat, count: nat, min: int, max: int, unit: nat, exponent: int)

  /** Item state: the global items, the local items, the open collections and the bits taken so far in
      each report. The first byte of a report is its ID. */
  datatype Scan = Scan(
    page: nat, min: int, max: int, size: nat, count: nat, report: nat,
    usages: seq<Usage>, stringIndex: nat, path: seq<Usage>, taken: map<nat, nat>, unit: nat, exponent: int)

  const Begin := Scan(0, 0, 0, 0, 0, 0, [], 0, [], map[], 0, 0)

  function Taken(s: Scan): nat {
    if s.report in s.taken then s.taken[s.report] else 8
  }

  function Declare(s: Scan): Decl {
    Decl(s.report, s.path, s.usages, s.stringIndex, Taken(s), s.size, s.count, s.min, s.max, s.unit, s.exponent)
  }

  /** A unit exponent is four bits with a sign. */
  function Nibble(x: nat): int {
    var low := x % 16;
    if low >= 8 then low - 16 else low
  }

  predicate IsFeature(i: Item) {
    i.kind == 0 && i.tag == 11
  }

  function Advance(s: Scan, i: Item): Scan {
    if i.kind == 1 then
      match i.tag
      case 0 => s.(page := i.data)
      case 1 => s.(min := Signed(i))
      case 2 => s.(max := Signed(i))
      case 5 => s.(exponent := Nibble(i.data))
      case 6 => s.(unit := i.data)
      case 7 => s.(size := i.data)
      case 8 => s.(report := i.data)
      case 9 => s.(count := i.data)
      case _ => s
    else if i.kind == 2 then
      match i.tag
      case 0 => s.(usages := s.usages + [Usage(s.page, i.data)])
      case 7 => s.(stringIndex := i.data)
      case _ => s
    else
      var t := s.(usages := [], stringIndex := 0);
      match i.tag
      case 10 => t.(path := if s.usages == [] then s.path else s.path + [s.usages[0]])
      case 11 => t.(taken := s.taken[s.report := Taken(s) + s.size * s.count])
      case 12 => t.(path := if s.path == [] then [] else s.path[..|s.path| - 1])
      case _ => t
  }

  function ScanAll(items: List<Item>, s: Scan): Scan
    decreases items
  {
    match items
    case Nil => s
    case Cons(i, rest) => ScanAll(rest, Advance(s, i))
  }

  /** Every field declaration, in order. */
  function Decls(items: List<Item>, s: Scan): List<Decl>
    decreases items
  {
    match items
    case Nil => Nil
    case Cons(i, rest) =>
      var more := Decls(rest, Advance(s, i));
      if IsFeature(i) then Cons(Declare(s), more) else more
  }

  lemma {:induction false} ScanAppend(a: List<Item>, b: List<Item>, s: Scan)
    ensures ScanAll(Append(a, b), s) == ScanAll(b, ScanAll(a, s))
    ensures Decls(Append(a, b), s) == Append(Decls(a, s), Decls(b, ScanAll(a, s)))
  {
    match a
    case Nil =>
    case Cons(i, rest) => ScanAppend(rest, b, Advance(s, i));
  }

  /** The usage of field `k` of a declaration: the last one repeats; padding has none. */
  function UsageOf(d: Decl, k: nat): Option<Usage> {
    if d.usages == [] then None
    else Some(d.usages[if k < |d.usages| then k else |d.usages| - 1])
  }
}
